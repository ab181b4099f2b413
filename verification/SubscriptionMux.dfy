/**
 * Subscriptions shared by their start payload, with latched interrupts
 * (packages/host-api/src/transport.ts, `openSubscription`, `subscribe` and `handleSubscription`).
 */
module SubscriptionMux {
  import opened Common

  /** The address of a method together with the encoded start payload. */
  type Key = Bytes
  type Callback = nat
  /** One attachment of an `onInterrupt` listener. */
  type Hook = nat

  datatype Reason = Given(value: Bytes) | Unsupported | MalformedFrame | HostFailure

  datatype StreamFrame = Start(id: RequestId, key: Key) | Stop(id: RequestId)

  datatype StreamEvent = Item(id: RequestId, value: Bytes) | Interrupt(id: RequestId, reason: Reason)

  datatype Sub = Sub(key: Key, listeners: seq<Callback>, hooks: seq<Hook>, latched: Option<Reason>)

  /**
   * `active` is the multiplexing table, `listening` the subscriptions with a frame listener on the transport.
   * `delivered` logs the calls of the callbacks, `calls` those of each interrupt listener; `hookOf` and `detached`
   * record the attachments, the latter those withdrawn before any interrupt.
   */
  datatype Client = Client(
    nextId: RequestId,
    active: map<Key, RequestId>,
    subs: map<RequestId, Sub>,
    listening: set<RequestId>,
    delivered: seq<(Callback, Bytes)>,
    hookOf: map<Hook, RequestId>,
    calls: map<Hook, seq<Reason>>,
    detached: set<Hook>)

  const NewClient := Client(0, map[], map[], {}, [], map[], map[], {})

  function Without(s: seq<nat>, x: nat): (r: seq<nat>)
    ensures forall y: nat :: y in r <==> y in s && y != x
    ensures x !in s ==> r == s
  {
    if s == [] then []
    else if s[0] == x then Without(s[1..], x)
    else [s[0]] + Without(s[1..], x)
  }

  function Each<V>(targets: seq<nat>, value: V): (r: seq<(nat, V)>)
    ensures |r| == |targets|
    ensures forall i :: 0 <= i < |r| ==> r[i] == (targets[i], value)
  {
    seq(|targets|, i requires 0 <= i < |targets| => (targets[i], value))
  }

  /** Emitting to the registered listeners, each attached once. */
  function CallAll(calls: map<Hook, seq<Reason>>, hooks: seq<Hook>, reason: Reason): map<Hook, seq<Reason>> {
    map h: Hook | h in calls :: if h in hooks then calls[h] + [reason] else calls[h]
  }

  function Subscribe(c: Client, key: Key, callback: Callback): (Client, seq<StreamFrame>)
    requires Coherent(c)
  {
    if key in c.active then
      var id := c.active[key];
      (c.(subs := c.subs[id := c.subs[id].(listeners := c.subs[id].listeners + [callback])]), [])
    else
      (c.(nextId := c.nextId + 1, active := c.active[key := c.nextId],
          subs := c.subs[c.nextId := Sub(key, [callback], [], None)], listening := c.listening + {c.nextId}),
       [Start(c.nextId, key)])
  }

  function Unsubscribe(c: Client, key: Key, callback: Callback): (Client, seq<StreamFrame>)
    requires Coherent(c)
  {
    if key !in c.active then (c, [])
    else
      var id := c.active[key];
      var left := Without(c.subs[id].listeners, callback);
      if left == [] then (c.(active := c.active - {key}, listening := c.listening - {id}), [Stop(id)])
      else (c.(subs := c.subs[id := c.subs[id].(listeners := left)]), [])
  }

  function Attach(c: Client, id: RequestId, hook: Hook): Client
    requires id in c.subs
  {
    var sub := c.subs[id];
    var c' := c.(hookOf := c.hookOf[hook := id]);
    if sub.latched.Some? then c'.(calls := c.calls[hook := [sub.latched.value]])
    else c'.(calls := c.calls[hook := []], subs := c.subs[id := sub.(hooks := sub.hooks + [hook])])
  }

  function Detach(c: Client, id: RequestId, hook: Hook): Client
    requires id in c.subs
  {
    var sub := c.subs[id];
    if sub.latched.Some? then c
    else c.(subs := c.subs[id := sub.(hooks := Without(sub.hooks, hook))], detached := c.detached + {hook})
  }

  function OnEvent(c: Client, e: StreamEvent): Client {
    if e.id !in c.listening || e.id !in c.subs then c
    else
      var sub := c.subs[e.id];
      match e
      case Item(_, value) => c.(delivered := c.delivered + Each(sub.listeners, value))
      case Interrupt(id, reason) =>
        c.(active := c.active - {sub.key}, listening := c.listening - {id},
           subs := c.subs[id := sub.(latched := Some(reason))], calls := CallAll(c.calls, sub.hooks, reason))
  }

  // ---- the client's own invariant --------------------------------------------------------------

  /** The multiplexing table: one entry per key, for a live subscription that somebody listens to. */
  ghost predicate Coherent(c: Client) {
    && (forall id: RequestId :: id in c.subs <==> id < c.nextId)
    && (forall key :: key in c.active ==>
          && c.active[key] in c.subs
          && c.subs[c.active[key]].key == key
          && c.subs[c.active[key]].listeners != []
          && c.subs[c.active[key]].latched.None?)
    && (forall id: RequestId ::
          id in c.listening <==> id in c.subs && c.subs[id].key in c.active && c.active[c.subs[id].key] == id)
  }

  /** An interrupt listener not withdrawn before has been called once, with the interrupt, or never without one. */
  ghost predicate Served(sub: Sub, calls: seq<Reason>, withdrawn: bool) {
    calls == if sub.latched.Some? && !withdrawn then [sub.latched.value] else []
  }

  ghost predicate HooksServed(subs: map<RequestId, Sub>, hookOf: map<Hook, RequestId>, calls: map<Hook, seq<Reason>>,
                              detached: set<Hook>) {
    && calls.Keys == hookOf.Keys
    && detached <= hookOf.Keys
    && (forall hook: Hook :: hook in hookOf ==>
          hookOf[hook] in subs && Served(subs[hookOf[hook]], calls[hook], hook in detached))
  }

  ghost predicate Registered(id: RequestId, sub: Sub, hookOf: map<Hook, RequestId>, detached: set<Hook>) {
    sub.latched.None? ==>
      forall hook: Hook :: hook in sub.hooks <==> hook in hookOf && hookOf[hook] == id && hook !in detached
  }

  /** The emitter of a subscription that has not been interrupted holds its listeners, each once. */
  ghost predicate HooksRegistered(subs: map<RequestId, Sub>, hookOf: map<Hook, RequestId>, detached: set<Hook>) {
    forall id: RequestId :: id in subs ==> Registered(id, subs[id], hookOf, detached) && Distinct(subs[id].hooks)
  }

  ghost predicate Distinct(s: seq<nat>) {
    forall i, j :: 0 <= i < j < |s| ==> s[i] != s[j]
  }

  ghost predicate HooksOk(c: Client) {
    HooksServed(c.subs, c.hookOf, c.calls, c.detached) && HooksRegistered(c.subs, c.hookOf, c.detached)
  }

  ghost predicate ClientInv(c: Client) {
    Coherent(c) && HooksOk(c)
  }

  lemma SubscribeKeepsHooks(c: Client, key: Key, callback: Callback)
    requires ClientInv(c)
    ensures HooksOk(Subscribe(c, key, callback).0)
  {
  }

  lemma SubscribeKeepsTable(c: Client, key: Key, callback: Callback)
    requires Coherent(c)
    ensures Coherent(Subscribe(c, key, callback).0)
  {
  }

  lemma SubscribeKeeps(c: Client, key: Key, callback: Callback)
    requires ClientInv(c)
    ensures ClientInv(Subscribe(c, key, callback).0)
  {
    hide HooksOk, Coherent;
    SubscribeKeepsTable(c, key, callback);
    SubscribeKeepsHooks(c, key, callback);
  }

  lemma UnsubscribeKeepsTable(c: Client, key: Key, callback: Callback)
    requires Coherent(c)
    ensures Coherent(Unsubscribe(c, key, callback).0)
  {
  }

  lemma UnsubscribeKeepsHooks(c: Client, key: Key, callback: Callback)
    requires ClientInv(c)
    ensures HooksOk(Unsubscribe(c, key, callback).0)
  {
  }

  lemma UnsubscribeKeeps(c: Client, key: Key, callback: Callback)
    requires ClientInv(c)
    ensures ClientInv(Unsubscribe(c, key, callback).0)
  {
    hide HooksOk, Coherent;
    UnsubscribeKeepsTable(c, key, callback);
    UnsubscribeKeepsHooks(c, key, callback);
  }

  lemma AttachServed(c: Client, id: RequestId, hook: Hook)
    requires ClientInv(c) && id in c.subs && hook !in c.hookOf
    ensures var c' := Attach(c, id, hook); HooksServed(c'.subs, c'.hookOf, c'.calls, c'.detached)
  {
  }

  lemma AttachRegistered(c: Client, id: RequestId, hook: Hook)
    requires HooksRegistered(c.subs, c.hookOf, c.detached) && id in c.subs && hook !in c.hookOf && hook !in c.detached
    ensures var c' := Attach(c, id, hook); HooksRegistered(c'.subs, c'.hookOf, c'.detached)
  {
  }

  lemma AttachKeeps(c: Client, id: RequestId, hook: Hook)
    requires ClientInv(c) && id in c.subs && hook !in c.hookOf
    ensures ClientInv(Attach(c, id, hook))
  {
    hide HooksServed, HooksRegistered;
    AttachServed(c, id, hook);
    assert hook !in c.detached by { DetachedKnown(c, hook); }
    AttachRegistered(c, id, hook);
  }

  lemma DetachedKnown(c: Client, hook: Hook)
    requires HooksServed(c.subs, c.hookOf, c.calls, c.detached) && hook !in c.hookOf
    ensures hook !in c.detached
  {
  }

  lemma {:induction false} WithoutDistinct(s: seq<nat>, x: nat)
    requires Distinct(s)
    ensures Distinct(Without(s, x))
  {
    if s != [] {
      assert forall i :: 0 <= i < |s[1..]| ==> s[1..][i] == s[i + 1];
      WithoutDistinct(s[1..], x);
      var rest := Without(s[1..], x);
      assert forall i :: 0 <= i < |rest| ==> rest[i] in rest && rest[i] in s[1..];
    }
  }

  lemma DetachKeeps(c: Client, id: RequestId, hook: Hook)
    requires ClientInv(c) && id in c.subs && hook in c.hookOf && c.hookOf[hook] == id
    ensures ClientInv(Detach(c, id, hook))
  {
    WithoutDistinct(c.subs[id].hooks, hook);
    hide Distinct, Without;
  }

  lemma OnEventKeeps(c: Client, e: StreamEvent)
    requires ClientInv(c)
    ensures ClientInv(OnEvent(c, e))
  {
  }

  /** The table, with its live subscriptions. */
  function LiveIds(c: Client): set<RequestId> {
    set key | key in c.active :: c.active[key]
  }

  lemma LiveIsListening(c: Client)
    requires Coherent(c)
    ensures LiveIds(c) == c.listening
  {
  }

  // ---- the client as the transport runs it -----------------------------------------------------

  class SubscriptionTable {
    var nextId: RequestId
    var active: map<Key, RequestId>
    var subs: map<RequestId, Sub>
    var listening: set<RequestId>
    var delivered: seq<(Callback, Bytes)>
    var hookOf: map<Hook, RequestId>
    var calls: map<Hook, seq<Reason>>
    var detached: set<Hook>
    var posted: seq<StreamFrame>

    function AsClient(): Client
      reads this
    {
      Client(nextId, active, subs, listening, delivered, hookOf, calls, detached)
    }

    constructor ()
      ensures AsClient() == NewClient && posted == []
    {
      nextId, active, subs, listening, delivered := 0, map[], map[], {}, [];
      hookOf, calls, detached, posted := map[], map[], {}, [];
    }

    method Join(key: Key, callback: Callback) returns (id: RequestId)
      requires ClientInv(AsClient())
      modifies this
      ensures ClientInv(AsClient())
      ensures AsClient() == Subscribe(old(AsClient()), key, callback).0
      ensures posted == old(posted) + Subscribe(old(AsClient()), key, callback).1
      ensures id in listening && id in subs && subs[id].key == key && callback in subs[id].listeners
    {
      SubscribeKeeps(AsClient(), key, callback);
      assert posted + [] == posted;
      if key in active {
        id := active[key];
        subs := subs[id := subs[id].(listeners := subs[id].listeners + [callback])];
      } else {
        id := Open(key, callback);
      }
    }

    /** Registers the first listener before the start is posted. */
    method Open(key: Key, callback: Callback) returns (id: RequestId)
      modifies this
      ensures id == old(nextId)
      ensures AsClient() == old(AsClient()).(nextId := old(nextId) + 1, active := old(active)[key := id],
                                             subs := old(subs)[id := Sub(key, [callback], [], None)],
                                             listening := old(listening) + {id})
      ensures posted == old(posted) + [Start(id, key)]
    {
      id := nextId;
      nextId := nextId + 1;
      listening := listening + {id};
      subs := subs[id := Sub(key, [callback], [], None)];
      active := active[key := id];
      posted := posted + [Start(id, key)];
    }

    method Leave(key: Key, callback: Callback)
      requires ClientInv(AsClient())
      modifies this
      ensures ClientInv(AsClient())
      ensures AsClient() == Unsubscribe(old(AsClient()), key, callback).0
      ensures posted == old(posted) + Unsubscribe(old(AsClient()), key, callback).1
    {
      UnsubscribeKeeps(AsClient(), key, callback);
      assert posted + [] == posted;
      if key in active {
        var id := active[key];
        var left := Without(subs[id].listeners, callback);
        if |left| == 0 {
          StopSubscription(key, id);
          posted := posted + [Stop(id)];
        } else {
          subs := subs[id := subs[id].(listeners := left)];
        }
      }
    }

    method StopSubscription(key: Key, id: RequestId)
      modifies this`active, this`listening
      ensures active == old(active) - {key} && listening == old(listening) - {id}
    {
      active := active - {key};
      listening := listening - {id};
    }

    method Receive(e: StreamEvent)
      requires ClientInv(AsClient())
      modifies this
      ensures ClientInv(AsClient())
      ensures AsClient() == OnEvent(old(AsClient()), e) && posted == old(posted)
    {
      OnEventKeeps(AsClient(), e);
      if e.id in listening {
        var sub := subs[e.id];
        match e
        case Item(_, value) => CallListeners(sub.listeners, value);
        case Interrupt(id, reason) =>
          StopSubscription(sub.key, id);
          subs := subs[id := sub.(latched := Some(reason))];
          Emit(id, sub.hooks, reason);
      }
    }

    method CallListeners(listeners: seq<Callback>, value: Bytes)
      modifies this`delivered
      ensures delivered == old(delivered) + Each(listeners, value)
    {
      for i := 0 to |listeners|
        invariant delivered == old(delivered) + Each(listeners[..i], value)
      {
        delivered := delivered + [(listeners[i], value)];
        assert Each(listeners[..i + 1], value) == Each(listeners[..i], value) + [(listeners[i], value)];
      }
      assert listeners[..|listeners|] == listeners;
    }

    method Emit(id: RequestId, hooks: seq<Hook>, reason: Reason)
      requires Distinct(hooks) && forall hook: Hook :: hook in hooks ==> hook in calls
      modifies this`calls
      ensures calls == CallAll(old(calls), hooks, reason)
    {
      assert CallAll(calls, [], reason) == calls;
      for i := 0 to |hooks|
        invariant calls == CallAll(old(calls), hooks[..i], reason)
      {
        assert hooks[i] in hooks && hooks[i] !in hooks[..i];
        calls := calls[hooks[i] := calls[hooks[i]] + [reason]];
        assert hooks[..i + 1] == hooks[..i] + [hooks[i]];
      }
      assert hooks[..|hooks|] == hooks;
    }
  }

  // ---- the host side ---------------------------------------------------------------------------

  type Method = nat

  /**
   * `handling` are the methods that have a handler. `live` is the handlers' cleanup maps, `handled` every start a
   * handler was called for, `cleanups` how often each was cleaned up. `orphaned` records the starts that nothing here
   * serves and no frame has ended: nobody handled their method when they came, or its handler was removed since.
   */
  datatype Host = Host(handling: set<Method>, live: map<RequestId, Method>, orphaned: set<RequestId>,
                       handled: set<RequestId>, cleanups: multiset<RequestId>)

  const IdleHost := Host({}, map[], {}, {}, multiset{})

  /**
   * `known` are the methods of this build; `listens` says that something besides subscription handlers listens to
   * frames, without which a host that handles nothing sees none.
   */
  datatype Peer = Peer(methodOf: Key -> Method, known: Method -> bool, listens: bool, decodes: Key -> bool)

  /** What the handler did before it returned: the items it sent, and possibly its interrupt. */
  datatype Reply = Reply(items: seq<Bytes>, interrupt: Option<Reason>)

  function Items(id: RequestId, values: seq<Bytes>): (r: seq<StreamEvent>)
    ensures forall e :: e in r ==> e.Item? && e.id == id
  {
    seq(|values|, i requires 0 <= i < |values| => Item(id, values[i]))
  }

  /** Ending a subscription runs its cleanup if it has not run. */
  function End(h: Host, id: RequestId): Host {
    var h' := h.(orphaned := h.orphaned - {id});
    if id in h.live then h'.(live := h.live - {id}, cleanups := h.cleanups + multiset{id}) else h'
  }

  /** Whether a start of the method is answered by nobody, not even with a protocol error. */
  predicate Unheard(p: Peer, h: Host, m: Method) {
    m !in h.handling && (p.known(m) || (!p.listens && h.handling == {}))
  }

  function OnStreamFrame(p: Peer, h: Host, f: StreamFrame, reply: Reply): (Host, seq<StreamEvent>) {
    match f
    case Stop(id) => (End(h, id), [])
    case Start(id, key) =>
      var m := p.methodOf(key);
      if Unheard(p, h, m) then (h.(orphaned := h.orphaned + {id}), [])
      else if m !in h.handling then (h, [Interrupt(id, Unsupported)])
      else if id in h.live then (h, [])
      else if !p.decodes(key) then (h, [Interrupt(id, MalformedFrame)])
      else
        var h' := h.(handled := h.handled + {id});
        match reply.interrupt
        case None => (h'.(live := h.live[id := m]), Items(id, reply.items))
        case Some(reason) =>
          (h'.(cleanups := h.cleanups + multiset{id}), Items(id, reply.items) + [Interrupt(id, reason)])
  }

  /** The handler sends an item; one that does not encode ends the stream. */
  function Send(h: Host, id: RequestId, value: Bytes, encodes: bool): (Host, seq<StreamEvent>) {
    if encodes then (h, [Item(id, value)]) else (End(h, id), [Interrupt(id, HostFailure)])
  }

  function HostInterrupt(h: Host, id: RequestId, reason: Reason): (Host, seq<StreamEvent>) {
    (End(h, id), [Interrupt(id, reason)])
  }

  function ServedBy(h: Host, m: Method): set<RequestId> {
    set id | id in h.live && h.live[id] == m
  }

  /** Removing a handler cleans up what it serves and tells no client. */
  function RemoveHandler(h: Host, m: Method): Host {
    h.(handling := h.handling - {m}, live := h.live - ServedBy(h, m), orphaned := h.orphaned + ServedBy(h, m),
       cleanups := h.cleanups + multiset(ServedBy(h, m)))
  }

  /** What the client may take for live: what a handler serves and what nobody does. */
  function Held(h: Host): set<RequestId> {
    h.live.Keys + h.orphaned
  }

  /** A start that reached its handler is live or has been cleaned up, once. */
  ghost predicate CleanedOnce(h: Host) {
    forall id: RequestId :: h.cleanups[id] == if id in h.handled && id !in h.live then 1 else 0
  }

  lemma EndKeepsCleaned(h: Host, id: RequestId)
    requires CleanedOnce(h) && h.live.Keys <= h.handled
    ensures CleanedOnce(End(h, id)) && Held(End(h, id)) == Held(h) - {id}
  {
  }

  lemma FrameKeepsCleaned(p: Peer, h: Host, f: StreamFrame, reply: Reply)
    requires CleanedOnce(h) && h.live.Keys <= h.handled && (f.Start? ==> f.id !in h.handled)
    ensures CleanedOnce(OnStreamFrame(p, h, f, reply).0)
  {
  }

  lemma RemovalKeepsCleaned(h: Host, m: Method)
    requires CleanedOnce(h) && h.live.Keys <= h.handled
    ensures var h' := RemoveHandler(h, m);
            && CleanedOnce(h') && Held(h') == Held(h) && h'.handled == h.handled
            && h'.live.Keys <= h.live.Keys
            && (h.live.Keys !! h.orphaned ==> h'.live.Keys !! h'.orphaned)
  {
  }

  // ---- client and host over two ordered frame queues --------------------------------------------

  /** `posted` is every frame the client ever posted. */
  datatype World = World(client: Client, toHost: seq<StreamFrame>, host: Host, toClient: seq<StreamEvent>,
                         posted: seq<StreamFrame>)

  const FreshWorld := World(NewClient, [], IdleHost, [], [])

  datatype Action =
    | Subscribes(key: Key, callback: Callback)
    | Unsubscribes(key: Key, callback: Callback)
    | Attaches(id: RequestId, hook: Hook)
    | Detaches(hook: Hook)
    | HandlerAdded(m: Method)
    | HandlerRemoved(m: Method)
    | HostReceives(reply: Reply)
    | HostSends(id: RequestId, value: Bytes, encodes: bool)
    | HostInterrupts(id: RequestId, reason: Reason)
    | ClientReceives

  /** A handler is registered for a method of this build, and one at a time. */
  ghost predicate Enabled(p: Peer, w: World, act: Action) {
    match act
    case HandlerAdded(m) => p.known(m) && m !in w.host.handling
    case HandlerRemoved(m) => m in w.host.handling
    case Subscribes(_, _) => Coherent(w.client)
    case Unsubscribes(_, _) => Coherent(w.client)
    case Attaches(id, hook) => id in w.client.subs && hook !in w.client.hookOf
    case Detaches(hook) => hook in w.client.hookOf && w.client.hookOf[hook] in w.client.subs
    case HostReceives(_) => w.toHost != []
    case HostSends(id, _, _) => id in w.host.handled
    case HostInterrupts(id, _) => id in w.host.handled
    case ClientReceives => w.toClient != []
  }

  function FromClient(w: World, r: (Client, seq<StreamFrame>)): World {
    w.(client := r.0, toHost := w.toHost + r.1, posted := w.posted + r.1)
  }

  function FromHost(w: World, r: (Host, seq<StreamEvent>)): World {
    w.(host := r.0, toClient := w.toClient + r.1)
  }

  ghost function Next(p: Peer, w: World, act: Action): World
    requires Enabled(p, w, act)
  {
    match act
    case Subscribes(key, callback) => FromClient(w, Subscribe(w.client, key, callback))
    case Unsubscribes(key, callback) => FromClient(w, Unsubscribe(w.client, key, callback))
    case Attaches(id, hook) => w.(client := Attach(w.client, id, hook))
    case Detaches(hook) => w.(client := Detach(w.client, w.client.hookOf[hook], hook))
    case HandlerAdded(m) => w.(host := w.host.(handling := w.host.handling + {m}))
    case HandlerRemoved(m) => w.(host := RemoveHandler(w.host, m))
    case HostReceives(reply) => FromHost(w.(toHost := w.toHost[1..]), OnStreamFrame(p, w.host, w.toHost[0], reply))
    case HostSends(id, value, encodes) => FromHost(w, Send(w.host, id, value, encodes))
    case HostInterrupts(id, reason) => FromHost(w, HostInterrupt(w.host, id, reason))
    case ClientReceives => w.(client := OnEvent(w.client, w.toClient[0]), toClient := w.toClient[1..])
  }

  function StartIds(q: seq<StreamFrame>): set<RequestId> {
    set f | f in q && f.Start? :: f.id
  }

  function StopIds(q: seq<StreamFrame>): set<RequestId> {
    set f | f in q && f.Stop? :: f.id
  }

  function InterruptIds(q: seq<StreamEvent>): set<RequestId> {
    set e | e in q && e.Interrupt? :: e.id
  }

  /**
   * The two ends agree up to the frames between them. A subscription the client holds has its start on the way, is
   * held by the host or has an interrupt on the way; one the host holds, or will, is held by the client unless a
   * stop is on the way.
   */
  ghost predicate Agree(live: set<RequestId>, starts: set<RequestId>, stops: set<RequestId>, held: set<RequestId>,
                        interrupts: set<RequestId>)
  {
    && live <= starts + held + interrupts
    && starts + held <= live + stops
    && live !! stops
    && starts !! held
    && starts + held !! interrupts
  }

  /** A start is the first frame of its subscription, and nothing follows its stop. */
  ghost predicate InOrder(q: seq<StreamFrame>) {
    forall i, j :: 0 <= i < j < |q| && q[i].id == q[j].id ==> q[i].Start? && q[j].Stop?
  }

  /** The posted frames account for every subscription: started once, stopped once unless live or interrupted. */
  ghost predicate Accounted(c: Client, posted: seq<StreamFrame>) {
    && InOrder(posted)
    && StartIds(posted) == c.subs.Keys
    && (forall id: RequestId :: id in c.subs ==>
          (id in StopIds(posted) <==> c.subs[id].latched.None? && id !in c.listening))
    && StopIds(posted) <= c.subs.Keys
  }

  ghost predicate Known(w: World) {
    && (forall f :: f in w.toHost ==> f in w.posted)
    && w.host.live.Keys <= w.host.handled
    && w.host.live.Keys !! w.host.orphaned
    && w.host.orphaned <= w.client.subs.Keys
    && w.host.handled <= w.client.subs.Keys
    && w.host.handled !! StartIds(w.toHost)
    && InterruptIds(w.toClient) <= w.client.subs.Keys
  }

  ghost predicate Inv(w: World) {
    && ClientInv(w.client)
    && Agree(w.client.listening, StartIds(w.toHost), StopIds(w.toHost), Held(w.host), InterruptIds(w.toClient))
    && InOrder(w.toHost)
    && Accounted(w.client, w.posted)
    && Known(w)
    && CleanedOnce(w.host)
  }

  lemma FreshWorldIsSafe()
    ensures Inv(FreshWorld)
  {
  }

  // ---- queues as sets --------------------------------------------------------------------------

  lemma PushFrame(q: seq<StreamFrame>, f: StreamFrame)
    requires InOrder(q) && f.id !in StopIds(q) && (f.Start? ==> f.id !in StartIds(q))
    ensures InOrder(q + [f])
    ensures StartIds(q + [f]) == if f.Start? then StartIds(q) + {f.id} else StartIds(q)
    ensures StopIds(q + [f]) == if f.Stop? then StopIds(q) + {f.id} else StopIds(q)
  {
  }

  lemma PopFrame(q: seq<StreamFrame>)
    requires q != [] && InOrder(q)
    ensures var f := q[0];
            && InOrder(q[1..])
            && StartIds(q[1..]) == StartIds(q) - {f.id}
            && (f.Start? ==> f.id in StartIds(q) && StopIds(q[1..]) == StopIds(q))
            && (f.Stop? ==> f.id !in StartIds(q) && f.id in StopIds(q) && StopIds(q[1..]) == StopIds(q) - {f.id})
  {
  }

  lemma PopEvent(q: seq<StreamEvent>)
    requires q != []
    ensures InterruptIds(q) == InterruptIds(q[1..]) + (if q[0].Interrupt? then {q[0].id} else {})
  {
  }

  // ---- how the agreement moves -----------------------------------------------------------------

  lemma Opened(live: set<RequestId>, starts: set<RequestId>, stops: set<RequestId>, held: set<RequestId>,
               interrupts: set<RequestId>, id: RequestId)
    requires Agree(live, starts, stops, held, interrupts) && id !in stops + held + interrupts
    ensures Agree(live + {id}, starts + {id}, stops, held, interrupts)
  {
  }

  lemma Closed(live: set<RequestId>, starts: set<RequestId>, stops: set<RequestId>, held: set<RequestId>,
               interrupts: set<RequestId>, id: RequestId)
    requires Agree(live, starts, stops, held, interrupts)
    ensures Agree(live - {id}, starts, stops + {id}, held, interrupts)
  {
  }

  lemma StartTaken(live: set<RequestId>, starts: set<RequestId>, stops: set<RequestId>, held: set<RequestId>,
                   interrupts: set<RequestId>, id: RequestId)
    requires Agree(live, starts, stops, held, interrupts) && id in starts
    ensures Agree(live, starts - {id}, stops, held + {id}, interrupts)
    ensures Agree(live, starts - {id}, stops, held, interrupts + {id})
  {
  }

  lemma StopTaken(live: set<RequestId>, starts: set<RequestId>, stops: set<RequestId>, held: set<RequestId>,
                  interrupts: set<RequestId>, id: RequestId)
    requires Agree(live, starts, stops, held, interrupts) && id in stops && id !in starts
    ensures Agree(live, starts, stops - {id}, held - {id}, interrupts)
  {
  }

  lemma InterruptTaken(live: set<RequestId>, starts: set<RequestId>, stops: set<RequestId>, held: set<RequestId>,
                       interrupts: set<RequestId>, rest: set<RequestId>, id: RequestId)
    requires Agree(live, starts, stops, held, interrupts) && interrupts == rest + {id}
    ensures Agree(live - {id}, starts, stops, held, rest)
  {
  }

  // ---- every step keeps the invariant ----------------------------------------------------------

  /** What the invariant says of the ids that are on their way. */
  lemma OnTheWay(w: World)
    requires Inv(w)
    ensures StartIds(w.toHost) <= StartIds(w.posted) && StopIds(w.toHost) <= StopIds(w.posted)
    ensures StartIds(w.posted) == w.client.subs.Keys && StopIds(w.posted) <= w.client.subs.Keys
    ensures Held(w.host) <= w.client.subs.Keys && InterruptIds(w.toClient) <= w.client.subs.Keys
    ensures w.client.nextId !in w.client.subs
  {
  }

  lemma ClientIsCoherent(c: Client)
    requires ClientInv(c)
    ensures Coherent(c)
  {
  }

  lemma OpenKeepsInv(w: World, key: Key, callback: Callback)
    requires Inv(w) && key !in w.client.active
    ensures Coherent(w.client) && Inv(FromClient(w, Subscribe(w.client, key, callback)))
  {
    hide ClientInv, Agree, InOrder, CleanedOnce, InterruptIds, StartIds, StopIds, Coherent;
    ClientIsCoherent(w.client);
    var f := Start(w.client.nextId, key);
    OnTheWay(w);
    SubscribeKeeps(w.client, key, callback);
    PushFrame(w.toHost, f);
    PushFrame(w.posted, f);
    Opened(w.client.listening, StartIds(w.toHost), StopIds(w.toHost), Held(w.host), InterruptIds(w.toClient), f.id);
    assert forall g :: g in w.toHost + [f] <==> g in w.toHost || g == f;
    assert forall g :: g in w.posted + [f] <==> g in w.posted || g == f;
  }

  lemma JoinKeepsInv(w: World, key: Key, callback: Callback)
    requires Inv(w) && key in w.client.active
    ensures Coherent(w.client) && Inv(FromClient(w, Subscribe(w.client, key, callback)))
  {
    hide ClientInv, Agree, InOrder, CleanedOnce, InterruptIds, StartIds, StopIds;
    ClientIsCoherent(w.client);
    SubscribeKeeps(w.client, key, callback);
    assert w.toHost + [] == w.toHost && w.posted + [] == w.posted;
  }

  lemma LeaveKeepsInv(w: World, key: Key, callback: Callback)
    requires Inv(w)
    ensures Coherent(w.client) && Inv(FromClient(w, Unsubscribe(w.client, key, callback)))
  {
    hide ClientInv, Agree, InOrder, CleanedOnce, InterruptIds, StartIds, StopIds, Without;
    ClientIsCoherent(w.client);
    OnTheWay(w);
    UnsubscribeKeeps(w.client, key, callback);
    assert w.toHost + [] == w.toHost && w.posted + [] == w.posted;
    if key in w.client.active {
      var id := w.client.active[key];
      var f := Stop(id);
      PushFrame(w.toHost, f);
      PushFrame(w.posted, f);
      Closed(w.client.listening, StartIds(w.toHost), StopIds(w.toHost), Held(w.host), InterruptIds(w.toClient), id);
      assert forall g :: g in w.toHost + [f] <==> g in w.toHost || g == f;
      assert forall g :: g in w.posted + [f] <==> g in w.posted || g == f;
    }
  }

  lemma EventIds(id: RequestId, values: seq<Bytes>, value: Bytes, reason: Reason)
    ensures InterruptIds(Items(id, values)) == {}
    ensures InterruptIds([Item(id, value)]) == {}
    ensures InterruptIds([Interrupt(id, reason)]) == {id}
    ensures InterruptIds(Items(id, values) + [Interrupt(id, reason)]) == {id}
  {
  }

  lemma NoInterrupts()
    ensures InterruptIds([]) == {}
  {
  }

  /** A step of the host that leaves the client alone. */
  lemma HostStepKeepsInv(w: World, q: seq<StreamFrame>, h: Host, es: seq<StreamEvent>)
    requires Inv(w) && InOrder(q) && CleanedOnce(h)
    requires forall f :: f in q ==> f in w.toHost
    requires Agree(w.client.listening, StartIds(q), StopIds(q), Held(h), InterruptIds(w.toClient) + InterruptIds(es))
    requires h.live.Keys <= h.handled <= w.client.subs.Keys && h.handled !! StartIds(q)
    requires h.live.Keys !! h.orphaned && h.orphaned <= w.client.subs.Keys
    requires InterruptIds(es) <= w.client.subs.Keys
    ensures Inv(FromHost(w.(toHost := q), (h, es)))
  {
  }

  lemma StopReceivedKeepsInv(p: Peer, w: World, reply: Reply)
    requires Inv(w) && w.toHost != [] && w.toHost[0].Stop?
    ensures Inv(FromHost(w.(toHost := w.toHost[1..]), OnStreamFrame(p, w.host, w.toHost[0], reply)))
  {
    hide ClientInv, Agree, InOrder, CleanedOnce, InterruptIds, StartIds, StopIds, Accounted;
    var id := w.toHost[0].id;
    OnTheWay(w);
    PopFrame(w.toHost);
    StopTaken(w.client.listening, StartIds(w.toHost), StopIds(w.toHost), Held(w.host), InterruptIds(w.toClient), id);
    EndKeepsCleaned(w.host, id);
    assert StartIds(w.toHost) - {id} == StartIds(w.toHost);
    NoInterrupts();
    assert InterruptIds(w.toClient) + {} == InterruptIds(w.toClient);
    HostStepKeepsInv(w, w.toHost[1..], End(w.host, id), []);
  }

  lemma StartReceivedKeepsInv(p: Peer, w: World, reply: Reply)
    requires Inv(w) && w.toHost != [] && w.toHost[0].Start?
    ensures Inv(FromHost(w.(toHost := w.toHost[1..]), OnStreamFrame(p, w.host, w.toHost[0], reply)))
  {
    hide ClientInv, Agree, InOrder, CleanedOnce, InterruptIds, StartIds, StopIds, Accounted, Items;
    var f := w.toHost[0];
    var id := f.id;
    var r := OnStreamFrame(p, w.host, f, reply);
    var starts, interrupts := StartIds(w.toHost), InterruptIds(w.toClient);
    OnTheWay(w);
    PopFrame(w.toHost);
    assert id !in w.host.handled && id in w.client.subs;
    StartTaken(w.client.listening, starts, StopIds(w.toHost), Held(w.host), interrupts, id);
    FrameKeepsCleaned(p, w.host, f, reply);
    EventIds(id, reply.items, [], if p.methodOf(f.key) !in w.host.handling then Unsupported
                                  else if !p.decodes(f.key) then MalformedFrame
                                  else if reply.interrupt.Some? then reply.interrupt.value else HostFailure);
    assert InterruptIds([]) == {} by { NoInterrupts(); }
    assert Held(r.0) == Held(w.host) || Held(r.0) == Held(w.host) + {id};
    assert interrupts + {} == interrupts;
    HostStepKeepsInv(w, w.toHost[1..], r.0, r.1);
  }

  lemma EndKeepsInv(w: World, id: RequestId, reason: Reason)
    requires Inv(w) && id in w.host.handled
    ensures Inv(FromHost(w, HostInterrupt(w.host, id, reason)))
  {
    hide ClientInv, InOrder, Accounted, StopIds;
  }

  lemma SendKeepsInv(w: World, id: RequestId, value: Bytes, encodes: bool)
    requires Inv(w) && id in w.host.handled
    ensures Inv(FromHost(w, Send(w.host, id, value, encodes)))
  {
  }

  lemma AddedKeepsInv(w: World, m: Method)
    requires Inv(w)
    ensures Inv(w.(host := w.host.(handling := w.host.handling + {m})))
  {
    hide ClientInv, Agree, InOrder, InterruptIds, StartIds, StopIds, Accounted;
  }

  lemma RemovedKeepsInv(w: World, m: Method)
    requires Inv(w)
    ensures Inv(w.(host := RemoveHandler(w.host, m)))
  {
    RemovalKeepsCleaned(w.host, m);
    assert RemoveHandler(w.host, m).orphaned <= w.client.subs.Keys;
    hide ClientInv, Agree, InOrder, InterruptIds, StartIds, StopIds, Accounted, CleanedOnce, Held, RemoveHandler;
  }

  lemma AttachKeepsInv(w: World, id: RequestId, hook: Hook)
    requires Inv(w) && id in w.client.subs && hook !in w.client.hookOf
    ensures Inv(w.(client := Attach(w.client, id, hook)))
  {
    hide ClientInv, Agree, InOrder, CleanedOnce, InterruptIds, StartIds, StopIds;
    AttachKeeps(w.client, id, hook);
  }

  lemma DetachKeepsInv(w: World, hook: Hook)
    requires Inv(w) && hook in w.client.hookOf && w.client.hookOf[hook] in w.client.subs
    ensures Inv(w.(client := Detach(w.client, w.client.hookOf[hook], hook)))
  {
    hide ClientInv, Agree, InOrder, CleanedOnce, InterruptIds, StartIds, StopIds, Without;
    DetachKeeps(w.client, w.client.hookOf[hook], hook);
  }

  /** An event for a subscription the client no longer listens to changes nothing. */
  lemma ReceiveKeepsInv(w: World)
    requires Inv(w) && w.toClient != []
    ensures Inv(w.(client := OnEvent(w.client, w.toClient[0]), toClient := w.toClient[1..]))
  {
    hide ClientInv, Agree, InOrder, CleanedOnce, InterruptIds, StartIds, StopIds, CallAll;
    var e := w.toClient[0];
    OnTheWay(w);
    OnEventKeeps(w.client, e);
    PopEvent(w.toClient);
    if e.Interrupt? {
      InterruptTaken(w.client.listening, StartIds(w.toHost), StopIds(w.toHost), Held(w.host), InterruptIds(w.toClient),
                     InterruptIds(w.toClient[1..]), e.id);
      assert OnEvent(w.client, e).listening == w.client.listening - {e.id} by { InterruptStopsListening(w.client, e); }
    } else {
      assert InterruptIds(w.toClient[1..]) + {} == InterruptIds(w.toClient[1..]);
    }
  }

  lemma InterruptStopsListening(c: Client, e: StreamEvent)
    requires ClientInv(c) && e.Interrupt?
    ensures OnEvent(c, e).listening == c.listening - {e.id}
  {
  }

  lemma NextKeepsInv(p: Peer, w: World, act: Action)
    requires Inv(w) && Enabled(p, w, act)
    ensures Inv(Next(p, w, act))
  {
    hide Inv, FromHost, FromClient, Coherent;
    match act
    case Subscribes(key, callback) =>
      if key in w.client.active { JoinKeepsInv(w, key, callback); } else { OpenKeepsInv(w, key, callback); }
    case Unsubscribes(key, callback) => LeaveKeepsInv(w, key, callback);
    case Attaches(id, hook) => AttachKeepsInv(w, id, hook);
    case Detaches(hook) => DetachKeepsInv(w, hook);
    case HandlerAdded(m) => AddedKeepsInv(w, m);
    case HandlerRemoved(m) => RemovedKeepsInv(w, m);
    case HostReceives(reply) =>
      if w.toHost[0].Start? { StartReceivedKeepsInv(p, w, reply); } else { StopReceivedKeepsInv(p, w, reply); }
    case HostSends(id, value, encodes) => SendKeepsInv(w, id, value, encodes);
    case HostInterrupts(id, reason) => EndKeepsInv(w, id, reason);
    case ClientReceives => ReceiveKeepsInv(w);
  }

  // ---- whole runs --------------------------------------------------------------------------------

  ghost predicate Behaviour(p: Peer, ws: seq<World>, acts: seq<Action>) {
    && |ws| == |acts| + 1
    && ws[0] == FreshWorld
    && forall k :: 0 <= k < |acts| ==> Enabled(p, ws[k], acts[k]) && ws[k + 1] == Next(p, ws[k], acts[k])
  }

  lemma {:induction false} AlwaysSafe(p: Peer, ws: seq<World>, acts: seq<Action>, i: nat)
    requires Behaviour(p, ws, acts) && i < |ws|
    ensures Inv(ws[i])
  {
    hide Inv, Next, Enabled;
    if i == 0 {
      FreshWorldIsSafe();
    } else {
      AlwaysSafe(p, ws, acts, i - 1);
      NextKeepsInv(p, ws[i - 1], acts[i - 1]);
    }
  }

  /** The live entries of the table are as many as its keys, and each is listened to by somebody. */
  lemma OneSubscriptionPerKey(p: Peer, ws: seq<World>, acts: seq<Action>, i: nat, a: RequestId, b: RequestId)
    requires Behaviour(p, ws, acts) && i < |ws|
    requires a in ws[i].client.listening && b in ws[i].client.listening
    ensures a in ws[i].client.subs && b in ws[i].client.subs
    ensures ws[i].client.subs[a].key == ws[i].client.subs[b].key ==> a == b
    ensures ws[i].client.subs[a].listeners != [] && ws[i].client.subs[a].latched.None?
    ensures ws[i].client.subs[a].key in ws[i].client.active
  {
    AlwaysSafe(p, ws, acts, i);
  }

  ghost function Interrupted(c: Client): set<RequestId> {
    set id | id in c.subs && c.subs[id].latched.Some?
  }

  /** Every start the client posts is matched by a stop, an interrupt or a live entry, and by only one of them. */
  lemma StartsAreAccountedFor(p: Peer, ws: seq<World>, acts: seq<Action>, i: nat)
    requires Behaviour(p, ws, acts) && i < |ws|
    ensures var w := ws[i];
            && StartIds(w.posted) == StopIds(w.posted) + Interrupted(w.client) + LiveIds(w.client)
            && |StartIds(w.posted)| == |StopIds(w.posted)| + |Interrupted(w.client)| + |LiveIds(w.client)|
            && (forall j, k :: 0 <= j < k < |w.posted| ==> w.posted[j] != w.posted[k])
  {
    AlwaysSafe(p, ws, acts, i);
    Accounts(ws[i]);
  }

  lemma Accounts(w: World)
    requires Inv(w)
    ensures StartIds(w.posted) == StopIds(w.posted) + Interrupted(w.client) + LiveIds(w.client)
    ensures |StartIds(w.posted)| == |StopIds(w.posted)| + |Interrupted(w.client)| + |LiveIds(w.client)|
    ensures forall j, k :: 0 <= j < k < |w.posted| ==> w.posted[j] != w.posted[k]
  {
    hide HooksOk, Agree, Known, CleanedOnce, StartIds, StopIds, LiveIds;
    var stops, interrupted, live := StopIds(w.posted), Interrupted(w.client), w.client.listening;
    LiveIsListening(w.client);
    assert stops !! interrupted !! live;
    assert StartIds(w.posted) == stops + interrupted + live;
    assert |stops + interrupted + live| == |stops| + |interrupted| + |live|;
  }

  /**
   * Once nothing is on its way, what the client takes for live is served by a handler or orphaned, and every other
   * start that a handler was called for has been cleaned up once.
   */
  lemma EndsAgreeWhenQuiet(p: Peer, ws: seq<World>, acts: seq<Action>, i: nat)
    requires Behaviour(p, ws, acts) && i < |ws| && ws[i].toHost == [] && ws[i].toClient == []
    ensures ws[i].host.live.Keys + ws[i].host.orphaned == LiveIds(ws[i].client)
    ensures ws[i].host.live.Keys !! ws[i].host.orphaned
    ensures forall id: RequestId ::
              ws[i].host.cleanups[id] == if id in ws[i].host.handled && id !in ws[i].host.live then 1 else 0
  {
    AlwaysSafe(p, ws, acts, i);
    QuietAgreement(ws[i]);
    LiveIsListening(ws[i].client);
  }

  lemma QuietAgreement(w: World)
    requires Inv(w) && w.toHost == [] && w.toClient == []
    ensures Held(w.host) == w.client.listening && w.host.live.Keys !! w.host.orphaned && CleanedOnce(w.host)
  {
    hide ClientInv, Accounted, InOrder;
  }

  /** The step leaves the start with nobody: it comes while nobody handles its method, or its handler is removed. */
  predicate Orphans(p: Peer, w: World, act: Action, id: RequestId) {
    || (act.HostReceives? && w.toHost != [] && w.toHost[0].Start? && w.toHost[0].id == id
        && Unheard(p, w.host, p.methodOf(w.toHost[0].key)))
    || (act.HandlerRemoved? && id in w.host.live && w.host.live[id] == act.m)
  }

  lemma OrphanedStep(p: Peer, w: World, act: Action, id: RequestId)
    requires Enabled(p, w, act)
    ensures Orphans(p, w, act, id) ==> id in Next(p, w, act).host.orphaned
    ensures id in Next(p, w, act).host.orphaned ==> id in w.host.orphaned || Orphans(p, w, act, id)
  {
    hide Subscribe, Unsubscribe, Attach, Detach, OnEvent;
  }

  lemma {:induction false} OrphanedHasCause(p: Peer, ws: seq<World>, acts: seq<Action>, i: nat, id: RequestId)
    requires Behaviour(p, ws, acts) && i < |ws| && id in ws[i].host.orphaned
    ensures exists k :: 0 <= k < i && Orphans(p, ws[k], acts[k], id)
  {
    hide Next, Enabled, Orphans;
    if i > 0 {
      assert Enabled(p, ws[i - 1], acts[i - 1]);
      OrphanedStep(p, ws[i - 1], acts[i - 1], id);
      if !Orphans(p, ws[i - 1], acts[i - 1], id) { OrphanedHasCause(p, ws, acts, i - 1, id); }
    }
  }

  /** A method is handled from the step that adds its handler to the one that removes it. */
  lemma HandlingStep(p: Peer, w: World, act: Action, m: Method)
    requires Enabled(p, w, act)
    ensures m in Next(p, w, act).host.handling <==>
            (m in w.host.handling && act != HandlerRemoved(m)) || act == HandlerAdded(m)
  {
    hide Subscribe, Unsubscribe, Attach, Detach, OnEvent, Items;
  }

  /** A start is served from the step in which its handler takes it to its stop, its end or its handler's removal. */
  lemma ServedStep(p: Peer, w: World, act: Action, id: RequestId)
    requires Enabled(p, w, act)
    ensures id in Next(p, w, act).host.live <==>
            || (id in w.host.live && !Unserves(w, act, id))
            || (act.HostReceives? && w.toHost[0].Start? && w.toHost[0].id == id
                && p.methodOf(w.toHost[0].key) in w.host.handling && p.decodes(w.toHost[0].key)
                && act.reply.interrupt.None?)
  {
    hide Subscribe, Unsubscribe, Attach, Detach, OnEvent, Items;
  }

  predicate Unserves(w: World, act: Action, id: RequestId) {
    || (act.HostReceives? && w.toHost != [] && w.toHost[0] == Stop(id))
    || (act.HostSends? && act.id == id && !act.encodes)
    || (act.HostInterrupts? && act.id == id)
    || (act.HandlerRemoved? && id in w.host.live && w.host.live[id] == act.m)
  }

  /** The start has reached the host, and no handler serves it. */
  ghost predicate Unserved(w: World, id: RequestId) {
    id in w.client.subs && id !in StartIds(w.toHost) && id !in w.host.live
  }

  lemma OrphanIsUnserved(w: World, id: RequestId)
    requires Inv(w) && id in w.host.orphaned
    ensures Unserved(w, id)
  {
    hide ClientInv, Accounted, InOrder, InterruptIds, StopIds;
  }

  lemma UnservedStep(p: Peer, w: World, act: Action, id: RequestId)
    requires Inv(w) && Enabled(p, w, act) && Unserved(w, id)
    ensures Unserved(Next(p, w, act), id)
  {
    hide HooksOk, Agree, InOrder, CleanedOnce, Accounted, InterruptIds, StopIds, Items;
    hide Attach, Detach, OnEvent, Without;
    StepKeepsSub(p, w, act, id);
    NewStarts(p, w, act);
    if act.HostReceives? { assert w.toHost[0] in w.toHost; }
  }

  /** The starts on the way to the host were there before, or are new. */
  lemma NewStarts(p: Peer, w: World, act: Action)
    requires Coherent(w.client) && Enabled(p, w, act)
    ensures forall x: RequestId ::
              x in StartIds(Next(p, w, act).toHost) ==> x in StartIds(w.toHost) || x !in w.client.subs
  {
    hide Attach, Detach, OnEvent, Without, OnStreamFrame, Send, HostInterrupt, RemoveHandler;
    var w' := Next(p, w, act);
    assert forall f :: f in w'.toHost ==> f in w.toHost || f.Stop? || f.id == w.client.nextId;
  }

  lemma {:induction false} UnservedForGood(p: Peer, ws: seq<World>, acts: seq<Action>, i: nat, j: nat, id: RequestId)
    requires Behaviour(p, ws, acts) && i <= j < |ws| && Unserved(ws[i], id)
    ensures Unserved(ws[j], id)
    decreases j
  {
    hide Inv, Next, Enabled, Unserved;
    if i < j {
      UnservedForGood(p, ws, acts, i, j - 1, id);
      AlwaysSafe(p, ws, acts, j - 1);
      assert Enabled(p, ws[j - 1], acts[j - 1]);
      UnservedStep(p, ws[j - 1], acts[j - 1], id);
    }
  }

  /**
   * Once nothing is on its way, the host serves a subscription that the client takes for live exactly when nothing has
   * orphaned it: its method had a handler when its start came, and that handler has not been removed since.
   */
  lemma QuietServedIff(p: Peer, ws: seq<World>, acts: seq<Action>, i: nat, id: RequestId)
    requires Behaviour(p, ws, acts) && i < |ws| && ws[i].toHost == [] && ws[i].toClient == []
    requires id in LiveIds(ws[i].client)
    ensures id in ws[i].host.live <==> forall k :: 0 <= k < i ==> !Orphans(p, ws[k], acts[k], id)
  {
    hide Next, Enabled, Orphans, LiveIds;
    EndsAgreeWhenQuiet(p, ws, acts, i);
    if id !in ws[i].host.live {
      OrphanedHasCause(p, ws, acts, i, id);
    } else if k :| 0 <= k < i && Orphans(p, ws[k], acts[k], id) {
      assert Enabled(p, ws[k], acts[k]);
      OrphanedStep(p, ws[k], acts[k], id);
      AlwaysSafe(p, ws, acts, k + 1);
      OrphanIsUnserved(ws[k + 1], id);
      UnservedForGood(p, ws, acts, k + 1, i, id);
      assert false;
    }
  }

  /** Nobody was ever called for the start, and nothing is on its way to or from it. */
  ghost predicate Deaf(w: World, id: RequestId) {
    && id in w.client.subs && w.client.subs[id].latched.None?
    && id !in StartIds(w.toHost) && id !in w.host.handled
    && (forall e :: e in w.toClient ==> e.id != id)
  }

  lemma DeafStep(p: Peer, w: World, act: Action, id: RequestId)
    requires Inv(w) && Enabled(p, w, act) && Deaf(w, id)
    ensures Deaf(Next(p, w, act), id)
  {
    hide HooksOk, Agree, InOrder, CleanedOnce, Accounted, InterruptIds, StopIds;
    StepKeepsSub(p, w, act, id);
    NewStarts(p, w, act);
    hide Inv, StartIds;
    DeafEvents(p, w, act, id);
    DeafClient(p, w, act, id);
  }

  lemma DeafEvents(p: Peer, w: World, act: Action, id: RequestId)
    requires Enabled(p, w, act) && Deaf(w, id)
    ensures var w' := Next(p, w, act); id !in w'.host.handled && forall e :: e in w'.toClient ==> e.id != id
  {
    hide Subscribe, Unsubscribe, Attach, Detach, OnEvent;
    if act.HostReceives? && w.toHost[0].Start? { assert w.toHost[0].id in StartIds(w.toHost); }
  }

  lemma DeafClient(p: Peer, w: World, act: Action, id: RequestId)
    requires Coherent(w.client) && Enabled(p, w, act) && Deaf(w, id)
    ensures var c := Next(p, w, act).client; id in c.subs && c.subs[id].latched.None?
  {
    hide StartIds, OnStreamFrame, Send, HostInterrupt, RemoveHandler, Without;
    if act.ClientReceives? { assert w.toClient[0] in w.toClient; }
  }

  lemma {:induction false} DeafForGood(p: Peer, ws: seq<World>, acts: seq<Action>, i: nat, j: nat, id: RequestId)
    requires Behaviour(p, ws, acts) && i <= j < |ws| && Deaf(ws[i], id)
    ensures Deaf(ws[j], id)
    decreases j
  {
    hide Inv, Next, Enabled, Deaf;
    if i < j {
      DeafForGood(p, ws, acts, i, j - 1, id);
      AlwaysSafe(p, ws, acts, j - 1);
      assert Enabled(p, ws[j - 1], acts[j - 1]);
      DeafStep(p, ws[j - 1], acts[j - 1], id);
    }
  }

  /** Items come only from subscriptions whose handler was called. */
  ghost predicate ItemsKnown(w: World) {
    forall e :: e in w.toClient && e.Item? ==> e.id in w.host.handled
  }

  lemma StepKeepsItems(p: Peer, w: World, act: Action)
    requires Enabled(p, w, act) && ItemsKnown(w)
    ensures ItemsKnown(Next(p, w, act))
  {
    hide Subscribe, Unsubscribe, Attach, Detach, OnEvent;
  }

  lemma {:induction false} ItemsAlwaysKnown(p: Peer, ws: seq<World>, acts: seq<Action>, i: nat)
    requires Behaviour(p, ws, acts) && i < |ws|
    ensures ItemsKnown(ws[i])
  {
    hide Next, Enabled, ItemsKnown;
    if i == 0 {
      assert ItemsKnown(FreshWorld) by { NoItems(); }
    } else {
      ItemsAlwaysKnown(p, ws, acts, i - 1);
      assert Enabled(p, ws[i - 1], acts[i - 1]);
      StepKeepsItems(p, ws[i - 1], acts[i - 1]);
    }
  }

  lemma NoItems()
    ensures ItemsKnown(FreshWorld)
  {
  }

  lemma NotLatchedYet(w: World, id: RequestId)
    requires Inv(w) && id in StartIds(w.toHost)
    ensures id in w.client.subs && w.client.subs[id].latched.None?
  {
    OnTheWay(w);
    hide HooksOk, CleanedOnce, InOrder, Known, StartIds, StopIds, InterruptIds;
  }

  lemma UnheardIsDeaf(p: Peer, w: World, reply: Reply)
    requires Inv(w) && ItemsKnown(w) && w.toHost != [] && w.toHost[0].Start?
    requires Unheard(p, w.host, p.methodOf(w.toHost[0].key))
    ensures Deaf(FromHost(w.(toHost := w.toHost[1..]), OnStreamFrame(p, w.host, w.toHost[0], reply)), w.toHost[0].id)
  {
    var id := w.toHost[0].id;
    OnTheWay(w);
    assert id in StartIds(w.toHost);
    NotLatchedYet(w, id);
    hide ClientInv, CleanedOnce;
    PopFrame(w.toHost);
    assert id !in w.host.handled;
    forall e | e in w.toClient ensures e.id != id {
      if e.Interrupt? { assert e.id in InterruptIds(w.toClient); }
    }
    assert w.toClient + [] == w.toClient;
  }

  /**
   * A subscription whose start nobody heard hears nothing, neither an item nor an interrupt, and the client takes it
   * for live until its last listener leaves.
   */
  lemma UnheardStaysSilent(p: Peer, ws: seq<World>, acts: seq<Action>, k: nat, j: nat, id: RequestId)
    requires Behaviour(p, ws, acts) && k < j < |ws|
    requires acts[k].HostReceives? && Orphans(p, ws[k], acts[k], id)
    ensures Deaf(ws[j], id)
    ensures id in ws[j].client.listening <==> id !in StopIds(ws[j].posted)
  {
    hide Inv, Enabled, Deaf, StopIds;
    AlwaysSafe(p, ws, acts, k);
    ItemsAlwaysKnown(p, ws, acts, k);
    assert Enabled(p, ws[k], acts[k]);
    UnheardIsDeaf(p, ws[k], acts[k].reply);
    hide Next;
    DeafForGood(p, ws, acts, k + 1, j, id);
    AlwaysSafe(p, ws, acts, j);
    LiveUntilLeft(ws[j], id);
  }

  lemma LiveUntilLeft(w: World, id: RequestId)
    requires Inv(w) && Deaf(w, id)
    ensures id in w.client.listening <==> id !in StopIds(w.posted)
  {
    hide ClientInv, Agree, Known, CleanedOnce;
  }

  /** A subscription to a method that this build knows and nobody handles: all is quiet, and the two ends disagree. */
  lemma SilentStart(p: Peer, key: Key, callback: Callback, reply: Reply)
    requires p.known(p.methodOf(key))
    ensures var ws := [FreshWorld, Next(p, FreshWorld, Subscribes(key, callback)),
                       Next(p, Next(p, FreshWorld, Subscribes(key, callback)), HostReceives(reply))];
            && Behaviour(p, ws, [Subscribes(key, callback), HostReceives(reply)])
            && ws[2].toHost == [] && ws[2].toClient == []
            && LiveIds(ws[2].client) == {0} && ws[2].host.live == map[]
  {
    var w1 := Next(p, FreshWorld, Subscribes(key, callback));
    assert w1.toHost == [Start(0, key)];
    var w2 := Next(p, w1, HostReceives(reply));
    assert w2.client.active == map[key := 0];
  }

  /** Each interrupt listener is told of the interrupt once, whether attached before or after it, and never else. */
  lemma InterruptToldOnce(p: Peer, ws: seq<World>, acts: seq<Action>, i: nat, hook: Hook)
    requires Behaviour(p, ws, acts) && i < |ws| && hook in ws[i].client.hookOf
    ensures var c := ws[i].client;
            && c.hookOf[hook] in c.subs && hook in c.calls
            && c.calls[hook] == match c.subs[c.hookOf[hook]].latched
                                case None => []
                                case Some(reason) => if hook in c.detached then [] else [reason]
  {
    AlwaysSafe(p, ws, acts, i);
  }

  /** An interrupt is final: its subscription stays latched with that reason and never listens again. */
  lemma {:induction false} InterruptIsFinal(p: Peer, ws: seq<World>, acts: seq<Action>, i: nat, j: nat, id: RequestId)
    requires Behaviour(p, ws, acts) && i <= j < |ws|
    requires id in ws[i].client.subs && ws[i].client.subs[id].latched.Some?
    ensures id in ws[j].client.subs && ws[j].client.subs[id].latched == ws[i].client.subs[id].latched
    ensures id !in ws[j].client.listening
  {
    hide Inv, Next, Enabled;
    AlwaysSafe(p, ws, acts, j);
    if i < j {
      InterruptIsFinal(p, ws, acts, i, j - 1, id);
      AlwaysSafe(p, ws, acts, j - 1);
      assert Enabled(p, ws[j - 1], acts[j - 1]);
      StepKeepsLatch(p, ws[j - 1], acts[j - 1], id);
    }
    LatchedIsDeaf(ws[j], id);
  }

  lemma LatchedIsDeaf(w: World, id: RequestId)
    requires Inv(w) && id in w.client.subs && w.client.subs[id].latched.Some?
    ensures id !in w.client.listening
  {
  }

  lemma StepKeepsLatch(p: Peer, w: World, act: Action, id: RequestId)
    requires Inv(w) && Enabled(p, w, act) && id in w.client.subs && w.client.subs[id].latched.Some?
    ensures var c := Next(p, w, act).client; id in c.subs && c.subs[id].latched == w.client.subs[id].latched
  {
    hide HooksOk, Agree, InOrder, CleanedOnce, Accounted, Known, InterruptIds, StartIds, StopIds;
    hide OnStreamFrame, Send, HostInterrupt;
  }

  // ---- what the host says --------------------------------------------------------------------------

  /** What the host says of a start: nothing, a refusal with its reason, or what the handler sends, in order. */
  ghost function SaidOfStart(p: Peer, h: Host, id: RequestId, key: Key, reply: Reply): seq<StreamEvent> {
    if p.methodOf(key) in h.handling && id !in h.live && p.decodes(key) then
      Items(id, reply.items) + if reply.interrupt.Some? then [Interrupt(id, reply.interrupt.value)] else []
    else if p.methodOf(key) in h.handling && id !in h.live then [Interrupt(id, MalformedFrame)]
    else if p.methodOf(key) !in h.handling && !p.known(p.methodOf(key)) && (p.listens || h.handling != {}) then
      [Interrupt(id, Unsupported)]
    else []
  }

  ghost function Utters(p: Peer, w: World, act: Action): seq<StreamEvent> {
    match act
    case HostReceives(reply) =>
      if w.toHost != [] && w.toHost[0].Start? then SaidOfStart(p, w.host, w.toHost[0].id, w.toHost[0].key, reply)
      else []
    case HostSends(id, value, encodes) => [if encodes then Item(id, value) else Interrupt(id, HostFailure)]
    case HostInterrupts(id, reason) => [Interrupt(id, reason)]
    case _ => []
  }

  /** The event the client takes from its queue in a step. */
  ghost function Taken(w: World, act: Action): seq<StreamEvent> {
    if act.ClientReceives? && w.toClient != [] then [w.toClient[0]] else []
  }

  lemma StepUtters(p: Peer, w: World, act: Action)
    requires Enabled(p, w, act)
    ensures Taken(w, act) + Next(p, w, act).toClient == w.toClient + Utters(p, w, act)
  {
    hide Coherent, OnEvent, Items;
    if act.HostReceives? {
      assert w.toClient + [] == w.toClient;
      var e := Items(w.toHost[0].id, act.reply.items);
      assert e + [] == e;
    }
  }

  ghost function Uttered(p: Peer, ws: seq<World>, acts: seq<Action>, i: nat): seq<StreamEvent>
    requires i <= |acts| && i < |ws|
  {
    if i == 0 then [] else Uttered(p, ws, acts, i - 1) + Utters(p, ws[i - 1], acts[i - 1])
  }

  ghost function Received(ws: seq<World>, acts: seq<Action>, i: nat): seq<StreamEvent>
    requires i <= |acts| && i < |ws|
  {
    if i == 0 then [] else Received(ws, acts, i - 1) + Taken(ws[i - 1], acts[i - 1])
  }

  /** What the client has received and what is on its way is everything the host has said, in the order it said it. */
  lemma {:induction false} EventsArriveInOrder(p: Peer, ws: seq<World>, acts: seq<Action>, i: nat)
    requires Behaviour(p, ws, acts) && i < |ws|
    ensures Received(ws, acts, i) + ws[i].toClient == Uttered(p, ws, acts, i)
  {
    hide Next, Enabled, Utters, Taken;
    if i > 0 {
      EventsArriveInOrder(p, ws, acts, i - 1);
      assert Enabled(p, ws[i - 1], acts[i - 1]);
      StepUtters(p, ws[i - 1], acts[i - 1]);
      var taken, said := Taken(ws[i - 1], acts[i - 1]), Utters(p, ws[i - 1], acts[i - 1]);
      Regrouped(Received(ws, acts, i - 1), taken, ws[i].toClient);
      Regrouped(Received(ws, acts, i - 1), ws[i - 1].toClient, said);
    }
  }

  /** The client takes an interrupt of a subscription it still listens to. */
  predicate Interrupts(w: World, act: Action, id: RequestId, reason: Reason) {
    act.ClientReceives? && w.toClient != [] && w.toClient[0] == Interrupt(id, reason) && id in w.client.listening
  }

  predicate LatchedWith(c: Client, id: RequestId, reason: Reason) {
    id in c.subs && c.subs[id].latched == Some(reason)
  }

  lemma StepLatches(p: Peer, w: World, act: Action, id: RequestId, reason: Reason)
    requires Coherent(w.client) && Enabled(p, w, act)
    ensures LatchedWith(Next(p, w, act).client, id, reason) <==>
            LatchedWith(w.client, id, reason) || Interrupts(w, act, id, reason)
  {
    hide OnStreamFrame, Send, HostInterrupt, RemoveHandler, Without, CallAll, Each;
  }

  /** A subscription ends with a reason exactly when an interrupt with that reason reaches it while it is live. */
  lemma {:induction false} LatchedIff(p: Peer, ws: seq<World>, acts: seq<Action>, i: nat, id: RequestId, reason: Reason)
    requires Behaviour(p, ws, acts) && i < |ws|
    ensures LatchedWith(ws[i].client, id, reason) <==>
            exists k :: 0 <= k < i && Interrupts(ws[k], acts[k], id, reason)
  {
    hide Next, Enabled, Interrupts, Inv;
    if i > 0 {
      LatchedIff(p, ws, acts, i - 1, id, reason);
      AlwaysSafe(p, ws, acts, i - 1);
      assert Coherent(ws[i - 1].client) by { ClientOf(ws[i - 1]); }
      assert Enabled(p, ws[i - 1], acts[i - 1]);
      StepLatches(p, ws[i - 1], acts[i - 1], id, reason);
    }
  }

  lemma ClientOf(w: World)
    requires Inv(w)
    ensures Coherent(w.client)
  {
  }

  /** Every start on the wire asks for what its listeners subscribed to. */
  lemma {:induction false} StartsNameTheirKey(p: Peer, ws: seq<World>, acts: seq<Action>, i: nat, f: StreamFrame)
    requires Behaviour(p, ws, acts) && i < |ws| && f in ws[i].posted && f.Start?
    ensures f.id in ws[i].client.subs && ws[i].client.subs[f.id].key == f.key
  {
    hide Next, Enabled, Inv;
    if i > 0 {
      AlwaysSafe(p, ws, acts, i - 1);
      assert Coherent(ws[i - 1].client) by { ClientOf(ws[i - 1]); }
      assert Enabled(p, ws[i - 1], acts[i - 1]);
      if f in ws[i - 1].posted { StartsNameTheirKey(p, ws, acts, i - 1, f); }
      StepNamesKey(p, ws[i - 1], acts[i - 1], f);
    }
  }

  lemma StepNamesKey(p: Peer, w: World, act: Action, f: StreamFrame)
    requires Coherent(w.client) && Enabled(p, w, act) && f.Start? && f in Next(p, w, act).posted
    requires f in w.posted ==> f.id in w.client.subs && w.client.subs[f.id].key == f.key
    ensures var c := Next(p, w, act).client; f.id in c.subs && c.subs[f.id].key == f.key
  {
    hide OnStreamFrame, Send, HostInterrupt, RemoveHandler, Without, CallAll, Each;
  }

  // ---- what a listener hears -----------------------------------------------------------------------

  function ItemsOf(q: seq<StreamEvent>, id: RequestId): seq<Bytes> {
    if q == [] then []
    else (if q[0].Item? && q[0].id == id then [q[0].value] else []) + ItemsOf(q[1..], id)
  }

  function HeardBy(delivered: seq<(Callback, Bytes)>, callback: Callback): seq<Bytes> {
    if delivered == [] then []
    else HeardOf(delivered[0], callback) + HeardBy(delivered[1..], callback)
  }

  lemma {:induction false} ItemsOfParts(a: seq<StreamEvent>, b: seq<StreamEvent>, id: RequestId)
    ensures ItemsOf(a + b, id) == ItemsOf(a, id) + ItemsOf(b, id)
  {
    if a == [] {
      assert a + b == b;
    } else {
      assert (a + b)[1..] == a[1..] + b;
      ItemsOfParts(a[1..], b, id);
    }
  }

  function HeardOf(call: (Callback, Bytes), callback: Callback): seq<Bytes> {
    if call.0 == callback then [call.1] else []
  }

  lemma HeardByFirst(call: (Callback, Bytes), rest: seq<(Callback, Bytes)>, callback: Callback)
    ensures HeardBy([call] + rest, callback) == HeardOf(call, callback) + HeardBy(rest, callback)
  {
    assert ([call] + rest)[1..] == rest;
  }

  lemma SplitFirst<T>(a: seq<T>, b: seq<T>)
    requires a != []
    ensures a == [a[0]] + a[1..] && a + b == [a[0]] + (a[1..] + b)
  {
  }

  lemma Regrouped<T>(a: seq<T>, b: seq<T>, c: seq<T>)
    ensures (a + b) + c == a + (b + c)
  {
  }

  lemma {:induction false} HeardByParts(a: seq<(Callback, Bytes)>, b: seq<(Callback, Bytes)>, callback: Callback)
    ensures HeardBy(a + b, callback) == HeardBy(a, callback) + HeardBy(b, callback)
  {
    if a == [] {
      assert a + b == b;
    } else {
      hide HeardBy, HeardOf;
      var call, rest := a[0], a[1..];
      SplitFirst(a, b);
      HeardByFirst(call, rest, callback);
      HeardByFirst(call, rest + b, callback);
      HeardByParts(rest, b, callback);
      Regrouped(HeardOf(call, callback), HeardBy(rest, callback), HeardBy(b, callback));
    }
  }

  function Times(s: seq<nat>, x: nat): nat {
    if s == [] then 0 else (if s[0] == x then 1 else 0) + Times(s[1..], x)
  }

  function Repeated(value: Bytes, n: nat): (r: seq<Bytes>)
    ensures |r| == n
  {
    if n == 0 then [] else [value] + Repeated(value, n - 1)
  }

  /** Calling the listeners calls each as often as it is listed. */
  lemma {:induction false} EachHeard(targets: seq<Callback>, value: Bytes, callback: Callback)
    ensures HeardBy(Each(targets, value), callback) == Repeated(value, Times(targets, callback))
  {
    if targets != [] {
      assert Each(targets, value)[1..] == Each(targets[1..], value);
      EachHeard(targets[1..], value, callback);
    }
  }

  lemma {:induction false} TimesAppended(s: seq<nat>, y: nat, x: nat)
    ensures Times(s + [y], x) == Times(s, x) + (if y == x then 1 else 0)
  {
    if s == [] {
      assert s + [y] == [y];
    } else {
      assert (s + [y])[1..] == s[1..] + [y];
      TimesAppended(s[1..], y, x);
    }
  }

  lemma {:induction false} TimesWithout(s: seq<nat>, y: nat, x: nat)
    ensures Times(Without(s, y), x) == if x == y then 0 else Times(s, x)
  {
    if s != [] {
      TimesWithout(s[1..], y, x);
      if s[0] != y { assert ([s[0]] + Without(s[1..], y))[1..] == Without(s[1..], y); }
    }
  }

  /** How often the callback is listed for this key. */
  function Listed(c: Client, key: Key, callback: Callback): nat {
    if key in c.active && c.active[key] in c.subs then Times(c.subs[c.active[key]].listeners, callback) else 0
  }

  /** Subscribing lists the callback once more, unsubscribing takes it off altogether, and neither touches another. */
  lemma ListingStep(c: Client, key: Key, callback: Callback, otherKey: Key, other: Callback)
    requires Coherent(c)
    ensures var (joined, left) := (Subscribe(c, key, callback).0, Unsubscribe(c, key, callback).0);
            var same := otherKey == key && other == callback;
            && Listed(joined, otherKey, other) == Listed(c, otherKey, other) + (if same then 1 else 0)
            && Listed(left, otherKey, other) == if same then 0 else Listed(c, otherKey, other)
  {
    if key in c.active {
      var listeners := c.subs[c.active[key]].listeners;
      TimesAppended(listeners, callback, other);
      TimesWithout(listeners, callback, other);
    } else {
      TimesAppended([], callback, other);
      assert [] + [callback] == [callback];
    }
  }

  /** The callback is listed once, on this subscription and no other. */
  ghost predicate ListensOnceTo(c: Client, callback: Callback, id: RequestId) {
    && id in c.listening && id in c.subs
    && (forall x: RequestId :: x in c.subs ==> Times(c.subs[x].listeners, callback) == if x == id then 1 else 0)
  }

  /** What the handler of a subscription puts on the wire in a step. */
  ghost function ItemsSent(p: Peer, w: World, act: Action, id: RequestId): seq<Bytes> {
    ItemsOf(Utters(p, w, act), id)
  }

  predicate Leaves(act: Action, callback: Callback) {
    (act.Subscribes? || act.Unsubscribes?) && act.callback == callback
  }

  lemma ClientStepHears(p: Peer, w: World, act: Action, callback: Callback, id: RequestId)
    requires Inv(w) && Enabled(p, w, act) && !Leaves(act, callback) && ListensOnceTo(w.client, callback, id)
    requires act.Subscribes? || act.Unsubscribes? || act.Attaches? || act.Detaches?
    ensures var w' := Next(p, w, act);
            && w'.client.delivered == w.client.delivered && w'.toClient == w.toClient
            && (id in w'.client.listening ==> ListensOnceTo(w'.client, callback, id))
  {
    hide HooksOk, Agree, InOrder, Accounted, Known, CleanedOnce, Without;
    match act
    case Subscribes(key, other) =>
      TimesAppended([], other, callback);
      assert [] + [other] == [other];
      if key in w.client.active { TimesAppended(w.client.subs[w.client.active[key]].listeners, other, callback); }
    case Unsubscribes(key, other) =>
      if key in w.client.active { TimesWithout(w.client.subs[w.client.active[key]].listeners, other, callback); }
    case Attaches(_, _) =>
    case Detaches(_) =>
  }

  lemma ReceiveHears(w: World, callback: Callback, id: RequestId)
    requires Inv(w) && w.toClient != [] && ListensOnceTo(w.client, callback, id)
    ensures var c' := OnEvent(w.client, w.toClient[0]);
            && (id in c'.listening ==> ListensOnceTo(c', callback, id))
            && HeardBy(c'.delivered, callback) + ItemsOf(w.toClient[1..], id)
               == HeardBy(w.client.delivered, callback) + ItemsOf(w.toClient, id)
  {
    hide HooksOk, Agree, InOrder, Accounted, Known, CleanedOnce, HeardBy;
    var e, c := w.toClient[0], w.client;
    if e.Item? && e.id in c.listening {
      FanOutHears(c, e.id, e.value, callback, id);
    }
  }

  /** One more item for the callback exactly if it is of the subscription it listens to. */
  lemma FanOutHears(c: Client, from: RequestId, value: Bytes, callback: Callback, id: RequestId)
    requires from in c.subs && ListensOnceTo(c, callback, id)
    ensures HeardBy(c.delivered + Each(c.subs[from].listeners, value), callback)
            == HeardBy(c.delivered, callback) + if from == id then [value] else []
  {
    hide HeardBy;
    HeardByParts(c.delivered, Each(c.subs[from].listeners, value), callback);
    EachHeard(c.subs[from].listeners, value, callback);
  }

  /** Heard plus on the way grows by exactly what the handler sends. */
  lemma StepHears(p: Peer, w: World, act: Action, callback: Callback, id: RequestId)
    requires Inv(w) && Enabled(p, w, act) && !Leaves(act, callback) && ListensOnceTo(w.client, callback, id)
    ensures var w' := Next(p, w, act);
            && (id in w'.client.listening ==> ListensOnceTo(w'.client, callback, id))
            && HeardBy(w'.client.delivered, callback) + ItemsOf(w'.toClient, id)
               == HeardBy(w.client.delivered, callback) + ItemsOf(w.toClient, id) + ItemsSent(p, w, act, id)
  {
    hide Inv, HeardBy, ListensOnceTo, OnEvent, OnStreamFrame, Utters;
    StepUtters(p, w, act);
    match act
    case ClientReceives => ReceiveHears(w, callback, id);
    case HostReceives(_) => HostStepHears(p, w, act, callback, id);
    case HostSends(_, _, _) => HostStepHears(p, w, act, callback, id);
    case HostInterrupts(_, _) => HostStepHears(p, w, act, callback, id);
    case HandlerAdded(_) =>
    case HandlerRemoved(_) =>
    case _ => ClientStepHears(p, w, act, callback, id);
  }

  lemma HostStepHears(p: Peer, w: World, act: Action, callback: Callback, id: RequestId)
    requires Enabled(p, w, act) && (act.HostReceives? || act.HostSends? || act.HostInterrupts?)
    requires Taken(w, act) + Next(p, w, act).toClient == w.toClient + Utters(p, w, act)
    ensures var w' := Next(p, w, act);
            && w'.client == w.client
            && HeardBy(w'.client.delivered, callback) + ItemsOf(w'.toClient, id)
               == HeardBy(w.client.delivered, callback) + ItemsOf(w.toClient, id) + ItemsSent(p, w, act, id)
  {
    hide HeardBy, OnStreamFrame, Utters, ItemsOf, Send, HostInterrupt;
    assert Taken(w, act) + Next(p, w, act).toClient == Next(p, w, act).toClient;
    ItemsOfParts(w.toClient, Utters(p, w, act), id);
    Regrouped(HeardBy(w.client.delivered, callback), ItemsOf(w.toClient, id), ItemsSent(p, w, act, id));
  }

  /** What the handler sends over a run, step by step. */
  ghost function SentDuring(p: Peer, ws: seq<World>, acts: seq<Action>, i: nat, j: nat, id: RequestId): seq<Bytes>
    requires Behaviour(p, ws, acts) && i <= j < |ws|
  {
    if i == j then [] else SentDuring(p, ws, acts, i, j - 1, id) + ItemsSent(p, ws[j - 1], acts[j - 1], id)
  }

  lemma ListeningStays(p: Peer, w: World, act: Action, id: RequestId)
    requires Inv(w) && Enabled(p, w, act) && id in w.client.subs && id in Next(p, w, act).client.listening
    ensures id in w.client.listening
  {
    hide HooksOk, Agree, InOrder, Accounted, Known, CleanedOnce, Without, Each, CallAll;
    hide OnStreamFrame, Send, HostInterrupt;
  }

  /**
   * While it stays joined to a live subscription, a listener hears every item the host sends on it, in order and
   * once: what it has heard and what is still on its way account for all that was sent.
   */
  lemma {:induction false} ListenerHearsEverything(p: Peer, ws: seq<World>, acts: seq<Action>, i: nat, j: nat,
                                                   callback: Callback, id: RequestId)
    requires Behaviour(p, ws, acts) && i <= j < |ws| && ListensOnceTo(ws[i].client, callback, id)
    requires forall k :: i <= k < j ==> !Leaves(acts[k], callback)
    requires id in ws[j].client.listening
    ensures ListensOnceTo(ws[j].client, callback, id)
    ensures HeardBy(ws[j].client.delivered, callback) + ItemsOf(ws[j].toClient, id)
            == HeardBy(ws[i].client.delivered, callback) + ItemsOf(ws[i].toClient, id)
               + SentDuring(p, ws, acts, i, j, id)
    decreases j
  {
    hide Inv, Next, HeardBy, ItemsOf, ItemsSent;
    if i < j {
      AlwaysSafe(p, ws, acts, j - 1);
      assert Enabled(p, ws[j - 1], acts[j - 1]);
      StillKnown(p, ws, acts, i, j - 1, id);
      ListeningStays(p, ws[j - 1], acts[j - 1], id);
      ListenerHearsEverything(p, ws, acts, i, j - 1, callback, id);
      StepHears(p, ws[j - 1], acts[j - 1], callback, id);
    }
  }

  lemma {:induction false} StillKnown(p: Peer, ws: seq<World>, acts: seq<Action>, i: nat, j: nat, id: RequestId)
    requires Behaviour(p, ws, acts) && i <= j < |ws| && id in ws[i].client.subs
    ensures id in ws[j].client.subs
    decreases j
  {
    hide Inv, Next;
    if i < j {
      StillKnown(p, ws, acts, i, j - 1, id);
      AlwaysSafe(p, ws, acts, j - 1);
      assert Enabled(p, ws[j - 1], acts[j - 1]);
      StepKeepsSub(p, ws[j - 1], acts[j - 1], id);
    }
  }

  lemma StepKeepsSub(p: Peer, w: World, act: Action, id: RequestId)
    requires Enabled(p, w, act) && id in w.client.subs
    ensures id in Next(p, w, act).client.subs
  {
  }
}
