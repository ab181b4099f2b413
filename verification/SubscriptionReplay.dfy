/**
 * The id-translation layer that re-sends subscriptions after a reconnect
 * (packages/host-substrate-chain-connection/src/subscriptionReplayProvider.ts).
 */
module SubscriptionReplay {
  import opened Common

  type RpcId = nat
  type SubId = nat
  type Payload = Bytes

  /** `reconnectFor` is None for a fresh subscribe, else the consumer id whose entry is being renewed. */
  datatype PendingSubscription = PendingSubscription(payload: Payload, reconnectFor: Option<SubId>)

  datatype ActiveSubscription = ActiveSubscription(id: RpcId, payload: Payload, currentSubId: SubId)

  datatype Layer = Layer(
    pending: map<RpcId, PendingSubscription>,
    active: map<SubId, ActiveSubscription>,
    currentToConsumer: map<SubId, SubId>)

  const EmptyLayer := Layer(map[], map[], map[])

  datatype Inbound =
    | Confirmed(id: RpcId, subId: SubId)
    | Refused(id: RpcId)
    | Notification(subId: SubId, event: Payload)
    | OtherInbound(event: Payload)

  datatype Outbound =
    | Subscribe(id: RpcId, payload: Payload)
    | Unsubscribe(id: RpcId, subId: SubId)
    | OtherOutbound(payload: Payload)

  function RemoveSubscription(l: Layer, consumer: SubId): Layer {
    if consumer !in l.active then l
    else
      var sub := l.active[consumer];
      var renewing := sub.id in l.pending && l.pending[sub.id].reconnectFor == Some(consumer);
      Layer(if renewing then l.pending - {sub.id} else l.pending,
            l.active - {consumer},
            l.currentToConsumer - {sub.currentSubId})
  }

  /** The id under which the consumer hears of a server id. */
  function NameOf(l: Layer, s: SubId): SubId {
    if s in l.currentToConsumer then l.currentToConsumer[s] else s
  }

  /** A message from the server: what the layer becomes, and what the consumer sees. */
  function FromServer(l: Layer, m: Inbound): (Layer, seq<Inbound>) {
    match m
    case Confirmed(id, subId) =>
      if id !in l.pending then (l, [m])
      else
        var rest := l.(pending := l.pending - {id});
        var p := l.pending[id];
        if p.reconnectFor.Some? then
          if p.reconnectFor.value !in l.active then (rest, [])
          else
            var c := p.reconnectFor.value;
            var sub := l.active[c];
            (rest.(active := l.active[c := sub.(currentSubId := subId)],
                   currentToConsumer := (l.currentToConsumer - {sub.currentSubId})[subId := c]),
             [])
        else
          (rest.(active := l.active[subId := ActiveSubscription(id, p.payload, subId)],
                 currentToConsumer := l.currentToConsumer[subId := subId]),
           [m])
    case Notification(subId, event) =>
      (l, [Notification(NameOf(l, subId), event)])
    case Refused(_) => (l, [m])  // a response without a string result
    case OtherInbound(_) => (l, [m])
  }

  /** A message from the consumer: what the layer becomes, and what goes to the server. */
  function FromConsumer(l: Layer, m: Outbound): (Layer, Outbound) {
    match m
    case Subscribe(id, payload) => (l.(pending := l.pending[id := PendingSubscription(payload, None)]), m)
    case Unsubscribe(id, consumer) =>
      (RemoveSubscription(l, consumer),
       if consumer in l.active then Unsubscribe(id, l.active[consumer].currentSubId) else m)
    case OtherOutbound(_) => (l, m)
  }

  /** Marks the entries of `order` as being renewed. */
  function RenewAll(l: Layer, order: seq<SubId>): Layer
    requires forall c :: c in order ==> c in l.active
  {
    if order == [] then l
    else
      var sub := l.active[order[|order| - 1]];
      var before := RenewAll(l, order[..|order| - 1]);
      before.(pending := before.pending[sub.id := PendingSubscription(sub.payload, Some(order[|order| - 1]))])
  }

  /** The subscribes sent for the entries of `order`: each carries its first payload again. */
  function ResendAll(l: Layer, order: seq<SubId>): seq<Outbound>
    requires forall c :: c in order ==> c in l.active
  {
    if order == [] then []
    else
      var sub := l.active[order[|order| - 1]];
      ResendAll(l, order[..|order| - 1]) + [Subscribe(sub.id, sub.payload)]
  }

  lemma OneMore(l: Layer, order: seq<SubId>, c: SubId)
    requires c in l.active && forall d :: d in order ==> d in l.active
    ensures forall d :: d in order + [c] <==> d in order || d == c
    ensures var sub, r := l.active[c], RenewAll(l, order);
            && ResendAll(l, order + [c]) == ResendAll(l, order) + [Subscribe(sub.id, sub.payload)]
            && RenewAll(l, order + [c])
               == r.(pending := r.pending[sub.id := PendingSubscription(sub.payload, Some(c))])
  {
    assert (order + [c])[..|order|] == order;
  }

  /** `order` visits every confirmed subscription exactly once. */
  ghost predicate Visits(order: seq<SubId>, l: Layer) {
    && (forall c :: c in order <==> c in l.active)
    && (forall i, j :: 0 <= i < j < |order| ==> order[i] != order[j])
  }

  class ReplayProvider {
    var pendingSubscriptions: map<RpcId, PendingSubscription>
    var activeSubscriptions: map<SubId, ActiveSubscription>
    var currentToConsumer: map<SubId, SubId>
    var toConsumer: seq<Inbound>
    var toServer: seq<Outbound>

    function AsLayer(): Layer
      reads this
    {
      Layer(pendingSubscriptions, activeSubscriptions, currentToConsumer)
    }

    constructor ()
      ensures AsLayer() == EmptyLayer && toConsumer == [] && toServer == []
    {
      pendingSubscriptions, activeSubscriptions, currentToConsumer := map[], map[], map[];
      toConsumer, toServer := [], [];
    }

    method OnMessage(m: Inbound)
      modifies this
      ensures AsLayer() == FromServer(old(AsLayer()), m).0
      ensures toConsumer == old(toConsumer) + FromServer(old(AsLayer()), m).1 && toServer == old(toServer)
    {
      if m.Confirmed? && m.id in pendingSubscriptions {
        var p := pendingSubscriptions[m.id];
        pendingSubscriptions := pendingSubscriptions - {m.id};
        if p.reconnectFor.Some? {
          var c := p.reconnectFor.value;
          if c in activeSubscriptions {
            currentToConsumer := currentToConsumer - {activeSubscriptions[c].currentSubId};
            activeSubscriptions := activeSubscriptions[c := activeSubscriptions[c].(currentSubId := m.subId)];
            currentToConsumer := currentToConsumer[m.subId := c];
          }
          return;
        }
        activeSubscriptions := activeSubscriptions[m.subId := ActiveSubscription(m.id, p.payload, m.subId)];
        currentToConsumer := currentToConsumer[m.subId := m.subId];
      } else if m.Notification? && m.subId in currentToConsumer && currentToConsumer[m.subId] != m.subId {
        toConsumer := toConsumer + [Notification(currentToConsumer[m.subId], m.event)];
        return;
      }
      toConsumer := toConsumer + [m];
    }

    method Send(m: Outbound)
      modifies this
      ensures AsLayer() == FromConsumer(old(AsLayer()), m).0
      ensures toServer == old(toServer) + [FromConsumer(old(AsLayer()), m).1] && toConsumer == old(toConsumer)
    {
      if m.Subscribe? {
        pendingSubscriptions := pendingSubscriptions[m.id := PendingSubscription(m.payload, None)];
      } else if m.Unsubscribe? && m.subId in activeSubscriptions {
        var sub := activeSubscriptions[m.subId];
        activeSubscriptions := activeSubscriptions - {m.subId};
        currentToConsumer := currentToConsumer - {sub.currentSubId};
        if sub.id in pendingSubscriptions && pendingSubscriptions[sub.id].reconnectFor == Some(m.subId) {
          pendingSubscriptions := pendingSubscriptions - {sub.id};
        }
        if sub.currentSubId != m.subId {
          toServer := toServer + [Unsubscribe(m.id, sub.currentSubId)];
          return;
        }
      }
      toServer := toServer + [m];
    }

    /** Re-sends every confirmed subscription once, and nothing else. */
    method OnReconnect() returns (order: seq<SubId>)
      modifies this
      ensures Visits(order, old(AsLayer()))
      ensures AsLayer() == RenewAll(old(AsLayer()), order)
      ensures toServer == old(toServer) + ResendAll(old(AsLayer()), order) && toConsumer == old(toConsumer)
    {
      var left := activeSubscriptions.Keys;
      ghost var l := AsLayer();
      order := [];
      while left != {}
        invariant forall c :: c in l.active <==> c in order || c in left
        invariant forall c :: c in order ==> c !in left
        invariant forall i, j :: 0 <= i < j < |order| ==> order[i] != order[j]
        invariant AsLayer() == RenewAll(l, order)
        invariant activeSubscriptions == l.active
        invariant toServer == old(toServer) + ResendAll(l, order) && toConsumer == old(toConsumer)
        decreases |left|
      {
        var c :| c in left;
        var sub := activeSubscriptions[c];
        pendingSubscriptions := pendingSubscriptions[sub.id := PendingSubscription(sub.payload, Some(c))];
        toServer := toServer + [Subscribe(sub.id, sub.payload)];
        OneMore(l, order, c);
        assert toServer == old(toServer) + (ResendAll(l, order) + [Subscribe(sub.id, sub.payload)]);
        order := order + [c];
        left := left - {c};
      }
    }

    method Disconnect()
      modifies this
      ensures AsLayer() == EmptyLayer && toServer == old(toServer) && toConsumer == old(toConsumer)
    {
      pendingSubscriptions, activeSubscriptions, currentToConsumer := map[], map[], map[];
    }
  }

  // ---- the layer between a consumer and a server that reconnects ---------------------------

  /**
   * `server` maps the live subscription ids of the current connection to the requests they serve; `leaving` are those
   * whose unsubscribe is on its way. `wire` is the subscribes the server has not answered yet, each as often as it was
   * sent; the transport underneath sends what was not answered again after a reconnect. `events` are on their way to
   * the layer. `owner` records, for every server id, the consumer id it was given out for; `requested` every subscribe.
   */
  datatype World = World(
    layer: Layer,
    server: map<SubId, RpcId>,
    leaving: set<SubId>,
    wire: multiset<RpcId>,
    events: seq<(SubId, Payload)>,
    owner: map<SubId, SubId>,
    requested: map<RpcId, Payload>)

  const FreshWorld := World(EmptyLayer, map[], {}, multiset{}, [], map[], map[])

  datatype Action =
    | Request(id: RpcId, payload: Payload)
    | Confirm(id: RpcId, subId: SubId)
    | Refuse(id: RpcId)
    | Reconnect(order: seq<SubId>)
    | Emit(subId: SubId, event: Payload)
    | Deliver
    | Drop(id: RpcId, consumer: SubId)
    | StopArrives(subId: SubId)

  predicate Replaying(w: World, consumer: SubId) {
    consumer in w.layer.active && w.layer.active[consumer].id in w.layer.pending
  }

  /** The request is a subscribe that was sent again. */
  predicate Renewing(w: World, id: RpcId) {
    id in w.layer.pending && w.layer.pending[id].reconnectFor.Some?
  }

  ghost predicate Enabled(w: World, act: Action) {
    match act
    case Request(id, _) => id !in w.requested
    case Confirm(id, subId) => id in w.wire && subId !in w.owner
    case Refuse(id) => id in w.wire
    case Reconnect(order) => Visits(order, w.layer)
    case Emit(subId, _) => subId in w.server
    case Deliver => w.events != []
    case Drop(_, consumer) => consumer in w.layer.active
    case StopArrives(subId) => subId in w.leaving
  }

  /** The subscribes among messages to the server, by their ids. */
  function Sent(ms: seq<Outbound>): multiset<RpcId> {
    if ms == [] then multiset{}
    else
      var m := ms[|ms| - 1];
      Sent(ms[..|ms| - 1]) + if m.Subscribe? then multiset{m.id} else multiset{}
  }

  function Next(w: World, act: Action): (World, seq<Inbound>)
    requires Enabled(w, act)
  {
    match act
    case Request(id, payload) =>
      var r := FromConsumer(w.layer, Subscribe(id, payload));
      (w.(layer := r.0, wire := w.wire + multiset{id}, requested := w.requested[id := payload]), [])
    case Confirm(id, subId) =>
      var r := FromServer(w.layer, Confirmed(id, subId));
      (w.(layer := r.0, server := w.server[subId := id], wire := w.wire - multiset{id},
          owner := w.owner[subId := NameOf(r.0, subId)]),
       r.1)
    case Refuse(id) =>
      var r := FromServer(w.layer, Refused(id));
      (w.(layer := r.0, wire := w.wire - multiset{id}), r.1)
    case Reconnect(order) =>
      (w.(layer := RenewAll(w.layer, order), server := map[], leaving := {},
          wire := w.wire + Sent(ResendAll(w.layer, order)), events := []),
       [])
    case Emit(subId, event) => (w.(events := w.events + [(subId, event)]), [])
    case Deliver =>
      var r := FromServer(w.layer, Notification(w.events[0].0, w.events[0].1));
      (w.(layer := r.0, events := w.events[1..]), r.1)
    case Drop(id, consumer) =>
      var r := FromConsumer(w.layer, Unsubscribe(id, consumer));
      (w.(layer := r.0, leaving := if r.1.subId in w.server then w.leaving + {r.1.subId} else w.leaving), [])
    case StopArrives(subId) => (w.(server := w.server - {subId}, leaving := w.leaving - {subId}), [])
  }

  // ---- the provider that never reconnects --------------------------------------------------

  /** An interruption of this connection loses what is on its way, and no subscription. */
  datatype Ideal = Ideal(server: map<SubId, RpcId>, leaving: set<SubId>, wire: set<RpcId>, events: seq<Inbound>)

  const FreshIdeal := Ideal(map[], {}, {}, [])

  predicate IdealEnabled(i: Ideal, act: Action) {
    match act
    case Request(_, _) => true
    case Confirm(id, subId) => id in i.wire && subId !in i.server && subId !in i.leaving
    case Refuse(id) => id in i.wire
    case Reconnect(_) => true
    case Emit(subId, _) => subId in i.server || subId in i.leaving
    case Deliver => i.events != []
    case Drop(_, subId) => subId in i.server
    case StopArrives(subId) => subId in i.leaving
  }

  function IdealNext(i: Ideal, act: Action): (Ideal, seq<Inbound>)
    requires IdealEnabled(i, act)
  {
    match act
    case Request(id, _) => (i.(wire := i.wire + {id}), [])
    case Confirm(id, subId) => (i.(server := i.server[subId := id], wire := i.wire - {id}), [Confirmed(id, subId)])
    case Refuse(id) => (i.(wire := i.wire - {id}), [Refused(id)])
    case Reconnect(_) => (i.(leaving := {}, events := []), [])
    case Emit(subId, event) => (i.(events := i.events + [Notification(subId, event)]), [])
    case Deliver => (i.(events := i.events[1..]), [i.events[0]])
    case Drop(_, subId) => (i.(server := i.server - {subId}, leaving := i.leaving + {subId}), [])
    case StopArrives(subId) => (i.(leaving := i.leaving - {subId}), [])
  }

  /** The consumer id a server id was given out for. */
  function OwnerOf(owner: map<SubId, SubId>, s: SubId): SubId {
    if s in owner then owner[s] else s
  }

  /** Events under the names the consumer knows. */
  function Named(owner: map<SubId, SubId>, events: seq<(SubId, Payload)>): (r: seq<Inbound>)
    ensures |r| == |events|
    ensures forall i :: 0 <= i < |r| ==> r[i] == Notification(OwnerOf(owner, events[i].0), events[i].1)
  {
    seq(|events|, i requires 0 <= i < |events| => Notification(OwnerOf(owner, events[i].0), events[i].1))
  }

  function Abstract(w: World): Ideal {
    Ideal(map c | c in w.layer.active :: w.layer.active[c].id,
          (set s | s in w.leaving :: OwnerOf(w.owner, s)),
          (set id | id in w.wire && id in w.layer.pending && w.layer.pending[id].reconnectFor.None?),
          Named(w.owner, w.events))
  }

  /** The step a provider without reconnects takes for `act`, if it takes one at all. */
  function AbstractAction(w: World, act: Action): Option<Action> {
    match act
    case Reconnect(_) => Some(Reconnect([]))
    case Confirm(id, subId) => if Renewing(w, id) then None else Some(act)
    case Refuse(id) => if Renewing(w, id) then None else Some(act)
    case Emit(subId, event) => Some(Emit(OwnerOf(w.owner, subId), event))
    case StopArrives(subId) => Some(StopArrives(OwnerOf(w.owner, subId)))
    case _ => Some(act)
  }

  // ---- invariant -------------------------------------------------------------------------

  ghost predicate Inverse(l: Layer) {
    && (forall c :: c in l.active ==>
          l.active[c].currentSubId in l.currentToConsumer && l.currentToConsumer[l.active[c].currentSubId] == c)
    && (forall s :: s in l.currentToConsumer ==>
          l.currentToConsumer[s] in l.active && l.active[l.currentToConsumer[s]].currentSubId == s)
  }

  /**
   * Nothing but subscription ids is translated. An unsubscribe goes out under the id that the server's events come in
   * under, those come in under the consumer's own, and only the answer to a renewal is kept from the consumer.
   */
  lemma OnlyIdsAreTranslated(l: Layer, out: Outbound, inc: Inbound)
    requires Inverse(l)
    ensures var sent := FromConsumer(l, out).1;
            if out.Unsubscribe? && out.subId in l.active
            then sent.Unsubscribe? && sent.id == out.id && sent.subId in l.currentToConsumer
                 && FromServer(l, Notification(sent.subId, [])).1 == [Notification(out.subId, [])]
            else sent == out
    ensures var seen := FromServer(l, inc).1;
            if inc.Confirmed? && inc.id in l.pending && l.pending[inc.id].reconnectFor.Some? then seen == []
            else if inc.Notification? && inc.subId in l.currentToConsumer
            then seen == [Notification(l.currentToConsumer[inc.subId], inc.event)]
            else seen == [inc]
  {
  }

  ghost predicate DistinctIds(l: Layer) {
    forall c, d :: c in l.active && d in l.active && l.active[c].id == l.active[d].id ==> c == d
  }

  /** A pending request is fresh, or renews the confirmed subscription it belongs to. */
  ghost predicate PendingKnown(l: Layer) {
    forall id :: id in l.pending ==>
      match l.pending[id].reconnectFor
      case None => forall c :: c in l.active ==> l.active[c].id != id
      case Some(c) => c in l.active && l.active[c].id == id && l.active[c].payload == l.pending[id].payload
  }

  /** The server serves exactly the confirmed subscriptions that are not being renewed, besides those being left. */
  ghost predicate ServerMatches(w: World) {
    && (forall c :: c in w.layer.active && !Replaying(w, c) ==>
          && w.layer.active[c].currentSubId in w.server
          && w.server[w.layer.active[c].currentSubId] == w.layer.active[c].id)
    && (forall s :: s in w.server && s !in w.leaving ==>
          && s in w.layer.currentToConsumer
          && w.layer.currentToConsumer[s] in w.layer.active
          && w.layer.active[w.layer.currentToConsumer[s]].id == w.server[s]
          && !Replaying(w, w.layer.currentToConsumer[s]))
  }

  /** What is being left is no longer the consumer's, and each of a different former subscription. */
  ghost predicate LeavingKnown(w: World) {
    && w.leaving <= w.server.Keys && w.leaving !! w.layer.currentToConsumer.Keys
    && (forall s :: s in w.leaving ==>
          s in w.owner && w.owner[s] in w.owner && w.owner[s] !in w.layer.active)
    && (forall s, t :: s in w.leaving && t in w.leaving && OwnerOf(w.owner, s) == OwnerOf(w.owner, t) ==> s == t)
  }

  ghost predicate Recorded(w: World) {
    && w.layer.active.Keys <= w.owner.Keys && w.server.Keys <= w.owner.Keys
    && (forall s :: s in w.layer.currentToConsumer ==>
          s in w.owner && w.owner[s] == w.layer.currentToConsumer[s])
    && (forall c :: c in w.layer.active ==>
          w.layer.active[c].id in w.requested && w.requested[w.layer.active[c].id] == w.layer.active[c].payload)
    && (forall id :: id in w.layer.pending ==>
          id in w.requested && w.requested[id] == w.layer.pending[id].payload)
  }

  /**
   * What is on the wire is pending, and is there once; what else is pending is a first subscribe the server refused.
   */
  ghost predicate WireKnown(w: World) {
    && (forall id: RpcId :: w.wire[id] <= 1)
    && (forall id: RpcId :: id in w.wire ==> id in w.layer.pending)
    && (forall id :: id in w.layer.pending && id !in w.wire ==> w.layer.pending[id].reconnectFor.None?)
  }

  /** The name of an event is translated, or needs no translation; and nothing being renewed has events on the way. */
  predicate EventNamed(w: World, s: SubId) {
    && s in w.owner
    && (s in w.layer.currentToConsumer || w.owner[s] == s)
    && (s in w.layer.currentToConsumer ==> !Replaying(w, w.layer.currentToConsumer[s]))
  }

  ghost predicate EventsNamed(w: World) {
    forall i :: 0 <= i < |w.events| ==> EventNamed(w, w.events[i].0)
  }

  ghost predicate LayerOk(l: Layer) {
    Inverse(l) && DistinctIds(l) && PendingKnown(l)
  }

  ghost predicate ServerOk(w: World) {
    ServerMatches(w) && LeavingKnown(w) && EventsNamed(w)
  }

  ghost predicate Good(w: World) {
    LayerOk(w.layer) && WireKnown(w) && Recorded(w) && ServerOk(w)
  }

  lemma FreshWorldIsGood()
    ensures Good(FreshWorld)
  {
  }

  // ---- reconnecting ------------------------------------------------------------------------

  function ActiveIds(l: Layer): set<RpcId> {
    set c | c in l.active :: l.active[c].id
  }

  lemma {:induction false} RenewedPending(l: Layer, order: seq<SubId>)
    requires forall c :: c in order ==> c in l.active
    requires DistinctIds(l)
    ensures var r := RenewAll(l, order);
            && r == l.(pending := r.pending)
            && (forall c :: c in order ==>
                  l.active[c].id in r.pending
                  && r.pending[l.active[c].id] == PendingSubscription(l.active[c].payload, Some(c)))
            && (forall id :: (forall c :: c in order ==> l.active[c].id != id) ==>
                  (id in r.pending <==> id in l.pending) && (id in r.pending ==> r.pending[id] == l.pending[id]))
  {
    if order != [] {
      var init, c := order[..|order| - 1], order[|order| - 1];
      RenewedPending(l, init);
      assert forall d :: d in order <==> d in init || d == c;
    }
  }

  /** Each entry that is visited puts one subscribe on the wire. */
  lemma {:induction false} SentOnce(l: Layer, order: seq<SubId>, id: RpcId)
    requires DistinctIds(l) && forall c :: c in order ==> c in l.active
    requires forall i, j :: 0 <= i < j < |order| ==> order[i] != order[j]
    ensures Sent(ResendAll(l, order))[id] == if exists c :: c in order && l.active[c].id == id then 1 else 0
  {
    if order != [] {
      var init, c := order[..|order| - 1], order[|order| - 1];
      SentOnce(l, init, id);
      OneMoreSent(l, init, c);
      hide Sent, ResendAll;
      assert order == init + [c];
      assert c !in init;
    }
  }

  lemma OneMoreSent(l: Layer, init: seq<SubId>, c: SubId)
    requires c in l.active && forall d :: d in init ==> d in l.active
    ensures forall d :: d in init + [c] <==> d in init || d == c
    ensures Sent(ResendAll(l, init + [c])) == Sent(ResendAll(l, init)) + multiset{l.active[c].id}
  {
    OneMore(l, init, c);
    var m: Outbound := Subscribe(l.active[c].id, l.active[c].payload);
    var ms := ResendAll(l, init);
    assert (ms + [m])[..|ms|] == ms && (ms + [m])[|ms|] == m;
  }

  lemma SentIsActive(l: Layer, order: seq<SubId>)
    requires DistinctIds(l) && Visits(order, l)
    ensures Sent(ResendAll(l, order)) == multiset(ActiveIds(l))
  {
    forall id: RpcId ensures Sent(ResendAll(l, order))[id] == multiset(ActiveIds(l))[id] {
      SentOnce(l, order, id);
    }
  }

  /** The layer right after a reconnect: everything confirmed is being renewed. */
  ghost predicate AllRenewed(l: Layer, l': Layer) {
    && l' == l.(pending := l'.pending)
    && (forall c :: c in l.active ==>
          l.active[c].id in l'.pending
          && l'.pending[l.active[c].id] == PendingSubscription(l.active[c].payload, Some(c)))
    && (forall id :: (forall c :: c in l.active ==> l.active[c].id != id) ==>
          (id in l'.pending <==> id in l.pending) && (id in l'.pending ==> l'.pending[id] == l.pending[id]))
  }

  /** What a reconnect does to the world. */
  ghost predicate Reconnected(w: World, w': World) {
    && AllRenewed(w.layer, w'.layer)
    && w' == w.(layer := w'.layer, server := map[], leaving := {}, events := [],
                wire := w.wire + multiset(ActiveIds(w.layer)))
  }

  lemma ReconnectEffect(w: World, order: seq<SubId>)
    requires DistinctIds(w.layer) && Enabled(w, Reconnect(order))
    ensures Reconnected(w, Next(w, Reconnect(order)).0)
  {
    hide RenewAll, ResendAll, Sent;
    RenewedPending(w.layer, order);
    SentIsActive(w.layer, order);
  }

  lemma RenewedKeepsPending(l: Layer, l': Layer)
    requires AllRenewed(l, l') && DistinctIds(l) && PendingKnown(l)
    ensures PendingKnown(l')
  {
  }

  lemma RenewedKeepsLayer(l: Layer, l': Layer)
    requires AllRenewed(l, l') && LayerOk(l)
    ensures LayerOk(l')
  {
    RenewedKeepsPending(l, l');
    hide PendingKnown;
  }

  lemma RenewedKeepsRecorded(w: World, w': World)
    requires Reconnected(w, w') && Recorded(w)
    ensures Recorded(w')
  {
  }

  lemma RenewedServer(w: World, w': World)
    requires Reconnected(w, w')
    ensures ServerOk(w')
  {
    forall c | c in w'.layer.active ensures Replaying(w', c) {}
  }

  /** Nothing of what is renewed is on the wire already. */
  ghost predicate NothingRenewed(w: World) {
    forall c :: c in w.layer.active ==> w.layer.active[c].id !in w.wire
  }

  lemma RenewedWire(w: World, w': World)
    requires Reconnected(w, w') && PendingKnown(w.layer)
    requires forall id: RpcId :: w.wire[id] <= 1 && (id in w.wire ==> id in w.layer.pending)
    ensures WireKnown(w') <==> NothingRenewed(w)
  {
    if NothingRenewed(w) {
      forall id: RpcId ensures w'.wire[id] <= 1 && (id in w'.wire ==> id in w'.layer.pending) {
        if id in ActiveIds(w.layer) {
          var c :| c in w.layer.active && w.layer.active[c].id == id;
        }
      }
      forall id | id in w'.layer.pending && id !in w'.wire ensures w'.layer.pending[id].reconnectFor.None? {
        assert id !in ActiveIds(w.layer);
        assert forall c :: c in w.layer.active ==> w.layer.active[c].id != id;
      }
    } else {
      var c :| c in w.layer.active && w.layer.active[c].id in w.wire;
      assert w.layer.active[c].id in ActiveIds(w.layer);
      assert w'.wire[w.layer.active[c].id] == 2;
    }
  }

  /** Good but for renewals the server has refused: their subscriptions are served no more. */
  ghost predicate Renewable(w: World) {
    && LayerOk(w.layer) && Recorded(w)
    && (forall id: RpcId :: w.wire[id] <= 1 && (id in w.wire ==> id in w.layer.pending))
  }

  lemma GoodIsRenewable(w: World)
    requires Good(w)
    ensures Renewable(w)
  {
  }

  /**
   * A reconnect renews everything, also what the server refused to renew before. It is clean exactly when no renewal
   * of an earlier reconnect is still on the wire: that one would be there twice, and answered twice.
   */
  lemma ReconnectMakesGood(w: World, order: seq<SubId>)
    requires Renewable(w) && Enabled(w, Reconnect(order))
    ensures Good(Next(w, Reconnect(order)).0) <==> NothingRenewed(w)
  {
    var w' := Next(w, Reconnect(order)).0;
    ReconnectEffect(w, order);
    hide Next, RenewAll;
    RenewedKeepsLayer(w.layer, w'.layer);
    RenewedKeepsRecorded(w, w');
    RenewedServer(w, w');
    RenewedWire(w, w');
    hide LayerOk, Recorded, ServerOk, WireKnown, NothingRenewed;
  }

  // ---- every orderly step keeps the invariant, and no other --------------------------------

  lemma RequestKeepsLayer(l: Layer, id: RpcId, payload: Payload)
    requires LayerOk(l) && forall c :: c in l.active ==> l.active[c].id != id
    ensures LayerOk(FromConsumer(l, Subscribe(id, payload)).0)
  {
  }

  lemma RequestKeepsRecords(w: World, id: RpcId, payload: Payload)
    requires WireKnown(w) && Recorded(w) && Enabled(w, Request(id, payload))
    ensures var w' := Next(w, Request(id, payload)).0; WireKnown(w') && Recorded(w')
  {
    assert id !in w.layer.pending && w.wire[id] == 0;
  }

  lemma RequestKeepsGood(w: World, id: RpcId, payload: Payload)
    requires Good(w) && Enabled(w, Request(id, payload))
    ensures Good(Next(w, Request(id, payload)).0)
  {
    assert forall c :: c in w.layer.active ==> w.layer.active[c].id != id;
    RequestKeepsLayer(w.layer, id, payload);
    RequestKeepsRecords(w, id, payload);
    RequestKeepsServer(w, id, payload);
    hide ServerOk, LayerOk, WireKnown, Recorded;
  }

  lemma RequestKeepsServer(w: World, id: RpcId, payload: Payload)
    requires ServerOk(w) && Enabled(w, Request(id, payload))
    requires forall c :: c in w.layer.active ==> w.layer.active[c].id != id
    ensures ServerOk(Next(w, Request(id, payload)).0)
  {
    var w' := Next(w, Request(id, payload)).0;
    assert w' == w.(layer := w'.layer, wire := w'.wire, requested := w'.requested);
    assert w'.layer == w.layer.(pending := w'.layer.pending);
    forall c ensures Replaying(w', c) <==> Replaying(w, c) {}
    hide Next, Replaying;
    SameServer(w, w');
  }

  lemma SameServer(w: World, w': World)
    requires ServerOk(w)
    requires w' == w.(layer := w.layer.(pending := w'.layer.pending), wire := w'.wire, requested := w'.requested)
    requires forall c :: Replaying(w', c) <==> Replaying(w, c)
    ensures ServerOk(w')
  {
    hide Replaying;
    forall i | 0 <= i < |w.events| ensures EventNamed(w', w.events[i].0) { assert EventNamed(w, w.events[i].0); }
  }

  lemma FirstConfirmKeepsLayer(l: Layer, id: RpcId, subId: SubId)
    requires LayerOk(l)
    requires id in l.pending && l.pending[id].reconnectFor.None?
    requires subId !in l.currentToConsumer && subId !in l.active
    ensures LayerOk(FromServer(l, Confirmed(id, subId)).0)
  {
  }

  /** A server id never seen before is in none of the tables. */
  lemma FreshId(w: World, subId: SubId)
    requires Recorded(w) && subId !in w.owner
    ensures subId !in w.layer.active && subId !in w.layer.currentToConsumer && subId !in w.server
  {
  }

  lemma ConfirmKeepsWire(w: World, id: RpcId, subId: SubId)
    requires WireKnown(w) && PendingKnown(w.layer) && Enabled(w, Confirm(id, subId))
    ensures WireKnown(Next(w, Confirm(id, subId)).0)
  {
  }

  lemma FirstConfirmKeepsServer(w: World, id: RpcId, subId: SubId)
    requires LayerOk(w.layer) && ServerMatches(w) && Enabled(w, Confirm(id, subId))
    requires id in w.layer.pending && w.layer.pending[id].reconnectFor.None?
    requires subId !in w.layer.active && subId !in w.layer.currentToConsumer && subId !in w.server
    ensures ServerMatches(Next(w, Confirm(id, subId)).0)
  {
    hide DistinctIds;
    var w' := Next(w, Confirm(id, subId)).0;
    forall c | c in w'.layer.active ensures Replaying(w', c) <==> c != subId && Replaying(w, c) {}
    forall s | s in w'.server && s !in w'.leaving
      ensures s in w'.layer.currentToConsumer && w'.layer.currentToConsumer[s] in w'.layer.active
      ensures w'.layer.active[w'.layer.currentToConsumer[s]].id == w'.server[s]
      ensures !Replaying(w', w'.layer.currentToConsumer[s])
    {
      if s != subId { assert w.layer.currentToConsumer[s] != subId; }
    }
  }

  lemma FirstConfirmKeepsEvents(w: World, id: RpcId, subId: SubId)
    requires LayerOk(w.layer) && EventsNamed(w) && Enabled(w, Confirm(id, subId))
    requires id in w.layer.pending && w.layer.pending[id].reconnectFor.None?
    requires subId !in w.layer.active && subId !in w.layer.currentToConsumer
    ensures EventsNamed(Next(w, Confirm(id, subId)).0)
  {
    hide DistinctIds;
    var w' := Next(w, Confirm(id, subId)).0;
    forall c | c in w.layer.active ensures c in w'.layer.active && (Replaying(w', c) <==> Replaying(w, c)) {}
    forall i | 0 <= i < |w'.events| ensures EventNamed(w', w'.events[i].0) {
      assert EventNamed(w, w.events[i].0);
    }
  }

  lemma ConfirmKeepsRecords(w: World, id: RpcId, subId: SubId)
    requires LayerOk(w.layer) && Recorded(w) && Enabled(w, Confirm(id, subId)) && id in w.layer.pending
    ensures Recorded(Next(w, Confirm(id, subId)).0)
  {
    FreshId(w, subId);
    hide DistinctIds;
  }

  /** A new consumer id is none that is being left. */
  lemma ConfirmKeepsLeaving(w: World, id: RpcId, subId: SubId)
    requires LayerOk(w.layer) && LeavingKnown(w) && Enabled(w, Confirm(id, subId)) && id in w.layer.pending
    ensures LeavingKnown(Next(w, Confirm(id, subId)).0)
  {
    hide DistinctIds;
  }

  lemma FirstConfirmKeepsGood(w: World, id: RpcId, subId: SubId)
    requires Good(w) && Enabled(w, Confirm(id, subId)) && w.layer.pending[id].reconnectFor.None?
    ensures Good(Next(w, Confirm(id, subId)).0)
  {
    hide LayerOk, WireKnown, ServerMatches, EventsNamed, Recorded, LeavingKnown, Next;
    WireIsPending(w);
    FreshId(w, subId);
    FirstConfirmLayer(w, id, subId);
    FirstConfirmKeepsServer(w, id, subId);
    FirstConfirmKeepsEvents(w, id, subId);
    ConfirmKeepsRecords(w, id, subId);
    ConfirmKeepsLeaving(w, id, subId);
  }

  lemma FirstConfirmLayer(w: World, id: RpcId, subId: SubId)
    requires LayerOk(w.layer) && WireKnown(w) && Enabled(w, Confirm(id, subId))
    requires id in w.layer.pending && w.layer.pending[id].reconnectFor.None?
    requires subId !in w.layer.active && subId !in w.layer.currentToConsumer
    ensures var w' := Next(w, Confirm(id, subId)).0; LayerOk(w'.layer) && WireKnown(w')
  {
    FirstConfirmKeepsLayer(w.layer, id, subId);
    ConfirmKeepsWire(w, id, subId);
  }

  lemma RenewalKeepsLayer(l: Layer, id: RpcId, subId: SubId)
    requires LayerOk(l)
    requires id in l.pending && l.pending[id].reconnectFor.Some? && subId !in l.currentToConsumer
    ensures LayerOk(FromServer(l, Confirmed(id, subId)).0)
  {
  }

  /** Only the renewed subscription stops being renewed. */
  lemma RenewalEnds(w: World, id: RpcId, subId: SubId)
    requires DistinctIds(w.layer) && PendingKnown(w.layer) && Enabled(w, Confirm(id, subId))
    requires id in w.layer.pending && w.layer.pending[id].reconnectFor.Some?
    ensures var w' := Next(w, Confirm(id, subId)).0;
            forall c :: c in w.layer.active ==>
              c in w'.layer.active
              && (Replaying(w', c) <==> c != w.layer.pending[id].reconnectFor.value && Replaying(w, c))
  {
  }

  lemma RenewalKeepsServer(w: World, id: RpcId, subId: SubId)
    requires LayerOk(w.layer) && ServerMatches(w) && Enabled(w, Confirm(id, subId))
    requires id in w.layer.pending && w.layer.pending[id].reconnectFor.Some?
    requires subId !in w.layer.currentToConsumer && subId !in w.server
    ensures ServerMatches(Next(w, Confirm(id, subId)).0)
  {
    RenewalEnds(w, id, subId);
    var w' := Next(w, Confirm(id, subId)).0;
    var consumer := w.layer.pending[id].reconnectFor.value;
    assert consumer in w.layer.active && w.layer.active[consumer].id == id && Replaying(w, consumer);
    hide DistinctIds, PendingKnown, Replaying;
    forall s | s in w'.server && s !in w'.leaving
      ensures s in w'.layer.currentToConsumer && w'.layer.currentToConsumer[s] in w'.layer.active
      ensures w'.layer.active[w'.layer.currentToConsumer[s]].id == w'.server[s]
      ensures !Replaying(w', w'.layer.currentToConsumer[s])
    {
      if s != subId { assert w.layer.currentToConsumer[s] != consumer; }
    }
  }

  lemma RenewalKeepsEvents(w: World, id: RpcId, subId: SubId)
    requires LayerOk(w.layer) && EventsNamed(w) && Enabled(w, Confirm(id, subId))
    requires id in w.layer.pending && w.layer.pending[id].reconnectFor.Some?
    requires subId !in w.layer.currentToConsumer
    ensures EventsNamed(Next(w, Confirm(id, subId)).0)
  {
    var w' := Next(w, Confirm(id, subId)).0;
    var consumer := w.layer.pending[id].reconnectFor.value;
    assert Replaying(w, consumer);
    forall c | c in w'.layer.active ensures Replaying(w', c) <==> c != consumer && Replaying(w, c) {}
    hide PendingKnown, DistinctIds;
    forall i | 0 <= i < |w'.events| ensures EventNamed(w', w'.events[i].0) {
      assert EventNamed(w, w.events[i].0) && w.events[i].0 != subId;
    }
  }

  lemma RenewalKeepsGood(w: World, id: RpcId, subId: SubId)
    requires Good(w) && Enabled(w, Confirm(id, subId)) && w.layer.pending[id].reconnectFor.Some?
    ensures Good(Next(w, Confirm(id, subId)).0)
  {
    hide LayerOk, WireKnown, ServerMatches, EventsNamed, LeavingKnown, Recorded, Next;
    WireIsPending(w);
    FreshId(w, subId);
    RenewalLayer(w, id, subId);
    RenewalKeepsServer(w, id, subId);
    RenewalKeepsEvents(w, id, subId);
    ConfirmKeepsRecords(w, id, subId);
    ConfirmKeepsLeaving(w, id, subId);
  }

  lemma RenewalLayer(w: World, id: RpcId, subId: SubId)
    requires LayerOk(w.layer) && WireKnown(w) && Enabled(w, Confirm(id, subId))
    requires id in w.layer.pending && w.layer.pending[id].reconnectFor.Some? && subId !in w.layer.currentToConsumer
    ensures var w' := Next(w, Confirm(id, subId)).0; LayerOk(w'.layer) && WireKnown(w')
  {
    RenewalKeepsLayer(w.layer, id, subId);
    ConfirmKeepsWire(w, id, subId);
  }

  lemma RefuseKeepsGood(w: World, id: RpcId)
    requires Good(w) && Enabled(w, Refuse(id)) && !Renewing(w, id)
    ensures Good(Next(w, Refuse(id)).0)
  {
    var w' := Next(w, Refuse(id)).0;
    SameButWire(w, w');
    hide LayerOk, Recorded, ServerOk;
  }

  /** What is on the wire matters to nothing else. */
  lemma SameButWire(w: World, w': World)
    requires w' == w.(wire := w'.wire)
    requires Recorded(w) && ServerOk(w)
    ensures Recorded(w') && ServerOk(w')
  {
    forall c | c in w.layer.active ensures Replaying(w, c) <==> Replaying(w', c) {}
    forall i | 0 <= i < |w.events| ensures EventNamed(w', w.events[i].0) { assert EventNamed(w, w.events[i].0); }
  }

  /** An event of a subscription that the consumer has left, and that it knows by another id. */
  predicate Late(w: World, s: SubId) {
    s in w.leaving && s in w.owner && w.owner[s] != s
  }

  lemma EmitKeepsGood(w: World, s: SubId, event: Payload)
    requires Good(w) && Enabled(w, Emit(s, event))
    ensures Good(Next(w, Emit(s, event)).0) <==> !Late(w, s)
  {
    var w' := Next(w, Emit(s, event)).0;
    assert ServerMatches(w') && LeavingKnown(w') && WireKnown(w') && Recorded(w') by { SameButEvents(w, w'); }
    forall t ensures EventNamed(w', t) <==> EventNamed(w, t) {}
    assert EventNamed(w, s) <==> !Late(w, s);
    hide LayerOk, WireKnown, Recorded, ServerMatches, LeavingKnown, EventNamed;
    forall i | 0 <= i < |w.events| ensures EventNamed(w', w'.events[i].0) { assert w'.events[i] == w.events[i]; }
    assert w'.events[|w.events|].0 == s;
  }

  lemma SameButEvents(w: World, w': World)
    requires w' == w.(events := w'.events)
    requires ServerMatches(w) && LeavingKnown(w) && WireKnown(w) && Recorded(w)
    ensures ServerMatches(w') && LeavingKnown(w') && WireKnown(w') && Recorded(w')
  {
    forall c | c in w.layer.active ensures Replaying(w, c) <==> Replaying(w', c) {}
  }

  lemma DeliverKeepsGood(w: World)
    requires Good(w) && w.events != []
    ensures Good(Next(w, Deliver).0)
  {
    var w' := Next(w, Deliver).0;
    assert w' == w.(events := w.events[1..]);
    SameButEvents(w, w');
    hide LayerOk, WireKnown, Recorded, ServerMatches, LeavingKnown;
    forall i | 0 <= i < |w'.events| ensures EventNamed(w', w'.events[i].0) {
      assert w'.events[i] == w.events[i + 1] && EventNamed(w, w.events[i + 1].0);
    }
  }

  lemma StopKeepsServer(w: World, s: SubId)
    requires Inverse(w.layer) && ServerMatches(w) && LeavingKnown(w) && Recorded(w) && s in w.leaving
    ensures var w' := w.(server := w.server - {s}, leaving := w.leaving - {s});
            ServerMatches(w') && LeavingKnown(w') && Recorded(w')
  {
    var w' := w.(server := w.server - {s}, leaving := w.leaving - {s});
    forall c | c in w.layer.active ensures Replaying(w, c) <==> Replaying(w', c) {}
  }

  lemma StopKeepsGood(w: World, s: SubId)
    requires Good(w) && Enabled(w, StopArrives(s))
    ensures Good(Next(w, StopArrives(s)).0)
  {
    hide Inverse, DistinctIds, PendingKnown, ServerMatches, LeavingKnown, Recorded;
    StopKeepsServer(w, s);
    var w' := Next(w, StopArrives(s)).0;
    forall i | 0 <= i < |w.events| ensures EventNamed(w', w.events[i].0) { assert EventNamed(w, w.events[i].0); }
  }

  lemma DropKeepsLayer(l: Layer, consumer: SubId)
    requires LayerOk(l) && consumer in l.active
    ensures var l' := RemoveSubscription(l, consumer);
            && LayerOk(l')
            && l'.active == l.active - {consumer}
            && l'.currentToConsumer == l.currentToConsumer - {l.active[consumer].currentSubId}
            && l'.pending == if l.active[consumer].id in l.pending then l.pending - {l.active[consumer].id}
                             else l.pending
  {
  }

  /** No event of the subscription is on the way under an id that the consumer does not know. */
  ghost predicate NothingRenamed(w: World, consumer: SubId)
    requires consumer in w.layer.active
  {
    var s := w.layer.active[consumer].currentSubId;
    s == consumer || forall i :: 0 <= i < |w.events| ==> w.events[i].0 != s
  }

  lemma DropKeepsRecorded(w: World, id: RpcId, consumer: SubId)
    requires Recorded(w) && Enabled(w, Drop(id, consumer))
    ensures Recorded(Next(w, Drop(id, consumer)).0)
  {
  }

  lemma CleanDropKeepsServer(w: World, id: RpcId, consumer: SubId)
    requires LayerOk(w.layer) && ServerMatches(w) && Enabled(w, Drop(id, consumer)) && !Replaying(w, consumer)
    ensures ServerMatches(Next(w, Drop(id, consumer)).0)
  {
    DropKeepsLayer(w.layer, consumer);
    hide RemoveSubscription, DistinctIds, PendingKnown;
    var w' := Next(w, Drop(id, consumer)).0;
    assert w'.leaving == w.leaving + {w.layer.active[consumer].currentSubId};
    forall c | c in w'.layer.active ensures Replaying(w', c) <==> Replaying(w, c) {}
    forall t | t in w'.server && t !in w'.leaving
      ensures t in w'.layer.currentToConsumer && w'.layer.currentToConsumer[t] in w'.layer.active
    {
      assert w.layer.currentToConsumer[t] != consumer;
    }
  }

  lemma CleanDropKeepsLeaving(w: World, id: RpcId, consumer: SubId)
    requires LayerOk(w.layer) && ServerMatches(w) && LeavingKnown(w) && Recorded(w)
    requires Enabled(w, Drop(id, consumer)) && !Replaying(w, consumer)
    ensures LeavingKnown(Next(w, Drop(id, consumer)).0)
  {
    DropKeepsLayer(w.layer, consumer);
    var s := w.layer.active[consumer].currentSubId;
    assert s in w.server && w.owner[s] == consumer;
    hide RemoveSubscription, LayerOk, ServerMatches, Recorded;
    var w' := Next(w, Drop(id, consumer)).0;
    assert w'.leaving == w.leaving + {s};
  }

  lemma CleanDropKeepsEvents(w: World, id: RpcId, consumer: SubId)
    requires Good(w) && Enabled(w, Drop(id, consumer)) && !Replaying(w, consumer)
    ensures EventsNamed(Next(w, Drop(id, consumer)).0) <==> NothingRenamed(w, consumer)
  {
    DropKeepsLayer(w.layer, consumer);
    hide RemoveSubscription, WireKnown, ServerMatches, LeavingKnown;
    var w' := Next(w, Drop(id, consumer)).0;
    var s := w.layer.active[consumer].currentSubId;
    assert w.owner[s] == consumer;
    forall c | c in w'.layer.active ensures Replaying(w', c) <==> Replaying(w, c) {}
    forall i | 0 <= i < |w.events|
      ensures EventNamed(w', w.events[i].0) <==> w.events[i].0 != s || s == consumer
    {
      assert EventNamed(w, w.events[i].0);
    }
  }

  /**
   * Unsubscribing is clean exactly when no renewal of that subscription is on the wire and none of its events is on the
   * way under a new id. Otherwise a subscribe stays on the wire, or an event in the queue, that no entry of the layer
   * owns.
   */
  lemma DropKeepsGood(w: World, id: RpcId, consumer: SubId)
    requires Good(w) && Enabled(w, Drop(id, consumer))
    ensures Good(Next(w, Drop(id, consumer)).0) <==> !Replaying(w, consumer) && NothingRenamed(w, consumer)
  {
    DropKeepsLayer(w.layer, consumer);
    DropKeepsRecorded(w, id, consumer);
    hide RemoveSubscription, LayerOk, Recorded;
    if !Replaying(w, consumer) {
      CleanDropKeepsServer(w, id, consumer);
      CleanDropKeepsLeaving(w, id, consumer);
      CleanDropKeepsEvents(w, id, consumer);
      hide ServerMatches, LeavingKnown, EventsNamed, NothingRenamed;
      assert w.layer.active[consumer].id !in w.layer.pending;
    } else {
      hide ServerOk;
      ReplayingIsOnWire(w, consumer);
    }
  }

  lemma ReplayingIsOnWire(w: World, consumer: SubId)
    requires LayerOk(w.layer) && WireKnown(w) && Replaying(w, consumer)
    ensures w.layer.active[consumer].id in w.wire && w.layer.pending[w.layer.active[consumer].id].reconnectFor.Some?
  {
  }

  // ---- what the consumer sees otherwise ------------------------------------------------------

  /**
   * After an unsubscribe that overtakes a renewal, the server's answer reaches the consumer as a second answer to a
   * request that was answered before, and its events, under an id the consumer never held, keep coming.
   */
  lemma DroppedRenewalLeaks(w: World, id: RpcId, consumer: SubId, subId: SubId, event: Payload)
    requires Good(w) && Enabled(w, Drop(id, consumer)) && Replaying(w, consumer) && subId !in w.owner
    ensures var renewal := w.layer.active[consumer].id;
            var w1 := Next(w, Drop(id, consumer)).0;
            && Enabled(w1, Confirm(renewal, subId))
            && (var r := Next(w1, Confirm(renewal, subId));
                && r.1 == [Confirmed(renewal, subId)]
                && Enabled(r.0, Emit(subId, event))
                && FromServer(r.0.layer, Notification(subId, event)).1 == [Notification(subId, event)]
                && subId !in r.0.layer.active)
  {
    FreshId(w, subId);
    ReplayingIsOnWire(w, consumer);
    DropKeepsLayer(w.layer, consumer);
    hide Good, LayerOk, Recorded, RemoveSubscription;
  }

  /** So does the second answer to a renewal that a second reconnect put on the wire again. */
  lemma DoubleRenewalLeaks(w: World, order: seq<SubId>, consumer: SubId, first: SubId, second: SubId, event: Payload)
    requires Good(w) && Enabled(w, Reconnect(order)) && Replaying(w, consumer)
    requires first !in w.owner && second !in w.owner && first != second
    ensures var renewal := w.layer.active[consumer].id;
            var w1 := Next(w, Reconnect(order)).0;
            && Enabled(w1, Confirm(renewal, first))
            && (var r1 := Next(w1, Confirm(renewal, first));
                && r1.1 == []
                && Enabled(r1.0, Confirm(renewal, second))
                && (var r2 := Next(r1.0, Confirm(renewal, second));
                    && r2.1 == [Confirmed(renewal, second)]
                    && Enabled(r2.0, Emit(second, event))
                    && FromServer(r2.0.layer, Notification(second, event)).1 == [Notification(second, event)]
                    && second !in r2.0.layer.active))
  {
    FreshId(w, second);
    ReplayingIsOnWire(w, consumer);
    ReconnectEffect(w, order);
    assert w.layer.active[consumer].id in ActiveIds(w.layer);
    hide Good, Recorded, LayerOk, RenewAll;
    var w1 := Next(w, Reconnect(order)).0;
    AnsweredTwice(w, w1, consumer, first, second);
    SecondAnswer(Next(w1, Confirm(w.layer.active[consumer].id, first)).0, w.layer.active[consumer].id, second, event);
  }

  /** An answer to a request the layer no longer waits for goes through, and so do the events of its subscription. */
  lemma SecondAnswer(w: World, id: RpcId, subId: SubId, event: Payload)
    requires Enabled(w, Confirm(id, subId)) && id !in w.layer.pending
    requires subId !in w.layer.active && subId !in w.layer.currentToConsumer
    ensures var r := Next(w, Confirm(id, subId));
            && r.1 == [Confirmed(id, subId)]
            && Enabled(r.0, Emit(subId, event))
            && FromServer(r.0.layer, Notification(subId, event)).1 == [Notification(subId, event)]
            && subId !in r.0.layer.active
  {
  }

  lemma AnsweredTwice(w: World, w1: World, consumer: SubId, first: SubId, second: SubId)
    requires Reconnected(w, w1) && consumer in w.layer.active
    requires w.layer.active[consumer].id in w.wire && w.layer.active[consumer].id in ActiveIds(w.layer)
    requires first !in w.owner && second !in w.owner && first != second
    requires second !in w.layer.active && second !in w.layer.currentToConsumer
    ensures var renewal := w.layer.active[consumer].id;
            && Enabled(w1, Confirm(renewal, first))
            && (var r1 := Next(w1, Confirm(renewal, first));
                && r1.1 == [] && renewal in r1.0.wire && renewal !in r1.0.layer.pending
                && second !in r1.0.owner && second !in r1.0.layer.active && second !in r1.0.layer.currentToConsumer)
  {
    var renewal := w.layer.active[consumer].id;
    assert w1.wire[renewal] >= 2;
  }

  /** Delivers the events of a queue in turn. */
  function DeliverAll(l: Layer, events: seq<(SubId, Payload)>): (r: seq<Inbound>)
    ensures |r| == |events|
    ensures forall i :: 0 <= i < |r| ==> r[i] == Notification(NameOf(l, events[i].0), events[i].1)
  {
    seq(|events|, i requires 0 <= i < |events| => Notification(NameOf(l, events[i].0), events[i].1))
  }

  /**
   * What is on the way when the consumer unsubscribes reaches it under the ids it knows exactly when nothing of the
   * subscription is on the way under a new id.
   */
  lemma DropNamesIff(w: World, id: RpcId, consumer: SubId)
    requires Good(w) && Enabled(w, Drop(id, consumer))
    ensures var l' := Next(w, Drop(id, consumer)).0.layer;
            DeliverAll(l', w.events) == Named(w.owner, w.events) <==> NothingRenamed(w, consumer)
  {
    DropKeepsLayer(w.layer, consumer);
    var l' := Next(w, Drop(id, consumer)).0.layer;
    var s := w.layer.active[consumer].currentSubId;
    assert w.owner[s] == consumer;
    hide RemoveSubscription, WireKnown, ServerMatches, LeavingKnown;
    forall i | 0 <= i < |w.events|
      ensures NameOf(l', w.events[i].0) == OwnerOf(w.owner, w.events[i].0) <==> w.events[i].0 != s || s == consumer
    {
      assert EventNamed(w, w.events[i].0);
    }
    var shown, meant := DeliverAll(l', w.events), Named(w.owner, w.events);
    if !NothingRenamed(w, consumer) {
      var i :| 0 <= i < |w.events| && w.events[i].0 == s;
      assert shown[i] != meant[i];
    }
  }

  // ---- transparency ----------------------------------------------------------------------

  /**
   * No unsubscribe overtakes a renewal or a renamed event of the same subscription, no renamed subscription that was
   * left sends on, the server refuses no renewal, and no reconnect comes before the renewals of the last are answered.
   */
  ghost predicate Orderly(w: World, act: Action)
    requires Enabled(w, act)
  {
    match act
    case Drop(_, consumer) => !Replaying(w, consumer) && NothingRenamed(w, consumer)
    case Emit(s, _) => !Late(w, s)
    case Refuse(id) => !Renewing(w, id)
    case Reconnect(_) => NothingRenewed(w)
    case _ => true
  }

  lemma WireIsPending(w: World)
    requires Good(w)
    ensures forall id: RpcId :: id in w.wire ==> id in w.layer.pending
  {
  }

  lemma ConfirmKeepsGood(w: World, id: RpcId, subId: SubId)
    requires Good(w) && Enabled(w, Confirm(id, subId))
    ensures Good(Next(w, Confirm(id, subId)).0)
  {
    WireIsPending(w);
    hide Good, Next;
    if w.layer.pending[id].reconnectFor.None? {
      FirstConfirmKeepsGood(w, id, subId);
    } else {
      RenewalKeepsGood(w, id, subId);
    }
  }

  lemma StepKeepsGood(w: World, act: Action)
    requires Good(w) && Enabled(w, act) && Orderly(w, act)
    ensures Good(Next(w, act).0)
  {
    hide Good, Next;
    match act {
      case Request(id, payload) => RequestKeepsGood(w, id, payload);
      case Confirm(id, subId) => ConfirmKeepsGood(w, id, subId);
      case Refuse(id) => RefuseKeepsGood(w, id);
      case Reconnect(order) =>
        GoodIsRenewable(w);
        ReconnectMakesGood(w, order);
      case Emit(s, event) => EmitKeepsGood(w, s, event);
      case Deliver => DeliverKeepsGood(w);
      case Drop(id, consumer) => DropKeepsGood(w, id, consumer);
      case StopArrives(s) => StopKeepsGood(w, s);
    }
  }

  ghost predicate Simulates(w: World, act: Action)
    requires Enabled(w, act)
  {
    var (w', seen) := Next(w, act);
    match AbstractAction(w, act)
    case None => seen == [] && Abstract(w') == Abstract(w)
    case Some(a) => IdealEnabled(Abstract(w), a) && IdealNext(Abstract(w), a) == (Abstract(w'), seen)
  }

  /** A confirmed name is not one that is being left. */
  lemma NamesApart(w: World, subId: SubId)
    requires Good(w) && subId !in w.owner
    ensures subId !in Abstract(w).server && subId !in Abstract(w).leaving
  {
    FreshId(w, subId);
    forall s | s in w.leaving ensures OwnerOf(w.owner, s) != subId {}
  }

  lemma RequestSimulates(w: World, id: RpcId, payload: Payload)
    requires Good(w) && Enabled(w, Request(id, payload))
    ensures Simulates(w, Request(id, payload))
  {
    hide ServerOk, Inverse, DistinctIds, PendingKnown;
    var w' := Next(w, Request(id, payload)).0;
    assert Abstract(w').wire == Abstract(w).wire + {id};
  }

  /** Giving out a new name changes none of the old ones. */
  lemma OldNames(w: World, w': World, s: SubId, c: SubId)
    requires Good(w) && w'.owner == w.owner[s := c] && s !in w.owner
    requires w'.leaving == w.leaving && w'.events == w.events
    ensures Abstract(w').leaving == Abstract(w).leaving && Abstract(w').events == Abstract(w).events
  {
    forall t | t in w.leaving ensures OwnerOf(w'.owner, t) == OwnerOf(w.owner, t) {}
    forall i | 0 <= i < |w.events| ensures OwnerOf(w'.owner, w.events[i].0) == OwnerOf(w.owner, w.events[i].0) {
      assert EventNamed(w, w.events[i].0);
    }
  }

  lemma FirstConfirmAbstracts(w: World, id: RpcId, subId: SubId)
    requires WireKnown(w) && Enabled(w, Confirm(id, subId)) && subId !in w.layer.active
    requires id in w.layer.pending && w.layer.pending[id].reconnectFor.None?
    ensures Next(w, Confirm(id, subId)).1 == [Confirmed(id, subId)]
    ensures Abstract(Next(w, Confirm(id, subId)).0).server == Abstract(w).server[subId := id]
    ensures Abstract(Next(w, Confirm(id, subId)).0).wire == Abstract(w).wire - {id}
  {
    hide OwnerOf, Named;
    var w' := Next(w, Confirm(id, subId)).0;
    assert Abstract(w').server == Abstract(w).server[subId := id];
    assert w'.wire == w.wire - multiset{id} && w'.layer.pending == w.layer.pending - {id};
    hide Next, Abstract;
    AnsweredFresh(w, w', id);
  }

  /** A subscribe that was answered is on the wire no more. */
  lemma AnsweredFresh(w: World, w': World, id: RpcId)
    requires WireKnown(w) && w'.wire == w.wire - multiset{id} && w'.layer.pending == w.layer.pending - {id}
    ensures Abstract(w').wire == Abstract(w).wire - {id}
  {
    hide OwnerOf, Named;
    assert w'.wire[id] == 0;
  }

  lemma FirstConfirmSimulates(w: World, id: RpcId, subId: SubId)
    requires Good(w) && Enabled(w, Confirm(id, subId)) && w.layer.pending[id].reconnectFor.None?
    ensures Simulates(w, Confirm(id, subId))
  {
    FreshId(w, subId);
    NamesApart(w, subId);
    FirstConfirmAbstracts(w, id, subId);
    var w' := Next(w, Confirm(id, subId)).0;
    OldNames(w, w', subId, w'.owner[subId]);
    hide Good, Next, Recorded;
  }

  lemma RenewalAbstracts(w: World, id: RpcId, subId: SubId)
    requires PendingKnown(w.layer) && Enabled(w, Confirm(id, subId)) && id in w.layer.pending
    requires w.layer.pending[id].reconnectFor.Some?
    ensures var (w', seen) := Next(w, Confirm(id, subId));
            && seen == [] && Abstract(w').server == Abstract(w).server && Abstract(w').wire == Abstract(w).wire
  {
    var w' := Next(w, Confirm(id, subId)).0;
    assert Abstract(w').server == Abstract(w).server;
    assert Abstract(w').wire == Abstract(w).wire;
  }

  lemma RenewalSimulates(w: World, id: RpcId, subId: SubId)
    requires Good(w) && Enabled(w, Confirm(id, subId)) && w.layer.pending[id].reconnectFor.Some?
    ensures Simulates(w, Confirm(id, subId))
  {
    RenewalAbstracts(w, id, subId);
    var w' := Next(w, Confirm(id, subId)).0;
    OldNames(w, w', subId, w'.owner[subId]);
    hide Good, Next;
  }

  lemma ConfirmSimulates(w: World, id: RpcId, subId: SubId)
    requires Good(w) && Enabled(w, Confirm(id, subId))
    ensures Simulates(w, Confirm(id, subId))
  {
    WireIsPending(w);
    hide Good, Simulates;
    if w.layer.pending[id].reconnectFor.None? {
      FirstConfirmSimulates(w, id, subId);
    } else {
      RenewalSimulates(w, id, subId);
    }
  }

  lemma RefuseSimulates(w: World, id: RpcId)
    requires Good(w) && Enabled(w, Refuse(id)) && !Renewing(w, id)
    ensures Simulates(w, Refuse(id))
  {
    var w' := Next(w, Refuse(id)).0;
    hide ServerOk, Recorded, LayerOk;
    assert w'.wire[id] == 0;
    assert Abstract(w').wire == Abstract(w).wire - {id};
  }

  lemma ReconnectSimulates(w: World, order: seq<SubId>)
    requires Good(w) && Enabled(w, Reconnect(order)) && NothingRenewed(w)
    ensures Simulates(w, Reconnect(order))
  {
    hide RenewAll, ResendAll, Sent, Recorded, ServerOk, Inverse;
    ReconnectEffect(w, order);
    RenewedAbstraction(w, Next(w, Reconnect(order)).0);
  }

  lemma RenewedAbstraction(w: World, w': World)
    requires Reconnected(w, w') && PendingKnown(w.layer)
    ensures Abstract(w') == Abstract(w).(leaving := {}, events := [])
  {
    hide Named, OwnerOf;
    assert Named(w'.owner, w'.events) == [];
    assert (set s | s in w'.leaving :: OwnerOf(w'.owner, s)) == {};
    RenewedFresh(w, w');
  }

  /** The first subscribes on the wire are the same as before. */
  lemma RenewedFresh(w: World, w': World)
    requires Reconnected(w, w') && PendingKnown(w.layer)
    ensures Abstract(w').wire == Abstract(w).wire
  {
    hide Named, OwnerOf;
    forall id: RpcId ensures id in Abstract(w').wire <==> id in Abstract(w).wire {
      if id in ActiveIds(w.layer) {
        var c :| c in w.layer.active && w.layer.active[c].id == id;
      } else {
        assert forall c :: c in w.layer.active ==> w.layer.active[c].id != id;
        assert multiset(ActiveIds(w.layer))[id] == 0;
      }
    }
  }

  lemma DropSimulates(w: World, id: RpcId, consumer: SubId)
    requires Good(w) && Enabled(w, Drop(id, consumer)) && !Replaying(w, consumer)
    ensures Simulates(w, Drop(id, consumer))
  {
    DropKeepsLayer(w.layer, consumer);
    var s := w.layer.active[consumer].currentSubId;
    assert s in w.server && OwnerOf(w.owner, s) == consumer;
    hide RemoveSubscription, Good, LayerOk, OwnerOf, Named, Abstract;
    var w' := Next(w, Drop(id, consumer)).0;
    assert w'.leaving == w.leaving + {s};
    assert w'.layer.pending == w.layer.pending;
    DroppedAbstraction(w, w', consumer, s);
  }

  lemma DroppedAbstraction(w: World, w': World, consumer: SubId, s: SubId)
    requires consumer in w.layer.active && OwnerOf(w.owner, s) == consumer
    requires w' == w.(layer := w'.layer, leaving := w.leaving + {s})
    requires w'.layer.pending == w.layer.pending && w'.layer.active == w.layer.active - {consumer}
    ensures consumer in Abstract(w).server
    ensures Abstract(w') == Abstract(w).(server := Abstract(w).server - {consumer},
                                         leaving := Abstract(w).leaving + {consumer})
  {
    hide OwnerOf, Named;
    assert Abstract(w').server == Abstract(w).server - {consumer};
    assert Abstract(w').leaving == Abstract(w).leaving + {consumer};
  }

  lemma EmitSimulates(w: World, s: SubId, event: Payload)
    requires Good(w) && Enabled(w, Emit(s, event))
    ensures Simulates(w, Emit(s, event))
  {
    assert s !in w.leaving ==> OwnerOf(w.owner, s) in Abstract(w).server;
    hide LayerOk, Recorded, ServerOk, WireKnown;
    var w' := Next(w, Emit(s, event)).0;
    assert Abstract(w').events == Abstract(w).events + [Notification(OwnerOf(w.owner, s), event)];
  }

  lemma DeliverSimulates(w: World)
    requires Good(w) && w.events != []
    ensures Simulates(w, Deliver)
  {
    var w' := Next(w, Deliver).0;
    assert EventNamed(w, w.events[0].0);
    assert NameOf(w.layer, w.events[0].0) == OwnerOf(w.owner, w.events[0].0);
    hide LayerOk, Recorded, ServerOk, WireKnown;
    assert Abstract(w').events == Abstract(w).events[1..];
  }

  lemma StopSimulates(w: World, s: SubId)
    requires Good(w) && Enabled(w, StopArrives(s))
    ensures Simulates(w, StopArrives(s))
  {
    var w' := Next(w, StopArrives(s)).0;
    hide LayerOk, Recorded, ServerMatches, EventsNamed, WireKnown;
    assert Abstract(w').leaving == Abstract(w).leaving - {OwnerOf(w.owner, s)};
  }

  /** The consumer cannot tell a step from the step of a provider that never reconnects. */
  lemma StepSimulates(w: World, act: Action)
    requires Good(w) && Enabled(w, act) && Orderly(w, act)
    ensures Simulates(w, act)
  {
    hide Good, Simulates;
    match act {
      case Request(id, payload) => RequestSimulates(w, id, payload);
      case Confirm(id, subId) => ConfirmSimulates(w, id, subId);
      case Refuse(id) => RefuseSimulates(w, id);
      case Reconnect(order) => ReconnectSimulates(w, order);
      case Emit(s, event) => EmitSimulates(w, s, event);
      case Deliver => DeliverSimulates(w);
      case Drop(id, consumer) => DropSimulates(w, id, consumer);
      case StopArrives(s) => StopSimulates(w, s);
    }
  }

  lemma RefusalShows(w: World, id: RpcId)
    requires Enabled(w, Refuse(id)) && Renewing(w, id)
    ensures !Simulates(w, Refuse(id))
  {
    assert Next(w, Refuse(id)).1 == [Refused(id)];
  }

  /** The step is invisible, and leaves a state from which the next ones can be, exactly when it is orderly. */
  lemma StepInvisibleIff(w: World, act: Action)
    requires Good(w) && Enabled(w, act)
    ensures Simulates(w, act) && Good(Next(w, act).0) <==> Orderly(w, act)
  {
    hide Good, Simulates, Next;
    if Orderly(w, act) {
      StepKeepsGood(w, act);
      StepSimulates(w, act);
    } else {
      match act {
        case Drop(id, consumer) => DropKeepsGood(w, id, consumer);
        case Emit(s, event) => EmitKeepsGood(w, s, event);
        case Refuse(id) => RefusalShows(w, id);
        case Reconnect(order) =>
          GoodIsRenewable(w);
          ReconnectMakesGood(w, order);
      }
    }
  }

  /**
   * A refused renewal reaches the consumer as a second answer to its request. The subscription gets no more events,
   * and the next reconnect repairs it if no other renewal is still on the wire.
   */
  lemma RefusedRenewalSeen(w: World, id: RpcId, order: seq<SubId>)
    requires Good(w) && Enabled(w, Refuse(id)) && Renewing(w, id)
    ensures var r := Next(w, Refuse(id));
            && r.1 == [Refused(id)]
            && w.layer.pending[id].reconnectFor.value in r.0.layer.active
            && (forall s :: s in r.0.server && s !in r.0.leaving ==> r.0.server[s] != id)
            && (Enabled(r.0, Reconnect(order)) ==> (Good(Next(r.0, Reconnect(order)).0) <==> NothingRenewed(r.0)))
  {
    var w' := Next(w, Refuse(id)).0;
    RefusedIsRenewable(w, id);
    if Enabled(w', Reconnect(order)) { ReconnectMakesGood(w', order); }
    hide Next, Renewable, Recorded, Inverse, NothingRenewed;
    var c := w.layer.pending[id].reconnectFor.value;
    assert w.layer.active[c].id == id && Replaying(w, c);
  }

  lemma RefusedIsRenewable(w: World, id: RpcId)
    requires Good(w) && Enabled(w, Refuse(id))
    ensures var w' := Next(w, Refuse(id)).0;
            && Renewable(w') && w'.layer == w.layer && w'.server == w.server && w'.leaving == w.leaving
            && Next(w, Refuse(id)).1 == [Refused(id)]
  {
    SameButWire(w, Next(w, Refuse(id)).0);
    hide LayerOk, Recorded, ServerOk;
  }

  // ---- whole runs --------------------------------------------------------------------------

  ghost predicate EnabledRun(w: World, acts: seq<Action>)
    decreases |acts|
  {
    acts == [] || (Enabled(w, acts[0]) && EnabledRun(Next(w, acts[0]).0, acts[1..]))
  }

  ghost predicate OrderlyRun(w: World, acts: seq<Action>)
    requires EnabledRun(w, acts)
    decreases |acts|
  {
    acts == [] || (Orderly(w, acts[0]) && OrderlyRun(Next(w, acts[0]).0, acts[1..]))
  }

  /** Every step of the run looks like one of a provider that never reconnects, and leaves layer and server matched. */
  ghost predicate InvisibleRun(w: World, acts: seq<Action>)
    requires EnabledRun(w, acts)
    decreases |acts|
  {
    acts == [] || (Simulates(w, acts[0]) && Good(Next(w, acts[0]).0) && InvisibleRun(Next(w, acts[0]).0, acts[1..]))
  }

  /** Everything the consumer sees during a run. */
  ghost function Seen(w: World, acts: seq<Action>): seq<Inbound>
    requires EnabledRun(w, acts)
    decreases |acts|
  {
    if acts == [] then [] else Next(w, acts[0]).1 + Seen(Next(w, acts[0]).0, acts[1..])
  }

  /** The same run without renewals, in consumer ids. */
  ghost function AbstractRun(w: World, acts: seq<Action>): seq<Action>
    requires EnabledRun(w, acts)
    decreases |acts|
  {
    if acts == [] then []
    else
      var rest := AbstractRun(Next(w, acts[0]).0, acts[1..]);
      match AbstractAction(w, acts[0])
      case None => rest
      case Some(a) => [a] + rest
  }

  predicate IdealRun(i: Ideal, acts: seq<Action>)
    decreases |acts|
  {
    acts == [] || (IdealEnabled(i, acts[0]) && IdealRun(IdealNext(i, acts[0]).0, acts[1..]))
  }

  function IdealSeen(i: Ideal, acts: seq<Action>): seq<Inbound>
    requires IdealRun(i, acts)
    decreases |acts|
  {
    if acts == [] then [] else IdealNext(i, acts[0]).1 + IdealSeen(IdealNext(i, acts[0]).0, acts[1..])
  }

  lemma {:induction false} RunInvisibleIff(w: World, acts: seq<Action>)
    requires Good(w) && EnabledRun(w, acts)
    ensures InvisibleRun(w, acts) <==> OrderlyRun(w, acts)
    decreases |acts|
  {
    hide Good, Simulates, Next, Enabled, Orderly;
    if acts != [] {
      StepInvisibleIff(w, acts[0]);
      if Orderly(w, acts[0]) { RunInvisibleIff(Next(w, acts[0]).0, acts[1..]); }
    }
  }

  /** Over any orderly run the consumer sees exactly what a provider that never reconnects would have shown it. */
  lemma {:induction false} ReconnectsAreInvisible(w: World, acts: seq<Action>)
    requires Good(w) && EnabledRun(w, acts) && OrderlyRun(w, acts)
    ensures IdealRun(Abstract(w), AbstractRun(w, acts))
    ensures Seen(w, acts) == IdealSeen(Abstract(w), AbstractRun(w, acts))
    decreases |acts|
  {
    hide Good, Abstract, Next, IdealNext, IdealEnabled, Enabled, Orderly;
    if acts != [] {
      StepKeepsGood(w, acts[0]);
      StepSimulates(w, acts[0]);
      var rest := AbstractRun(Next(w, acts[0]).0, acts[1..]);
      ReconnectsAreInvisible(Next(w, acts[0]).0, acts[1..]);
      if AbstractAction(w, acts[0]).Some? {
        assert ([AbstractAction(w, acts[0]).value] + rest)[1..] == rest;
      }
    }
  }

  /** In particular over any such run from the start. */
  lemma InvisibleFromTheStart(acts: seq<Action>)
    requires EnabledRun(FreshWorld, acts) && OrderlyRun(FreshWorld, acts)
    ensures IdealRun(FreshIdeal, AbstractRun(FreshWorld, acts))
    ensures Seen(FreshWorld, acts) == IdealSeen(FreshIdeal, AbstractRun(FreshWorld, acts))
  {
    FreshWorldIsGood();
    assert Abstract(FreshWorld) == FreshIdeal;
    ReconnectsAreInvisible(FreshWorld, acts);
  }

  // ---- the runs in which they are not --------------------------------------------------------

  lemma RunStep(w: World, act: Action, rest: seq<Action>)
    requires Enabled(w, act) && EnabledRun(Next(w, act).0, rest)
    ensures EnabledRun(w, [act] + rest)
    ensures Seen(w, [act] + rest) == Next(w, act).1 + Seen(Next(w, act).0, rest)
  {
    assert ([act] + rest)[1..] == rest;
  }

  /** A subscription confirmed under id 5, being renewed after a reconnect: `copies` of the renewal are on the wire. */
  function Renewed(payload: Payload, copies: nat): World {
    World(Layer(map[0 := PendingSubscription(payload, Some(5))],
                map[5 := ActiveSubscription(0, payload, 5)], map[5 := 5]),
          map[], {}, multiset{}[0 := copies], [], map[5 := 5], map[0 := payload])
  }

  /** The renewal was answered with id 6. */
  function RenewedAs6(payload: Payload, copies: nat, events: seq<(SubId, Payload)>): World {
    World(Layer(map[], map[5 := ActiveSubscription(0, payload, 6)], map[6 := 5]),
          map[6 := 0], {}, multiset{}[0 := copies], events, map[5 := 5, 6 := 5], map[0 := payload])
  }

  function Prefix(payload: Payload): seq<Action> {
    [Request(0, payload), Confirm(0, 5), Reconnect([5])]
  }

  /** Subscribe, confirm, reconnect. */
  lemma FirstSteps(payload: Payload)
    ensures Enabled(FreshWorld, Request(0, payload))
    ensures var w1 := Next(FreshWorld, Request(0, payload)).0;
            && Enabled(w1, Confirm(0, 5)) && Next(w1, Confirm(0, 5)).1 == [Confirmed(0, 5)]
            && (var w2 := Next(w1, Confirm(0, 5)).0;
                Enabled(w2, Reconnect([5])) && Next(w2, Reconnect([5])) == (Renewed(payload, 1), []))
  {
    var w1 := Next(FreshWorld, Request(0, payload)).0;
    var w2 := Next(w1, Confirm(0, 5)).0;
    assert w2.layer == Layer(map[], map[5 := ActiveSubscription(0, payload, 5)], map[5 := 5]);
    ResentAlone(w2.layer);
    var w3 := Next(w2, Reconnect([5])).0;
    assert w3.wire == Renewed(payload, 1).wire;
    assert w3.layer == Renewed(payload, 1).layer;
  }

  lemma ResentAlone(l: Layer)
    requires l.active.Keys == {5}
    ensures ResendAll(l, [5]) == [Subscribe(l.active[5].id, l.active[5].payload)]
    ensures Sent(ResendAll(l, [5])) == multiset{l.active[5].id}
    ensures RenewAll(l, [5])
            == l.(pending := l.pending[l.active[5].id := PendingSubscription(l.active[5].payload, Some(5))])
  {
    assert [5][..0] == [];
    assert RenewAll(l, []) == l && ResendAll(l, []) == [];
    var ms: seq<Outbound> := [Subscribe(l.active[5].id, l.active[5].payload)];
    assert ms[..0] == [];
    assert Sent([]) == multiset{};
  }

  lemma FromTheStart(payload: Payload, rest: seq<Action>)
    requires EnabledRun(Renewed(payload, 1), rest)
    ensures EnabledRun(FreshWorld, Prefix(payload) + rest)
    ensures Seen(FreshWorld, Prefix(payload) + rest) == [Confirmed(0, 5)] + Seen(Renewed(payload, 1), rest)
  {
    hide Next, Enabled, EnabledRun, Seen, Renewed;
    FirstSteps(payload);
    var w1 := Next(FreshWorld, Request(0, payload)).0;
    var w2 := Next(w1, Confirm(0, 5)).0;
    RunStep(w2, Reconnect([5]), rest);
    RunStep(w1, Confirm(0, 5), [Reconnect([5])] + rest);
    RunStep(FreshWorld, Request(0, payload), [Confirm(0, 5)] + ([Reconnect([5])] + rest));
    assert Prefix(payload) + rest == [Request(0, payload)] + ([Confirm(0, 5)] + ([Reconnect([5])] + rest));
    assert Next(FreshWorld, Request(0, payload)).1 == [] by { NothingSeen(payload); }
  }

  lemma NothingSeen(payload: Payload)
    ensures Enabled(FreshWorld, Request(0, payload)) && Next(FreshWorld, Request(0, payload)).1 == []
  {
  }

  /** An event under an id the layer does not know goes through as it is. */
  lemma UnknownEvent(w: World, s: SubId, event: Payload)
    requires s in w.server && w.events == [] && s !in w.layer.currentToConsumer
    ensures EnabledRun(w, [Emit(s, event), Deliver])
    ensures Seen(w, [Emit(s, event), Deliver]) == [Notification(s, event)]
  {
    var w' := Next(w, Emit(s, event)).0;
    assert w'.events == [(s, event)];
    RunStep(w', Deliver, []);
    RunStep(w, Emit(s, event), [Deliver] + []);
    assert [Deliver] + [] == [Deliver] && [Emit(s, event)] + [Deliver] == [Emit(s, event), Deliver];
  }

  function DropsRenewal(event: Payload): seq<Action> {
    [Drop(1, 5), Confirm(0, 6), Emit(6, event), Deliver]
  }

  /** An unsubscribe overtakes the renewal: a second answer to request 0, and events under an id never given out. */
  lemma DroppedRenewalRun(payload: Payload, event: Payload)
    ensures EnabledRun(FreshWorld, Prefix(payload) + DropsRenewal(event))
    ensures Seen(FreshWorld, Prefix(payload) + DropsRenewal(event))
            == [Confirmed(0, 5), Confirmed(0, 6), Notification(6, event)]
  {
    var w := Renewed(payload, 1);
    var w1 := Next(w, Drop(1, 5)).0;
    assert w1.layer == EmptyLayer && 0 in w1.wire && 6 !in w1.owner;
    var w2 := Next(w1, Confirm(0, 6)).0;
    assert w2.layer == EmptyLayer && w2.events == [] && 6 in w2.server;
    hide EnabledRun, Seen;
    UnknownEvent(w2, 6, event);
    RunStep(w1, Confirm(0, 6), [Emit(6, event), Deliver]);
    RunStep(w, Drop(1, 5), [Confirm(0, 6)] + [Emit(6, event), Deliver]);
    assert DropsRenewal(event) == [Drop(1, 5)] + ([Confirm(0, 6)] + [Emit(6, event), Deliver]);
    FromTheStart(payload, DropsRenewal(event));
  }

  function ReconnectsAgain(event: Payload): seq<Action> {
    [Reconnect([5]), Confirm(0, 6), Confirm(0, 7), Emit(7, event), Deliver]
  }

  /** A second reconnect comes before the renewal is answered: the server answers both copies. */
  lemma DoubleRenewalRun(payload: Payload, event: Payload)
    ensures EnabledRun(FreshWorld, Prefix(payload) + ReconnectsAgain(event))
    ensures Seen(FreshWorld, Prefix(payload) + ReconnectsAgain(event))
            == [Confirmed(0, 5), Confirmed(0, 7), Notification(7, event)]
  {
    hide Next, Enabled, EnabledRun, Seen, Renewed, RenewedAs6;
    var w, w1, w2 := Renewed(payload, 1), Renewed(payload, 2), RenewedAs6(payload, 1, []);
    SecondReconnect(payload);
    FirstAnswer(payload, 2);
    AnswerAgain(payload);
    UnknownEvent(Next(w2, Confirm(0, 7)).0, 7, event);
    RunStep(w2, Confirm(0, 7), [Emit(7, event), Deliver]);
    RunStep(w1, Confirm(0, 6), [Confirm(0, 7)] + [Emit(7, event), Deliver]);
    RunStep(w, Reconnect([5]), [Confirm(0, 6)] + ([Confirm(0, 7)] + [Emit(7, event), Deliver]));
    assert ReconnectsAgain(event)
        == [Reconnect([5])] + ([Confirm(0, 6)] + ([Confirm(0, 7)] + [Emit(7, event), Deliver]));
    FromTheStart(payload, ReconnectsAgain(event));
  }

  lemma AnswerAgain(payload: Payload)
    ensures var w := RenewedAs6(payload, 1, []);
            && Enabled(w, Confirm(0, 7))
            && (var r := Next(w, Confirm(0, 7));
                r.1 == [Confirmed(0, 7)] && r.0.events == [] && 7 in r.0.server && 7 !in r.0.layer.currentToConsumer)
  {
  }

  lemma SecondReconnect(payload: Payload)
    ensures Enabled(Renewed(payload, 1), Reconnect([5]))
    ensures Next(Renewed(payload, 1), Reconnect([5])) == (Renewed(payload, 2), [])
  {
    ResentAlone(Renewed(payload, 1).layer);
    var w' := Next(Renewed(payload, 1), Reconnect([5])).0;
    assert w'.wire == Renewed(payload, 2).wire;
    assert w'.layer == Renewed(payload, 2).layer;
  }

  lemma FirstAnswer(payload: Payload, copies: nat)
    requires copies > 0
    ensures Enabled(Renewed(payload, copies), Confirm(0, 6))
    ensures Next(Renewed(payload, copies), Confirm(0, 6)) == (RenewedAs6(payload, copies - 1, []), [])
  {
    var w' := Next(Renewed(payload, copies), Confirm(0, 6)).0;
    assert w'.wire == RenewedAs6(payload, copies - 1, []).wire;
    assert w'.layer == RenewedAs6(payload, copies - 1, []).layer;
  }

  function DropsLate(event: Payload): seq<Action> {
    [Confirm(0, 6), Emit(6, event), Drop(1, 5), Deliver]
  }

  /** An unsubscribe overtakes an event of the renewed subscription, which arrives under its new id. */
  lemma LateEventRun(payload: Payload, event: Payload)
    ensures EnabledRun(FreshWorld, Prefix(payload) + DropsLate(event))
    ensures Seen(FreshWorld, Prefix(payload) + DropsLate(event)) == [Confirmed(0, 5), Notification(6, event)]
  {
    hide Next, Enabled, EnabledRun, Seen, Renewed, RenewedAs6;
    FirstAnswer(payload, 1);
    var w1, w2 := RenewedAs6(payload, 0, []), RenewedAs6(payload, 0, [(6, event)]);
    EmitsAs6(payload, event);
    var w3 := Next(w2, Drop(1, 5)).0;
    LastDelivery(w3);
    RunStep(w2, Drop(1, 5), [Deliver]);
    RunStep(w1, Emit(6, event), [Drop(1, 5)] + [Deliver]);
    RunStep(Renewed(payload, 1), Confirm(0, 6), [Emit(6, event)] + ([Drop(1, 5)] + [Deliver]));
    assert DropsLate(event) == [Confirm(0, 6)] + ([Emit(6, event)] + ([Drop(1, 5)] + [Deliver]));
    FromTheStart(payload, DropsLate(event));
  }

  lemma EmitsAs6(payload: Payload, event: Payload)
    ensures var w1, w2 := RenewedAs6(payload, 0, []), RenewedAs6(payload, 0, [(6, event)]);
            && Enabled(w1, Emit(6, event)) && Next(w1, Emit(6, event)) == (w2, [])
            && Enabled(w2, Drop(1, 5)) && Next(w2, Drop(1, 5)).1 == []
            && (var w3 := Next(w2, Drop(1, 5)).0; w3.layer == EmptyLayer && w3.events == [(6, event)])
  {
    var w1, w2 := RenewedAs6(payload, 0, []), RenewedAs6(payload, 0, [(6, event)]);
    assert w1.events + [(6, event)] == w2.events;
    assert Next(w2, Drop(1, 5)).0.layer == EmptyLayer;
  }

  lemma LastDelivery(w: World)
    requires w.layer == EmptyLayer && |w.events| == 1
    ensures EnabledRun(w, [Deliver])
    ensures Seen(w, [Deliver]) == [Notification(w.events[0].0, w.events[0].1)]
  {
    RunStep(w, Deliver, []);
    assert [Deliver] + [] == [Deliver];
  }

  /** Only confirmed subscriptions are re-sent, each once and with the payload the consumer first sent. */
  lemma {:induction false} OnlyConfirmedResent(w: World, order: seq<SubId>)
    requires Good(w) && Visits(order, w.layer)
    ensures var sent := ResendAll(w.layer, order);
            && |sent| == |w.layer.active|
            && forall m :: m in sent <==>
                 m.Subscribe? && m.id in ActiveIds(w.layer) && m.id in w.requested && m.payload == w.requested[m.id]
  {
    ResentElements(w.layer, order);
    OrderLength(w.layer.active.Keys, order);
    var sent := ResendAll(w.layer, order);
    forall m: Outbound | m.Subscribe? && m.id in ActiveIds(w.layer) && m.id in w.requested
                         && m.payload == w.requested[m.id]
      ensures m in sent {
      var c :| c in w.layer.active && w.layer.active[c].id == m.id;
    }
  }

  lemma {:induction false} ResentElements(l: Layer, order: seq<SubId>)
    requires forall c :: c in order ==> c in l.active
    ensures |ResendAll(l, order)| == |order|
    ensures forall m :: m in ResendAll(l, order) <==>
              exists c :: c in order && m == Subscribe(l.active[c].id, l.active[c].payload)
  {
    if order != [] {
      var init, last := order[..|order| - 1], order[|order| - 1];
      ResentElements(l, init);
      assert forall c :: c in order <==> c in init || c == last;
    }
  }

  lemma {:induction false} OrderLength(keys: set<SubId>, order: seq<SubId>)
    requires forall c :: c in order <==> c in keys
    requires forall i, j :: 0 <= i < j < |order| ==> order[i] != order[j]
    ensures |order| == |keys|
  {
    if order == [] {
      assert keys == {};
    } else {
      var init, last := order[..|order| - 1], order[|order| - 1];
      assert forall c :: c in order <==> c in init || c == last;
      OrderLength(keys - {last}, init);
    }
  }
}
