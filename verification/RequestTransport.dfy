/**
 * Request, cancel and response correlation between a caller and the handler of one address
 * (packages/host-api/src/transport.ts, `request` and `handleRequest`).
 */
module RequestTransport {
  import opened Common

  type Payload = Bytes

  datatype Answer = Value(value: Bytes) | Unsupported | MalformedFrame | HostFailure | Cancelled

  datatype CallFrame = Request(id: RequestId, payload: Payload) | Cancel(id: RequestId)

  datatype Response = Response(id: RequestId, answer: Answer)

  /** What became of a caller's promise. */
  datatype Promise = Pending | Settled(answer: Answer) | AbortedByCaller

  /** What a handler invocation did: a result that does not encode is answered as a host failure. */
  datatype Outcome = Returned(value: Bytes, encodes: bool) | Threw

  /**
   * The address of the calls at the host. `Unknown`: its build has no such method, which it tells the caller.
   * `Unheard`: the method exists but nothing handles it, or the host listens to no frames at all.
   */
  datatype Address = Unknown | Unheard | Handled

  /** `decodes`: the payloads the request codec of the address accepts. */
  datatype Peer = Peer(address: Address, decodes: Payload -> bool)

  /**
   * Handler invocations are told apart by serial number; `withdrawn` are those whose abort signal has fired.
   * `inFlight` is the handler's map from a request to the invocation that may still answer it.
   */
  datatype Host = Host(inFlight: map<RequestId, nat>, running: map<nat, RequestId>, withdrawn: set<nat>,
                       nextSerial: nat)

  const IdleHost := Host(map[], map[], {}, 0)

  function AnswerOf(outcome: Outcome): Answer {
    if outcome.Returned? && outcome.encodes then Value(outcome.value) else HostFailure
  }

  function OnCallFrame(p: Peer, h: Host, f: CallFrame): (Host, seq<Response>) {
    match f
    case Cancel(id) =>
      if p.address.Handled? && id in h.inFlight
      then (h.(inFlight := h.inFlight - {id}, withdrawn := h.withdrawn + {h.inFlight[id]}), [Response(id, Cancelled)])
      else (h, [])
    case Request(id, payload) =>
      if p.address.Unknown? then (h, [Response(id, Unsupported)])
      else if p.address.Unheard? then (h, [])
      else if !p.decodes(payload) then (h, [Response(id, MalformedFrame)])
      else
        (h.(inFlight := h.inFlight[id := h.nextSerial], running := h.running[h.nextSerial := id],
            nextSerial := h.nextSerial + 1), [])
  }

  predicate Current(h: Host, serial: nat)
    requires serial in h.running
  {
    h.running[serial] in h.inFlight && h.inFlight[h.running[serial]] == serial
  }

  /** A handler invocation settles; its answer is dropped unless the call is still its own. */
  function OnHandlerSettled(h: Host, serial: nat, outcome: Outcome): (Host, seq<Response>)
    requires serial in h.running
  {
    var id := h.running[serial];
    var rest := h.(running := h.running - {serial});
    if Current(h, serial)
    then (rest.(inFlight := h.inFlight - {id}), [Response(id, AnswerOf(outcome))])
    else (rest, [])
  }

  class RequestHandler {
    const peer: Peer
    var inFlight: map<RequestId, nat>
    var running: map<nat, RequestId>
    var withdrawn: set<nat>
    var nextSerial: nat
    var posted: seq<Response>

    function AsHost(): Host
      reads this
    {
      Host(inFlight, running, withdrawn, nextSerial)
    }

    constructor (peer: Peer)
      ensures AsHost() == IdleHost && posted == []
      ensures this.peer == peer
    {
      this.peer := peer;
      inFlight, running, withdrawn, nextSerial, posted := map[], map[], {}, 0, [];
    }

    method OnFrame(f: CallFrame)
      modifies this
      ensures AsHost() == OnCallFrame(peer, old(AsHost()), f).0
      ensures posted == old(posted) + OnCallFrame(peer, old(AsHost()), f).1
    {
      assert posted + [] == posted;
      if f.Cancel? {
        if peer.address.Handled? && f.id in inFlight {
          withdrawn := withdrawn + {inFlight[f.id]};
          inFlight := inFlight - {f.id};
          posted := posted + [Response(f.id, Cancelled)];
        }
      } else if peer.address.Unknown? {
        posted := posted + [Response(f.id, Unsupported)];
      } else if peer.address.Unheard? {
        return;
      } else if !peer.decodes(f.payload) {
        posted := posted + [Response(f.id, MalformedFrame)];
      } else {
        inFlight := inFlight[f.id := nextSerial];
        running := running[nextSerial := f.id];
        nextSerial := nextSerial + 1;
      }
    }

    method OnSettled(serial: nat, outcome: Outcome)
      requires serial in running
      modifies this
      ensures AsHost() == OnHandlerSettled(old(AsHost()), serial, outcome).0
      ensures posted == old(posted) + OnHandlerSettled(old(AsHost()), serial, outcome).1
      ensures var id := old(running)[serial];
              posted == if id in old(inFlight) && old(inFlight)[id] == serial
                        then old(posted) + [Response(id, match outcome
                                                         case Returned(value, true) => Value(value)
                                                         case _ => HostFailure)]
                        else old(posted)
    {
      assert posted + [] == posted;
      var id := running[serial];
      running := running - {serial};
      if id in inFlight && inFlight[id] == serial {
        inFlight := inFlight - {id};
        posted := posted + [Response(id, AnswerOf(outcome))];
      }
    }
  }

  // ---- caller and host over two ordered frame queues -------------------------------------------

  /** `sent` records every call; `delivered` are the responses that have left the queue to the caller. */
  datatype World = World(
    nextId: RequestId,
    promises: map<RequestId, Promise>,
    sent: map<RequestId, Payload>,
    toHost: seq<CallFrame>,
    host: Host,
    toCaller: seq<Response>,
    delivered: seq<Response>)

  const FreshWorld := World(0, map[], map[], [], IdleHost, [], [])

  datatype Action =
    | Call(payload: Payload)
    | Abort(id: RequestId)
    | HostReceives
    | HandlerSettles(serial: nat, outcome: Outcome)
    | CallerReceives

  predicate Enabled(w: World, act: Action) {
    match act
    case Call(_) => true
    case Abort(id) => id in w.promises && w.promises[id].Pending?
    case HostReceives => w.toHost != []
    case HandlerSettles(serial, _) => serial in w.host.running
    case CallerReceives => w.toCaller != []
  }

  function Post(w: World, r: (Host, seq<Response>)): World {
    w.(host := r.0, toCaller := w.toCaller + r.1)
  }

  /** A call listens for its response while its promise pends; settling or aborting removes the listener. */
  function Receive(w: World, r: Response): World {
    var w' := w.(delivered := w.delivered + [r]);
    if r.id in w.promises && w.promises[r.id].Pending?
    then w'.(promises := w.promises[r.id := Settled(r.answer)])
    else w'
  }

  function Next(p: Peer, w: World, act: Action): World
    requires Enabled(w, act)
  {
    match act
    case Call(payload) =>
      w.(nextId := w.nextId + 1,
         promises := w.promises[w.nextId := Pending],
         sent := w.sent[w.nextId := payload],
         toHost := w.toHost + [Request(w.nextId, payload)])
    case Abort(id) => w.(promises := w.promises[id := AbortedByCaller], toHost := w.toHost + [Cancel(id)])
    case HostReceives => Post(w.(toHost := w.toHost[1..]), OnCallFrame(p, w.host, w.toHost[0]))
    case HandlerSettles(serial, outcome) => Post(w, OnHandlerSettled(w.host, serial, outcome))
    case CallerReceives => Receive(w.(toCaller := w.toCaller[1..]), w.toCaller[0])
  }

  /** Every response frame the host ever posted, oldest first. */
  function Log(w: World): seq<Response> {
    w.delivered + w.toCaller
  }

  // ---- invariant -------------------------------------------------------------------------

  function RequestIds(q: seq<CallFrame>): set<RequestId> {
    set f | f in q && f.Request? :: f.id
  }

  function AnsweredIds(log: seq<Response>): set<RequestId> {
    set r | r in log :: r.id
  }

  /** A call is on its way, with a handler or answered; at an address nobody listens to it may also be lost. */
  ghost predicate Partition(p: Peer, calls: set<RequestId>, queued: set<RequestId>, held: set<RequestId>,
                            answered: set<RequestId>) {
    if p.address.Unheard? then queued <= calls && held == {} && answered == {}
    else
      && calls == queued + held + answered
      && queued !! held !! answered
  }

  /** No response frame is posted twice for an id. */
  ghost predicate AnsweredOnce(log: seq<Response>) {
    forall i, j :: 0 <= i < j < |log| ==> log[i].id != log[j].id
  }

  /** No request is queued twice, and a cancel follows the request it withdraws. */
  ghost predicate InOrder(q: seq<CallFrame>) {
    forall i, j :: 0 <= i < j < |q| && q[j].Request? ==> q[i].id != q[j].id
  }

  ghost predicate FramesKnown(q: seq<CallFrame>, sent: map<RequestId, Payload>, promises: map<RequestId, Promise>) {
    forall f :: f in q ==>
      && f.id in sent && f.id in promises
      && (f.Request? ==> f.payload == sent[f.id])
      && (f.Cancel? ==> promises[f.id].AbortedByCaller?)
  }

  /** A running invocation's signal has fired exactly when it may no longer answer, and then its caller aborted. */
  ghost predicate HandlersKnown(h: Host, promises: map<RequestId, Promise>) {
    && (forall id: RequestId :: id in h.inFlight ==>
          h.inFlight[id] in h.running && h.running[h.inFlight[id]] == id)
    && (forall s: nat :: s in h.running ==>
          && s < h.nextSerial
          && h.running[s] in promises
          && (s in h.withdrawn <==> !Current(h, s))
          && (s in h.withdrawn ==> promises[h.running[s]].AbortedByCaller?))
    && (forall s: nat :: s in h.withdrawn ==> s < h.nextSerial)
  }

  /** An invocation's request has left the queue, and one that lost its call holds no other. */
  ghost predicate Taken(h: Host, queued: set<RequestId>) {
    forall s: nat :: s in h.running ==>
      && h.running[s] !in queued
      && (s in h.withdrawn ==> h.running[s] !in h.inFlight)
  }

  ghost predicate PromisesKept(promises: map<RequestId, Promise>, delivered: seq<Response>) {
    && (forall r :: r in delivered ==>
          && r.id in promises
          && (promises[r.id] == Settled(r.answer) || promises[r.id].AbortedByCaller?))
    && (forall id: RequestId :: id in promises && promises[id].Settled? ==>
          Response(id, promises[id].answer) in delivered)
  }

  ghost predicate IdsDrawn(w: World) {
    && w.promises.Keys == w.sent.Keys
    && (forall id: RequestId :: id in w.sent <==> id < w.nextId)
  }

  /** Which failures the host may report for a call. */
  ghost predicate Justified(p: Peer, sent: map<RequestId, Payload>, promises: map<RequestId, Promise>, r: Response) {
    && r.id in sent && r.id in promises
    && !p.address.Unheard?
    && (r.answer.Unsupported? <==> p.address.Unknown?)
    && (r.answer.MalformedFrame? <==> p.address.Handled? && !p.decodes(sent[r.id]))
    && (r.answer.Cancelled? ==> promises[r.id].AbortedByCaller?)
  }

  ghost predicate HeldDecode(p: Peer, h: Host, sent: map<RequestId, Payload>) {
    && (forall id: RequestId :: id in h.inFlight ==> id in sent && p.decodes(sent[id]))
    && (h.running != map[] || h.inFlight != map[] ==> p.address.Handled?)
  }

  ghost predicate AllJustified(p: Peer, sent: map<RequestId, Payload>, promises: map<RequestId, Promise>,
                               log: seq<Response>) {
    forall r :: r in log ==> Justified(p, sent, promises, r)
  }

  ghost predicate Placed(p: Peer, w: World) {
    Partition(p, w.sent.Keys, RequestIds(w.toHost), w.host.inFlight.Keys, AnsweredIds(Log(w)))
  }

  ghost predicate Inv(p: Peer, w: World) {
    && Placed(p, w)
    && AnsweredOnce(Log(w))
    && InOrder(w.toHost)
    && FramesKnown(w.toHost, w.sent, w.promises)
    && HandlersKnown(w.host, w.promises)
    && Taken(w.host, RequestIds(w.toHost))
    && PromisesKept(w.promises, w.delivered)
    && IdsDrawn(w)
    && HeldDecode(p, w.host, w.sent)
    && AllJustified(p, w.sent, w.promises, Log(w))
  }

  lemma FreshWorldIsSafe(p: Peer)
    ensures Inv(p, FreshWorld)
  {
  }

  // ---- queues and logs as sets -----------------------------------------------------------

  lemma PushFrame(q: seq<CallFrame>, f: CallFrame)
    requires InOrder(q) && (f.Request? ==> forall g :: g in q ==> g.id != f.id)
    ensures RequestIds(q + [f]) == RequestIds(q) + (if f.Request? then {f.id} else {})
    ensures InOrder(q + [f])
  {
    assert forall g :: g in q + [f] <==> g in q || g == f;
  }

  lemma PopFrame(q: seq<CallFrame>)
    requires q != [] && InOrder(q)
    ensures RequestIds(q) == RequestIds(q[1..]) + (if q[0].Request? then {q[0].id} else {})
    ensures q[0].id !in RequestIds(q[1..])
    ensures InOrder(q[1..])
  {
    assert q == [q[0]] + q[1..];
    assert forall g :: g in q <==> g in q[1..] || g == q[0];
  }

  lemma PushAnswer(log: seq<Response>, r: Response)
    requires AnsweredOnce(log) && r.id !in AnsweredIds(log)
    ensures AnsweredIds(log + [r]) == AnsweredIds(log) + {r.id}
    ensures AnsweredOnce(log + [r])
  {
    assert forall g :: g in log + [r] <==> g in log || g == r;
    assert forall i :: 0 <= i < |log| ==> log[i] in log;
  }

  // ---- every step keeps the invariant ------------------------------------------------------

  /** Calling and aborting post nothing. */
  lemma SameLog(p: Peer, w: World, act: Action)
    requires Enabled(w, act) && (act.Call? || act.Abort? || act.CallerReceives?)
    ensures Log(Next(p, w, act)) == Log(w)
  {
  }

  lemma KnownFrames(w: World, f: CallFrame, sent: map<RequestId, Payload>, promises: map<RequestId, Promise>)
    requires FramesKnown(w.toHost, w.sent, w.promises) && IdsDrawn(w)
    requires f.id in sent && f.id in promises && (f.Request? ==> f.payload == sent[f.id])
             && (f.Cancel? ==> promises[f.id].AbortedByCaller?)
    requires forall id: RequestId :: id in w.sent ==> id in sent && sent[id] == w.sent[id]
    requires forall id: RequestId :: id in w.promises ==>
               id in promises && (w.promises[id].AbortedByCaller? ==> promises[id].AbortedByCaller?)
    ensures FramesKnown(w.toHost + [f], sent, promises)
  {
  }

  lemma NewId(w: World)
    requires IdsDrawn(w) && FramesKnown(w.toHost, w.sent, w.promises)
    ensures w.nextId !in w.sent && w.nextId !in w.promises && forall f :: f in w.toHost ==> f.id != w.nextId
  {
  }

  lemma CallKeepsPlaces(p: Peer, w: World, payload: Payload)
    requires Placed(p, w) && w.nextId !in w.sent && InOrder(w.toHost)
    requires forall f :: f in w.toHost ==> f.id != w.nextId
    ensures var w' := w.(nextId := w.nextId + 1, promises := w.promises[w.nextId := Pending],
                         sent := w.sent[w.nextId := payload], toHost := w.toHost + [Request(w.nextId, payload)]);
            Placed(p, w') && InOrder(w'.toHost) && RequestIds(w'.toHost) == RequestIds(w.toHost) + {w.nextId}
  {
    PushFrame(w.toHost, Request(w.nextId, payload));
    hide RequestIds, AnsweredIds, InOrder;
  }

  lemma CallKeepsInv(p: Peer, w: World, payload: Payload)
    requires Inv(p, w)
    ensures Inv(p, Next(p, w, Call(payload)))
  {
    hide RequestIds, AnsweredIds, AnsweredOnce, InOrder, FramesKnown, HandlersKnown, Taken, PromisesKept, AllJustified;
    hide HeldDecode, Partition, Log, Placed;
    NewId(w);
    KnownFrames(w, Request(w.nextId, payload), w.sent[w.nextId := payload], w.promises[w.nextId := Pending]);
    CallKeepsPlaces(p, w, payload);
    CallKeepsRecords(p, w, payload);
    SameLog(p, w, Call(payload));
  }

  lemma CallKeepsRecords(p: Peer, w: World, payload: Payload)
    requires Inv(p, w)
    ensures var sent, promises := w.sent[w.nextId := payload], w.promises[w.nextId := Pending];
            && HandlersKnown(w.host, promises)
            && Taken(w.host, RequestIds(w.toHost) + {w.nextId})
            && PromisesKept(promises, w.delivered)
            && HeldDecode(p, w.host, sent)
            && AllJustified(p, sent, promises, Log(w))
  {
    hide Placed, AnsweredOnce, InOrder, FramesKnown, Log;
    assert w.nextId !in w.promises;
  }

  lemma AbortKeepsPlaces(p: Peer, w: World, id: RequestId)
    requires Placed(p, w) && InOrder(w.toHost)
    ensures var w' := w.(promises := w.promises[id := AbortedByCaller], toHost := w.toHost + [Cancel(id)]);
            Placed(p, w') && InOrder(w'.toHost) && RequestIds(w'.toHost) == RequestIds(w.toHost)
  {
    PushFrame(w.toHost, Cancel(id));
    hide RequestIds, AnsweredIds, InOrder;
  }

  lemma AbortKeepsInv(p: Peer, w: World, id: RequestId)
    requires Inv(p, w) && Enabled(w, Abort(id))
    ensures Inv(p, Next(p, w, Abort(id)))
  {
    hide RequestIds, AnsweredIds, AnsweredOnce, InOrder, FramesKnown, HandlersKnown, Taken, PromisesKept, AllJustified;
    hide HeldDecode, Partition, Log, Placed;
    KnownFrames(w, Cancel(id), w.sent, w.promises[id := AbortedByCaller]);
    AbortKeepsPlaces(p, w, id);
    AbortKeepsRecords(p, w, id);
    SameLog(p, w, Abort(id));
  }

  lemma AbortKeepsRecords(p: Peer, w: World, id: RequestId)
    requires Inv(p, w) && Enabled(w, Abort(id))
    ensures var promises := w.promises[id := AbortedByCaller];
            && HandlersKnown(w.host, promises)
            && PromisesKept(promises, w.delivered)
            && AllJustified(p, w.sent, promises, Log(w))
  {
    hide Placed, AnsweredOnce, InOrder, FramesKnown, Log;
  }

  /** The first response still on its way belongs to a call that has not settled. */
  lemma HeadUnsettled(p: Peer, w: World)
    requires Inv(p, w) && w.toCaller != []
    ensures w.toCaller[0].id in w.promises && !w.promises[w.toCaller[0].id].Settled?
  {
    hide Placed, InOrder, FramesKnown, HandlersKnown, HeldDecode;
    var r, log := w.toCaller[0], Log(w);
    assert log[|w.delivered|] == r;
    assert r in log;
    assert Justified(p, w.sent, w.promises, r);
    forall d | d in w.delivered ensures d.id != r.id {
      var i :| 0 <= i < |w.delivered| && w.delivered[i] == d;
      assert log[i] == d;
    }
  }

  lemma DeliveryKept(promises: map<RequestId, Promise>, delivered: seq<Response>, r: Response)
    requires PromisesKept(promises, delivered) && r.id in promises && !promises[r.id].Settled?
    ensures PromisesKept(if promises[r.id].Pending? then promises[r.id := Settled(r.answer)] else promises,
                         delivered + [r])
  {
    var p' := if promises[r.id].Pending? then promises[r.id := Settled(r.answer)] else promises;
    assert forall d :: d in delivered + [r] <==> d in delivered || d == r;
    assert forall d :: d in delivered && d.id == r.id ==> promises[r.id].AbortedByCaller?;
  }

  /** Settling a pending promise changes nothing that the invariant says of aborted ones. */
  lemma SettlingKeepsRecords(p: Peer, w: World, r: Response)
    requires Inv(p, w) && r.id in w.promises && w.promises[r.id].Pending?
    ensures var promises := w.promises[r.id := Settled(r.answer)];
            && HandlersKnown(w.host, promises)
            && FramesKnown(w.toHost, w.sent, promises)
            && AllJustified(p, w.sent, promises, Log(w))
  {
    hide Placed, AnsweredOnce, InOrder, PromisesKept, Log;
  }

  lemma ReceiveKeepsInv(p: Peer, w: World)
    requires Inv(p, w) && Enabled(w, CallerReceives)
    ensures Inv(p, Next(p, w, CallerReceives))
  {
    hide RequestIds, AnsweredIds, AnsweredOnce, InOrder, FramesKnown, HandlersKnown, Taken, PromisesKept, AllJustified;
    hide HeldDecode, Partition, Log;
    var r := w.toCaller[0];
    HeadUnsettled(p, w);
    DeliveryKept(w.promises, w.delivered, r);
    if w.promises[r.id].Pending? { SettlingKeepsRecords(p, w, r); }
    SameLog(p, w, CallerReceives);
  }

  // ---- the host answers ------------------------------------------------------------------

  /** Posting an answer for a call that had none. */
  lemma PostKept(p: Peer, w: World, r: Response)
    requires AnsweredOnce(Log(w)) && AllJustified(p, w.sent, w.promises, Log(w))
    requires r.id !in AnsweredIds(Log(w)) && Justified(p, w.sent, w.promises, r)
    ensures var log := w.delivered + (w.toCaller + [r]);
            && AnsweredOnce(log)
            && AllJustified(p, w.sent, w.promises, log)
            && AnsweredIds(log) == AnsweredIds(Log(w)) + {r.id}
  {
    PushAnswer(Log(w), r);
    hide AnsweredIds, AnsweredOnce, Justified;
    assert w.delivered + (w.toCaller + [r]) == Log(w) + [r];
  }

  lemma SettleKeepsHandlers(h: Host, promises: map<RequestId, Promise>, queued: set<RequestId>, s: nat,
                            outcome: Outcome)
    requires HandlersKnown(h, promises) && Taken(h, queued) && s in h.running
    ensures HandlersKnown(OnHandlerSettled(h, s, outcome).0, promises)
    ensures Taken(OnHandlerSettled(h, s, outcome).0, queued)
  {
    var h' := OnHandlerSettled(h, s, outcome).0;
    forall t: nat | t in h'.running ensures Current(h', t) <==> Current(h, t) {
    }
  }

  lemma CancelKeepsHandlers(h: Host, promises: map<RequestId, Promise>, queued: set<RequestId>, id: RequestId)
    requires HandlersKnown(h, promises) && Taken(h, queued) && id in h.inFlight && id in promises
             && promises[id].AbortedByCaller?
    ensures HandlersKnown(h.(inFlight := h.inFlight - {id}, withdrawn := h.withdrawn + {h.inFlight[id]}), promises)
    ensures Taken(h.(inFlight := h.inFlight - {id}, withdrawn := h.withdrawn + {h.inFlight[id]}), queued)
  {
    var h' := h.(inFlight := h.inFlight - {id}, withdrawn := h.withdrawn + {h.inFlight[id]});
    forall t: nat | t in h'.running ensures Current(h', t) <==> Current(h, t) && t != h.inFlight[id] {
    }
  }

  lemma AcceptKeepsHandlers(h: Host, promises: map<RequestId, Promise>, queued: set<RequestId>, id: RequestId)
    requires HandlersKnown(h, promises) && Taken(h, queued) && id in queued && id !in h.inFlight && id in promises
    ensures HandlersKnown(h.(inFlight := h.inFlight[id := h.nextSerial], running := h.running[h.nextSerial := id],
                             nextSerial := h.nextSerial + 1), promises)
    ensures Taken(h.(inFlight := h.inFlight[id := h.nextSerial], running := h.running[h.nextSerial := id],
                     nextSerial := h.nextSerial + 1), queued - {id})
  {
    var h' := h.(inFlight := h.inFlight[id := h.nextSerial], running := h.running[h.nextSerial := id],
                 nextSerial := h.nextSerial + 1);
    forall t: nat | t in h'.running ensures Current(h', t) <==> t == h.nextSerial || Current(h, t) {
    }
  }

  lemma PostKeepsInv(p: Peer, w: World, q: seq<CallFrame>, h: Host, rs: seq<Response>)
    requires Inv(p, w) && |rs| <= 1
    requires Partition(p, w.sent.Keys, RequestIds(q), h.inFlight.Keys, AnsweredIds(Log(w)) + AnsweredIds(rs))
    requires InOrder(q) && FramesKnown(q, w.sent, w.promises)
    requires HandlersKnown(h, w.promises) && Taken(h, RequestIds(q)) && HeldDecode(p, h, w.sent)
    requires rs != [] ==> rs[0].id !in AnsweredIds(Log(w)) && Justified(p, w.sent, w.promises, rs[0])
    ensures Inv(p, Post(w.(toHost := q), (h, rs)))
  {
    hide RequestIds, AnsweredIds, AnsweredOnce, InOrder, FramesKnown, HandlersKnown, Taken, PromisesKept, AllJustified;
    hide Partition, HeldDecode, Justified;
    if rs == [] {
      NoAnswer();
      assert w.toCaller + rs == w.toCaller;
      assert AnsweredIds(Log(w)) + AnsweredIds(rs) == AnsweredIds(Log(w));
    } else {
      assert rs == [rs[0]];
      OneAnswer(rs[0]);
      PostKept(p, w, rs[0]);
    }
  }

  lemma NoAnswer()
    ensures AnsweredIds([]) == {}
  {
  }

  /** What the invariant says of the invocation that may answer a call. */
  lemma HeldFacts(p: Peer, w: World, id: RequestId)
    requires Inv(p, w) && id in w.host.inFlight
    ensures id in w.sent && id in w.promises && p.address.Handled? && p.decodes(w.sent[id])
    ensures id !in AnsweredIds(Log(w)) && id !in RequestIds(w.toHost)
  {
    hide RequestIds, AnsweredIds, AnsweredOnce, InOrder, FramesKnown, HandlersKnown, Taken, PromisesKept, AllJustified;
  }

  lemma OneAnswer(r: Response)
    ensures AnsweredIds([r]) == {r.id} && AnsweredIds([]) == {}
  {
  }

  lemma Moved(p: Peer, calls: set<RequestId>, queued: set<RequestId>, held: set<RequestId>,
              answered: set<RequestId>, id: RequestId)
    requires Partition(p, calls, queued, held, answered)
    ensures id in held ==> Partition(p, calls, queued, held - {id}, answered + {id})
    ensures id in queued && !p.address.Unheard? ==> Partition(p, calls, queued - {id}, held + {id}, answered)
    ensures id in queued && !p.address.Unheard? ==> Partition(p, calls, queued - {id}, held, answered + {id})
    ensures p.address.Unheard? ==> Partition(p, calls, queued - {id}, held, answered)
  {
  }

  /** The frame at the head of the queue, and the queue without it. */
  lemma HeadFacts(p: Peer, w: World)
    requires Inv(p, w) && w.toHost != []
    ensures var f, q := w.toHost[0], w.toHost[1..];
            && f.id in w.sent && f.id in w.promises
            && (f.Request? ==> f.payload == w.sent[f.id] && f.id in RequestIds(w.toHost)
                               && f.id !in w.host.inFlight && f.id !in AnsweredIds(Log(w)))
            && (f.Cancel? ==> w.promises[f.id].AbortedByCaller?)
            && RequestIds(q) == RequestIds(w.toHost) - (if f.Request? then {f.id} else {})
            && f.id !in RequestIds(q)
            && InOrder(q) && FramesKnown(q, w.sent, w.promises)
  {
    hide AnsweredIds, AnsweredOnce, HandlersKnown, PromisesKept, AllJustified, HeldDecode, Log;
    PopFrame(w.toHost);
    assert w.toHost[0] in w.toHost;
  }

  lemma SettleKeepsInv(p: Peer, w: World, s: nat, outcome: Outcome)
    requires Inv(p, w) && Enabled(w, HandlerSettles(s, outcome))
    ensures Inv(p, Next(p, w, HandlerSettles(s, outcome)))
  {
    hide RequestIds, AnsweredIds, AnsweredOnce, InOrder, FramesKnown, HandlersKnown, Taken, PromisesKept, AllJustified;
    hide Partition, Log, Post;
    var id := w.host.running[s];
    var h, rs := OnHandlerSettled(w.host, s, outcome).0, OnHandlerSettled(w.host, s, outcome).1;
    SettleKeepsHandlers(w.host, w.promises, RequestIds(w.toHost), s, outcome);
    OneAnswer(Response(id, AnswerOf(outcome)));
    if Current(w.host, s) {
      HeldFacts(p, w, id);
      Moved(p, w.sent.Keys, RequestIds(w.toHost), w.host.inFlight.Keys, AnsweredIds(Log(w)), id);
      assert h.inFlight.Keys == w.host.inFlight.Keys - {id};
    } else {
      assert AnsweredIds(Log(w)) + {} == AnsweredIds(Log(w));
    }
    PostKeepsInv(p, w, w.toHost, h, rs);
  }

  lemma CancelReceivedKeepsInv(p: Peer, w: World)
    requires Inv(p, w) && w.toHost != [] && w.toHost[0].Cancel?
    ensures Inv(p, Next(p, w, HostReceives))
  {
    hide RequestIds, AnsweredIds, AnsweredOnce, InOrder, FramesKnown, HandlersKnown, Taken, PromisesKept, AllJustified;
    hide Partition, Log, Post;
    var id := w.toHost[0].id;
    var h, rs := OnCallFrame(p, w.host, w.toHost[0]).0, OnCallFrame(p, w.host, w.toHost[0]).1;
    HeadFacts(p, w);
    OneAnswer(Response(id, Cancelled));
    assert RequestIds(w.toHost[1..]) == RequestIds(w.toHost);
    if p.address.Handled? && id in w.host.inFlight {
      HeldFacts(p, w, id);
      CancelKeepsHandlers(w.host, w.promises, RequestIds(w.toHost), id);
      Moved(p, w.sent.Keys, RequestIds(w.toHost), w.host.inFlight.Keys, AnsweredIds(Log(w)), id);
      assert h.inFlight.Keys == w.host.inFlight.Keys - {id};
    } else {
      assert AnsweredIds(Log(w)) + {} == AnsweredIds(Log(w));
    }
    PostKeepsInv(p, w, w.toHost[1..], h, rs);
  }

  lemma RequestReceivedKeepsInv(p: Peer, w: World)
    requires Inv(p, w) && w.toHost != [] && w.toHost[0].Request?
    ensures Inv(p, Next(p, w, HostReceives))
  {
    hide RequestIds, AnsweredIds, AnsweredOnce, InOrder, FramesKnown, HandlersKnown, Taken, PromisesKept, AllJustified;
    hide Partition, Log, Post;
    var id := w.toHost[0].id;
    var h, rs := OnCallFrame(p, w.host, w.toHost[0]).0, OnCallFrame(p, w.host, w.toHost[0]).1;
    HeadFacts(p, w);
    OneAnswer(Response(id, if p.address.Handled? then MalformedFrame else Unsupported));
    Moved(p, w.sent.Keys, RequestIds(w.toHost), w.host.inFlight.Keys, AnsweredIds(Log(w)), id);
    assert AnsweredIds(Log(w)) + {} == AnsweredIds(Log(w));
    if p.address.Handled? && p.decodes(w.toHost[0].payload) {
      AcceptKeepsHandlers(w.host, w.promises, RequestIds(w.toHost), id);
      assert h.inFlight.Keys == w.host.inFlight.Keys + {id};
    }
    assert Taken(h, RequestIds(w.toHost[1..])) by { FewerQueued(w.host, RequestIds(w.toHost), id); }
    PostKeepsInv(p, w, w.toHost[1..], h, rs);
  }

  lemma FewerQueued(h: Host, queued: set<RequestId>, id: RequestId)
    requires Taken(h, queued)
    ensures Taken(h, queued - {id})
  {
  }

  lemma NextKeepsInv(p: Peer, w: World, act: Action)
    requires Inv(p, w) && Enabled(w, act)
    ensures Inv(p, Next(p, w, act))
  {
    hide Inv, Next;
    match act
    case Call(payload) => CallKeepsInv(p, w, payload);
    case Abort(id) => AbortKeepsInv(p, w, id);
    case HostReceives =>
      if w.toHost[0].Cancel? { CancelReceivedKeepsInv(p, w); } else { RequestReceivedKeepsInv(p, w); }
    case HandlerSettles(s, outcome) => SettleKeepsInv(p, w, s, outcome);
    case CallerReceives => ReceiveKeepsInv(p, w);
  }

  // ---- whole runs --------------------------------------------------------------------------

  ghost predicate Behaviour(p: Peer, ws: seq<World>, acts: seq<Action>) {
    && |ws| == |acts| + 1
    && ws[0] == FreshWorld
    && forall k :: 0 <= k < |acts| ==> Enabled(ws[k], acts[k]) && ws[k + 1] == Next(p, ws[k], acts[k])
  }

  lemma {:induction false} AlwaysSafe(p: Peer, ws: seq<World>, acts: seq<Action>, i: nat)
    requires Behaviour(p, ws, acts) && i < |ws|
    ensures Inv(p, ws[i])
  {
    hide Inv, Next;
    if i == 0 {
      FreshWorldIsSafe(p);
    } else {
      AlwaysSafe(p, ws, acts, i - 1);
      NextKeepsInv(p, ws[i - 1], acts[i - 1]);
    }
  }

  /**
   * No call is answered twice, and an unanswered one is still on its way or still has a handler that may answer,
   * unless nobody listens at its address.
   */
  lemma AnsweredAtMostOnce(p: Peer, ws: seq<World>, acts: seq<Action>, i: nat, id: RequestId)
    requires Behaviour(p, ws, acts) && i < |ws| && id in ws[i].sent
    ensures AnsweredOnce(Log(ws[i]))
    ensures id !in AnsweredIds(Log(ws[i])) <==>
            p.address.Unheard? || id in RequestIds(ws[i].toHost)
            || exists s: nat :: s in ws[i].host.running && ws[i].host.running[s] == id && s !in ws[i].host.withdrawn
  {
    AlwaysSafe(p, ws, acts, i);
    CallIsSomewhere(p, ws[i], id);
  }

  lemma CallIsSomewhere(p: Peer, w: World, id: RequestId)
    requires Inv(p, w) && id in w.sent
    ensures id !in AnsweredIds(Log(w)) <==>
            p.address.Unheard? || id in RequestIds(w.toHost)
            || exists s: nat :: s in w.host.running && w.host.running[s] == id && s !in w.host.withdrawn
  {
    hide RequestIds, AnsweredIds, AnsweredOnce, InOrder, FramesKnown, PromisesKept, AllJustified, Log;
    if id in w.host.inFlight {
      var s := w.host.inFlight[id];
      assert s in w.host.running && Current(w.host, s);
    }
  }

  lemma AnswerLogged(w: World, r: Response)
    requires r in Log(w)
    ensures r.id in AnsweredIds(Log(w))
  {
  }

  /** Whatever a handler does, and whenever a listening host takes a cancel, the call has its answer afterwards. */
  lemma SettledHandlerAnswers(p: Peer, ws: seq<World>, acts: seq<Action>, i: nat)
    requires Behaviour(p, ws, acts) && i < |acts|
    ensures acts[i].HandlerSettles? ==> ws[i].host.running[acts[i].serial] in AnsweredIds(Log(ws[i + 1]))
    ensures acts[i].HostReceives? && ws[i].toHost[0].Cancel? && !p.address.Unheard? ==>
              ws[i].toHost[0].id in AnsweredIds(Log(ws[i + 1]))
  {
    AlwaysSafe(p, ws, acts, i);
    AlwaysSafe(p, ws, acts, i + 1);
    if acts[i].HandlerSettles? {
      SettlingAnswers(p, ws[i], acts[i].serial, acts[i].outcome);
    } else if acts[i].HostReceives? && ws[i].toHost[0].Cancel? && !p.address.Unheard? {
      CancellingAnswers(p, ws[i]);
    }
  }

  lemma SettlingAnswers(p: Peer, w: World, s: nat, outcome: Outcome)
    requires Inv(p, w) && s in w.host.running
    requires Inv(p, Next(p, w, HandlerSettles(s, outcome)))
    ensures w.host.running[s] in AnsweredIds(Log(Next(p, w, HandlerSettles(s, outcome))))
  {
    var w' := Next(p, w, HandlerSettles(s, outcome));
    var id := w.host.running[s];
    if Current(w.host, s) {
      var r := Response(id, AnswerOf(outcome));
      assert w'.toCaller == w.toCaller + [r];
      AnswerLogged(w', r);
    } else {
      WithdrawnIsAnswered(p, w, s);
      assert w'.toCaller == w.toCaller;
    }
  }

  lemma WithdrawnIsAnswered(p: Peer, w: World, s: nat)
    requires Inv(p, w) && s in w.host.running && s in w.host.withdrawn
    ensures w.host.running[s] in AnsweredIds(Log(w))
  {
  }

  lemma CancellingAnswers(p: Peer, w: World)
    requires Inv(p, w) && w.toHost != [] && w.toHost[0].Cancel? && !p.address.Unheard?
    requires Inv(p, Next(p, w, HostReceives))
    ensures w.toHost[0].id in AnsweredIds(Log(Next(p, w, HostReceives)))
  {
    hide RequestIds, AnsweredIds, AnsweredOnce, InOrder, FramesKnown, PromisesKept, AllJustified, HandlersKnown;
    hide Taken, Log;
    var w' := Next(p, w, HostReceives);
    HeadFacts(p, w);
    var id := w.toHost[0].id;
    assert id in w'.sent && id !in RequestIds(w'.toHost) && id !in w'.host.inFlight;
  }

  /** A promise that has settled or been aborted stays as it is for ever. */
  lemma {:induction false} PromiseSettlesOnce(p: Peer, ws: seq<World>, acts: seq<Action>, i: nat, j: nat, id: RequestId)
    requires Behaviour(p, ws, acts) && i <= j < |ws|
    requires id in ws[i].promises && !ws[i].promises[id].Pending?
    ensures id in ws[j].promises && ws[j].promises[id] == ws[i].promises[id]
  {
    if i < j {
      PromiseSettlesOnce(p, ws, acts, i, j - 1, id);
      AlwaysSafe(p, ws, acts, j - 1);
      assert Enabled(ws[j - 1], acts[j - 1]);
      StepKeepsOutcome(p, ws[j - 1], acts[j - 1], id);
    }
  }

  lemma StepKeepsOutcome(p: Peer, w: World, act: Action, id: RequestId)
    requires IdsDrawn(w) && Enabled(w, act) && id in w.promises && !w.promises[id].Pending?
    ensures var w' := Next(p, w, act); id in w'.promises && w'.promises[id] == w.promises[id]
  {
  }

  // ---- where an answer comes from ------------------------------------------------------------

  /** The step is why the host posts this answer to the call. */
  predicate Causes(p: Peer, w: World, act: Action, id: RequestId, answer: Answer) {
    match answer
    case Value(v) => SettlesCall(w, act, id) && act.outcome == Returned(v, true)
    case HostFailure => SettlesCall(w, act, id) && (act.outcome.Threw? || !act.outcome.encodes)
    case Unsupported => TakesRequest(w, act, id) && p.address == Unknown
    case MalformedFrame => TakesRequest(w, act, id) && p.address == Handled && !p.decodes(w.toHost[0].payload)
    case Cancelled =>
      act == HostReceives && w.toHost != [] && w.toHost[0] == Cancel(id) && p.address == Handled
      && id in w.host.inFlight
  }

  /** The handler of the call settles, and its abort signal has not fired. */
  predicate SettlesCall(w: World, act: Action, id: RequestId) {
    && act.HandlerSettles? && act.serial in w.host.running && w.host.running[act.serial] == id
    && act.serial !in w.host.withdrawn
  }

  predicate TakesRequest(w: World, act: Action, id: RequestId) {
    act == HostReceives && w.toHost != [] && w.toHost[0].Request? && w.toHost[0].id == id
  }

  lemma PostedBy(w: World, r: (Host, seq<Response>), x: Response)
    ensures x in Log(Post(w, r)) <==> x in Log(w) || x in r.1
  {
    assert Log(Post(w, r)) == Log(w) + r.1;
  }

  lemma StepPosts(p: Peer, w: World, act: Action, x: Response)
    requires HandlersKnown(w.host, w.promises) && Enabled(w, act)
    ensures x in Log(Next(p, w, act)) <==> x in Log(w) || Causes(p, w, act, x.id, x.answer)
  {
    match act
    case HostReceives => PostedBy(w.(toHost := w.toHost[1..]), OnCallFrame(p, w.host, w.toHost[0]), x);
    case HandlerSettles(s, outcome) =>
      assert s in w.host.withdrawn <==> !Current(w.host, s);
      hide HandlersKnown;
      PostedBy(w, OnHandlerSettled(w.host, s, outcome), x);
    case _ => SameLog(p, w, act);
  }

  /** Every answer ever posted has a step of the run that caused it, and every such step has posted its answer. */
  lemma {:induction false} PostedIff(p: Peer, ws: seq<World>, acts: seq<Action>, i: nat, x: Response)
    requires Behaviour(p, ws, acts) && i < |ws|
    ensures x in Log(ws[i]) <==> exists k :: 0 <= k < i && Causes(p, ws[k], acts[k], x.id, x.answer)
  {
    hide Next, Causes, Inv;
    if i > 0 {
      PostedIff(p, ws, acts, i - 1, x);
      AlwaysSafe(p, ws, acts, i - 1);
      assert HandlersKnown(ws[i - 1].host, ws[i - 1].promises) by { HandlersOf(p, ws[i - 1]); }
      assert Enabled(ws[i - 1], acts[i - 1]);
      StepPosts(p, ws[i - 1], acts[i - 1], x);
    }
  }

  lemma HandlersOf(p: Peer, w: World)
    requires Inv(p, w)
    ensures HandlersKnown(w.host, w.promises)
  {
  }

  /**
   * A caller is given a value exactly when the handler of its call returned that value, encodable, before the call was
   * withdrawn; a host failure exactly when it threw or returned what does not encode; and an abort leaves it at that.
   */
  lemma SettledIff(p: Peer, ws: seq<World>, acts: seq<Action>, i: nat, id: RequestId)
    requires Behaviour(p, ws, acts) && i < |ws| && id in ws[i].promises && ws[i].promises[id].Settled?
    ensures forall v: Bytes :: ws[i].promises[id] == Settled(Value(v)) <==>
              exists k :: 0 <= k < i && SettlesCall(ws[k], acts[k], id) && acts[k].outcome == Returned(v, true)
    ensures ws[i].promises[id] == Settled(HostFailure) <==>
              exists k :: 0 <= k < i && SettlesCall(ws[k], acts[k], id)
                          && (acts[k].outcome.Threw? || !acts[k].outcome.encodes)
  {
    AlwaysSafe(p, ws, acts, i);
    OneAnswerInLog(p, ws[i], id);
    hide SettlesCall;
    var answer := ws[i].promises[id].answer;
    forall v: Bytes
      ensures answer == Value(v) <==>
                exists k :: 0 <= k < i && SettlesCall(ws[k], acts[k], id) && acts[k].outcome == Returned(v, true)
    {
      PostedIff(p, ws, acts, i, Response(id, Value(v)));
    }
    PostedIff(p, ws, acts, i, Response(id, HostFailure));
  }

  /** A promise is settled with what was delivered for its call, unless its caller has aborted it. */
  lemma SettledIffDelivered(p: Peer, ws: seq<World>, acts: seq<Action>, i: nat, id: RequestId, answer: Answer)
    requires Behaviour(p, ws, acts) && i < |ws| && id in ws[i].promises
    ensures ws[i].promises[id] == Settled(answer) <==>
            Response(id, answer) in ws[i].delivered && !ws[i].promises[id].AbortedByCaller?
  {
    AlwaysSafe(p, ws, acts, i);
    assert PromisesKept(ws[i].promises, ws[i].delivered);
  }

  /** What a caller sees is the one answer posted for its call, and each failure it sees has its cause. */
  lemma PromiseGetsItsAnswer(p: Peer, ws: seq<World>, acts: seq<Action>, i: nat, id: RequestId)
    requires Behaviour(p, ws, acts) && i < |ws|
    requires id in ws[i].promises && ws[i].promises[id].Settled?
    ensures var answer := ws[i].promises[id].answer;
            && Response(id, answer) in Log(ws[i])
            && (forall r :: r in Log(ws[i]) && r.id == id ==> r.answer == answer)
            && (answer.Unsupported? <==> p.address.Unknown?)
            && id in ws[i].sent
            && (answer.MalformedFrame? <==> p.address.Handled? && !p.decodes(ws[i].sent[id]))
            && !answer.Cancelled?
    ensures var answer := ws[i].promises[id].answer;
            && (answer.Value? ==> exists k ::
                  0 <= k < i && SettlesCall(ws[k], acts[k], id) && acts[k].outcome == Returned(answer.value, true))
            && (answer.HostFailure? ==> exists k ::
                  0 <= k < i && SettlesCall(ws[k], acts[k], id)
                  && (acts[k].outcome.Threw? || !acts[k].outcome.encodes))
  {
    AlwaysSafe(p, ws, acts, i);
    OneAnswerInLog(p, ws[i], id);
    SettledIff(p, ws, acts, i, id);
    hide SettlesCall;
  }

  lemma OneAnswerInLog(p: Peer, w: World, id: RequestId)
    requires Inv(p, w) && id in w.promises && w.promises[id].Settled?
    ensures var r := Response(id, w.promises[id].answer);
            && r in Log(w) && Justified(p, w.sent, w.promises, r)
            && (forall d :: d in Log(w) && d.id == id ==> d == r)
  {
    hide RequestIds, AnsweredIds, InOrder, FramesKnown, HandlersKnown, HeldDecode;
    var r := Response(id, w.promises[id].answer);
    var k :| 0 <= k < |w.delivered| && w.delivered[k] == r;
    assert Log(w)[k] == r;
    forall d | d in Log(w) && d.id == id ensures d == r {
      var m :| 0 <= m < |Log(w)| && Log(w)[m] == d;
    }
  }

  /** How much the two sides still have to do if no further call or abort is made. */
  function Work(w: World): nat {
    3 * |w.toHost| + 2 * |w.host.running| + |w.toCaller|
  }

  lemma WorkShrinks(p: Peer, w: World, act: Action)
    requires Enabled(w, act) && !act.Call? && !act.Abort?
    requires forall s: nat :: s in w.host.running ==> s < w.host.nextSerial
    ensures Work(Next(p, w, act)) < Work(w)
  {
    if act.HandlerSettles? {
      var rest := w.host.running - {act.serial};
      assert w.host.running == rest[act.serial := w.host.running[act.serial]];
    }
  }

  /** An address nobody listens to never answers: its calls pend until their callers abort them. */
  lemma UnheardPends(p: Peer, ws: seq<World>, acts: seq<Action>, i: nat, id: RequestId)
    requires Behaviour(p, ws, acts) && i < |ws| && id in ws[i].promises && p.address.Unheard?
    ensures ws[i].promises[id].Pending? <==> !ws[i].promises[id].AbortedByCaller?
  {
    AlwaysSafe(p, ws, acts, i);
    var w := ws[i];
    if w.promises[id].Settled? {
      var r := Response(id, w.promises[id].answer);
      assert r in w.delivered;
      AnswerLogged(w, r);
      assert false;
    }
  }

  /** Once nothing is on its way and no handler runs, callers wait only for an address nobody listens to. */
  lemma NobodyLeftWaiting(p: Peer, ws: seq<World>, acts: seq<Action>, i: nat, id: RequestId)
    requires Behaviour(p, ws, acts) && i < |ws| && id in ws[i].promises
    requires Work(ws[i]) == 0
    ensures ws[i].promises[id].Pending? <==> p.address.Unheard? && !ws[i].promises[id].AbortedByCaller?
  {
    if p.address.Unheard? {
      UnheardPends(p, ws, acts, i, id);
    } else {
      AlwaysSafe(p, ws, acts, i);
      QuietIsAnswered(p, ws[i], id);
    }
  }

  lemma QuietIsAnswered(p: Peer, w: World, id: RequestId)
    requires Inv(p, w) && Work(w) == 0 && id in w.promises && !p.address.Unheard?
    ensures !w.promises[id].Pending?
  {
    assert RequestIds(w.toHost) == {};
    assert forall x: RequestId :: x in w.host.inFlight ==> w.host.inFlight[x] in w.host.running;
    assert w.host.inFlight.Keys == {};
    assert id in AnsweredIds(Log(w));
    assert Log(w) == w.delivered;
  }
}
