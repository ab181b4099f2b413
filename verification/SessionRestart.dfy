/**
 * What a new session recovers from the store
 * (packages/statement-store/src/session/core.ts, the part of `init` after its queries).
 */
module SessionRestart {
  import opened Common
  import opened SessionMachine
  import opened SessionSteps
  import opened SessionRuns
  import opened ExpiryAllocator
  import opened StatementStore
  import opened SubmissionRace

  datatype Decoded =
    | PeerOrOwnRequest(requestId: RequestId, messages: seq<Bytes>)
    | PeerOrOwnResponse(requestId: RequestId, code: ResponseStatus)
    | Undecodable

  /** A queried statement: its expiry, and what its payload decodes to. */
  datatype Stored = Stored(expiry: nat, event: Decoded)

  function MaxExpiry(own: seq<Stored>): (m: nat)
    ensures forall i :: 0 <= i < |own| ==> own[i].expiry <= m
    ensures m == 0 || exists i :: 0 <= i < |own| && own[i].expiry == m
  {
    if own == [] then 0
    else
      var init := MaxExpiry(own[..|own| - 1]);
      if own[|own| - 1].expiry > init then own[|own| - 1].expiry else init
  }

  /** The first request among the statements, as `find` sees it. */
  function FirstRequest(ss: seq<Stored>): (r: Option<Decoded>)
    ensures r.Some? ==> r.value.PeerOrOwnRequest?
    ensures r.None? <==> forall i :: 0 <= i < |ss| ==> !ss[i].event.PeerOrOwnRequest?
  {
    if ss == [] then None
    else if ss[0].event.PeerOrOwnRequest? then Some(ss[0].event)
    else FirstRequest(ss[1..])
  }

  function FirstResponse(ss: seq<Stored>): (r: Option<Decoded>)
    ensures r.Some? ==> r.value.PeerOrOwnResponse? && exists i :: 0 <= i < |ss| && ss[i].event == r.value
    ensures r.None? <==> forall i :: 0 <= i < |ss| ==> !ss[i].event.PeerOrOwnResponse?
  {
    if ss == [] then None
    else if ss[0].event.PeerOrOwnResponse? then Some(ss[0].event)
    else FirstResponse(ss[1..])
  }

  predicate FirstResponseIs(ss: seq<Stored>, requestId: RequestId) {
    FirstResponse(ss).Some? && FirstResponse(ss).value.requestId == requestId
  }

  /** Whether `init` takes our stored request to be unanswered. */
  predicate Restores(own: seq<Stored>, peer: seq<Stored>) {
    FirstRequest(own).Some? && !FirstResponseIs(peer, FirstRequest(own).value.requestId)
  }

  function RestoredMessages(own: seq<Stored>, peer: seq<Stored>): seq<Bytes> {
    if Restores(own, peer) then FirstRequest(own).value.messages else []
  }

  function RestoreOutgoing(st: SessionState, ctx: Context, own: seq<Stored>, peer: seq<Stored>): SessionState {
    if Restores(own, peer)
    then Reduce(st, OutgoingRestored(FirstRequest(own).value.requestId, FirstRequest(own).value.messages), ctx).state
    else st
  }

  function RestoreIncoming(st: SessionState, ctx: Context, own: seq<Stored>, peer: seq<Stored>): SessionState {
    if FirstRequest(peer).None? then st
    else
      var requestId := FirstRequest(peer).value.requestId;
      Reduce(st, IncomingRestored(requestId, FirstResponseIs(own, requestId)), ctx).state
  }

  /** The reducer steps `init` dispatches once its queries have succeeded. */
  function Recover(st: SessionState, ctx: Context, own: seq<Stored>, peer: seq<Stored>): Transition {
    Reduce(RestoreIncoming(RestoreOutgoing(st, ctx, own, peer), ctx, own, peer), Activated, ctx)
  }

  /** The state from which `activated` drains. */
  function Restored(st: SessionState, ctx: Context, own: seq<Stored>, peer: seq<Stored>): SessionState {
    RestoreIncoming(RestoreOutgoing(st, ctx, own, peer), ctx, own, peer).(phase := Active)
  }

  lemma RestoredBatch(st: SessionState, ctx: Context, own: seq<Stored>, peer: seq<Stored>)
    requires st.outgoing.None?
    ensures var from := Restored(st, ctx, own, peer);
            && from.messageQueue == st.messageQueue
            && from.phase == Active
            && LiveMessages(from) == RestoredMessages(own, peer)
            && (from.outgoing.Some? <==> Restores(own, peer))
    ensures Recover(st, ctx, own, peer) == Drain(Restored(st, ctx, own, peer), ctx)
  {
  }

  /** Everything unanswered in the recovered session: the restored batch, then what was queued meanwhile. */
  function Unanswered(st: SessionState, own: seq<Stored>, peer: seq<Stored>): seq<Bytes> {
    RestoredMessages(own, peer) + QueuedBytes(st.messageQueue)
  }

  /**
   * A recovered session goes active with the restored batch in front of everything queued
   * meanwhile, and each submission carries the restored messages followed by the queued ones, in order.
   */
  lemma RecoverResumes(st: SessionState, ctx: Context, own: seq<Stored>, peer: seq<Stored>)
    requires st.phase == Initialization && st.outgoing.None?
    ensures var t := Recover(st, ctx, own, peer);
            && t.state.phase == Active
            && Content(t.state) == Unanswered(st, own, peer)
            && RestoredMessages(own, peer) <= LiveMessages(t.state)
            && (t.state.outgoing.None? <==> !Restores(own, peer) && st.messageQueue == [])
            && Justified(t.state, ctx.fits)
    ensures var t := Recover(st, ctx, own, peer);
            var n := |RestoredMessages(own, peer)|;
            && n + |t.effects| <= |Unanswered(st, own, peer)|
            && (forall i :: 0 <= i < |t.effects| ==>
                  t.effects[i] == SubmitRequest(ctx.nextId + i, Unanswered(st, own, peer)[..n + i + 1]))
  {
    hide Drain, Recover, Restored, Restores, Extends;
    var from := Restored(st, ctx, own, peer);
    RestoredBatch(st, ctx, own, peer);
    DrainStops(from, ctx);
    DrainKeeps(from, ctx);
    DrainExtends(from, ctx);
    DrainedPrefixes(from, Drain(from, ctx), ctx.nextId, Unanswered(st, own, peer));
  }

  lemma DrainedPrefixes(from: SessionState, t: Transition, firstId: RequestId, all: seq<Bytes>)
    requires Extends(from, t, firstId, t.effects) && Content(t.state) == all
    ensures |LiveMessages(from)| + |t.effects| <= |all|
    ensures forall i :: 0 <= i < |t.effects| ==>
              t.effects[i] == SubmitRequest(firstId + i, all[..|LiveMessages(from)| + i + 1])
  {
  }

  predicate Answered(own: seq<Stored>, peer: seq<Stored>) {
    && FirstRequest(own).Some?
    && exists i :: 0 <= i < |peer| && peer[i].event.PeerOrOwnResponse?
                   && peer[i].event.requestId == FirstRequest(own).value.requestId
  }

  predicate AtMostOneResponse(peer: seq<Stored>) {
    forall i, j :: 0 <= i < j < |peer| ==> !(peer[i].event.PeerOrOwnResponse? && peer[j].event.PeerOrOwnResponse?)
  }

  /**
   * A restored request is one whose own id the first peer response does not name. With a single response on the topic
   * that is one with no answer to its id; with several peer devices an answered one can come back.
   */
  lemma RestoresExactlyUnanswered(own: seq<Stored>, peer: seq<Stored>)
    requires FirstRequest(own).Some?
    ensures AtMostOneResponse(peer) ==> (Restores(own, peer) <==> !Answered(own, peer))
    ensures !Answered(own, peer) ==> Restores(own, peer)
    ensures Restores(own, peer) && Answered(own, peer) <==>
              Answered(own, peer) && FirstResponse(peer).value.requestId != FirstRequest(own).value.requestId
  {
  }

  /** Two peer devices: the second one's answer is overlooked. */
  lemma SecondAnswerOverlooked(messages: seq<Bytes>)
    ensures var own := [Stored(1, PeerOrOwnRequest(7, messages))];
            var peer := [Stored(1, PeerOrOwnResponse(3, Success)), Stored(2, PeerOrOwnResponse(7, Success))];
            Answered(own, peer) && Restores(own, peer)
  {
    var peer := [Stored(1, PeerOrOwnResponse(3, Success)), Stored(2, PeerOrOwnResponse(7, Success))];
    assert peer[1].event == PeerOrOwnResponse(7, Success);
  }

  /** The old session would have ended its batch on one of the peer's responses. */
  predicate EndedBy(before: SessionState, peer: seq<Stored>) {
    exists i :: 0 <= i < |peer| && peer[i].event.PeerOrOwnResponse?
                && EndsBatch(before, ResponseReceived(peer[i].event.requestId, peer[i].event.code))
  }

  /** A response names an id of the batch that a later submission of the same batch has superseded. */
  predicate NamesSuperseded(before: SessionState, own: seq<Stored>, peer: seq<Stored>)
    requires before.outgoing.Some? && FirstRequest(own).Some?
  {
    exists i :: 0 <= i < |peer| && peer[i].event.PeerOrOwnResponse?
                && peer[i].event.requestId in before.outgoing.value.requestIds
                && peer[i].event.requestId != FirstRequest(own).value.requestId
  }

  /**
   * A running session takes an answer to any id of its batch, a restarted one only to the id that survived in the
   * store. With one response on the topic, a batch the old session counts as answered comes back exactly when the
   * response names a superseded id.
   */
  lemma AnsweredBatchReturnsIff(before: SessionState, own: seq<Stored>, peer: seq<Stored>)
    requires before.outgoing.Some? && FirstRequest(own).Some? && AtMostOneResponse(peer)
    requires FirstRequest(own).value.requestId in before.outgoing.value.requestIds
    ensures EndedBy(before, peer) && Restores(own, peer) <==> NamesSuperseded(before, own, peer)
    ensures EndedBy(before, peer) <==> Answered(own, peer) || NamesSuperseded(before, own, peer)
  {
    RestoresExactlyUnanswered(own, peer);
    if NamesSuperseded(before, own, peer) {
      var i :| 0 <= i < |peer| && peer[i].event.PeerOrOwnResponse?
               && peer[i].event.requestId in before.outgoing.value.requestIds
               && peer[i].event.requestId != FirstRequest(own).value.requestId;
      assert EndsBatch(before, ResponseReceived(peer[i].event.requestId, peer[i].event.code));
    }
    if Answered(own, peer) {
      var i :| 0 <= i < |peer| && peer[i].event.PeerOrOwnResponse?
               && peer[i].event.requestId == FirstRequest(own).value.requestId;
      assert EndsBatch(before, ResponseReceived(peer[i].event.requestId, peer[i].event.code));
    }
  }

  /** The batch went out as 1 and, grown, as 2; the peer has answered 1 so far, and the restart sends it again. */
  lemma SupersededAnswerOverlooked(first: Bytes, second: Bytes)
    ensures var before := InitialState.(outgoing := Some(OutgoingRequest([1, 2], [first, second], [0, 1])));
            var own := [Stored(2, PeerOrOwnRequest(2, [first, second]))];
            var peer := [Stored(1, PeerOrOwnResponse(1, Success))];
            && EndsBatch(before, ResponseReceived(1, Success))
            && Restores(own, peer) && RestoredMessages(own, peer) == [first, second]
  {
  }

  /**
   * The floor adopted from the query lies above every own statement, so whatever the clock says
   * the next submission is accepted on a channel that still holds one of them.
   */
  lemma NextSubmissionAccepted(c: Contents, s: Statement, own: seq<Stored>, current: nat, clock: nat)
    requires clock < U64
    requires s.channel in c.channels ==>
               exists i :: 0 <= i < |own| && own[i].expiry == c.channels[s.channel].expiry
    requires s.expiry == NextExpiry(Max(current, MaxExpiry(own)), clock)
    ensures Submit(c, s).1 == Accepted
  {
  }

  /**
   * Crash recovery loses nothing that landed: if the newest submission of the old session reached
   * the store and no other writer replaced it, a new session restores exactly the unanswered batch.
   */
  lemma RestartRecoversBatch(ws: seq<World>, acts: seq<Action>, i: nat, j: nat, a: Attempt, b: Attempt,
                             st: SessionState, ctx: Context, own: seq<Stored>, peer: seq<Stored>)
    requires Behaviour(ws, acts) && i < j < |ws|
    requires acts[i] == Arrives(a) && Supersedes(EntryExpiry(ws[i].channel), a.expiry)
    requires IsLive(ws[j], a) && ws[j].channel == Some(Own(b))
    requires FirstRequest(own) == Some(PeerOrOwnRequest(b.requestId, b.messages))
    requires !Answered(own, peer)
    requires st.phase == Initialization && st.outgoing.None?
    ensures Content(Recover(st, ctx, own, peer).state) == LiveMessages(ws[j].session) + QueuedBytes(st.messageQueue)
  {
    NewestLandedStays(ws, acts, i, j, a, b);
    RestoresExactlyUnanswered(own, peer);
    RecoverResumes(st, ctx, own, peer);
  }
}
