/**
 * What reaches a session while it starts: the query of `init`, and the subscription that is open meanwhile
 * (packages/statement-store/src/session/core.ts, `init` and `processIncomingStatement`).
 */
module SessionStartup {
  import opened Common
  import opened SessionMachine
  import opened SessionSteps
  import opened SessionRuns
  import opened SessionRestart

  /** A peer's statement, by its bytes: the session handles equal ones once. */
  type Data = nat

  datatype Snapshot = Snapshot(own: seq<Stored>, peer: seq<Data>)

  /** `seen` are the statements known to the session, `decoding` those that arrived and are not decoded yet. */
  datatype World = World(session: SessionState, nextId: RequestId, seen: set<Data>, decoding: set<Data>,
                         snapshot: Option<Snapshot>)

  function Start(nextId: RequestId): World {
    World(InitialState, nextId, {}, {}, None)
  }

  datatype Action =
    | Queried(own: seq<Stored>, peer: seq<Data>)
    | Arrives(s: Data)
    | Decodes(s: Data, fits: seq<Bytes> -> bool)
    | Finishes(fits: seq<Bytes> -> bool)
    | Submits(encoded: Bytes, token: Token, fits: seq<Bytes> -> bool)

  /** The id of our stored request was drawn before any of this session. */
  predicate Enabled(w: World, act: Action) {
    match act
    case Queried(own, _) =>
      w.snapshot.None? && (FirstRequest(own).Some? ==> FirstRequest(own).value.requestId < w.nextId)
    case Arrives(_) => true
    case Decodes(s, _) => s in w.decoding
    case Finishes(_) => w.snapshot.Some? && w.session.phase == Initialization
    case Submits(_, _, _) => true
  }

  /** The statements of the query as they decode. */
  function Opened(decode: Data -> Decoded, peer: seq<Data>): seq<Stored> {
    seq(|peer|, i requires 0 <= i < |peer| => Stored(0, decode(peer[i])))
  }

  /** What a decoded statement means to the reducer. */
  function EventOf(d: Decoded): Option<SessionEvent> {
    match d
    case PeerOrOwnRequest(requestId, _) => Some(RequestReceived(requestId))
    case PeerOrOwnResponse(requestId, code) => Some(ResponseReceived(requestId, code))
    case Undecodable => None
  }

  function Take(w: World, t: Transition): World {
    w.(session := t.state, nextId := t.nextId)
  }

  function Next(decode: Data -> Decoded, w: World, act: Action): World
    requires Enabled(w, act)
  {
    match act
    case Queried(own, peer) => w.(snapshot := Some(Snapshot(own, peer)), seen := w.seen + set d | d in peer)
    case Arrives(s) => if s in w.seen then w else w.(seen := w.seen + {s}, decoding := w.decoding + {s})
    case Decodes(s, fits) =>
      var w' := w.(decoding := w.decoding - {s});
      if EventOf(decode(s)).None? then w'
      else Take(w', Reduce(w.session, EventOf(decode(s)).value, Context(fits, w.nextId)))
    case Finishes(fits) =>
      Take(w, Recover(w.session, Context(fits, w.nextId), w.snapshot.value.own, Opened(decode, w.snapshot.value.peer)))
    case Submits(encoded, token, fits) =>
      Take(w, Reduce(w.session, MessageSubmitted(encoded, token), Context(fits, w.nextId)))
  }

  // ---- what a step does to the live batch --------------------------------------------------------

  /** An id already drawn leaves the live batch only when the batch ends, and never comes back. */
  lemma IdStep(st: SessionState, ev: SessionEvent, ctx: Context, id: RequestId)
    requires id < ctx.nextId && (ev.MessageSubmitted? || ev.ResponseReceived? || ev.RequestReceived?)
    ensures var t := Reduce(st, ev, ctx);
            && ctx.nextId <= t.nextId && t.state.phase == st.phase
            && (id in RequestIds(t.state) <==> id in RequestIds(st) && !EndsBatch(st, ev))
  {
    StepSubmissions(st, ev, ctx);
    StepPhase(st, ev, ctx);
    var t := Reduce(st, ev, ctx);
    var n := |Submissions(st, ev, t.effects)|;
    var drawn := seq(n, i requires 0 <= i < n => ctx.nextId + i);
    assert RequestIds(t.state) == RequestIds(Base(st, ev)) + drawn;
    hide Reduce;
  }

  lemma StepPhase(st: SessionState, ev: SessionEvent, ctx: Context)
    requires ev.MessageSubmitted? || ev.ResponseReceived? || ev.RequestReceived?
    ensures Reduce(st, ev, ctx).state.phase == st.phase
    ensures st.phase == Initialization && st.outgoing.None? ==> Reduce(st, ev, ctx).state.outgoing.None?
  {
    if EndsBatch(st, ev) { DrainStops(st.(outgoing := None), ctx); }
    hide Drain;
  }

  lemma RecoverIds(st: SessionState, ctx: Context, own: seq<Stored>, peer: seq<Stored>, id: RequestId)
    requires st.phase == Initialization && st.outgoing.None?
    requires FirstRequest(own).Some? && FirstRequest(own).value.requestId == id && id < ctx.nextId
    ensures var t := Recover(st, ctx, own, peer);
            && t.state.phase == Active && ctx.nextId <= t.nextId
            && (id in RequestIds(t.state) <==> Restores(own, peer))
  {
    hide Drain, Recover, FirstRequest, FirstResponse;
    var from := Restored(st, ctx, own, peer);
    RestoredBatch(st, ctx, own, peer);
    RestoredIds(st, ctx, own, peer);
    DrainStops(from, ctx);
    DrainExtends(from, ctx);
  }

  lemma RestoredIds(st: SessionState, ctx: Context, own: seq<Stored>, peer: seq<Stored>)
    requires st.outgoing.None? && FirstRequest(own).Some?
    ensures RequestIds(Restored(st, ctx, own, peer))
            == if Restores(own, peer) then [FirstRequest(own).value.requestId] else []
  {
  }

  // ---- whole runs --------------------------------------------------------------------------------

  ghost predicate Behaviour(decode: Data -> Decoded, ws: seq<World>, acts: seq<Action>) {
    && |ws| == |acts| + 1
    && ws[0] == Start(ws[0].nextId)
    && forall k :: 0 <= k < |acts| ==> Enabled(ws[k], acts[k]) && ws[k + 1] == Next(decode, ws[k], acts[k])
  }

  /** Until `init` has finished nothing is in flight, and what is decoding has been seen. */
  ghost predicate Inv(w: World) {
    && (w.session.phase == Initialization ==> w.session.outgoing.None?)
    && w.session.phase != Failed
    && w.decoding <= w.seen
    && (w.snapshot.Some? && FirstRequest(w.snapshot.value.own).Some? ==>
          FirstRequest(w.snapshot.value.own).value.requestId < w.nextId)
  }

  lemma StepKeepsInv(decode: Data -> Decoded, w: World, act: Action)
    requires Inv(w) && Enabled(w, act)
    ensures Inv(Next(decode, w, act)) && w.nextId <= Next(decode, w, act).nextId
  {
    hide Reduce, Recover, FirstRequest;
    match act
    case Decodes(s, fits) =>
      if ev: SessionEvent :| EventOf(decode(s)) == Some(ev) { ReducerKeeps(w, ev, fits); }
    case Submits(encoded, token, fits) => ReducerKeeps(w, MessageSubmitted(encoded, token), fits);
    case Finishes(fits) => RecoverKeeps(w.session, Context(fits, w.nextId), w.snapshot.value.own,
                                        Opened(decode, w.snapshot.value.peer));
    case Queried(_, _) =>
    case Arrives(_) =>
  }

  lemma ReducerKeeps(w: World, ev: SessionEvent, fits: seq<Bytes> -> bool)
    requires ev.MessageSubmitted? || ev.ResponseReceived? || ev.RequestReceived?
    ensures var t := Reduce(w.session, ev, Context(fits, w.nextId));
            && t.state.phase == w.session.phase && w.nextId <= t.nextId
            && (w.session.phase == Initialization && w.session.outgoing.None? ==> t.state.outgoing.None?)
  {
    StepPhase(w.session, ev, Context(fits, w.nextId));
    StepSubmissions(w.session, ev, Context(fits, w.nextId));
    hide Reduce;
  }

  lemma RecoverKeeps(st: SessionState, ctx: Context, own: seq<Stored>, peer: seq<Stored>)
    requires st.phase == Initialization && st.outgoing.None?
    ensures var t := Recover(st, ctx, own, peer); t.state.phase == Active && ctx.nextId <= t.nextId
  {
    hide Drain, Recover, FirstRequest, FirstResponse;
    var from := Restored(st, ctx, own, peer);
    RestoredBatch(st, ctx, own, peer);
    DrainStops(from, ctx);
    DrainExtends(from, ctx);
  }

  lemma {:induction false} AlwaysSafe(decode: Data -> Decoded, ws: seq<World>, acts: seq<Action>, i: nat)
    requires Behaviour(decode, ws, acts) && i < |ws|
    ensures Inv(ws[i])
  {
    hide Next;
    if i > 0 {
      AlwaysSafe(decode, ws, acts, i - 1);
      hide Inv;
      StepKeepsInv(decode, ws[i - 1], acts[i - 1]);
    }
  }

  /** After `init` the query is not made again, the phase stays, and what was seen is never decoded a second time. */
  lemma LaterStep(decode: Data -> Decoded, w: World, act: Action, s: Data)
    requires Inv(w) && Enabled(w, act) && w.session.phase == Active && w.snapshot.Some?
    ensures var w' := Next(decode, w, act);
            && w'.session.phase == Active && w'.snapshot == w.snapshot && w.nextId <= w'.nextId
            && (s in w.seen ==> s in w'.seen)
            && (s in w.seen && s !in w.decoding ==> s !in w'.decoding)
            && (s in w'.seen && s !in w'.decoding ==> (s in w.seen && s !in w.decoding) || (act.Decodes? && act.s == s))
            && (act.Decodes? && act.s == s ==> s in w'.seen && s !in w'.decoding)
  {
    hide Reduce, FirstRequest;
    match act
    case Decodes(d, fits) =>
      if ev: SessionEvent :| EventOf(decode(d)) == Some(ev) { ReducerKeeps(w, ev, fits); }
    case Submits(encoded, token, fits) => ReducerKeeps(w, MessageSubmitted(encoded, token), fits);
    case Arrives(_) =>
  }

  /** The step dispatches an answer to one of the ids of the live batch. */
  predicate Answers(decode: Data -> Decoded, w: World, act: Action) {
    && act.Decodes? && decode(act.s).PeerOrOwnResponse?
    && decode(act.s).requestId in RequestIds(w.session)
  }

  lemma LaterIds(decode: Data -> Decoded, w: World, act: Action, id: RequestId)
    requires Inv(w) && Enabled(w, act) && w.session.phase == Active && w.snapshot.Some? && id < w.nextId
    ensures id in RequestIds(Next(decode, w, act).session) <==> id in RequestIds(w.session) && !Answers(decode, w, act)
  {
    hide Reduce, FirstRequest;
    match act
    case Decodes(s, fits) =>
      if ev: SessionEvent :| EventOf(decode(s)) == Some(ev) { IdStep(w.session, ev, Context(fits, w.nextId), id); }
    case Submits(encoded, token, fits) =>
      IdStep(w.session, MessageSubmitted(encoded, token), Context(fits, w.nextId), id);
    case Arrives(_) =>
  }

  /** The statement has reached the session and was dispatched, or is known from the query. */
  ghost predicate Handled(w: World, s: Data) {
    s in w.seen && s !in w.decoding
  }

  /** The statement was decoded, or the query showed it before it arrived on its own. */
  predicate Handles(w: World, act: Action, s: Data) {
    (act.Decodes? && act.s == s) || (act.Queried? && s in act.peer && s !in w.seen)
  }

  lemma HandledStep(decode: Data -> Decoded, w: World, act: Action, s: Data)
    requires Enabled(w, act) && w.decoding <= w.seen
    ensures Handled(Next(decode, w, act), s) <==> Handled(w, s) || Handles(w, act, s)
    ensures s in Next(decode, w, act).seen <==> s in w.seen || act == Arrives(s) || (act.Queried? && s in act.peer)
    ensures Handles(w, act, s) ==> !Handled(w, s)
  {
    hide Reduce, Recover, FirstRequest;
  }

  /** Over every run a statement is known exactly if it has arrived or the query showed it. */
  lemma {:induction false} SeenIff(decode: Data -> Decoded, ws: seq<World>, acts: seq<Action>, i: nat, s: Data)
    requires Behaviour(decode, ws, acts) && i < |ws|
    ensures s in ws[i].seen <==>
            exists k :: 0 <= k < i && (acts[k] == Arrives(s) || (acts[k].Queried? && s in acts[k].peer))
  {
    hide Next, Inv;
    if i > 0 {
      SeenIff(decode, ws, acts, i - 1, s);
      AlwaysSafe(decode, ws, acts, i - 1);
      DecodingSeen(ws[i - 1]);
      assert Enabled(ws[i - 1], acts[i - 1]);
      HandledStep(decode, ws[i - 1], acts[i - 1], s);
    }
  }

  lemma DecodingSeen(w: World)
    requires Inv(w)
    ensures w.decoding <= w.seen
  {
  }

  /** Over every run a statement is handled exactly if some step handled it, and no two steps do. */
  lemma {:induction false} HandledOnce(decode: Data -> Decoded, ws: seq<World>, acts: seq<Action>, i: nat, s: Data)
    requires Behaviour(decode, ws, acts) && i < |ws|
    ensures Handled(ws[i], s) <==> exists k :: 0 <= k < i && Handles(ws[k], acts[k], s)
    ensures forall j, k :: 0 <= j < k < i && Handles(ws[j], acts[j], s) ==> !Handles(ws[k], acts[k], s)
  {
    hide Next, Inv, Handles, Handled;
    if i == 0 {
      assert !Handled(ws[0], s) by { NothingHandled(ws[0].nextId, s); }
    } else {
      HandledOnce(decode, ws, acts, i - 1, s);
      AlwaysSafe(decode, ws, acts, i - 1);
      DecodingSeen(ws[i - 1]);
      assert Enabled(ws[i - 1], acts[i - 1]);
      HandledStep(decode, ws[i - 1], acts[i - 1], s);
    }
  }

  lemma NothingHandled(nextId: RequestId, s: Data)
    ensures !Handled(Start(nextId), s)
  {
  }

  ghost predicate OnlyAnswer(decode: Data -> Decoded, ws: seq<World>, acts: seq<Action>, f: nat, j: nat, s: Data)
    requires f < j < |ws| == |acts| + 1
  {
    forall k :: f < k < j && Answers(decode, ws[k], acts[k]) ==> acts[k].s == s
  }

  /** What is known of every state after `init`. */
  lemma {:induction false} AfterInit(decode: Data -> Decoded, ws: seq<World>, acts: seq<Action>, f: nat, j: nat,
                                     s: Data, id: RequestId)
    requires Behaviour(decode, ws, acts) && f < j < |ws| && acts[f].Finishes?
    requires FirstRequest(ws[f].snapshot.value.own).Some?
    requires FirstRequest(ws[f].snapshot.value.own).value.requestId == id
    requires decode(s).PeerOrOwnResponse? && decode(s).requestId == id && OnlyAnswer(decode, ws, acts, f, j, s)
    ensures ws[j].session.phase == Active && ws[j].snapshot == ws[f].snapshot && id < ws[j].nextId
    ensures Handled(ws[f], s) ==> Handled(ws[j], s)
    ensures id in RequestIds(ws[j].session) <==>
            Restores(ws[f].snapshot.value.own, Opened(decode, ws[f].snapshot.value.peer))
            && (Handled(ws[j], s) ==> Handled(ws[f], s))
    decreases j
  {
    hide FirstRequest, Recover, Reduce, Restores;
    AlwaysSafe(decode, ws, acts, j - 1);
    assert Enabled(ws[j - 1], acts[j - 1]);
    if j == f + 1 {
      var snap := ws[f].snapshot.value;
      RecoverIds(ws[f].session, Context(acts[f].fits, ws[f].nextId), snap.own, Opened(decode, snap.peer), id);
    } else {
      hide Next, Answers;
      AfterInit(decode, ws, acts, f, j - 1, s, id);
      LaterStep(decode, ws[j - 1], acts[j - 1], s);
      LaterIds(decode, ws[j - 1], acts[j - 1], id);
      if id in RequestIds(ws[j - 1].session) { OnlyItAnswers(decode, ws, acts, f, j, s, id); }
    }
  }

  lemma OnlyItAnswers(decode: Data -> Decoded, ws: seq<World>, acts: seq<Action>, f: nat, j: nat, s: Data,
                      id: RequestId)
    requires f + 1 < j < |ws| == |acts| + 1 && OnlyAnswer(decode, ws, acts, f, j, s)
    requires decode(s).PeerOrOwnResponse? && decode(s).requestId == id && id in RequestIds(ws[j - 1].session)
    ensures Answers(decode, ws[j - 1], acts[j - 1]) <==> acts[j - 1].Decodes? && acts[j - 1].s == s
  {
  }

  /**
   * An answer that comes while the session starts. Let it be the only one to the restored batch, and let it have been
   * handled. Then the batch is live as if unanswered exactly when the answer is not the first response of the query
   * and was handled before `init` finished: known from the query, or dispatched while nothing was in flight. It is
   * never looked at again.
   */
  lemma EarlyAnswerIff(decode: Data -> Decoded, ws: seq<World>, acts: seq<Action>, f: nat, j: nat, s: Data,
                       id: RequestId)
    requires Behaviour(decode, ws, acts) && f < j < |ws| && acts[f].Finishes?
    requires FirstRequest(ws[f].snapshot.value.own).Some?
    requires FirstRequest(ws[f].snapshot.value.own).value.requestId == id
    requires decode(s).PeerOrOwnResponse? && decode(s).requestId == id && OnlyAnswer(decode, ws, acts, f, j, s)
    requires Handled(ws[j], s)
    ensures id in RequestIds(ws[j].session) <==>
            !FirstResponseIs(Opened(decode, ws[f].snapshot.value.peer), id) && Handled(ws[f], s)
  {
    AfterInit(decode, ws, acts, f, j, s, id);
  }

  /** The answer is posted after the query and decoded before its statements are: it is lost. */
  lemma EarlyAnswerRun(messages: seq<Bytes>, fits: seq<Bytes> -> bool)
    ensures var decode := (d: Data) => PeerOrOwnResponse(0, Success);
            var own := [Stored(1, PeerOrOwnRequest(0, messages))];
            var w1 := Next(decode, Start(1), Queried(own, []));
            var w2 := Next(decode, w1, Arrives(9));
            && Enabled(w2, Decodes(9, fits))
            && (var w3 := Next(decode, w2, Decodes(9, fits));
                && Enabled(w3, Finishes(fits))
                && (var w4 := Next(decode, w3, Finishes(fits));
                    && RequestIds(w4.session) == [0] && LiveMessages(w4.session) == messages
                    && Next(decode, w4, Arrives(9)) == w4))
  {
    var own := [Stored(1, PeerOrOwnRequest(0, messages))];
    var none: seq<Stored> := [];
    assert FirstRequest(own) == Some(PeerOrOwnRequest(0, messages));
    assert Restores(own, none);
  }
}
