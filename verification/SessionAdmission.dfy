/**
 * What the reducer sends, parks and remembers, said without its own steps
 * (packages/statement-store/src/session/stateMachine.ts, `admit`, `drain` and `transition`).
 */
module SessionAdmission {
  import opened Common
  import opened SessionMachine
  import opened SessionSteps
  import opened SessionRuns

  // ---- the size budget ---------------------------------------------------------------------------

  /** Every submission is a single message, or fits. */
  ghost predicate Fitting(effects: seq<SessionEffect>, fits: seq<Bytes> -> bool) {
    forall i :: 0 <= i < |effects| && effects[i].SubmitRequest? ==>
      |effects[i].messages| == 1 || fits(effects[i].messages)
  }

  lemma AdmitFits(st: SessionState, encoded: Bytes, tokens: seq<Token>, ctx: Context)
    ensures Fitting(Admit(st, encoded, tokens, ctx).effects, ctx.fits)
  {
  }

  lemma {:induction false} DrainFits(st: SessionState, ctx: Context)
    ensures Fitting(Drain(st, ctx).effects, ctx.fits)
    decreases |st.messageQueue|
  {
    if HeadAdmissible(st, ctx.fits) {
      DrainUnfolds(st, ctx);
      var a := Pop(st, ctx);
      AdmitFits(st.(messageQueue := st.messageQueue[1..]), st.messageQueue[0].encoded, st.messageQueue[0].tokens, ctx);
      PopStep(st, ctx);
      DrainFits(a.state, ctx.(nextId := a.nextId));
    }
  }

  /** Whatever the event, a submission that carries more than one message fits the budget of that moment. */
  lemma SubmissionsFit(st: SessionState, ev: SessionEvent, ctx: Context)
    ensures forall i :: var effects := Reduce(st, ev, ctx).effects;
              0 <= i < |effects| && effects[i].SubmitRequest? ==>
                |effects[i].messages| == 1 || ctx.fits(effects[i].messages)
  {
    hide Drain, Admit;
    DrainFits(st, ctx);
    DrainFits(st.(outgoing := None), ctx);
    DrainFits(st.(phase := Active), ctx);
    if ev.MessageSubmitted? { AdmitFits(st, ev.encoded, [ev.token], ctx); }
  }

  lemma {:induction false} NewBatchFits(st: SessionState, ev: SessionEvent, ctx: Context)
    requires !ev.OutgoingRestored?
    ensures var after := Reduce(st, ev, ctx).state;
            || LiveMessages(after) == LiveMessages(st) || |LiveMessages(after)| <= 1 || ctx.fits(LiveMessages(after))
  {
    StepSubmissions(st, ev, ctx);
    SubmissionsFit(st, ev, ctx);
    hide Reduce;
    var t := Reduce(st, ev, ctx);
    if !Discards(ev) {
      var subs := Submissions(st, ev, t.effects);
      if subs == [] {
        assert LiveMessages(t.state) == LiveMessages(Base(st, ev));
      } else {
        var last := subs[|subs| - 1];
        assert last.messages == LiveMessages(t.state);
        assert last in t.effects;
      }
    } else {
      assert ev.OutgoingCleared? || ev.InitFailed?;
      DiscardedBatch(st, ev, ctx);
    }
  }

  lemma DiscardedBatch(st: SessionState, ev: SessionEvent, ctx: Context)
    requires ev.OutgoingCleared? || ev.InitFailed?
    ensures var after := Reduce(st, ev, ctx).state;
            LiveMessages(after) == LiveMessages(st) || LiveMessages(after) == []
  {
  }

  /**
   * Over every run the live batch is what was restored, or a single message, or fitted when it last grew: no batch is
   * ever put together beyond the budget.
   */
  lemma {:induction false} LiveBatchFitted(firstId: RequestId, steps: seq<Step>)
    ensures var live := LiveMessages(Run(firstId, steps).state);
            || |live| <= 1
            || (exists n :: 0 <= n < |steps| && steps[n].fits(live))
            || (exists n :: 0 <= n < |steps| && steps[n].event.OutgoingRestored? && steps[n].event.messages == live)
  {
    if steps != [] {
      var init, s := steps[..|steps| - 1], steps[|steps| - 1];
      LiveBatchFitted(firstId, init);
      var h := Run(firstId, init);
      assert Run(firstId, steps) == Advance(h, s);
      assert forall n :: 0 <= n < |init| ==> steps[n] == init[n];
      if s.event.OutgoingRestored? {
        RestoredMessagesLive(h.state, s.event, Context(s.fits, h.nextId));
      } else {
        NewBatchFits(h.state, s.event, Context(s.fits, h.nextId));
      }
      hide Reduce, Run;
    }
  }

  lemma RestoredMessagesLive(st: SessionState, ev: SessionEvent, ctx: Context)
    requires ev.OutgoingRestored?
    ensures LiveMessages(Reduce(st, ev, ctx).state) == ev.messages
  {
  }

  // ---- one submitted message ---------------------------------------------------------------------

  /** The message is neither in flight nor queued. */
  predicate IsNew(st: SessionState, encoded: Bytes) {
    encoded !in LiveMessages(st) && forall i :: 0 <= i < |st.messageQueue| ==> st.messageQueue[i].encoded != encoded
  }

  /** Nothing stands in the way of sending the message at once. */
  predicate MayGoOut(st: SessionState, encoded: Bytes, fits: seq<Bytes> -> bool) {
    && st.phase != Initialization && st.messageQueue == []
    && (st.outgoing.Some? ==> fits(LiveMessages(st) + [encoded]))
  }

  /**
   * A new message goes out at once with the whole batch, under a fresh id, exactly when the session is past its
   * initialization, nothing is queued and the batch still fits; otherwise it is parked last, and nothing else changes.
   * A message that is in flight or queued sends nothing.
   */
  lemma SubmittedGoes(st: SessionState, encoded: Bytes, token: Token, ctx: Context)
    ensures var t := Reduce(st, MessageSubmitted(encoded, token), ctx);
            && (IsNew(st, encoded) && MayGoOut(st, encoded, ctx.fits) ==>
                  && t.effects == [SubmitRequest(ctx.nextId, LiveMessages(st) + [encoded])]
                  && t.state == st.(outgoing := t.state.outgoing) && t.state.outgoing.Some?
                  && t.state.outgoing.value.messages == LiveMessages(st) + [encoded]
                  && t.state.outgoing.value.requestIds == RequestIds(st) + [ctx.nextId]
                  && t.state.outgoing.value.tokens
                     == (if st.outgoing.Some? then st.outgoing.value.tokens else []) + [token])
            && (IsNew(st, encoded) && !MayGoOut(st, encoded, ctx.fits) ==>
                  && t.effects == []
                  && t.state == st.(messageQueue := st.messageQueue + [QueuedMessage(encoded, [token])]))
            && (!IsNew(st, encoded) ==>
                  && t.effects == [] && LiveMessages(t.state) == LiveMessages(st)
                  && QueuedBytes(t.state.messageQueue) == QueuedBytes(st.messageQueue))
            && (t.nextId > ctx.nextId <==> IsNew(st, encoded) && MayGoOut(st, encoded, ctx.fits))
  {
    assert st.outgoing.None? ==>
        LiveMessages(st) + [encoded] == [encoded] && RequestIds(st) + [ctx.nextId] == [ctx.nextId];
    var none: seq<Token> := [];
    assert none + [token] == [token];
  }

  /** While a session initializes with nothing in flight, no event makes it send anything. */
  lemma SilentUntilActive(st: SessionState, ev: SessionEvent, ctx: Context)
    requires st.phase == Initialization && st.outgoing.None? && !ev.Activated?
    ensures forall e :: e in Reduce(st, ev, ctx).effects ==> !e.SubmitRequest?
    ensures ev.InitFailed? || Reduce(st, ev, ctx).state.phase == Initialization
  {
  }

  /**
   * A session becomes active by its activation only, and fails with the error of its initialization only; a failure and
   * a clearing drop the queue, a clearing the batch too, and a restored batch has one id and nobody waiting for it.
   */
  lemma LifecycleStep(st: SessionState, ev: SessionEvent, ctx: Context)
    ensures var after := Reduce(st, ev, ctx).state;
            && after.phase == (if ev.Activated? then Active else if ev.InitFailed? then Failed else st.phase)
            && after.initError == (if ev.InitFailed? then Some(ev.error) else st.initError)
            && (ev.InitFailed? ==> after.messageQueue == [] && after.outgoing == st.outgoing)
            && (ev.OutgoingCleared? ==> after.messageQueue == [] && after.outgoing.None?)
            && (ev.OutgoingRestored? ==>
                  && after.messageQueue == st.messageQueue && after.outgoing.Some?
                  && after.outgoing.value.requestIds == [ev.requestId]
                  && after.outgoing.value.messages == ev.messages && after.outgoing.value.tokens == [])
  {
    if EndsBatch(st, ev) { DrainStops(st.(outgoing := None), ctx); }
    DrainStops(st, ctx);
    DrainStops(st.(phase := Active), ctx);
    hide Drain;
  }

  // ---- how a batch ends --------------------------------------------------------------------------

  /**
   * A batch is settled by an answer to any id it was ever submitted under, or by the failure of its newest submission,
   * and by nothing else; all its tokens, and no others, get that answer or that error.
   */
  lemma BatchSettledIff(st: SessionState, ev: SessionEvent, ctx: Context, e: SessionEffect)
    requires e.ResolveTokens? || e.RejectTokens?
    ensures e in Reduce(st, ev, ctx).effects <==>
            && st.outgoing.Some?
            && var live := st.outgoing.value;
               || (ev.ResponseReceived? && ev.requestId in live.requestIds
                   && e == ResolveTokens(live.tokens, ev.requestId, ev.code))
               || (ev.RequestSubmitFailed? && |live.requestIds| > 0
                   && ev.requestId == live.requestIds[|live.requestIds| - 1]
                   && e == RejectTokens(live.tokens, ev.error))
  {
    hide Drain, Admit;
    OnlySubmits(st, ctx);
    OnlySubmits(st.(outgoing := None), ctx);
    OnlySubmits(st.(phase := Active), ctx);
    if ev.MessageSubmitted? { AdmitOnlySubmits(st, ev.encoded, [ev.token], ctx); }
  }

  lemma AdmitOnlySubmits(st: SessionState, encoded: Bytes, tokens: seq<Token>, ctx: Context)
    ensures forall e :: e in Admit(st, encoded, tokens, ctx).effects ==> e.SubmitRequest?
  {
  }

  lemma OnlySubmits(st: SessionState, ctx: Context)
    ensures forall e :: e in Drain(st, ctx).effects ==> e.SubmitRequest?
  {
    hide Drain;
    DrainExtends(st, ctx);
  }

  // ---- requests of the peer ----------------------------------------------------------------------

  /** The event makes the request known. */
  predicate Learns(ev: SessionEvent, id: RequestId) {
    (ev.RequestReceived? || ev.IncomingRestored?) && ev.requestId == id
  }

  /** What one event does to what is known of a peer's request. */
  lemma IncomingStep(st: SessionState, ev: SessionEvent, ctx: Context, id: RequestId)
    ensures var after := Reduce(st, ev, ctx).state;
            && (id in after.incoming <==> id in st.incoming || Learns(ev, id))
            && (id in st.incoming ==>
                  after.incoming[id] == if ev == ResponseSubmitted(id) then true
                                        else if ev == ResponseSubmitFailed(id) then false
                                        else st.incoming[id])
            && (id !in st.incoming && Learns(ev, id) ==>
                  after.incoming[id] == (ev == IncomingRestored(id, true)))
  {
    if EndsBatch(st, ev) { DrainStops(st.(outgoing := None), ctx); }
    DrainStops(st, ctx);
    DrainStops(st.(phase := Active), ctx);
    hide Drain;
  }

  /** The event marks the request answered: an answer goes out, or the store shows one when it becomes known. */
  predicate MarksAnswered(h: History, ev: SessionEvent, id: RequestId) {
    || (ev == ResponseSubmitted(id) && id in h.state.incoming)
    || (ev == IncomingRestored(id, true) && id !in h.state.incoming)
  }

  ghost predicate MarkedAndKept(firstId: RequestId, steps: seq<Step>, id: RequestId) {
    exists k :: MarkedAt(firstId, steps, id, k)
  }

  /** Step `k` marks the request answered, and no failure of an answer follows. */
  ghost predicate MarkedAt(firstId: RequestId, steps: seq<Step>, id: RequestId, k: int) {
    && 0 <= k < |steps| && MarksAnswered(Run(firstId, steps[..k]), steps[k].event, id)
    && forall j :: k < j < |steps| ==> steps[j].event != ResponseSubmitFailed(id)
  }

  lemma MarkedExtends(firstId: RequestId, init: seq<Step>, s: Step, id: RequestId)
    ensures MarkedAndKept(firstId, init + [s], id) <==>
            || MarksAnswered(Run(firstId, init), s.event, id)
            || (MarkedAndKept(firstId, init, id) && s.event != ResponseSubmitFailed(id))
  {
    hide Run, MarksAnswered;
    var steps := init + [s];
    assert steps[..|init|] == init;
    assert forall k :: 0 <= k < |init| ==> steps[k] == init[k] && steps[..k] == init[..k];
    if k: int :| MarkedAt(firstId, init, id, k) {
      if s.event != ResponseSubmitFailed(id) { assert MarkedAt(firstId, steps, id, k); }
    }
    if MarksAnswered(Run(firstId, init), s.event, id) { assert MarkedAt(firstId, steps, id, |init|); }
    if k: int :| MarkedAt(firstId, steps, id, k) {
      if k < |init| { assert steps[|init|] == s && MarkedAt(firstId, init, id, k); }
    }
  }

  /**
   * Over every run a peer's request is marked answered exactly when an answer was started, or the store showed one when
   * the request became known, and no answer has failed since.
   */
  lemma {:induction false} AnsweredIff(firstId: RequestId, steps: seq<Step>, id: RequestId)
    ensures var known := Run(firstId, steps).state.incoming;
            id in known && known[id] <==> MarkedAndKept(firstId, steps, id)
  {
    hide Reduce, MarkedAndKept;
    if steps == [] {
      assert !MarkedAndKept(firstId, [], id) by { NothingMarked(firstId, id); }
    } else {
      var init, s := steps[..|steps| - 1], steps[|steps| - 1];
      assert steps == init + [s];
      AnsweredIff(firstId, init, id);
      MarkedExtends(firstId, init, s, id);
      var h := Run(firstId, init);
      IncomingStep(h.state, s.event, Context(s.fits, h.nextId), id);
    }
  }

  lemma NothingMarked(firstId: RequestId, id: RequestId)
    ensures !MarkedAndKept(firstId, [], id)
  {
  }
}
