/** What one reducer step keeps: message order, token ownership, and the shape of submissions. */
module SessionSteps {
  import opened Common
  import opened SessionMachine

  /** All unanswered messages, oldest first: the live batch, then the queue. */
  function Content(st: SessionState): seq<Bytes> {
    LiveMessages(st) + QueuedBytes(st.messageQueue)
  }

  function QueueTokens(q: seq<QueuedMessage>): multiset<Token> {
    if q == [] then multiset{} else multiset(q[0].tokens) + QueueTokens(q[1..])
  }

  function LiveTokens(st: SessionState): multiset<Token> {
    if st.outgoing.Some? then multiset(st.outgoing.value.tokens) else multiset{}
  }

  /** The tokens somebody may still be waiting on. */
  function Held(st: SessionState): multiset<Token> {
    LiveTokens(st) + QueueTokens(st.messageQueue)
  }

  lemma {:induction false} QueueTokensAppend(q: seq<QueuedMessage>, e: QueuedMessage)
    ensures QueueTokens(q + [e]) == QueueTokens(q) + multiset(e.tokens)
  {
    if q == [] {
      assert [e][1..] == [];
      assert q + [e] == [e];
    } else {
      QueueTokensAppend(q[1..], e);
      assert (q + [e])[1..] == q[1..] + [e];
    }
  }

  lemma {:induction false} QueueTokensAttach(q: seq<QueuedMessage>, k: nat, token: Token)
    requires k < |q|
    ensures QueueTokens(q[k := q[k].(tokens := q[k].tokens + [token])]) == QueueTokens(q) + multiset{token}
  {
    var q' := q[k := q[k].(tokens := q[k].tokens + [token])];
    if k == 0 {
      assert q'[1..] == q[1..];
      assert multiset(q'[0].tokens) == multiset(q[0].tokens) + multiset{token};
    } else {
      QueueTokensAttach(q[1..], k - 1, token);
      assert q'[1..] == q[1..][k - 1 := q[k].(tokens := q[k].tokens + [token])];
    }
  }

  // ---- draining --------------------------------------------------------------------------

  /**
   * `t` only moved messages from `from`'s queue into its batch, submitting after each move:
   * the i-th submission carries the next id and the whole batch as of that move.
   */
  predicate Extends(from: SessionState, t: Transition, firstId: RequestId, subs: seq<SessionEffect>) {
    && t.nextId == firstId + |subs|
    && LiveMessages(from) <= LiveMessages(t.state)
    && |LiveMessages(t.state)| == |LiveMessages(from)| + |subs|
    && (forall i :: 0 <= i < |subs| ==>
          subs[i] == SubmitRequest(firstId + i, LiveMessages(t.state)[..|LiveMessages(from)| + i + 1]))
    && RequestIds(t.state) == RequestIds(from) + seq(|subs|, i requires 0 <= i < |subs| => firstId + i)
  }

  function RequestIds(st: SessionState): seq<RequestId> {
    if st.outgoing.Some? then st.outgoing.value.requestIds else []
  }

  lemma AdmitExtends(st: SessionState, encoded: Bytes, tokens: seq<Token>, ctx: Context)
    requires st.outgoing.Some? ==> ctx.fits(LiveMessages(st) + [encoded])
    ensures var t := Admit(st, encoded, tokens, ctx);
            && Extends(st, t, ctx.nextId, t.effects)
            && |t.effects| == 1
            && LiveMessages(t.state) == LiveMessages(st) + [encoded]
            && LiveTokens(t.state) == LiveTokens(st) + multiset(tokens)
            && t.state == st.(outgoing := t.state.outgoing)
            && t.state.outgoing.Some?
  {
  }

  /** One iteration of the drain loop: the queue head joins the batch. */
  function Pop(st: SessionState, ctx: Context): Transition
    requires HeadAdmissible(st, ctx.fits)
  {
    Admit(st.(messageQueue := st.messageQueue[1..]), st.messageQueue[0].encoded, st.messageQueue[0].tokens, ctx)
  }

  lemma PopStep(st: SessionState, ctx: Context)
    requires HeadAdmissible(st, ctx.fits)
    ensures var a := Pop(st, ctx);
            && Extends(st, a, ctx.nextId, a.effects)
            && |a.effects| == 1
            && Content(a.state) == Content(st)
            && Held(a.state) == Held(st)
            && a.state.outgoing.Some?
            && a.state == st.(outgoing := a.state.outgoing, messageQueue := st.messageQueue[1..])
  {
  }

  lemma ExtendsFrom(from: SessionState, from': SessionState, t: Transition, firstId: RequestId,
                    subs: seq<SessionEffect>)
    requires from.outgoing == from'.outgoing && Extends(from, t, firstId, subs)
    ensures Extends(from', t, firstId, subs)
  {
  }

  lemma DrainUnfolds(st: SessionState, ctx: Context)
    requires HeadAdmissible(st, ctx.fits)
    ensures var a := Pop(st, ctx);
            var rest := Drain(a.state, ctx.(nextId := a.nextId));
            Drain(st, ctx) == Transition(rest.state, a.effects + rest.effects, rest.nextId)
  {
  }

  /** Draining stops only at a head that does not fit, and touches nothing but the batch and the queue. */
  lemma {:induction false} DrainStops(st: SessionState, ctx: Context)
    ensures var t := Drain(st, ctx);
            && !HeadAdmissible(t.state, ctx.fits)
            && |t.effects| <= |st.messageQueue|
            && t.state == st.(outgoing := t.state.outgoing, messageQueue := st.messageQueue[|t.effects|..])
            && (st.outgoing.Some? || |st.messageQueue| > 0 ==> t.state.outgoing.Some?)
            && (st.outgoing.None? && |st.messageQueue| > 0 ==> |t.effects| > 0)
            && (|t.effects| == 0 ==> t.state == st)
    decreases |st.messageQueue|
  {
    if HeadAdmissible(st, ctx.fits) {
      PopStep(st, ctx);
      DrainUnfolds(st, ctx);
      var a := Pop(st, ctx);
      var ctx' := ctx.(nextId := a.nextId);
      DrainStops(a.state, ctx');
      var n := |Drain(a.state, ctx').effects|;
      assert st.messageQueue[1..][n..] == st.messageQueue[n + 1..];
    }
  }

  lemma {:induction false} DrainKeeps(st: SessionState, ctx: Context)
    ensures var t := Drain(st, ctx);
            Content(t.state) == Content(st) && Held(t.state) == Held(st)
    decreases |st.messageQueue|
  {
    if HeadAdmissible(st, ctx.fits) {
      PopStep(st, ctx);
      DrainUnfolds(st, ctx);
      var a := Pop(st, ctx);
      DrainKeeps(a.state, ctx.(nextId := a.nextId));
    }
  }

  lemma {:induction false} DrainExtends(st: SessionState, ctx: Context)
    ensures var t := Drain(st, ctx);
            Extends(st, t, ctx.nextId, t.effects)
    decreases |st.messageQueue|
  {
    if HeadAdmissible(st, ctx.fits) {
      PopStep(st, ctx);
      DrainUnfolds(st, ctx);
      var a := Pop(st, ctx);
      var ctx' := ctx.(nextId := a.nextId);
      DrainExtends(a.state, ctx');
      ChainExtends(st, a, Drain(a.state, ctx'), ctx.nextId);
    } else {
      assert LiveMessages(st)[..|LiveMessages(st)|] == LiveMessages(st);
    }
  }

  lemma ChainExtends(from: SessionState, a: Transition, rest: Transition, firstId: RequestId)
    requires Extends(from, a, firstId, a.effects)
    requires Extends(a.state, rest, a.nextId, rest.effects)
    ensures Extends(from, rest, firstId, a.effects + rest.effects)
  {
  }

  // ---- one event -------------------------------------------------------------------------

  /** The state whose batch the submissions of this step extend. */
  function Base(st: SessionState, ev: SessionEvent): SessionState {
    if EndsBatch(st, ev) then st.(outgoing := None) else st
  }

  function Submissions(st: SessionState, ev: SessionEvent, effects: seq<SessionEffect>): seq<SessionEffect>
    requires EndsBatch(st, ev) ==> |effects| > 0
  {
    if EndsBatch(st, ev) then effects[1..] else effects
  }

  predicate Accepts(st: SessionState, ev: SessionEvent) {
    ev.MessageSubmitted? && AttachToDuplicate(st, ev.encoded, ev.token).None?
  }

  predicate Discards(ev: SessionEvent) {
    ev.OutgoingCleared? || ev.InitFailed? || ev.OutgoingRestored?
  }

  /** Tokens given up without being settled by the reducer; the driver rejects them itself. */
  function Dropped(st: SessionState, ev: SessionEvent): multiset<Token> {
    if ev.OutgoingCleared? then Held(st)
    else if ev.InitFailed? then QueueTokens(st.messageQueue)
    else if ev.OutgoingRestored? then LiveTokens(st)
    else multiset{}
  }

  function Settled(st: SessionState, ev: SessionEvent): multiset<Token> {
    if EndsBatch(st, ev) then LiveTokens(st) else multiset{}
  }

  function Submitted(ev: SessionEvent): multiset<Token> {
    if ev.MessageSubmitted? then multiset{ev.token} else multiset{}
  }

  function Finished(st: SessionState, ev: SessionEvent): seq<Bytes> {
    if EndsBatch(st, ev) then LiveMessages(st) else []
  }

  function Accepted(st: SessionState, ev: SessionEvent): seq<Bytes> {
    if Accepts(st, ev) then [ev.encoded] else []
  }

  /** What the driver sees of a step: the settlement first, then submissions of the grown batch. */
  ghost predicate WellFormedEffects(st: SessionState, ev: SessionEvent, t: Transition, firstId: RequestId) {
    && (EndsBatch(st, ev) ==> |t.effects| > 0 && t.effects[0] == Settlement(st, ev))
    && (var subs := Submissions(st, ev, t.effects);
        if Discards(ev) then subs == [] && t.nextId == firstId
        else
          && Extends(Base(st, ev), t, firstId, subs)
          && (subs != [] ==> LiveRequestId(t.state) == Some(t.nextId - 1)))
  }

  lemma ExtendedLiveId(from: SessionState, t: Transition, firstId: RequestId, subs: seq<SessionEffect>)
    requires Extends(from, t, firstId, subs) && subs != []
    ensures LiveRequestId(t.state) == Some(t.nextId - 1)
  {
  }

  lemma ExtendsTo(from: SessionState, t: Transition, t': Transition, firstId: RequestId, subs: seq<SessionEffect>)
    requires t.state == t'.state && t.nextId == t'.nextId && Extends(from, t, firstId, subs)
    ensures Extends(from, t', firstId, subs)
  {
  }

  lemma DrainedEffects(st: SessionState, ev: SessionEvent, ctx: Context)
    requires ev.CapacityChanged? || ev.Activated? || EndsBatch(st, ev)
    ensures WellFormedEffects(st, ev, Reduce(st, ev, ctx), ctx.nextId)
  {
    hide Drain;
    var from := if ev.Activated? then st.(phase := Active) else Base(st, ev);
    var t := Reduce(st, ev, ctx);
    DrainExtends(from, ctx);
    var subs := Submissions(st, ev, t.effects);
    if ev.CapacityChanged? && st.phase != Active {
      assert LiveMessages(st)[..|LiveMessages(st)|] == LiveMessages(st);
    } else {
      hide Extends;
      assert subs == Drain(from, ctx).effects && t.state == Drain(from, ctx).state;
      ExtendsFrom(from, Base(st, ev), Drain(from, ctx), ctx.nextId, subs);
      if subs != [] { ExtendedLiveId(from, Drain(from, ctx), ctx.nextId, subs); }
      assert t.nextId == Drain(from, ctx).nextId;
      ExtendsTo(Base(st, ev), Drain(from, ctx), t, ctx.nextId, subs);
    }
  }

  lemma SubmittedEffects(st: SessionState, ev: SessionEvent, ctx: Context)
    requires ev.MessageSubmitted?
    ensures WellFormedEffects(st, ev, Reduce(st, ev, ctx), ctx.nextId)
  {
    var t := Reduce(st, ev, ctx);
    if t.effects == [] {
      assert LiveMessages(t.state) == LiveMessages(st);
      assert RequestIds(t.state) == RequestIds(st);
    } else {
      AdmitExtends(st, ev.encoded, [ev.token], ctx);
      ExtendedLiveId(st, t, ctx.nextId, t.effects);
    }
  }

  /** Every submission carries the whole batch as of its own id; the last one carries the live batch. */
  lemma StepSubmissions(st: SessionState, ev: SessionEvent, ctx: Context)
    ensures WellFormedEffects(st, ev, Reduce(st, ev, ctx), ctx.nextId)
  {
    if ev.MessageSubmitted? {
      SubmittedEffects(st, ev, ctx);
    } else if ev.CapacityChanged? || ev.Activated? || EndsBatch(st, ev) {
      DrainedEffects(st, ev, ctx);
    } else {
      assert LiveMessages(st)[..|LiveMessages(st)|] == LiveMessages(st);
    }
  }

  lemma SubmittedKeepsOrder(st: SessionState, encoded: Bytes, token: Token, ctx: Context)
    ensures var ev := MessageSubmitted(encoded, token);
            Content(Reduce(st, ev, ctx).state) == Content(st) + Accepted(st, ev)
  {
    var ev := MessageSubmitted(encoded, token);
    var t := Reduce(st, ev, ctx);
    if !Accepts(st, ev) {
      assert QueuedBytes(t.state.messageQueue) == QueuedBytes(st.messageQueue);
    } else if t.effects == [] {
      assert QueuedBytes(t.state.messageQueue) == QueuedBytes(st.messageQueue) + [encoded];
    } else {
      assert QueuedBytes(st.messageQueue) == [];
    }
  }

  predicate Drains(st: SessionState, ev: SessionEvent) {
    EndsBatch(st, ev) || ev.Activated? || (ev.CapacityChanged? && st.phase == Active)
  }

  lemma DrainsThenKeeps(st: SessionState, ev: SessionEvent, ctx: Context)
    requires Drains(st, ev)
    ensures var after := Reduce(st, ev, ctx).state;
            Content(after) == Content(Base(st, ev)) && Held(after) == Held(Base(st, ev))
  {
    var from := if ev.Activated? then st.(phase := Active) else Base(st, ev);
    DrainKeeps(from, ctx);
    assert Reduce(st, ev, ctx).state == Drain(from, ctx).state;
  }

  lemma OtherwiseKeeps(st: SessionState, ev: SessionEvent, ctx: Context)
    requires !Drains(st, ev) && !ev.MessageSubmitted? && !Discards(ev)
    ensures var after := Reduce(st, ev, ctx).state;
            after == st.(incoming := after.incoming)
  {
  }

  /** First in, first out: a step retires whole batches from the front and accepts at the back. */
  lemma StepKeepsOrder(st: SessionState, ev: SessionEvent, ctx: Context)
    requires !Discards(ev)
    ensures Finished(st, ev) + Content(Reduce(st, ev, ctx).state) == Content(st) + Accepted(st, ev)
  {
    hide Reduce;
    if ev.MessageSubmitted? {
      SubmittedKeepsOrder(st, ev.encoded, ev.token, ctx);
    } else if Drains(st, ev) {
      DrainsThenKeeps(st, ev, ctx);
    } else {
      OtherwiseKeeps(st, ev, ctx);
    }
  }

  lemma LiveTokenJoins(st: SessionState, token: Token, st': SessionState)
    requires LiveTokens(st') == LiveTokens(st) + multiset{token} && st'.messageQueue == st.messageQueue
    ensures Held(st') == Held(st) + multiset{token}
  {
  }

  lemma SubmittedIntoBatch(st: SessionState, encoded: Bytes, token: Token, ctx: Context)
    requires var t := Reduce(st, MessageSubmitted(encoded, token), ctx);
             t.effects != [] || (st.outgoing.Some? && encoded in st.outgoing.value.messages)
    ensures var after := Reduce(st, MessageSubmitted(encoded, token), ctx).state;
            LiveTokens(after) == LiveTokens(st) + multiset{token} && after.messageQueue == st.messageQueue
  {
  }

  lemma SubmittedIntoQueue(st: SessionState, encoded: Bytes, token: Token, ctx: Context)
    requires var t := Reduce(st, MessageSubmitted(encoded, token), ctx);
             !(t.effects != [] || (st.outgoing.Some? && encoded in st.outgoing.value.messages))
    ensures var after := Reduce(st, MessageSubmitted(encoded, token), ctx).state;
            && after.outgoing == st.outgoing
            && QueueTokens(after.messageQueue) == QueueTokens(st.messageQueue) + multiset{token}
  {
    var k := IndexOf(st.messageQueue, encoded);
    if k < |st.messageQueue| {
      QueueTokensAttach(st.messageQueue, k, token);
    } else {
      assert multiset([token]) == multiset{token};
      QueueTokensAppend(st.messageQueue, QueuedMessage(encoded, [token]));
    }
  }

  lemma SubmittedConserves(st: SessionState, encoded: Bytes, token: Token, ctx: Context)
    ensures Held(Reduce(st, MessageSubmitted(encoded, token), ctx).state) == Held(st) + multiset{token}
  {
    var t := Reduce(st, MessageSubmitted(encoded, token), ctx);
    if t.effects != [] || (st.outgoing.Some? && encoded in st.outgoing.value.messages) {
      SubmittedIntoBatch(st, encoded, token, ctx);
      LiveTokenJoins(st, token, t.state);
    } else {
      SubmittedIntoQueue(st, encoded, token, ctx);
    }
  }

  lemma DiscardConserves(st: SessionState, ev: SessionEvent, ctx: Context)
    requires Discards(ev)
    ensures Held(Reduce(st, ev, ctx).state) + Dropped(st, ev) == Held(st)
  {
  }

  ghost predicate Conserves(st: SessionState, ev: SessionEvent, after: SessionState) {
    Held(after) + Settled(st, ev) + Dropped(st, ev) == Held(st) + Submitted(ev)
  }

  lemma SumsBalance(after: multiset<Token>, settled: multiset<Token>, dropped: multiset<Token>,
                    before: multiset<Token>, submitted: multiset<Token>)
    requires || (settled == dropped == multiset{} && after == before + submitted)
             || (settled == submitted == multiset{} && after + dropped == before)
             || (dropped == submitted == multiset{} && after + settled == before)
    ensures after + settled + dropped == before + submitted
  {
  }

  lemma BaseBalance(st: SessionState, ev: SessionEvent)
    ensures EndsBatch(st, ev) ==> Held(Base(st, ev)) + Settled(st, ev) == Held(st)
    ensures !EndsBatch(st, ev) ==> Held(Base(st, ev)) == Held(st)
  {
  }

  lemma EventTokens(st: SessionState, ev: SessionEvent)
    ensures !EndsBatch(st, ev) ==> Settled(st, ev) == multiset{}
    ensures !Discards(ev) ==> Dropped(st, ev) == multiset{}
    ensures ev.MessageSubmitted? || Discards(ev) ==> !EndsBatch(st, ev)
    ensures Submitted(ev) == if ev.MessageSubmitted? then multiset{ev.token} else multiset{}
  {
  }

  lemma Balance(st: SessionState, ev: SessionEvent, after: SessionState)
    requires ev.MessageSubmitted? ==> Held(after) == Held(st) + multiset{ev.token}
    requires Discards(ev) ==> Held(after) + Dropped(st, ev) == Held(st)
    requires !ev.MessageSubmitted? && !Discards(ev) ==> Held(after) == Held(Base(st, ev))
    ensures Conserves(st, ev, after)
  {
    hide Held, QueueTokens, LiveTokens, Base, EndsBatch;
    BaseBalance(st, ev);
    EventTokens(st, ev);
    SumsBalance(Held(after), Settled(st, ev), Dropped(st, ev), Held(st), Submitted(ev));
  }

  lemma IncomingHoldsNothing(st: SessionState, after: SessionState)
    requires after == st.(incoming := after.incoming)
    ensures Held(after) == Held(st)
  {
  }

  /** No event creates, loses or duplicates a token. */
  lemma StepConservesTokens(st: SessionState, ev: SessionEvent, ctx: Context)
    ensures Conserves(st, ev, Reduce(st, ev, ctx).state)
  {
    hide Reduce, Held, Settled, Dropped, Conserves;
    if ev.MessageSubmitted? {
      SubmittedConserves(st, ev.encoded, ev.token, ctx);
    } else if Drains(st, ev) {
      DrainsThenKeeps(st, ev, ctx);
    } else if Discards(ev) {
      DiscardConserves(st, ev, ctx);
    } else {
      OtherwiseKeeps(st, ev, ctx);
      IncomingHoldsNothing(st, Reduce(st, ev, ctx).state);
    }
    Balance(st, ev, Reduce(st, ev, ctx).state);
  }
}
