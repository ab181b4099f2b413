/** Properties of whole runs of the reducer, over every driver-legal sequence of events. */
module SessionRuns {
  import opened Common
  import opened SessionMachine
  import opened SessionSteps

  /** One event, and the size oracle in force while it is processed. */
  datatype Step = Step(event: SessionEvent, fits: seq<Bytes> -> bool)

  /** A machine with the log of its run. `origin` maps each submitted token to its message. */
  datatype History = History(
    state: SessionState,
    nextId: RequestId,
    hasRestored: bool,
    restored: seq<Bytes>,
    accepted: seq<Bytes>,
    finished: seq<Bytes>,
    origin: map<Token, Bytes>,
    submitted: multiset<Token>,
    settled: multiset<Token>,
    dropped: multiset<Token>)

  function Start(firstId: RequestId): History {
    History(InitialState, firstId, false, [], [], [], map[], multiset{}, multiset{}, multiset{})
  }

  function Fire(h: History, s: Step): Transition {
    Reduce(h.state, s.event, Context(s.fits, h.nextId))
  }

  /** The log after `ev` took the machine to `t`. */
  function Record(h: History, ev: SessionEvent, t: Transition): History {
    History(t.state, t.nextId,
            h.hasRestored || ev.OutgoingRestored?,
            if ev.OutgoingRestored? then h.restored + ev.messages else h.restored,
            h.accepted + Accepted(h.state, ev),
            h.finished + Finished(h.state, ev),
            if ev.MessageSubmitted? then h.origin[ev.token := ev.encoded] else h.origin,
            h.submitted + Submitted(ev),
            h.settled + Settled(h.state, ev),
            h.dropped + Dropped(h.state, ev))
  }

  function Advance(h: History, s: Step): History {
    Record(h, s.event, Fire(h, s))
  }

  function Run(firstId: RequestId, steps: seq<Step>): History {
    if steps == [] then Start(firstId) else Advance(Run(firstId, steps[..|steps| - 1]), steps[|steps| - 1])
  }

  /**
   * The order in which the driver may dispatch: tokens are fresh; restoring happens at most once,
   * during initialization and with no batch in flight; initialization ends once.
   */
  predicate Legal(h: History, ev: SessionEvent) {
    match ev
    case MessageSubmitted(_, token) => h.state.phase != Failed && token !in h.origin
    case OutgoingRestored(requestId, _) =>
      !h.hasRestored && h.state.phase == Initialization && h.state.outgoing.None? && requestId < h.nextId
    case Activated => h.state.phase == Initialization
    case InitFailed(_) => h.state.phase == Initialization && h.state.outgoing.None?
    case ResponseReceived(_, _) => h.state.phase == Initialization ==> h.state.outgoing.None?
    case RequestSubmitFailed(_, _) => h.state.phase == Initialization ==> h.state.outgoing.None?
    case _ => true
  }

  predicate LegalRun(firstId: RequestId, steps: seq<Step>) {
    steps == [] || (var init := steps[..|steps| - 1];
                    LegalRun(firstId, init) && Legal(Run(firstId, init), steps[|steps| - 1].event))
  }

  // ---- tokens ----------------------------------------------------------------------------

  ghost predicate Conserved(h: History) {
    Held(h.state) + h.settled + h.dropped == h.submitted
  }

  lemma RecordConserves(h: History, ev: SessionEvent, t: Transition)
    requires Conserved(h) && Conserves(h.state, ev, t.state)
    ensures Conserved(Record(h, ev, t))
  {
    MovesBalance(Held(h.state), h.settled, h.dropped, h.submitted, Held(t.state),
                 Settled(h.state, ev), Dropped(h.state, ev), Submitted(ev));
  }

  lemma MovesBalance(held: multiset<Token>, settled: multiset<Token>, dropped: multiset<Token>,
                     submitted: multiset<Token>, held': multiset<Token>, ds: multiset<Token>, dd: multiset<Token>,
                     du: multiset<Token>)
    requires held + settled + dropped == submitted
    requires held' + ds + dd == held + du
    ensures held' + (settled + ds) + (dropped + dd) == submitted + du
  {
    forall t ensures (held' + (settled + ds) + (dropped + dd))[t] == (submitted + du)[t] {
      assert (held' + ds + dd)[t] == (held + du)[t];
      assert (held + settled + dropped)[t] == submitted[t];
    }
  }

  /** Every submitted token is still held, settled, or dropped, and none more often than submitted. */
  lemma {:induction false} TokensConserved(firstId: RequestId, steps: seq<Step>)
    ensures Conserved(Run(firstId, steps))
  {
    if steps != [] {
      var init, s := steps[..|steps| - 1], steps[|steps| - 1];
      TokensConserved(firstId, init);
      var h := Run(firstId, init);
      StepConservesTokens(h.state, s.event, Context(s.fits, h.nextId));
      RecordConserves(h, s.event, Fire(h, s));
    }
  }

  ghost predicate OncePerToken(h: History) {
    forall t :: h.submitted[t] == if t in h.origin then 1 else 0
  }

  lemma RecordOncePerToken(h: History, ev: SessionEvent, t: Transition)
    requires OncePerToken(h) && (ev.MessageSubmitted? ==> ev.token !in h.origin)
    ensures OncePerToken(Record(h, ev, t))
  {
  }

  lemma {:induction false} TokensSubmittedOnce(firstId: RequestId, steps: seq<Step>)
    requires LegalRun(firstId, steps)
    ensures OncePerToken(Run(firstId, steps))
  {
    if steps != [] {
      var init, s := steps[..|steps| - 1], steps[|steps| - 1];
      TokensSubmittedOnce(firstId, init);
      RecordOncePerToken(Run(firstId, init), s.event, Fire(Run(firstId, init), s));
    }
  }

  /**
   * In a legal run each submitted token is in exactly one place: the live batch, one queue
   * entry, among the settled or among the dropped. In particular it is settled at most once.
   */
  lemma EachTokenInOnePlace(firstId: RequestId, steps: seq<Step>, t: Token)
    requires LegalRun(firstId, steps)
    ensures var h := Run(firstId, steps);
            LiveTokens(h.state)[t] + QueueTokens(h.state.messageQueue)[t] + h.settled[t] + h.dropped[t]
            == if t in h.origin then 1 else 0
  {
    TokensConserved(firstId, steps);
    TokensSubmittedOnce(firstId, steps);
    var h := Run(firstId, steps);
    assert (Held(h.state) + h.settled + h.dropped)[t] == h.submitted[t];
  }

  // ---- whose message is answered -----------------------------------------------------------

  /** Tokens stay with the message they were submitted with. */
  ghost predicate Owned(st: SessionState, origin: map<Token, Bytes>) {
    && (st.outgoing.Some? ==>
          forall t :: t in st.outgoing.value.tokens ==> t in origin && origin[t] in st.outgoing.value.messages)
    && (forall i, t :: 0 <= i < |st.messageQueue| && t in st.messageQueue[i].tokens ==>
          t in origin && origin[t] == st.messageQueue[i].encoded)
  }

  lemma AdmitKeepsOwned(st: SessionState, e: QueuedMessage, ctx: Context, origin: map<Token, Bytes>)
    requires Owned(st, origin)
    requires forall t :: t in e.tokens ==> t in origin && origin[t] == e.encoded
    ensures Owned(Admit(st, e.encoded, e.tokens, ctx).state, origin)
  {
  }

  lemma {:induction false} DrainKeepsOwned(st: SessionState, ctx: Context, origin: map<Token, Bytes>)
    requires Owned(st, origin)
    ensures Owned(Drain(st, ctx).state, origin)
    decreases |st.messageQueue|
  {
    if HeadAdmissible(st, ctx.fits) {
      var popped := st.(messageQueue := st.messageQueue[1..]);
      assert Owned(popped, origin) by {
        forall i, t | 0 <= i < |popped.messageQueue| && t in popped.messageQueue[i].tokens
          ensures t in origin && origin[t] == popped.messageQueue[i].encoded
        {
          assert popped.messageQueue[i] == st.messageQueue[i + 1];
        }
      }
      AdmitKeepsOwned(popped, st.messageQueue[0], ctx, origin);
      PopStep(st, ctx);
      DrainUnfolds(st, ctx);
      var a := Pop(st, ctx);
      DrainKeepsOwned(a.state, ctx.(nextId := a.nextId), origin);
    }
  }

  lemma SubmittedKeepsOwned(st: SessionState, encoded: Bytes, token: Token, ctx: Context, origin: map<Token, Bytes>)
    requires Owned(st, origin) && token !in origin
    ensures Owned(Reduce(st, MessageSubmitted(encoded, token), ctx).state, origin[token := encoded])
  {
    var origin' := origin[token := encoded];
    assert Owned(st, origin');
    var t := Reduce(st, MessageSubmitted(encoded, token), ctx);
    if t.effects != [] {
      AdmitKeepsOwned(st, QueuedMessage(encoded, [token]), ctx, origin');
    } else if st.outgoing.Some? && encoded in st.outgoing.value.messages {
      assert t.state.messageQueue == st.messageQueue;
    } else {
      forall i, x | 0 <= i < |t.state.messageQueue| && x in t.state.messageQueue[i].tokens
        ensures x in origin' && origin'[x] == t.state.messageQueue[i].encoded
      {
        if i < |st.messageQueue| && x in st.messageQueue[i].tokens {
          assert origin[x] == st.messageQueue[i].encoded;
        } else {
          assert x == token;
        }
      }
    }
  }

  lemma StepKeepsOwned(st: SessionState, ev: SessionEvent, ctx: Context, origin: map<Token, Bytes>)
    requires Owned(st, origin) && !ev.MessageSubmitted?
    ensures Owned(Reduce(st, ev, ctx).state, origin)
  {
    if Drains(st, ev) {
      var from := if ev.Activated? then st.(phase := Active) else Base(st, ev);
      DrainKeepsOwned(from, ctx, origin);
      assert Reduce(st, ev, ctx).state == Drain(from, ctx).state;
    } else if !Discards(ev) {
      OtherwiseKeeps(st, ev, ctx);
    }
  }

  lemma {:induction false} TokensOwned(firstId: RequestId, steps: seq<Step>)
    requires LegalRun(firstId, steps)
    ensures Owned(Run(firstId, steps).state, Run(firstId, steps).origin)
  {
    if steps != [] {
      var init, s := steps[..|steps| - 1], steps[|steps| - 1];
      TokensOwned(firstId, init);
      var h := Run(firstId, init);
      var ctx := Context(s.fits, h.nextId);
      if s.event.MessageSubmitted? {
        SubmittedKeepsOwned(h.state, s.event.encoded, s.event.token, ctx, h.origin);
      } else {
        StepKeepsOwned(h.state, s.event, ctx, h.origin);
      }
    }
  }

  /** A token is settled only together with a batch that carried the message submitted under it. */
  lemma SettledWithOwnMessage(firstId: RequestId, steps: seq<Step>, ev: SessionEvent, t: Token)
    requires LegalRun(firstId, steps)
    requires var h := Run(firstId, steps);
             EndsBatch(h.state, ev) && t in Settlement(h.state, ev).tokens
    ensures var h := Run(firstId, steps);
            t in h.origin && h.origin[t] in LiveMessages(h.state)
  {
    TokensOwned(firstId, steps);
  }

  // ---- order and duplicates ----------------------------------------------------------------

  predicate Keeps(steps: seq<Step>) {
    forall i :: 0 <= i < |steps| ==> !steps[i].event.OutgoingCleared? && !steps[i].event.InitFailed?
  }

  ghost predicate FirstInFirstOut(h: History) {
    && h.finished + Content(h.state) == h.restored + h.accepted
    && (h.state.phase == Initialization ==> h.finished == [])
    && (h.state.phase == Initialization && !h.hasRestored ==> h.state.outgoing.None?)
    && (!h.hasRestored ==> h.restored == [])
  }

  lemma SpliceOrder(finished: seq<Bytes>, content: seq<Bytes>, restored: seq<Bytes>, accepted: seq<Bytes>,
                    ended: seq<Bytes>, content': seq<Bytes>, added: seq<Bytes>)
    requires finished + content == restored + accepted
    requires ended + content' == content + added
    ensures (finished + ended) + content' == restored + (accepted + added)
  {
    calc {
      (finished + ended) + content';
      finished + (ended + content');
      finished + (content + added);
      (finished + content) + added;
      (restored + accepted) + added;
      restored + (accepted + added);
    }
  }

  lemma RecordInOrder(h: History, ev: SessionEvent, t: Transition)
    requires FirstInFirstOut(h) && Legal(h, ev) && !Discards(ev)
    requires Finished(h.state, ev) + Content(t.state) == Content(h.state) + Accepted(h.state, ev)
    requires t.state.phase == (if ev.Activated? then Active else h.state.phase)
    requires h.state.phase == Initialization && !ev.Activated? && h.state.outgoing.None? ==> t.state.outgoing.None?
    ensures FirstInFirstOut(Record(h, ev, t))
  {
    SpliceOrder(h.finished, Content(h.state), h.restored, h.accepted,
                Finished(h.state, ev), Content(t.state), Accepted(h.state, ev));
    if t.state.phase == Initialization {
      assert !EndsBatch(h.state, ev);
    }
  }

  lemma RecordRestored(h: History, ev: SessionEvent, t: Transition)
    requires FirstInFirstOut(h) && Legal(h, ev) && ev.OutgoingRestored?
    requires t.state == h.state.(outgoing := Some(OutgoingRequest([ev.requestId], ev.messages, [])))
    ensures FirstInFirstOut(Record(h, ev, t))
  {
    SpliceRestored(h.finished, Content(h.state), h.restored, h.accepted, ev.messages);
    assert LiveMessages(h.state) == [];
    assert Content(t.state) == ev.messages + Content(h.state);
    assert Finished(h.state, ev) == [] && Accepted(h.state, ev) == [];
  }

  lemma SpliceRestored(finished: seq<Bytes>, content: seq<Bytes>, restored: seq<Bytes>, accepted: seq<Bytes>,
                       messages: seq<Bytes>)
    requires finished + content == restored + accepted && finished == [] && restored == []
    ensures (finished + []) + (messages + content) == (restored + messages) + (accepted + [])
    ensures finished + [] == []
  {
    assert finished + content == content && restored + accepted == accepted;
  }

  lemma FirstInFirstOutStep(h: History, s: Step)
    requires FirstInFirstOut(h) && Legal(h, s.event)
    requires !s.event.OutgoingCleared? && !s.event.InitFailed?
    ensures FirstInFirstOut(Advance(h, s))
  {
    var ctx := Context(s.fits, h.nextId);
    if s.event.OutgoingRestored? {
      RecordRestored(h, s.event, Fire(h, s));
    } else {
      StepKeepsOrder(h.state, s.event, ctx);
      PhaseStep(h.state, s.event, ctx);
      RecordInOrder(h, s.event, Fire(h, s));
    }
  }

  lemma PhaseStep(st: SessionState, ev: SessionEvent, ctx: Context)
    requires !Discards(ev)
    ensures var after := Reduce(st, ev, ctx).state;
            && after.phase == (if ev.Activated? then Active else st.phase)
            && (st.phase == Initialization && !ev.Activated? && st.outgoing.None? ==> after.outgoing.None?)
  {
    if Drains(st, ev) {
      var from := if ev.Activated? then st.(phase := Active) else Base(st, ev);
      DrainStops(from, ctx);
    }
  }

  /**
   * While nothing is cleared, the messages of ended batches, the live batch and the queue are,
   * in this order, the restored batch followed by every accepted submission.
   */
  lemma {:induction false} RunIsFirstInFirstOut(firstId: RequestId, steps: seq<Step>)
    requires LegalRun(firstId, steps) && Keeps(steps)
    ensures FirstInFirstOut(Run(firstId, steps))
  {
    if steps != [] {
      var init := steps[..|steps| - 1];
      RunIsFirstInFirstOut(firstId, init);
      FirstInFirstOutStep(Run(firstId, init), steps[|steps| - 1]);
    }
  }

  predicate Distinct(s: seq<Bytes>) {
    forall i, j :: 0 <= i < j < |s| ==> s[i] != s[j]
  }

  lemma SuffixDistinct(a: seq<Bytes>, b: seq<Bytes>)
    requires Distinct(a + b)
    ensures Distinct(b)
  {
    forall i, j | 0 <= i < j < |b| ensures b[i] != b[j] {
      assert (a + b)[|a| + i] == b[i] && (a + b)[|a| + j] == b[j];
    }
  }

  lemma AcceptedIsNew(st: SessionState, ev: SessionEvent)
    requires Accepts(st, ev)
    ensures ev.encoded !in Content(st)
  {
  }

  lemma ConcatDistinct(a: seq<Bytes>, b: seq<Bytes>)
    ensures Distinct(a + b) <==> Distinct(a) && Distinct(b) && forall m :: m in a ==> m !in b
  {
    var c := a + b;
    if Distinct(c) {
      SuffixDistinct(a, b);
      forall m | m in a ensures m !in b {
        var i :| 0 <= i < |a| && a[i] == m;
        forall j | 0 <= j < |b| ensures b[j] != m { assert c[i] != c[|a| + j]; }
      }
      forall i, j | 0 <= i < j < |a| ensures a[i] != a[j] { assert c[i] != c[j]; }
    }
    if Distinct(a) && Distinct(b) && forall m :: m in a ==> m !in b {
      forall i, j | 0 <= i < j < |c| ensures c[i] != c[j] {
        assert i < |a| ==> c[i] in a;
        assert j >= |a| ==> c[j] == b[j - |a|] && c[j] in b;
      }
    }
  }

  /** The fetched batch repeats neither itself nor what was queued while it was being fetched. */
  predicate CleanRestore(st: SessionState, messages: seq<Bytes>) {
    Distinct(messages) && forall m :: m in messages ==> m !in QueuedBytes(st.messageQueue)
  }

  /** A message is not live or queued twice at a time, except through a restore that is not clean. */
  lemma StepKeepsDistinct(st: SessionState, ev: SessionEvent, ctx: Context)
    requires Distinct(Content(st))
    requires ev.OutgoingRestored? ==> st.outgoing.None?
    ensures var after := Reduce(st, ev, ctx).state;
            Distinct(Content(after)) <==> (ev.OutgoingRestored? ==> CleanRestore(st, ev.messages))
  {
    var after := Reduce(st, ev, ctx).state;
    if ev.OutgoingRestored? {
      assert Content(st) == QueuedBytes(st.messageQueue);
      assert Content(after) == ev.messages + Content(st);
      ConcatDistinct(ev.messages, Content(st));
    } else if ev.OutgoingCleared? {
      assert Content(after) == [];
    } else if ev.InitFailed? {
      assert Content(after) == LiveMessages(st);
      forall i, j | 0 <= i < j < |Content(after)| ensures Content(after)[i] != Content(after)[j] {
        assert Content(st)[i] == Content(after)[i] && Content(st)[j] == Content(after)[j];
      }
    } else {
      StepKeepsOrder(st, ev, ctx);
      if Accepts(st, ev) {
        AcceptedIsNew(st, ev);
        assert Distinct(Content(st) + Accepted(st, ev));
      }
      SuffixDistinct(Finished(st, ev), Content(after));
    }
  }

  ghost predicate AlwaysDistinct(firstId: RequestId, steps: seq<Step>) {
    forall n :: 0 <= n <= |steps| ==> Distinct(Content(Run(firstId, steps[..n]).state))
  }

  ghost predicate RestoresCleanly(firstId: RequestId, steps: seq<Step>) {
    forall n :: 0 <= n < |steps| && steps[n].event.OutgoingRestored? ==>
      CleanRestore(Run(firstId, steps[..n]).state, steps[n].event.messages)
  }

  /** Over a whole run no message is ever live or queued twice exactly when what it restored was clean. */
  lemma {:induction false} RunDistinctIff(firstId: RequestId, steps: seq<Step>)
    requires LegalRun(firstId, steps)
    ensures AlwaysDistinct(firstId, steps) <==> RestoresCleanly(firstId, steps)
  {
    hide Distinct, Content, CleanRestore, Reduce, Legal, Run, AlwaysDistinct, RestoresCleanly;
    if steps == [] {
      EmptyIsDistinct(firstId);
    } else {
      var init, s := steps[..|steps| - 1], steps[|steps| - 1];
      assert steps == init + [s];
      RunExtended(firstId, init, s);
      RunDistinctIff(firstId, init);
      PrefixesOf(firstId, init, s);
      if AlwaysDistinct(firstId, init) {
        var h := Run(firstId, init);
        DistinctNow(firstId, init);
        if s.event.OutgoingRestored? { LegalRestore(h, s.event); }
        StepKeepsDistinct(h.state, s.event, Context(s.fits, h.nextId));
      }
    }
  }

  lemma DistinctNow(firstId: RequestId, steps: seq<Step>)
    requires AlwaysDistinct(firstId, steps)
    ensures Distinct(Content(Run(firstId, steps).state))
  {
    assert steps[..|steps|] == steps;
  }

  lemma EmptyIsDistinct(firstId: RequestId)
    ensures AlwaysDistinct(firstId, []) && RestoresCleanly(firstId, [])
  {
    assert Content(Start(firstId).state) == [];
    var none: seq<Step> := [];
    assert none[..0] == none;
  }

  /** Both properties speak of a run and of its prefixes. */
  lemma PrefixesOf(firstId: RequestId, init: seq<Step>, s: Step)
    ensures var steps := init + [s];
            && (AlwaysDistinct(firstId, steps) <==>
                  AlwaysDistinct(firstId, init) && Distinct(Content(Run(firstId, steps).state)))
            && (RestoresCleanly(firstId, steps) <==>
                  RestoresCleanly(firstId, init)
                  && (s.event.OutgoingRestored? ==> CleanRestore(Run(firstId, init).state, s.event.messages)))
  {
    hide Distinct, Content, CleanRestore, Run;
    var steps := init + [s];
    assert forall n :: 0 <= n <= |init| ==> steps[..n] == init[..n];
    assert steps[..|steps|] == steps && steps[..|init|] == init;
    assert forall n :: 0 <= n < |init| ==> steps[n] == init[n];
  }

  /** The exception is real: a message queued during initialization is live twice after restoring. */
  lemma RestoredDuplicate(message: Bytes, fits: seq<Bytes> -> bool)
    ensures var steps := [Step(MessageSubmitted(message, 0), fits), Step(OutgoingRestored(0, [message]), fits)];
            LegalRun(1, steps) && Content(Run(1, steps).state) == [message, message]
  {
    hide Reduce, Content;
    var a, b := Step(MessageSubmitted(message, 0), fits), Step(OutgoingRestored(0, [message]), fits);
    assert LegalRun(1, []) && Run(1, []) == Start(1);
    RunExtended(1, [], a);
    var h := Advance(Start(1), a);
    assert [] + [a] == [a];
    QueuedDuringInit(message, fits);
    RunExtended(1, [a], b);
    assert [a] + [b] == [a, b];
    RestoredOverQueue(h, message, fits);
  }

  lemma RestoredOverQueue(h: History, message: Bytes, fits: seq<Bytes> -> bool)
    requires h.state == InitialState.(messageQueue := [QueuedMessage(message, [0])])
    requires h.nextId == 1 && !h.hasRestored
    ensures Legal(h, OutgoingRestored(0, [message]))
    ensures Content(Advance(h, Step(OutgoingRestored(0, [message]), fits)).state) == [message, message]
  {
  }

  lemma QueuedDuringInit(message: Bytes, fits: seq<Bytes> -> bool)
    ensures var h := Advance(Start(1), Step(MessageSubmitted(message, 0), fits));
            && h.state == InitialState.(messageQueue := [QueuedMessage(message, [0])])
            && h.nextId == 1 && !h.hasRestored
  {
  }

  lemma RunExtended(firstId: RequestId, init: seq<Step>, s: Step)
    ensures Run(firstId, init + [s]) == Advance(Run(firstId, init), s)
    ensures LegalRun(firstId, init + [s]) <==> LegalRun(firstId, init) && Legal(Run(firstId, init), s.event)
  {
  }

  /** Queue entries are pairwise distinct as byte strings in every run, legal or not. */
  lemma {:induction false} QueueDistinct(firstId: RequestId, steps: seq<Step>)
    ensures Distinct(QueuedBytes(Run(firstId, steps).state.messageQueue))
  {
    if steps != [] {
      var init, s := steps[..|steps| - 1], steps[|steps| - 1];
      QueueDistinct(firstId, init);
      QueueDistinctStep(Run(firstId, init).state, s.event, Context(s.fits, Run(firstId, init).nextId));
    }
  }

  lemma QueueDistinctStep(st: SessionState, ev: SessionEvent, ctx: Context)
    requires Distinct(QueuedBytes(st.messageQueue))
    ensures Distinct(QueuedBytes(Reduce(st, ev, ctx).state.messageQueue))
  {
    var after := Reduce(st, ev, ctx).state;
    if Drains(st, ev) {
      var from := if ev.Activated? then st.(phase := Active) else Base(st, ev);
      DrainStops(from, ctx);
      var n := |Drain(from, ctx).effects|;
      assert QueuedBytes(st.messageQueue) == QueuedBytes(st.messageQueue[..n]) + QueuedBytes(after.messageQueue);
      SuffixDistinct(QueuedBytes(st.messageQueue[..n]), QueuedBytes(after.messageQueue));
    } else if Accepts(st, ev) {
      AcceptedIsNew(st, ev);
      if after.messageQueue != st.messageQueue {
        assert QueuedBytes(after.messageQueue) == QueuedBytes(st.messageQueue) + [ev.encoded];
        assert forall x :: x in QueuedBytes(st.messageQueue) ==> x in Content(st);
      }
    } else if ev.MessageSubmitted? {
      assert QueuedBytes(after.messageQueue) == QueuedBytes(st.messageQueue);
    } else if !Discards(ev) {
      OtherwiseKeeps(st, ev, ctx);
    }
  }

  // ---- progress --------------------------------------------------------------------------

  /** A waiting message is waiting for a reason: a batch is in flight, and the queue head does not fit it. */
  predicate Justified(st: SessionState, fits: seq<Bytes> -> bool) {
    st.phase == Active && |st.messageQueue| > 0 ==>
      st.outgoing.Some? && !fits(LiveMessages(st) + [st.messageQueue[0].encoded])
  }

  /** The size oracle may change only with an event that re-evaluates the queue. */
  ghost predicate CapacitySteady(steps: seq<Step>) {
    forall i :: 0 < i < |steps| && !steps[i].event.CapacityChanged? && !steps[i].event.Activated? ==>
      steps[i].fits == steps[i - 1].fits
  }

  lemma JustifiedStep(st: SessionState, ev: SessionEvent, ctx: Context)
    requires ev.CapacityChanged? || ev.Activated? || Justified(st, ctx.fits)
    requires ev.OutgoingRestored? ==> st.phase == Initialization
    ensures Justified(Reduce(st, ev, ctx).state, ctx.fits)
  {
    if Drains(st, ev) {
      DrainJustifies(if ev.Activated? then st.(phase := Active) else Base(st, ev), ctx);
    } else if ev.MessageSubmitted? {
      SubmitStaysJustified(st, ev.encoded, ev.token, ctx);
    } else if !Discards(ev) {
      hide Reduce;
      OtherwiseKeeps(st, ev, ctx);
    }
  }

  lemma DrainJustifies(st: SessionState, ctx: Context)
    ensures Justified(Drain(st, ctx).state, ctx.fits)
  {
    hide Drain;
    DrainStops(st, ctx);
  }

  lemma SubmitStaysJustified(st: SessionState, encoded: Bytes, token: Token, ctx: Context)
    requires Justified(st, ctx.fits)
    ensures Justified(Reduce(st, MessageSubmitted(encoded, token), ctx).state, ctx.fits)
  {
  }

  lemma IdleIsJustified(st: SessionState, fits: seq<Bytes> -> bool)
    requires st.phase == Initialization
    ensures Justified(st, fits)
  {
  }

  lemma LegalRestore(h: History, ev: SessionEvent)
    requires Legal(h, ev) && ev.OutgoingRestored?
    ensures h.state.phase == Initialization && h.state.outgoing.None?
  {
  }

  /** No stuck queue: in the active phase waiting messages always have a batch to wait for. */
  lemma {:induction false} NoStuckQueue(firstId: RequestId, steps: seq<Step>)
    requires LegalRun(firstId, steps) && CapacitySteady(steps) && |steps| > 0
    ensures Justified(Run(firstId, steps).state, steps[|steps| - 1].fits)
  {
    hide Reduce, Justified, Legal;
    var init, s := steps[..|steps| - 1], steps[|steps| - 1];
    var h := Run(firstId, init);
    assert Run(firstId, steps).state == Reduce(h.state, s.event, Context(s.fits, h.nextId)).state;
    if init == [] {
      IdleIsJustified(h.state, s.fits);
    } else {
      assert CapacitySteady(init) by {
        forall i | 0 < i < |init| && !init[i].event.CapacityChanged? && !init[i].event.Activated?
          ensures init[i].fits == init[i - 1].fits
        {
          assert steps[i] == init[i] && steps[i - 1] == init[i - 1];
        }
      }
      NoStuckQueue(firstId, init);
      assert init[|init| - 1] == steps[|steps| - 2];
    }
    if s.event.OutgoingRestored? { LegalRestore(h, s.event); }
    JustifiedStep(h.state, s.event, Context(s.fits, h.nextId));
  }

  /** How many answers the session still needs. */
  function Outstanding(st: SessionState): nat {
    |st.messageQueue| + if st.outgoing.Some? then 1 else 0
  }

  /** Answering the live batch once for each oracle in `oracles`, whatever the oracles say. */
  function AnswerAll(st: SessionState, nextId: RequestId, code: ResponseStatus,
                     oracles: seq<seq<Bytes> -> bool>): SessionState
    decreases |oracles|
  {
    if oracles == [] || LiveRequestId(st).None? then st
    else
      var t := Reduce(st, ResponseReceived(LiveRequestId(st).value, code), Context(oracles[0], nextId));
      AnswerAll(t.state, t.nextId, code, oracles[1..])
  }

  lemma AnswerMakesProgress(st: SessionState, ev: SessionEvent, ctx: Context)
    requires EndsBatch(st, ev)
    ensures var after := Reduce(st, ev, ctx).state;
            && Outstanding(after) < Outstanding(st)
            && (after.outgoing.None? ==> after.messageQueue == [])
            && (after.outgoing.Some? ==> |after.outgoing.value.requestIds| > 0)
  {
    DrainStops(Base(st, ev), ctx);
    DrainExtends(Base(st, ev), ctx);
  }

  /** |queue| + 1 answers empty an active machine, even if capacity shrinks in between. */
  lemma {:induction false} AnswersEmptyTheMachine(st: SessionState, nextId: RequestId, code: ResponseStatus,
                                                  oracles: seq<seq<Bytes> -> bool>)
    requires st.outgoing.None? ==> st.messageQueue == []
    requires st.outgoing.Some? ==> |st.outgoing.value.requestIds| > 0
    requires |oracles| >= Outstanding(st)
    ensures Outstanding(AnswerAll(st, nextId, code, oracles)) == 0
    decreases |oracles|
  {
    if st.outgoing.Some? {
      var ev := ResponseReceived(LiveRequestId(st).value, code);
      var t := Reduce(st, ev, Context(oracles[0], nextId));
      AnswerMakesProgress(st, ev, Context(oracles[0], nextId));
      AnswersEmptyTheMachine(t.state, t.nextId, code, oracles[1..]);
    }
  }

  // ---- ids -------------------------------------------------------------------------------

  /** The live id is the newest one drawn, or restored before any was drawn. */
  ghost predicate IdsOrdered(st: SessionState, nextId: RequestId) {
    st.outgoing.Some? ==>
      && |st.outgoing.value.requestIds| > 0
      && (forall i :: 0 <= i < |st.outgoing.value.requestIds| ==> st.outgoing.value.requestIds[i] < nextId)
      && (forall i, j :: 0 <= i < j < |st.outgoing.value.requestIds| ==>
            st.outgoing.value.requestIds[i] < st.outgoing.value.requestIds[j])
  }

  lemma IdsOrderedStep(st: SessionState, ev: SessionEvent, ctx: Context)
    requires IdsOrdered(st, ctx.nextId)
    requires ev.OutgoingRestored? ==> ev.requestId < ctx.nextId
    ensures var t := Reduce(st, ev, ctx);
            ctx.nextId <= t.nextId && IdsOrdered(t.state, t.nextId)
  {
    StepSubmissions(st, ev, ctx);
    KeepsSomeId(st, ev, ctx);
    hide Reduce;
    if !Discards(ev) {
      var t := Reduce(st, ev, ctx);
      var subs := Submissions(st, ev, t.effects);
      IdsExtended(RequestIds(Base(st, ev)), RequestIds(t.state), ctx.nextId, |subs|);
    }
  }

  lemma IdsExtended(from: seq<RequestId>, ids: seq<RequestId>, firstId: RequestId, n: nat)
    requires ids == from + seq(n, i requires 0 <= i < n => firstId + i)
    requires forall i :: 0 <= i < |from| ==> from[i] < firstId
    requires forall i, j :: 0 <= i < j < |from| ==> from[i] < from[j]
    ensures forall i :: 0 <= i < |ids| ==> ids[i] < firstId + n
    ensures forall i, j :: 0 <= i < j < |ids| ==> ids[i] < ids[j]
  {
  }

  lemma KeepsSomeId(st: SessionState, ev: SessionEvent, ctx: Context)
    requires IdsOrdered(st, ctx.nextId)
    ensures var t := Reduce(st, ev, ctx);
            && (t.state.outgoing.Some? ==> |t.state.outgoing.value.requestIds| > 0)
            && (ev.OutgoingCleared? ==> t.state.outgoing.None?)
            && (ev.InitFailed? ==> t.state.outgoing == st.outgoing)
            && (ev.OutgoingRestored? ==> RequestIds(t.state) == [ev.requestId])
            && (Discards(ev) ==> t.nextId == ctx.nextId)
  {
    if Drains(st, ev) {
      DrainKeepsIds(if ev.Activated? then st.(phase := Active) else Base(st, ev), ctx);
    }
  }

  lemma DrainKeepsIds(st: SessionState, ctx: Context)
    requires st.outgoing.Some? ==> |st.outgoing.value.requestIds| > 0
    ensures var t := Drain(st, ctx);
            t.state.outgoing.Some? ==> |t.state.outgoing.value.requestIds| > 0
  {
    hide Drain;
    DrainStops(st, ctx);
    DrainExtends(st, ctx);
  }
}
