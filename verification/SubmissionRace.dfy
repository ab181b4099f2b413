/**
 * The request channel as a step relation: attempts draw an expiry when they start, reach the store
 * later, in any order, and hear of its decision later still, between transient failures, retries
 * and foreign writes
 * (packages/statement-store/src/session/core.ts, submit/retry.ts, submit/submitStatement.ts).
 */
module SubmissionRace {
  import opened Common
  import opened SessionMachine
  import opened SessionSteps
  import opened SessionRuns
  import opened ExpiryAllocator
  import opened StatementStore

  /** One signed statement on its way to the store. `clears` marks the empty one that aborts a batch. */
  datatype Attempt = Attempt(requestId: RequestId, clears: bool, expiry: nat, messages: seq<Bytes>)

  /** The order in which submissions were decided on: by id, the abort of a batch after its requests. */
  function Rank(a: Attempt): nat {
    2 * a.requestId + if a.clears then 1 else 0
  }

  datatype Entry = Own(attempt: Attempt) | Foreign(expiry: nat)

  function EntryExpiry(channel: Option<Entry>): Option<nat> {
    match channel
    case None => None
    case Some(Own(a)) => Some(a.expiry)
    case Some(Foreign(e)) => Some(e)
  }

  /** What the store decided on an attempt: taken, or refused because of what the channel held. */
  datatype Decision = Taken | Refused(cause: Entry)

  function Expiry(e: Entry): nat {
    match e
    case Own(a) => a.expiry
    case Foreign(expiry) => expiry
  }

  /**
   * `attempts` is every attempt ever started; `inFlight` are on their way to the store, `replies` hold decisions on
   * their way back, and an attempt that failed waits in `backoff`. `foreigns` are the expiries of the statements of
   * other writers, `foreignWrites` their number. `rejections` counts priority rejections received by submissions
   * live at that time, `blamed` collects what they were refused for.
   */
  datatype World = World(
    session: SessionState,
    nextId: RequestId,
    floor: nat,
    attempts: set<Attempt>,
    inFlight: set<Attempt>,
    replies: map<Attempt, Decision>,
    backoff: set<Attempt>,
    channel: Option<Entry>,
    foreigns: set<nat>,
    foreignWrites: nat,
    rejections: nat,
    blamed: set<nat>)

  function FreshWorld(firstId: RequestId, channel: Option<Entry>): World {
    World(InitialState, firstId, 0, {}, {}, map[], {}, channel,
          if channel.Some? then {Expiry(channel.value)} else {}, if channel.Some? then 1 else 0, 0, {})
  }

  datatype Action =
    | Dispatch(ev: SessionEvent, fits: seq<Bytes> -> bool, clock: nat)
    | ClearOutgoing(clock: nat)
    | Arrives(a: Attempt)
    | Replied(a: Attempt)
    | FailsTransiently(a: Attempt)  // on its way to the store, or its reply is lost on the way back
    | Retries(a: Attempt, clock: nat)
    | ForeignWrite(expiry: nat)
    | FloorRaised(min: nat)  // by another channel of the same account

  function Allocate(w: World, requestId: RequestId, clears: bool, messages: seq<Bytes>, clock: nat): World
    requires clock < U64
  {
    var a := Attempt(requestId, clears, NextExpiry(w.floor, clock), messages);
    w.(floor := a.expiry, attempts := w.attempts + {a}, inFlight := w.inFlight + {a})
  }

  /** Starts the first n submissions, in the order the reducer emitted them. */
  function StartFirst(w: World, subs: seq<SessionEffect>, n: nat, clock: nat): World
    requires clock < U64 && n <= |subs|
    requires forall i :: 0 <= i < |subs| ==> subs[i].SubmitRequest?
  {
    if n == 0 then w
    else Allocate(StartFirst(w, subs, n - 1, clock), subs[n - 1].requestId, false, subs[n - 1].messages, clock)
  }

  predicate IsLive(w: World, a: Attempt) {
    !a.clears && LiveRequestId(w.session) == Some(a.requestId)
  }

  /** The store decides. */
  function Arrive(w: World, a: Attempt): World {
    var w' := w.(inFlight := w.inFlight - {a});
    if Supersedes(EntryExpiry(w.channel), a.expiry) then w'.(channel := Some(Own(a)), replies := w.replies[a := Taken])
    else w'.(replies := w.replies[a := Refused(w.channel.value)])
  }

  /** The decision arrives: a refusal raises the floor to the minimum the store reported. */
  function Reply(w: World, a: Attempt): World
    requires a in w.replies
  {
    var w' := w.(replies := w.replies - {a});
    match w.replies[a]
    case Taken => w'
    case Refused(cause) =>
      w'.(backoff := w.backoff + {a},
          floor := Max(w.floor, Expiry(cause)),
          rejections := w.rejections + (if IsLive(w, a) then 1 else 0),
          blamed := if IsLive(w, a) then w.blamed + {Expiry(cause)} else w.blamed)
  }

  predicate Enabled(w: World, act: Action) {
    match act
    case Dispatch(ev, _, clock) =>
      clock < U64 && (ev.OutgoingRestored? ==> w.attempts == {} && ev.requestId < w.nextId)
    case ClearOutgoing(clock) => clock < U64
    case Arrives(a) => a in w.inFlight
    case Replied(a) => a in w.replies
    case FailsTransiently(a) => a in w.inFlight || a in w.replies
    case Retries(a, clock) => clock < U64 && a in w.backoff && IsLive(w, a)
    case ForeignWrite(expiry) => Supersedes(EntryExpiry(w.channel), expiry)
    case FloorRaised(_) => true
  }

  function Next(w: World, act: Action): World
    requires Enabled(w, act)
  {
    match act
    case Dispatch(ev, fits, clock) =>
      StepSubmissions(w.session, ev, Context(fits, w.nextId));
      var t := Reduce(w.session, ev, Context(fits, w.nextId));
      var subs := Submissions(w.session, ev, t.effects);
      StartFirst(w.(session := t.state, nextId := t.nextId), subs, |subs|, clock)
    case ClearOutgoing(clock) =>
      var cleared := w.(session := w.session.(outgoing := None, messageQueue := []));
      if LiveRequestId(w.session).None? then cleared
      else Allocate(cleared, LiveRequestId(w.session).value, true, [], clock)
    case Arrives(a) => Arrive(w, a)
    case Replied(a) => Reply(w, a)
    case FailsTransiently(a) =>
      w.(inFlight := w.inFlight - {a}, replies := w.replies - {a}, backoff := w.backoff + {a})
    case Retries(a, clock) => Allocate(w.(backoff := w.backoff - {a}), a.requestId, false, a.messages, clock)
    case ForeignWrite(expiry) =>
      w.(channel := Some(Foreign(expiry)), foreigns := w.foreigns + {expiry}, foreignWrites := w.foreignWrites + 1)
    case FloorRaised(min) => w.(floor := Max(w.floor, min))
  }

  // ---- invariant -------------------------------------------------------------------------

  /** Later decisions draw higher expiries, whatever was retried in between. */
  ghost predicate ExpiriesFollowRanks(w: World) {
    && (forall a :: a in w.attempts ==> a.expiry <= w.floor)
    && (forall a, b :: a in w.attempts && b in w.attempts && Rank(a) < Rank(b) ==> a.expiry < b.expiry)
    && (forall a, b :: a in w.attempts && b in w.attempts && a.expiry == b.expiry ==> a == b)
  }

  /** The attempts whose outcome the session has not dealt with. */
  function Outstanding(w: World): set<Attempt> {
    w.inFlight + w.replies.Keys + w.backoff
  }

  /** Each job has at most one attempt outstanding, and it is that job's newest. */
  ghost predicate OneAttemptPerJob(w: World) {
    && Outstanding(w) <= w.attempts
    && w.inFlight !! w.replies.Keys !! w.backoff
    && (forall a, b :: a in Outstanding(w) && b in Outstanding(w) && Rank(a) == Rank(b) ==> a == b)
    && (forall a, b :: a in Outstanding(w) && b in w.attempts && Rank(a) == Rank(b) ==> b.expiry <= a.expiry)
  }

  /** Attempts of the live batch carry prefixes of it, and the newest id carries all of it. */
  ghost predicate AttemptsMatchBatch(w: World) {
    && IdsOrdered(w.session, w.nextId)
    && (forall a :: a in w.attempts ==> a.requestId < w.nextId)
    && (forall a :: a in w.attempts && a.clears ==> a.messages == [])
    && (LiveRequestId(w.session).Some? ==>
          forall a :: a in w.attempts ==> Rank(a) <= 2 * LiveRequestId(w.session).value)
    && (forall a :: a in w.attempts && !a.clears && a.requestId in RequestIds(w.session) ==>
          a.messages <= LiveMessages(w.session))
    && (forall a :: a in w.attempts && IsLive(w, a) ==> a.messages == LiveMessages(w.session))
  }

  ghost predicate ChannelFromHistory(w: World) {
    w.channel.Some? && w.channel.value.Own? ==>
      w.channel.value.attempt in w.attempts && w.channel.value.attempt !in w.inFlight
  }

  /** The foreign statements so far: the channel has reached the latest of them. */
  ghost predicate ForeignsKnown(w: World) {
    && |w.foreigns| == w.foreignWrites
    && (forall x: nat :: x in w.foreigns ==> w.channel.Some? && x <= Expiry(w.channel.value))
    && (HasForeign(w) ==> w.channel.value.expiry in w.foreigns)
  }

  /** What a refusal on its way back was refused for. */
  ghost predicate RefusalsKnown(w: World) {
    forall a :: a in w.replies && w.replies[a].Refused? ==>
      && a.expiry <= Expiry(w.replies[a].cause)
      && (match w.replies[a].cause
          case Own(c) => c in w.attempts && c != a
          case Foreign(x) => x in w.foreigns)
  }

  /** Every rejection of a live submission has a foreign statement of its own, above which live submissions are now. */
  ghost predicate RejectionsPaid(w: World) {
    && w.rejections == |w.blamed|
    && w.blamed <= w.foreigns
    && (forall x: nat :: x in w.blamed ==> x <= w.floor)
    && (forall a, x: nat :: a in w.inFlight + w.replies.Keys && IsLive(w, a) && x in w.blamed ==> x < a.expiry)
  }

  predicate HasForeign(w: World) {
    w.channel.Some? && w.channel.value.Foreign?
  }

  ghost predicate Inv(w: World) {
    && ExpiriesFollowRanks(w)
    && OneAttemptPerJob(w)
    && AttemptsMatchBatch(w)
    && ChannelFromHistory(w)
    && ForeignsKnown(w)
    && RefusalsKnown(w)
    && RejectionsPaid(w)
  }

  // ---- allocation ------------------------------------------------------------------------

  lemma AllocateKeeps(w: World, requestId: RequestId, clears: bool, messages: seq<Bytes>, clock: nat)
    requires clock < U64
    requires ExpiriesFollowRanks(w) && OneAttemptPerJob(w)
    requires var rank := 2 * requestId + if clears then 1 else 0;
             && (forall a :: a in w.attempts ==> Rank(a) <= rank)
             && (forall a :: a in Outstanding(w) ==> Rank(a) != rank)
    ensures var w' := Allocate(w, requestId, clears, messages, clock);
            ExpiriesFollowRanks(w') && OneAttemptPerJob(w') && w.floor < w'.floor
  {
    var newest := Attempt(requestId, clears, NextExpiry(w.floor, clock), messages);
    NewestIsHighest(w, newest);
    NewestIsAlone(w, newest);
  }

  function Join(w: World, newest: Attempt): World {
    w.(floor := newest.expiry, attempts := w.attempts + {newest}, inFlight := w.inFlight + {newest})
  }

  lemma NewestIsHighest(w: World, newest: Attempt)
    requires ExpiriesFollowRanks(w) && newest.expiry > w.floor
    requires forall a :: a in w.attempts ==> Rank(a) <= Rank(newest)
    ensures ExpiriesFollowRanks(Join(w, newest))
  {
  }

  lemma NewestIsAlone(w: World, newest: Attempt)
    requires ExpiriesFollowRanks(w) && OneAttemptPerJob(w) && newest.expiry > w.floor
    requires forall a :: a in Outstanding(w) ==> Rank(a) != Rank(newest)
    ensures OneAttemptPerJob(Join(w, newest))
  {
  }

  /** What starting the first n submissions adds to `w`. */
  ghost predicate Started(w: World, w': World, subs: seq<SessionEffect>, n: nat, firstId: RequestId)
    requires n <= |subs|
  {
    && w' == w.(floor := w'.floor, attempts := w'.attempts, inFlight := w'.inFlight)
    && w.floor <= w'.floor
    && w.attempts <= w'.attempts && w.inFlight <= w'.inFlight
    && (forall a :: a in w'.inFlight && a !in w.inFlight ==> a in w'.attempts && a !in w.attempts)
    && (forall a :: a in w'.attempts && a !in w.attempts ==>
          && !a.clears && firstId <= a.requestId < firstId + n && a.expiry > w.floor
          && subs[a.requestId - firstId] == SubmitRequest(a.requestId, a.messages))
  }

  lemma StartedStep(w: World, v: World, subs: seq<SessionEffect>, n: nat, firstId: RequestId, clock: nat)
    requires clock < U64 && 0 < n <= |subs|
    requires Started(w, v, subs, n - 1, firstId)
    requires subs[n - 1].SubmitRequest? && subs[n - 1].requestId == firstId + n - 1
    requires forall a :: a in v.attempts ==> a.expiry <= v.floor
    ensures Started(w, Allocate(v, firstId + n - 1, false, subs[n - 1].messages, clock), subs, n, firstId)
  {
  }

  ghost predicate Running(w: World, v: World, subs: seq<SessionEffect>, n: nat, firstId: RequestId)
    requires n <= |subs|
  {
    ExpiriesFollowRanks(v) && OneAttemptPerJob(v) && Started(w, v, subs, n, firstId)
  }

  lemma StartOne(w: World, v: World, subs: seq<SessionEffect>, n: nat, firstId: RequestId, clock: nat)
    requires clock < U64 && 0 < n <= |subs|
    requires Running(w, v, subs, n - 1, firstId)
    requires subs[n - 1].SubmitRequest? && subs[n - 1].requestId == firstId + n - 1
    requires forall a :: a in w.attempts ==> a.requestId < firstId
    ensures Running(w, Allocate(v, firstId + n - 1, false, subs[n - 1].messages, clock), subs, n, firstId)
  {
    forall a | a in v.attempts ensures Rank(a) < 2 * (firstId + n - 1) {
      assert a in w.attempts || a.requestId < firstId + n - 1;
    }
    AllocateKeeps(v, firstId + n - 1, false, subs[n - 1].messages, clock);
    StartedStep(w, v, subs, n, firstId, clock);
  }

  lemma {:induction false} StartFirstKeeps(w: World, subs: seq<SessionEffect>, n: nat, clock: nat, firstId: RequestId)
    requires clock < U64 && n <= |subs|
    requires forall i :: 0 <= i < |subs| ==> subs[i].SubmitRequest? && subs[i].requestId == firstId + i
    requires ExpiriesFollowRanks(w) && OneAttemptPerJob(w)
    requires forall a :: a in w.attempts ==> a.requestId < firstId
    ensures Running(w, StartFirst(w, subs, n, clock), subs, n, firstId)
  {
    hide ExpiriesFollowRanks, OneAttemptPerJob;
    if n > 0 {
      StartFirstKeeps(w, subs, n - 1, clock, firstId);
      StartOne(w, StartFirst(w, subs, n - 1, clock), subs, n, firstId, clock);
    }
  }

  // ---- one action ------------------------------------------------------------------------

  /** The world after the reducer has moved, before its submissions are started. */
  function Reduced(w: World, t: Transition): World {
    w.(session := t.state, nextId := t.nextId)
  }

  lemma ReducedKeeps(w: World, t: Transition)
    requires ExpiriesFollowRanks(w) && OneAttemptPerJob(w)
    ensures ExpiriesFollowRanks(Reduced(w, t)) && OneAttemptPerJob(Reduced(w, t))
  {
  }

  ghost predicate FollowsReducer(w: World, ev: SessionEvent, t: Transition, subs: seq<SessionEffect>, w': World) {
    && (EndsBatch(w.session, ev) ==> |t.effects| > 0)
    && subs == Submissions(w.session, ev, t.effects)
    && WellFormedEffects(w.session, ev, t, w.nextId)
    && w.nextId <= t.nextId && IdsOrdered(t.state, t.nextId)
    && (ev.OutgoingRestored? ==> w.attempts == {})
    && (Discards(ev) ==> t.state.outgoing == if ev.OutgoingCleared? then None
                                             else if ev.InitFailed? then w.session.outgoing
                                             else Some(OutgoingRequest([ev.requestId], ev.messages, [])))
    && Running(Reduced(w, t), w', subs, |subs|, w.nextId)
  }

  lemma LiveAfter(w: World, ev: SessionEvent, t: Transition, subs: seq<SessionEffect>, w': World)
    requires AttemptsMatchBatch(w) && FollowsReducer(w, ev, t, subs, w')
    ensures subs == [] && LiveRequestId(t.state).Some? && w.attempts != {} ==>
              && LiveRequestId(t.state) == LiveRequestId(w.session)
              && RequestIds(t.state) == RequestIds(w.session)
              && LiveMessages(t.state) == LiveMessages(w.session)
    ensures subs != [] ==> LiveRequestId(t.state) == Some(t.nextId - 1) && t.nextId == w.nextId + |subs|
  {
  }

  lemma OldAttemptsMatch(w: World, ev: SessionEvent, t: Transition, subs: seq<SessionEffect>, w': World, a: Attempt)
    requires AttemptsMatchBatch(w) && FollowsReducer(w, ev, t, subs, w') && a in w.attempts
    ensures LiveRequestId(t.state).Some? ==> Rank(a) <= 2 * LiveRequestId(t.state).value
    ensures !a.clears && a.requestId in RequestIds(t.state) ==> a.messages <= LiveMessages(t.state)
    ensures IsLive(w', a) ==> a.messages == LiveMessages(t.state) && IsLive(w, a)
  {
    LiveAfter(w, ev, t, subs, w');
    if subs != [] && !a.clears && a.requestId in RequestIds(t.state) {
      var newIds := seq(|subs|, i requires 0 <= i < |subs| => w.nextId + i);
      assert RequestIds(t.state) == RequestIds(Base(w.session, ev)) + newIds;
      assert a.requestId !in newIds;
      assert a.requestId in RequestIds(w.session);
    }
  }

  lemma NewAttemptsMatch(w: World, ev: SessionEvent, t: Transition, subs: seq<SessionEffect>, w': World, a: Attempt)
    requires AttemptsMatchBatch(w) && FollowsReducer(w, ev, t, subs, w')
    requires a in w'.attempts && a !in w.attempts
    ensures LiveRequestId(t.state).Some? ==> Rank(a) <= 2 * LiveRequestId(t.state).value
    ensures a.requestId < t.nextId && !a.clears && a.messages <= LiveMessages(t.state)
    ensures IsLive(w', a) ==> a.messages == LiveMessages(t.state)
  {
  }

  lemma DispatchMatches(w: World, ev: SessionEvent, t: Transition, subs: seq<SessionEffect>, w': World)
    requires AttemptsMatchBatch(w) && FollowsReducer(w, ev, t, subs, w')
    ensures AttemptsMatchBatch(w')
  {
    forall a | a in w'.attempts
      ensures a.requestId < w'.nextId && (a.clears ==> a.messages == [])
      ensures LiveRequestId(w'.session).Some? ==> Rank(a) <= 2 * LiveRequestId(w'.session).value
      ensures !a.clears && a.requestId in RequestIds(w'.session) ==> a.messages <= LiveMessages(w'.session)
      ensures IsLive(w', a) ==> a.messages == LiveMessages(w'.session)
    {
      if a in w.attempts { OldAttemptsMatch(w, ev, t, subs, w', a); } else { NewAttemptsMatch(w, ev, t, subs, w', a); }
    }
  }

  lemma DispatchPays(w: World, ev: SessionEvent, t: Transition, subs: seq<SessionEffect>, w': World)
    requires Inv(w) && FollowsReducer(w, ev, t, subs, w')
    ensures RejectionsPaid(w') && ChannelFromHistory(w') && ForeignsKnown(w') && RefusalsKnown(w')
  {
  }

  lemma DispatchKeepsInv(w: World, ev: SessionEvent, fits: seq<Bytes> -> bool, clock: nat)
    requires Inv(w) && Enabled(w, Dispatch(ev, fits, clock))
    ensures Inv(Next(w, Dispatch(ev, fits, clock)))
  {
    hide ExpiriesFollowRanks, OneAttemptPerJob, RejectionsPaid, ChannelFromHistory, ForeignsKnown, RefusalsKnown;
    var ctx := Context(fits, w.nextId);
    var t := Reduce(w.session, ev, ctx);
    StepSubmissions(w.session, ev, ctx);
    IdsOrderedStep(w.session, ev, ctx);
    var subs := Submissions(w.session, ev, t.effects);
    var w' := Next(w, Dispatch(ev, fits, clock));
    ReducedKeeps(w, t);
    StartFirstKeeps(Reduced(w, t), subs, |subs|, clock, w.nextId);
    assert FollowsReducer(w, ev, t, subs, w');
    DispatchMatches(w, ev, t, subs, w');
    DispatchPays(w, ev, t, subs, w');
  }

  lemma ClearKeepsInv(w: World, clock: nat)
    requires Inv(w) && Enabled(w, ClearOutgoing(clock))
    ensures Inv(Next(w, ClearOutgoing(clock)))
  {
    var cleared := w.(session := w.session.(outgoing := None, messageQueue := []));
    ClearedKeepsInv(w, cleared);
    if LiveRequestId(w.session).Some? {
      var id := LiveRequestId(w.session).value;
      AllocateKeeps(cleared, id, true, [], clock);
      AbortMatches(cleared, id, clock);
    }
  }

  lemma ClearedKeepsInv(w: World, cleared: World)
    requires Inv(w) && cleared == w.(session := w.session.(outgoing := None, messageQueue := []))
    ensures Inv(cleared)
    ensures LiveRequestId(w.session).Some? ==>
              && LiveRequestId(w.session).value < w.nextId
              && forall a :: a in w.attempts ==> Rank(a) <= 2 * LiveRequestId(w.session).value
  {
  }

  lemma AbortMatches(w: World, requestId: RequestId, clock: nat)
    requires Inv(w) && clock < U64 && w.session.outgoing.None? && requestId < w.nextId
    ensures var w' := Allocate(w, requestId, true, [], clock);
            && AttemptsMatchBatch(w') && ChannelFromHistory(w') && ForeignsKnown(w')
            && RefusalsKnown(w') && RejectionsPaid(w')
  {
  }

  /** Only a foreign statement not blamed before can turn a live submission away. */
  lemma LiveRejectionIsForeign(w: World, a: Attempt)
    requires Inv(w) && a in w.replies && w.replies[a].Refused? && IsLive(w, a)
    ensures w.replies[a].cause.Foreign? && w.replies[a].cause.expiry in w.foreigns - w.blamed
  {
  }

  /** An attempt that only moves on, or is done with, keeps what is known of ranks, jobs and batches. */
  lemma MovesKeep(w: World, w': World)
    requires ExpiriesFollowRanks(w) && OneAttemptPerJob(w) && AttemptsMatchBatch(w)
    requires w'.session == w.session && w'.nextId == w.nextId && w'.attempts == w.attempts && w.floor <= w'.floor
    requires Outstanding(w') <= Outstanding(w) && w'.inFlight !! w'.replies.Keys !! w'.backoff
    ensures ExpiriesFollowRanks(w') && OneAttemptPerJob(w') && AttemptsMatchBatch(w')
  {
    MovesKeepRanks(w, w');
    MovesKeepBatch(w, w');
  }

  lemma MovesKeepRanks(w: World, w': World)
    requires ExpiriesFollowRanks(w) && OneAttemptPerJob(w)
    requires w'.attempts == w.attempts && w.floor <= w'.floor
    requires Outstanding(w') <= Outstanding(w) && w'.inFlight !! w'.replies.Keys !! w'.backoff
    ensures ExpiriesFollowRanks(w') && OneAttemptPerJob(w')
  {
    hide Outstanding;
  }

  lemma MovesKeepBatch(w: World, w': World)
    requires AttemptsMatchBatch(w) && w'.session == w.session && w'.nextId == w.nextId && w'.attempts == w.attempts
    ensures AttemptsMatchBatch(w')
  {
  }

  lemma ArriveKeepsChannel(w: World, a: Attempt)
    requires Inv(w) && a in w.inFlight
    ensures var w' := Arrive(w, a); ChannelFromHistory(w') && ForeignsKnown(w')
  {
    hide ExpiriesFollowRanks, AttemptsMatchBatch, RefusalsKnown, RejectionsPaid;
  }

  lemma ArriveKeepsRefusals(w: World, a: Attempt)
    requires Inv(w) && a in w.inFlight
    ensures var w' := Arrive(w, a); RefusalsKnown(w') && RejectionsPaid(w')
  {
    hide ExpiriesFollowRanks, AttemptsMatchBatch, OneAttemptPerJob;
    var w' := Arrive(w, a);
    assert forall b :: IsLive(w', b) <==> IsLive(w, b);
    assert w'.inFlight + w'.replies.Keys == w.inFlight + w.replies.Keys;
  }

  lemma ArriveKeepsInv(w: World, a: Attempt)
    requires Inv(w) && Enabled(w, Arrives(a))
    ensures Inv(Next(w, Arrives(a)))
  {
    hide ExpiriesFollowRanks, AttemptsMatchBatch, ChannelFromHistory, ForeignsKnown, RefusalsKnown, RejectionsPaid;
    var w' := Arrive(w, a);
    assert Outstanding(w') == Outstanding(w);
    MovesKeep(w, w');
    ArriveKeepsChannel(w, a);
    ArriveKeepsRefusals(w, a);
  }

  lemma ReplyKeepsRefusals(w: World, a: Attempt)
    requires Inv(w) && a in w.replies
    ensures var w' := Reply(w, a);
            ChannelFromHistory(w') && ForeignsKnown(w') && RefusalsKnown(w')
  {
    hide ExpiriesFollowRanks, AttemptsMatchBatch, OneAttemptPerJob, RejectionsPaid;
  }

  /** The live submission that is rejected is the only live one outstanding. */
  lemma LiveAlone(w: World, a: Attempt, b: Attempt)
    requires OneAttemptPerJob(w) && a in Outstanding(w) && b in Outstanding(w) && IsLive(w, a) && IsLive(w, b)
    ensures a == b
  {
    assert Rank(a) == Rank(b);
  }

  lemma ReplyKeepsPaid(w: World, a: Attempt)
    requires Inv(w) && a in w.replies
    ensures RejectionsPaid(Reply(w, a))
  {
    var w' := Reply(w, a);
    if w.replies[a].Refused? && IsLive(w, a) {
      LiveRejectionIsForeign(w, a);
      assert |w.blamed + {w.replies[a].cause.expiry}| == |w.blamed| + 1;
      forall b | b in w'.inFlight + w'.replies.Keys && IsLive(w', b) ensures false {
        LiveAlone(w, a, b);
      }
    }
    hide ExpiriesFollowRanks, AttemptsMatchBatch, OneAttemptPerJob, RefusalsKnown, ForeignsKnown;
  }

  lemma ReplyKeepsInv(w: World, a: Attempt)
    requires Inv(w) && Enabled(w, Replied(a))
    ensures Inv(Next(w, Replied(a)))
  {
    hide ExpiriesFollowRanks, AttemptsMatchBatch, ChannelFromHistory, ForeignsKnown, RefusalsKnown, RejectionsPaid;
    MovesKeep(w, Reply(w, a));
    ReplyKeepsRefusals(w, a);
    ReplyKeepsPaid(w, a);
  }

  lemma FailKeepsInv(w: World, a: Attempt)
    requires Inv(w) && Enabled(w, FailsTransiently(a))
    ensures Inv(Next(w, FailsTransiently(a)))
  {
    hide ExpiriesFollowRanks, AttemptsMatchBatch;
    var w' := Next(w, FailsTransiently(a));
    assert Outstanding(w') == Outstanding(w);
    MovesKeep(w, w');
  }

  lemma WriteKeepsInv(w: World, expiry: nat)
    requires Inv(w) && Enabled(w, ForeignWrite(expiry))
    ensures Inv(Next(w, ForeignWrite(expiry)))
  {
    hide ExpiriesFollowRanks, AttemptsMatchBatch, OneAttemptPerJob;
    MovesKeepAll(w, Next(w, ForeignWrite(expiry)));
    assert |w.foreigns + {expiry}| == |w.foreigns| + 1;
  }

  lemma RaiseKeepsInv(w: World, min: nat)
    requires Inv(w)
    ensures Inv(Next(w, FloorRaised(min)))
  {
    hide ExpiriesFollowRanks, AttemptsMatchBatch, OneAttemptPerJob;
    MovesKeepAll(w, Next(w, FloorRaised(min)));
  }

  lemma MovesKeepAll(w: World, w': World)
    requires ExpiriesFollowRanks(w) && OneAttemptPerJob(w) && AttemptsMatchBatch(w)
    requires w'.session == w.session && w'.nextId == w.nextId && w'.attempts == w.attempts && w.floor <= w'.floor
    requires w'.inFlight == w.inFlight && w'.replies == w.replies && w'.backoff == w.backoff
    ensures ExpiriesFollowRanks(w') && OneAttemptPerJob(w') && AttemptsMatchBatch(w')
  {
    MovesKeep(w, w');
  }

  lemma RetryKeepsInv(w: World, a: Attempt, clock: nat)
    requires Inv(w) && Enabled(w, Retries(a, clock))
    ensures Inv(Next(w, Retries(a, clock)))
  {
    var v := w.(backoff := w.backoff - {a});
    LeaveBackoff(w, a);
    AllocateKeeps(v, a.requestId, false, a.messages, clock);
    RetryMatches(v, a, clock);
  }

  lemma LeaveBackoff(w: World, a: Attempt)
    requires Inv(w) && a in w.backoff
    ensures var v := w.(backoff := w.backoff - {a});
            Inv(v) && forall b :: b in Outstanding(v) ==> Rank(b) != Rank(a)
  {
  }

  lemma RetryMatches(v: World, a: Attempt, clock: nat)
    requires clock < U64 && Inv(v) && a in v.attempts && IsLive(v, a)
    ensures var w' := Allocate(v, a.requestId, false, a.messages, clock);
            && AttemptsMatchBatch(w') && ChannelFromHistory(w') && ForeignsKnown(w')
            && RefusalsKnown(w') && RejectionsPaid(w')
  {
  }

  /** The invariant holds at the start and every action keeps it. */
  lemma ActionKeepsInv(w: World, act: Action)
    requires Inv(w) && Enabled(w, act)
    ensures Inv(Next(w, act))
  {
    hide Inv, Next;
    match act {
      case Dispatch(ev, fits, clock) => DispatchKeepsInv(w, ev, fits, clock);
      case ClearOutgoing(clock) => ClearKeepsInv(w, clock);
      case Arrives(a) => ArriveKeepsInv(w, a);
      case Replied(a) => ReplyKeepsInv(w, a);
      case FailsTransiently(a) => FailKeepsInv(w, a);
      case Retries(a, clock) => RetryKeepsInv(w, a, clock);
      case ForeignWrite(expiry) => WriteKeepsInv(w, expiry);
      case FloorRaised(min) => RaiseKeepsInv(w, min);
    }
  }

  // ---- whole runs ------------------------------------------------------------------------

  /** A run from any state the invariant allows: a fresh session, one that recovered, one with a history. */
  ghost predicate Behaviour(ws: seq<World>, acts: seq<Action>) {
    && |ws| == |acts| + 1
    && Inv(ws[0])
    && (forall i :: 0 <= i < |acts| ==> Enabled(ws[i], acts[i]) && ws[i + 1] == Next(ws[i], acts[i]))
  }

  lemma FreshWorldIsSafe(firstId: RequestId, channel: Option<Entry>)
    requires channel.Some? ==> channel.value.Foreign?
    ensures Inv(FreshWorld(firstId, channel))
  {
  }

  lemma {:induction false} AlwaysSafe(ws: seq<World>, acts: seq<Action>, i: nat)
    requires Behaviour(ws, acts) && i < |ws|
    ensures Inv(ws[i])
  {
    hide Inv, Next;
    if i > 0 {
      AlwaysSafe(ws, acts, i - 1);
      ActionKeepsInv(ws[i - 1], acts[i - 1]);
    }
  }

  lemma NextOnlyAdds(w: World, act: Action)
    requires Inv(w) && Enabled(w, act)
    ensures var w' := Next(w, act);
            && w.attempts <= w'.attempts
            && w.floor <= w'.floor
            && w.foreignWrites <= w'.foreignWrites
            && (EntryExpiry(w.channel).Some? ==>
                  EntryExpiry(w'.channel).Some? && EntryExpiry(w.channel).value <= EntryExpiry(w'.channel).value)
            && (HasForeign(w') && w'.foreignWrites == w.foreignWrites ==> w'.channel == w.channel)
  {
    if act.Dispatch? {
      DispatchOnlyAdds(w, act.ev, act.fits, act.clock);
    } else {
      hide ExpiriesFollowRanks, OneAttemptPerJob, AttemptsMatchBatch, ForeignsKnown, RefusalsKnown, RejectionsPaid;
    }
  }

  lemma DispatchOnlyAdds(w: World, ev: SessionEvent, fits: seq<Bytes> -> bool, clock: nat)
    requires Inv(w) && Enabled(w, Dispatch(ev, fits, clock))
    ensures var w' := Next(w, Dispatch(ev, fits, clock));
            && w.attempts <= w'.attempts && w.floor <= w'.floor
            && w'.foreignWrites == w.foreignWrites && w'.channel == w.channel
  {
    var ctx := Context(fits, w.nextId);
    var t := Reduce(w.session, ev, ctx);
    StepSubmissions(w.session, ev, ctx);
    var subs := Submissions(w.session, ev, t.effects);
    StartFirstOnlyAdds(Reduced(w, t), subs, |subs|, clock);
  }

  lemma {:induction false} StartFirstOnlyAdds(w: World, subs: seq<SessionEffect>, n: nat, clock: nat)
    requires clock < U64 && n <= |subs| && forall i :: 0 <= i < |subs| ==> subs[i].SubmitRequest?
    ensures var w' := StartFirst(w, subs, n, clock);
            && w.attempts <= w'.attempts && w.floor <= w'.floor
            && w'.foreignWrites == w.foreignWrites && w'.channel == w.channel
  {
    if n > 0 { StartFirstOnlyAdds(w, subs, n - 1, clock); }
  }

  lemma {:induction false} RunOnlyAdds(ws: seq<World>, acts: seq<Action>, i: nat, j: nat)
    requires Behaviour(ws, acts) && i <= j < |ws|
    ensures ws[i].attempts <= ws[j].attempts && ws[i].floor <= ws[j].floor
    ensures ws[i].foreignWrites <= ws[j].foreignWrites
    ensures EntryExpiry(ws[i].channel).Some? ==>
              EntryExpiry(ws[j].channel).Some? && EntryExpiry(ws[i].channel).value <= EntryExpiry(ws[j].channel).value
    ensures HasForeign(ws[j]) && ws[j].foreignWrites == ws[i].foreignWrites ==> ws[j].channel == ws[i].channel
    decreases j - i
  {
    hide Inv, Next;
    if i < j {
      AlwaysSafe(ws, acts, i);
      NextOnlyAdds(ws[i], acts[i]);
      RunOnlyAdds(ws, acts, i + 1, j);
    }
  }

  /**
   * A stale submission never wins the channel: whatever the landing order, the own statement on
   * the channel never goes back to one that was decided on earlier. In particular a batch never
   * reappears once its abort has landed.
   */
  lemma SurvivorNeverRegresses(ws: seq<World>, acts: seq<Action>, i: nat, j: nat, a: Attempt, b: Attempt)
    requires Behaviour(ws, acts) && i <= j < |ws|
    requires ws[i].channel == Some(Own(a)) && ws[j].channel == Some(Own(b))
    ensures Rank(a) <= Rank(b)
  {
    AlwaysSafe(ws, acts, i);
    AlwaysSafe(ws, acts, j);
    RunOnlyAdds(ws, acts, i, j);
  }

  /** While its batch is unanswered, the own statement on the channel is a prefix of it, and whole for the newest id. */
  lemma SurvivorIsPrefixOfBatch(ws: seq<World>, acts: seq<Action>, i: nat, a: Attempt)
    requires Behaviour(ws, acts) && i < |ws| && ws[i].channel == Some(Own(a)) && !a.clears
    ensures a.requestId in RequestIds(ws[i].session) ==> a.messages <= LiveMessages(ws[i].session)
    ensures LiveRequestId(ws[i].session) == Some(a.requestId) ==> a.messages == LiveMessages(ws[i].session)
  {
    AlwaysSafe(ws, acts, i);
  }

  /**
   * Once the store took the newest submission, whether or not its reply comes through, the channel shows the whole
   * unanswered batch until the batch changes.
   */
  lemma NewestLandedStays(ws: seq<World>, acts: seq<Action>, i: nat, j: nat, a: Attempt, b: Attempt)
    requires Behaviour(ws, acts) && i < j < |ws|
    requires acts[i] == Arrives(a) && Supersedes(EntryExpiry(ws[i].channel), a.expiry)
    requires IsLive(ws[j], a) && ws[j].channel == Some(Own(b))
    ensures b.requestId == a.requestId && !b.clears && b.messages == LiveMessages(ws[j].session)
  {
    AlwaysSafe(ws, acts, i);
    AlwaysSafe(ws, acts, i + 1);
    AlwaysSafe(ws, acts, j);
    RunOnlyAdds(ws, acts, i + 1, j);
    assert ws[i + 1].channel == Some(Own(a));
    assert Rank(a) <= Rank(b) <= 2 * a.requestId;
  }

  /** Over a whole run, submissions live when their rejection comes are rejected at most once per foreign write. */
  lemma RejectionsBoundedByForeignWrites(ws: seq<World>, acts: seq<Action>, i: nat)
    requires Behaviour(ws, acts) && i < |ws|
    ensures ws[i].rejections <= ws[i].foreignWrites
  {
    AlwaysSafe(ws, acts, i);
    SubsetSize(ws[i].blamed, ws[i].foreigns);
  }

  // A run in which one foreign statement refuses two submissions, each live when the store decided.

  const FirstTry := Attempt(0, false, TimestampPriority(0), [[1]])

  const SecondTry := Attempt(1, false, TimestampPriority(0) + 1, [[1], [2]])

  const HighForeign := Foreign(TimestampPriority(0) + 9)

  const Refused1 := World(
    InitialState.(phase := Active, outgoing := Some(OutgoingRequest([0], [[1]], [0]))), 1, TimestampPriority(0),
    {FirstTry}, {}, map[FirstTry := Refused(HighForeign)], {}, Some(HighForeign), {Expiry(HighForeign)}, 1, 0, {})

  lemma FirstRefused(fits: seq<Bytes> -> bool)
    ensures Inv(FreshWorld(0, Some(HighForeign)))
    ensures var w := Next(Next(FreshWorld(0, Some(HighForeign)), Dispatch(Activated, fits, 0)),
                          Dispatch(MessageSubmitted([1], 0), fits, 0));
            FirstTry in w.inFlight && IsLive(w, FirstTry) && Next(w, Arrives(FirstTry)) == Refused1
  {
    FreshWorldIsSafe(0, Some(HighForeign));
    var active := FreshWorld(0, Some(HighForeign)).(session := InitialState.(phase := Active));
    var t := Reduce(active.session, MessageSubmitted([1], 0), Context(fits, 0));
    assert t.effects == [SubmitRequest(0, [[1]])];
    StepSubmissions(active.session, MessageSubmitted([1], 0), Context(fits, 0));
    assert Submissions(active.session, MessageSubmitted([1], 0), t.effects) == t.effects;
    var w := Next(active, Dispatch(MessageSubmitted([1], 0), fits, 0));
    assert StartFirst(Reduced(active, t), t.effects, 0, 0) == Reduced(active, t);
    assert w.inFlight == {FirstTry};
  }

  /** Which is why rejections are counted when they come: the first has been superseded by then. */
  lemma OneWriteRefusesTwo(fits: seq<Bytes> -> bool)
    requires fits([[1], [2]])
    ensures var w := Next(Refused1, Dispatch(MessageSubmitted([2], 1), fits, 0));
            && SecondTry in w.inFlight && IsLive(w, SecondTry)
            && SecondTry in Next(w, Arrives(SecondTry)).replies
            && Next(w, Arrives(SecondTry)).replies[SecondTry] == Refused(HighForeign)
            && !IsLive(w, FirstTry)
  {
    var t := Reduce(Refused1.session, MessageSubmitted([2], 1), Context(fits, 1));
    assert [[1]] + [[2]] == [[1], [2]];
    assert t.effects == [SubmitRequest(1, [[1], [2]])];
    StepSubmissions(Refused1.session, MessageSubmitted([2], 1), Context(fits, 1));
    assert Submissions(Refused1.session, MessageSubmitted([2], 1), t.effects) == t.effects;
    assert StartFirst(Reduced(Refused1, t), t.effects, 0, 0) == Reduced(Refused1, t);
  }

  lemma SubsetSize(a: set<nat>, b: set<nat>)
    requires a <= b
    ensures |a| <= |b|
  {
    assert b == a + (b - a);
  }

  /**
   * A rejected submission adopts the reported minimum, so if it is still live when it is sent again and when that
   * attempt reaches the store, it is taken unless another writer landed since the rejection was decided on.
   */
  lemma RetryClearsRejection(ws: seq<World>, acts: seq<Action>, d: nat, r: nat, i: nat, j: nat, a: Attempt, b: Attempt)
    requires Behaviour(ws, acts) && d < r < i < j < |acts|
    requires acts[d] == Arrives(a) && !Supersedes(EntryExpiry(ws[d].channel), a.expiry)
    requires acts[r] == Replied(a) && ws[r].replies[a] == Refused(ws[d].channel.value)
    requires acts[i].Retries? && acts[i].a == a && b in ws[i + 1].inFlight && b !in ws[i].inFlight
    requires acts[j] == Arrives(b) && IsLive(ws[j], b) && ws[j].foreignWrites == ws[d].foreignWrites
    ensures ws[j + 1].channel == Some(Own(b))
  {
    hide Inv, Next, IsLive;
    AlwaysSafe(ws, acts, j);
    RunOnlyAdds(ws, acts, r + 1, i);
    RefusalRaises(ws[r], a);
    assert Enabled(ws[r], acts[r]) && Enabled(ws[i], acts[i]) && Enabled(ws[j], acts[j]);
    DrawnAboveFloor(ws[i], a, acts[i].clock, b);
    RunOnlyAdds(ws, acts, d, j);
    LiveClearsOwn(ws[j], b);
    TakenNow(ws[j], b);
  }

  lemma RefusalRaises(w: World, a: Attempt)
    requires Enabled(w, Replied(a)) && w.replies[a].Refused?
    ensures Expiry(w.replies[a].cause) <= Next(w, Replied(a)).floor
  {
  }

  lemma DrawnAboveFloor(w: World, a: Attempt, clock: nat, b: Attempt)
    requires Enabled(w, Retries(a, clock))
    requires b in Next(w, Retries(a, clock)).inFlight && b !in w.inFlight
    ensures b.expiry > w.floor
  {
  }

  lemma TakenNow(w: World, b: Attempt)
    requires Enabled(w, Arrives(b)) && Supersedes(EntryExpiry(w.channel), b.expiry)
    ensures Next(w, Arrives(b)).channel == Some(Own(b))
  {
  }

  /** A live submission is above every own statement the channel can hold. */
  lemma LiveClearsOwn(w: World, b: Attempt)
    requires Inv(w) && b in w.inFlight && IsLive(w, b)
    ensures HasForeign(w) || Supersedes(EntryExpiry(w.channel), b.expiry)
  {
  }

  // ---- the life of an attempt --------------------------------------------------------------------

  lemma {:induction false} StartFirstDraws(w: World, subs: seq<SessionEffect>, n: nat, clock: nat, b: Attempt)
    requires clock < U64 && n <= |subs| && forall i :: 0 <= i < |subs| ==> subs[i].SubmitRequest?
    ensures var w' := StartFirst(w, subs, n, clock);
            && w.floor <= w'.floor && w'.replies == w.replies && w'.backoff == w.backoff && w.inFlight <= w'.inFlight
            && (b in w'.inFlight && b !in w.inFlight ==> w.floor < b.expiry <= w'.floor)
  {
    if n > 0 { StartFirstDraws(w, subs, n - 1, clock, b); }
  }

  /**
   * An attempt leaves the wire when it reaches the store or fails on the way; its reply is then on the way until it
   * arrives or is lost; a refused or failed one backs off until it is tried again. Every other one on the wire is new,
   * and above the floor.
   */
  lemma AttemptStep(w: World, act: Action, a: Attempt)
    requires Enabled(w, act)
    ensures var w' := Next(w, act);
            && (a in w.inFlight ==> (a in w'.inFlight || act == Arrives(a) || act == FailsTransiently(a)))
            && (a in w'.inFlight && a !in w.inFlight ==> w.floor < a.expiry <= w'.floor)
            && (a in w'.replies <==>
                  act == Arrives(a) || (a in w.replies && act != Replied(a) && act != FailsTransiently(a)))
            && (a in w'.backoff <==>
                  || (a in w.backoff && !(act.Retries? && act.a == a)) || act == FailsTransiently(a)
                  || (act == Replied(a) && w.replies[a].Refused?))
            && w.floor <= w'.floor && (act.FloorRaised? ==> act.min <= w'.floor)
  {
    if act.Dispatch? {
      var ctx := Context(act.fits, w.nextId);
      StepSubmissions(w.session, act.ev, ctx);
      var t := Reduce(w.session, act.ev, ctx);
      var subs := Submissions(w.session, act.ev, t.effects);
      StartFirstDraws(Reduced(w, t), subs, |subs|, act.clock, a);
      hide Reduce, StartFirst;
    }
  }

  /** Over every run an attempt started after the floor was raised is above the minimum it was raised to. */
  lemma RaisedFloorCleared(ws: seq<World>, acts: seq<Action>, r: nat, i: nat, min: nat, b: Attempt)
    requires Behaviour(ws, acts) && r < i < |acts| && acts[r] == FloorRaised(min)
    requires b in ws[i + 1].inFlight && b !in ws[i].inFlight
    ensures b.expiry > min
  {
    hide Next;
    assert Enabled(ws[r], acts[r]) && Enabled(ws[i], acts[i]);
    AttemptStep(ws[r], acts[r], b);
    RunOnlyAdds(ws, acts, r + 1, i);
    AttemptStep(ws[i], acts[i], b);
  }
}
