/**
 * Chain-head operations between a follow that stopped and the one that replaces it
 * (packages/host-container/src/chainConnectionManager.ts, `startFollow`, `chainHeadOp` and `teardown`).
 */
module RecoveryWindow {
  import opened Common

  type FollowId = nat
  type Op = nat

  /** How an operation's promise was settled: handed to a follow, refused at once, timed out, or disposed of. */
  datatype Outcome = Ran(follow: FollowId) | Refused | Expired | Disposed

  /**
   * `follows` are the active follows, oldest first; operations are numbered as they are issued. `ran` logs what was
   * sent to the client, in order. A chain torn down and acquired again starts from an empty entry.
   */
  datatype Head = Head(
    follows: seq<FollowId>,
    pending: seq<Op>,
    recoveringSince: Option<int>,
    nextFollow: FollowId,
    outcomes: seq<Option<Outcome>>,
    ran: seq<(Op, FollowId)>)

  const NewHead := Head([], [], None, 0, [], [])

  datatype Event =
    | FollowStarts
    | FollowDies(follow: FollowId, stopped: bool, now: int)
    | FollowStops(follow: FollowId)
    | Issue(now: int)
    | IssueGuarded(now: int)
    | TimerExpires(op: Op)
    | TornDown

  predicate Enabled(h: Head, e: Event) {
    match e
    case FollowDies(f, _, _) => f in h.follows
    case TimerExpires(op) => op in h.pending
    case _ => true
  }

  function Without(s: seq<nat>, x: nat): (r: seq<nat>)
    ensures forall y: nat :: y in r <==> y in s && y != x
  {
    if s == [] then []
    else if s[0] == x then Without(s[1..], x)
    else [s[0]] + Without(s[1..], x)
  }

  function SettleAll(outcomes: seq<Option<Outcome>>, ops: seq<Op>, how: Outcome): (r: seq<Option<Outcome>>)
    ensures |r| == |outcomes|
    ensures forall i :: 0 <= i < |r| ==> r[i] == if i in ops then Some(how) else outcomes[i]
  {
    seq(|outcomes|, i requires 0 <= i < |outcomes| => if i in ops then Some(how) else outcomes[i])
  }

  function Paired(ops: seq<Op>, follow: FollowId): (r: seq<(Op, FollowId)>)
    ensures |r| == |ops|
    ensures forall i :: 0 <= i < |r| ==> r[i] == (ops[i], follow)
  {
    seq(|ops|, i requires 0 <= i < |ops| => (ops[i], follow))
  }

  /** A fresh follow ends the recovery window and takes the queue. */
  function StartFollow(h: Head): Head {
    Head(h.follows + [h.nextFollow], [], None, h.nextFollow + 1,
         SettleAll(h.outcomes, h.pending, Ran(h.nextFollow)), h.ran + Paired(h.pending, h.nextFollow))
  }

  function InWindow(h: Head, timeout: int, now: int): bool {
    h.recoveringSince.Some? && now - h.recoveringSince.value <= timeout
  }

  /** `timeout` is the length of the recovery window. */
  function ChainHeadOp(h: Head, timeout: int, now: int): Head {
    var op := |h.outcomes|;
    if h.follows != [] then h.(outcomes := h.outcomes + [Some(Ran(h.follows[0]))], ran := h.ran + [(op, h.follows[0])])
    else if InWindow(h, timeout, now) then h.(outcomes := h.outcomes + [None], pending := h.pending + [op])
    else h.(outcomes := h.outcomes + [Some(Refused)], recoveringSince := None)
  }

  /** What each request handler of the container does: it asks for an active follow first. */
  function HandleRequest(h: Head, timeout: int, now: int): Head {
    if h.follows == [] then h.(outcomes := h.outcomes + [Some(Refused)]) else ChainHeadOp(h, timeout, now)
  }

  function Next(h: Head, timeout: int, e: Event): Head
    requires Enabled(h, e)
  {
    match e
    case FollowStarts => StartFollow(h)
    case FollowDies(f, stopped, now) =>
      h.(follows := Without(h.follows, f), recoveringSince := if stopped then Some(now) else h.recoveringSince)
    case FollowStops(f) => h.(follows := Without(h.follows, f))
    case Issue(now) => ChainHeadOp(h, timeout, now)
    case IssueGuarded(now) => HandleRequest(h, timeout, now)
    case TimerExpires(op) => h.(pending := Without(h.pending, op), outcomes := SettleAll(h.outcomes, [op], Expired))
    case TornDown =>
      h.(follows := [], pending := [], recoveringSince := None, outcomes := SettleAll(h.outcomes, h.pending, Disposed))
  }

  class ChainHead {
    const timeout: int
    var follows: seq<FollowId>
    var pending: seq<Op>
    var recoveringSince: Option<int>
    var nextFollow: FollowId
    var outcomes: seq<Option<Outcome>>
    var ran: seq<(Op, FollowId)>

    function AsHead(): Head
      reads this
    {
      Head(follows, pending, recoveringSince, nextFollow, outcomes, ran)
    }

    constructor (timeout: int)
      ensures AsHead() == NewHead && this.timeout == timeout
    {
      this.timeout := timeout;
      follows, pending, recoveringSince, nextFollow, outcomes, ran := [], [], None, 0, [], [];
    }

    method Start() returns (follow: FollowId)
      requires Inv(AsHead())
      modifies this
      ensures AsHead() == StartFollow(old(AsHead())) && follow == old(nextFollow)
    {
      follow := nextFollow;
      nextFollow := nextFollow + 1;
      follows := follows + [follow];
      recoveringSince := None;
      var queued := pending;
      pending := [];
      for i := 0 to |queued|
        invariant outcomes == SettleAll(old(outcomes), queued[..i], Ran(follow))
        invariant ran == old(ran) + Paired(queued[..i], follow)
        invariant follows == old(follows) + [follow] && pending == [] && recoveringSince == None
                  && nextFollow == follow + 1
      {
        assert queued[..i + 1] == queued[..i] + [queued[i]];
        assert queued[i] in queued && queued[i] < |outcomes|;
        outcomes := outcomes[queued[i] := Some(Ran(follow))];
        ran := ran + [(queued[i], follow)];
        assert Paired(queued[..i + 1], follow) == Paired(queued[..i], follow) + [(queued[i], follow)];
      }
      assert queued[..|queued|] == queued;
    }

    method Operate(now: int) returns (op: Op)
      modifies this
      ensures AsHead() == ChainHeadOp(old(AsHead()), timeout, now) && op == |old(outcomes)|
    {
      op := |outcomes|;
      if |follows| > 0 {
        outcomes := outcomes + [Some(Ran(follows[0]))];
        ran := ran + [(op, follows[0])];
      } else if recoveringSince.None? {
        outcomes := outcomes + [Some(Refused)];
      } else if now - recoveringSince.value > timeout {
        recoveringSince := None;
        outcomes := outcomes + [Some(Refused)];
      } else {
        outcomes := outcomes + [None];
        pending := pending + [op];
      }
    }

    method Die(follow: FollowId, stopped: bool, now: int)
      requires follow in follows
      modifies this`follows, this`recoveringSince
      ensures AsHead() == Next(old(AsHead()), timeout, FollowDies(follow, stopped, now))
    {
      follows := Without(follows, follow);
      if stopped { recoveringSince := Some(now); }
    }

    method TearDown()
      requires Inv(AsHead())
      modifies this
      ensures AsHead() == Next(old(AsHead()), timeout, TornDown)
    {
      follows := [];
      for i := 0 to |pending|
        invariant AsHead() == old(AsHead()).(follows := [], outcomes := outcomes)
        invariant outcomes == SettleAll(old(outcomes), pending[..i], Disposed)
      {
        assert pending[..i + 1] == pending[..i] + [pending[i]];
        assert pending[i] in old(pending) && pending[i] < |outcomes|;
        outcomes := outcomes[pending[i] := Some(Disposed)];
      }
      assert pending[..|pending|] == pending;
      pending := [];
      recoveringSince := None;
    }
  }

  // ---- invariant -------------------------------------------------------------------------------

  ghost predicate Increasing(s: seq<nat>) {
    forall i, j :: 0 <= i < j < |s| ==> s[i] < s[j]
  }

  /** An operation waits in the queue exactly while its promise is unsettled, and only while nothing is followed. */
  ghost predicate Queued(h: Head) {
    && Increasing(h.pending)
    && (forall op: Op :: op in h.pending <==> op < |h.outcomes| && h.outcomes[op].None?)
    && (h.pending != [] ==> h.follows == [])
  }

  /** Operations reach the client in the order they were issued. */
  ghost predicate InOrder(h: Head) {
    && (forall i, j :: 0 <= i < j < |h.ran| ==> h.ran[i].0 < h.ran[j].0)
    && (forall i :: 0 <= i < |h.ran| ==> h.ran[i].0 < |h.outcomes| && h.outcomes[h.ran[i].0] == Some(Ran(h.ran[i].1)))
    && (forall i, k :: 0 <= i < |h.ran| && 0 <= k < |h.pending| ==> h.ran[i].0 < h.pending[k])
  }

  ghost predicate Inv(h: Head) {
    Queued(h) && InOrder(h)
  }

  lemma {:induction false} WithoutIncreasing(s: seq<nat>, x: nat)
    requires Increasing(s)
    ensures Increasing(Without(s, x))
  {
    if s != [] {
      assert forall i :: 0 <= i < |s[1..]| ==> s[1..][i] == s[i + 1];
      WithoutIncreasing(s[1..], x);
      var rest := Without(s[1..], x);
      assert forall i :: 0 <= i < |rest| ==> rest[i] in rest && rest[i] in s[1..];
    }
  }

  lemma StartKeeps(h: Head)
    requires Inv(h)
    ensures Inv(StartFollow(h))
  {
    assert forall k :: 0 <= k < |h.pending| ==> h.pending[k] in h.pending;
  }

  lemma OpKeeps(h: Head, timeout: int, now: int)
    requires Inv(h)
    ensures Inv(ChainHeadOp(h, timeout, now))
  {
    hide InWindow;
    assert forall k :: 0 <= k < |h.pending| ==> h.pending[k] in h.pending;
    if h.follows != [] { RunKeepsOrder(h, h.follows[0]); }
  }

  lemma RunKeepsOrder(h: Head, follow: FollowId)
    requires Inv(h) && h.pending == []
    ensures InOrder(h.(outcomes := h.outcomes + [Some(Ran(follow))], ran := h.ran + [(|h.outcomes|, follow)]))
  {
  }

  lemma ExpiryKeeps(h: Head, timeout: int, op: Op)
    requires Inv(h) && op in h.pending
    ensures Inv(Next(h, timeout, TimerExpires(op)))
  {
    WithoutIncreasing(h.pending, op);
    var h' := Next(h, timeout, TimerExpires(op));
    assert forall k :: 0 <= k < |h.pending| ==> h.pending[k] in h.pending;
    forall i, k | 0 <= i < |h'.ran| && 0 <= k < |h'.pending| ensures h'.ran[i].0 < h'.pending[k] {
      assert h'.pending[k] in h'.pending && h'.pending[k] in h.pending;
    }
  }

  lemma NextKeepsInv(h: Head, timeout: int, e: Event)
    requires Inv(h) && Enabled(h, e)
    ensures Inv(Next(h, timeout, e))
  {
    match e
    case FollowStarts => StartKeeps(h);
    case Issue(now) => OpKeeps(h, timeout, now);
    case IssueGuarded(now) => OpKeeps(h, timeout, now);
    case TimerExpires(op) => ExpiryKeeps(h, timeout, op);
    case TornDown =>
    case FollowDies(_, _, _) =>
    case FollowStops(_) =>
  }

  // ---- whole runs ------------------------------------------------------------------------------

  ghost predicate Behaviour(hs: seq<Head>, events: seq<Event>, timeout: int) {
    && |hs| == |events| + 1
    && hs[0] == NewHead
    && forall k :: 0 <= k < |events| ==> Enabled(hs[k], events[k]) && hs[k + 1] == Next(hs[k], timeout, events[k])
  }

  lemma NewHeadIsSafe()
    ensures Inv(NewHead)
  {
  }

  lemma {:induction false} AlwaysSafe(hs: seq<Head>, events: seq<Event>, timeout: int, i: nat)
    requires Behaviour(hs, events, timeout) && i < |hs|
    ensures Inv(hs[i])
  {
    hide Inv, Next;
    if i == 0 {
      NewHeadIsSafe();
    } else {
      AlwaysSafe(hs, events, timeout, i - 1);
      NextKeepsInv(hs[i - 1], timeout, events[i - 1]);
    }
  }

  /** An operation's promise settles once. */
  lemma {:induction false} SettlesOnce(hs: seq<Head>, events: seq<Event>, timeout: int, i: nat, j: nat, op: Op)
    requires Behaviour(hs, events, timeout) && i <= j < |hs|
    requires op < |hs[i].outcomes| && hs[i].outcomes[op].Some?
    ensures op < |hs[j].outcomes| && hs[j].outcomes[op] == hs[i].outcomes[op]
  {
    if i < j {
      SettlesOnce(hs, events, timeout, i, j - 1, op);
      AlwaysSafe(hs, events, timeout, j - 1);
      assert Enabled(hs[j - 1], events[j - 1]);
      assert op !in hs[j - 1].pending;
    }
  }

  // ---- what an operation is settled with -----------------------------------------------------------

  /** The oldest of the active follows. */
  predicate Oldest(h: Head, follow: FollowId) {
    follow in h.follows && forall f :: f in h.follows ==> follow <= f
  }

  /** The event settles the operation with this outcome. */
  predicate SettledBy(h: Head, timeout: int, e: Event, op: Op, o: Outcome) {
    match o
    case Ran(f) =>
      || ((e.Issue? || e.IssueGuarded?) && op == |h.outcomes| && Oldest(h, f))
      || (e.FollowStarts? && op in h.pending && f == h.nextFollow)
    case Refused =>
      && op == |h.outcomes| && h.follows == []
      && (e.IssueGuarded?
          || (e.Issue? && (h.recoveringSince.None? || e.now - h.recoveringSince.value > timeout)))
    case Expired => e == TimerExpires(op)
    case Disposed => e == TornDown && op in h.pending
  }

  /** Follows are listed as they started. */
  ghost predicate Listed(h: Head) {
    Increasing(h.follows) && forall f :: f in h.follows ==> f < h.nextFollow
  }

  lemma StepKeepsListed(h: Head, timeout: int, e: Event)
    requires Listed(h) && Enabled(h, e)
    ensures Listed(Next(h, timeout, e))
  {
    match e
    case FollowDies(f, _, _) => WithoutIncreasing(h.follows, f);
    case FollowStops(f) => WithoutIncreasing(h.follows, f);
    case _ =>
      assert forall i :: 0 <= i < |h.follows| ==> h.follows[i] in h.follows;
  }

  lemma {:induction false} AlwaysListed(hs: seq<Head>, events: seq<Event>, timeout: int, i: nat)
    requires Behaviour(hs, events, timeout) && i < |hs|
    ensures Listed(hs[i])
  {
    hide Listed, Next;
    if i == 0 {
      NothingListed();
    } else {
      AlwaysListed(hs, events, timeout, i - 1);
      assert Enabled(hs[i - 1], events[i - 1]);
      StepKeepsListed(hs[i - 1], timeout, events[i - 1]);
    }
  }

  lemma NothingListed()
    ensures Listed(NewHead)
  {
  }

  lemma OldestIsFirst(h: Head, f: FollowId)
    requires Listed(h)
    ensures Oldest(h, f) <==> h.follows != [] && h.follows[0] == f
  {
    assert h.follows != [] ==> h.follows[0] in h.follows;
  }

  lemma StepSettles(h: Head, timeout: int, e: Event, op: Op, o: Outcome)
    requires Inv(h) && Listed(h) && Enabled(h, e)
    ensures var h' := Next(h, timeout, e);
            && (op < |h'.outcomes| && h'.outcomes[op] == Some(o)
                <==> (op < |h.outcomes| && h.outcomes[op] == Some(o)) || SettledBy(h, timeout, e, op, o))
  {
    if o.Ran? { OldestIsFirst(h, o.follow); }
    hide Listed, Oldest, InOrder, Increasing;
    assert h.follows != [] ==> h.follows[0] in h.follows;
  }

  /**
   * Over every run an operation is run on a follow exactly if that was the oldest active one when it was issued, or the
   * one that started while it waited; refused, expired or disposed of exactly by the events that say so.
   */
  lemma {:induction false} OutcomeIff(hs: seq<Head>, events: seq<Event>, timeout: int, i: nat, op: Op, o: Outcome)
    requires Behaviour(hs, events, timeout) && i < |hs|
    ensures op < |hs[i].outcomes| && hs[i].outcomes[op] == Some(o)
            <==> exists k :: 0 <= k < i && SettledBy(hs[k], timeout, events[k], op, o)
  {
    hide Next, Inv, Listed, SettledBy;
    if i > 0 {
      OutcomeIff(hs, events, timeout, i - 1, op, o);
      AlwaysSafe(hs, events, timeout, i - 1);
      AlwaysListed(hs, events, timeout, i - 1);
      assert Enabled(hs[i - 1], events[i - 1]);
      StepSettles(hs[i - 1], timeout, events[i - 1], op, o);
    }
  }

  lemma StepLogs(h: Head, timeout: int, e: Event, op: Op, f: FollowId)
    requires Queued(h) && Enabled(h, e)
    requires (op, f) in h.ran <==> op < |h.outcomes| && h.outcomes[op] == Some(Ran(f))
    ensures var h' := Next(h, timeout, e);
            (op, f) in h'.ran <==> op < |h'.outcomes| && h'.outcomes[op] == Some(Ran(f))
  {
    if e.FollowStarts? {
      var more := Paired(h.pending, h.nextFollow);
      assert (op, f) in more <==> op in h.pending && f == h.nextFollow by {
        if k: int :| 0 <= k < |h.pending| && h.pending[k] == op && f == h.nextFollow { assert more[k] == (op, f); }
      }
    }
    hide Increasing;
  }

  /** Over every run a follow has been sent exactly the operations whose promise was handed to it, in order. */
  lemma {:induction false} RanIff(hs: seq<Head>, events: seq<Event>, timeout: int, i: nat, op: Op, f: FollowId)
    requires Behaviour(hs, events, timeout) && i < |hs|
    ensures (op, f) in hs[i].ran <==> op < |hs[i].outcomes| && hs[i].outcomes[op] == Some(Ran(f))
    ensures forall a, b :: 0 <= a < b < |hs[i].ran| ==> hs[i].ran[a].0 < hs[i].ran[b].0
  {
    AlwaysSafe(hs, events, timeout, i);
    if i > 0 {
      RanIff(hs, events, timeout, i - 1, op, f);
      AlwaysSafe(hs, events, timeout, i - 1);
      assert Enabled(hs[i - 1], events[i - 1]);
      hide Next, InOrder;
      StepLogs(hs[i - 1], timeout, events[i - 1], op, f);
    }
  }

  /** The event ends the follow, on its own or with the chain. */
  predicate Ends(e: Event, f: FollowId) {
    (e.FollowDies? && e.follow == f) || e == FollowStops(f) || e.TornDown?
  }

  /** A follow is active exactly from its start until it stops, dies or the chain is torn down. */
  lemma ActiveStep(h: Head, timeout: int, e: Event, f: FollowId)
    requires Enabled(h, e)
    ensures f in Next(h, timeout, e).follows <==>
            (f in h.follows && !Ends(e, f)) || (e.FollowStarts? && f == h.nextFollow)
  {
  }

  /** The next follow runs everything that waits, in the order it was issued. */
  lemma FollowTakesTheQueue(hs: seq<Head>, events: seq<Event>, timeout: int, i: nat)
    requires Behaviour(hs, events, timeout) && i < |events| && events[i].FollowStarts?
    ensures var h, h' := hs[i], hs[i + 1];
            && h'.pending == [] && h'.recoveringSince.None?
            && h'.ran == h.ran + Paired(h.pending, h.nextFollow)
            && (forall op: Op :: op < |h'.outcomes| ==> h'.outcomes[op].Some?)
            && (forall a, b :: 0 <= a < b < |h'.ran| ==> h'.ran[a].0 < h'.ran[b].0)
  {
    AlwaysSafe(hs, events, timeout, i);
    AlwaysSafe(hs, events, timeout, i + 1);
  }

  /** A follow ended with a stop. */
  predicate Stops(e: Event, at: int) {
    e.FollowDies? && e.stopped && e.now == at
  }

  /** The event ends the window that a stop opened at `since`: a later stop opens another. */
  predicate Closes(h: Head, timeout: int, e: Event, since: int) {
    || e.FollowStarts? || e.TornDown? || (e.FollowDies? && e.stopped)
    || (e.Issue? && h.follows == [] && e.now - since > timeout)
  }

  /** Event `k` is the last stop before event `i`, and nothing has ended its window since. */
  ghost predicate LastStop(hs: seq<Head>, events: seq<Event>, timeout: int, i: nat, k: nat, at: int)
    requires i <= |events| <= |hs|
  {
    k < i && Stops(events[k], at) && forall n :: k < n < i ==> !Closes(hs[n], timeout, events[n], at)
  }

  lemma WindowStep(h: Head, timeout: int, e: Event, at: int)
    requires Enabled(h, e)
    ensures Next(h, timeout, e).recoveringSince == Some(at)
            <==> Stops(e, at) || (h.recoveringSince == Some(at) && !Closes(h, timeout, e, at))
  {
  }

  /** The stop time that is kept is that of the last stop whose window has not ended. */
  lemma {:induction false} WindowIff(hs: seq<Head>, events: seq<Event>, timeout: int, i: nat, at: int)
    requires Behaviour(hs, events, timeout) && i < |hs|
    ensures hs[i].recoveringSince == Some(at) <==> exists k: nat :: LastStop(hs, events, timeout, i, k, at)
  {
    hide Next, Enabled, Closes, Stops;
    if i > 0 {
      var last := i - 1;
      WindowIff(hs, events, timeout, last, at);
      assert Enabled(hs[last], events[last]);
      WindowStep(hs[last], timeout, events[last], at);
      if k: nat :| LastStop(hs, events, timeout, last, k, at) {
        if !Closes(hs[last], timeout, events[last], at) { assert LastStop(hs, events, timeout, i, k, at); }
      }
      if k: nat :| LastStop(hs, events, timeout, i, k, at) {
        if k < last { assert LastStop(hs, events, timeout, last, k, at); }
      }
      if Stops(events[last], at) { assert LastStop(hs, events, timeout, i, last, at); }
    }
  }

  /**
   * An operation is held exactly when nothing is followed and a follow ended with a stop no longer ago than the
   * timeout, since when no follow has started, the chain has not been torn down, no other follow has stopped, and no
   * operation came too late.
   */
  lemma HeldIff(hs: seq<Head>, events: seq<Event>, timeout: int, i: nat)
    requires Behaviour(hs, events, timeout) && i < |events| && events[i].Issue?
    ensures |hs[i + 1].outcomes| == |hs[i].outcomes| + 1
    ensures hs[i + 1].outcomes[|hs[i].outcomes|].None? <==>
            hs[i].follows == []
            && exists k: nat, at :: LastStop(hs, events, timeout, i, k, at) && events[i].now - at <= timeout
    ensures hs[i + 1].outcomes[|hs[i].outcomes|] == Some(Refused) <==>
            hs[i].follows == []
            && forall k: nat, at :: LastStop(hs, events, timeout, i, k, at) ==> events[i].now - at > timeout
  {
    assert Enabled(hs[i], events[i]);
    hide LastStop;
    forall k: nat, at | LastStop(hs, events, timeout, i, k, at) ensures hs[i].recoveringSince == Some(at) {
      WindowIff(hs, events, timeout, i, at);
    }
    if hs[i].recoveringSince.Some? {
      var at := hs[i].recoveringSince.value;
      WindowIff(hs, events, timeout, i, at);
      var k: nat :| LastStop(hs, events, timeout, i, k, at);
    }
  }

  ghost predicate SteadyClock(events: seq<Event>) {
    forall j, k :: 0 <= j < k < |events| && events[j].Issue? && events[k].Issue? ==> events[j].now <= events[k].now
  }

  /** Event `k` is the last stop, and no follow has started and the chain has not been torn down since. */
  ghost predicate Unfollowed(events: seq<Event>, i: nat, k: nat, at: int)
    requires i <= |events|
  {
    && k < i && Stops(events[k], at)
    && forall n :: k < n < i ==> !events[n].FollowStarts? && !events[n].TornDown?
                                 && !(events[n].FollowDies? && events[n].stopped)
  }

  /** With a clock that never goes back, operations that came too late need no mention. */
  lemma HeldIffSteady(hs: seq<Head>, events: seq<Event>, timeout: int, i: nat)
    requires Behaviour(hs, events, timeout) && i < |events| && events[i].Issue? && SteadyClock(events)
    ensures |hs[i + 1].outcomes| == |hs[i].outcomes| + 1
    ensures hs[i + 1].outcomes[|hs[i].outcomes|].None? <==>
            hs[i].follows == []
            && exists k: nat, at :: Unfollowed(events, i, k, at) && events[i].now - at <= timeout
  {
    HeldIff(hs, events, timeout, i);
    forall k: nat, at | events[i].now - at <= timeout
      ensures LastStop(hs, events, timeout, i, k, at) <==> Unfollowed(events, i, k, at) {}
    hide Behaviour, LastStop, Unfollowed;
  }

  /** The container's handlers look for a follow before they issue anything, so nothing they issue is ever held. */
  lemma {:induction false} GuardedNeverHeld(hs: seq<Head>, events: seq<Event>, timeout: int, i: nat)
    requires Behaviour(hs, events, timeout) && i < |hs|
    requires forall e :: e in events ==> !e.Issue?
    ensures hs[i].pending == []
    ensures forall op: Op :: op < |hs[i].outcomes| ==> hs[i].outcomes[op].Some? && !hs[i].outcomes[op].value.Expired?
  {
    if i > 0 {
      GuardedNeverHeld(hs, events, timeout, i - 1);
      assert events[i - 1] in events;
      assert Enabled(hs[i - 1], events[i - 1]);
    }
  }
}
