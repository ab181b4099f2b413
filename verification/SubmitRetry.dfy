/** When a rejected submission is sent again (packages/statement-store/src/submit/retry.ts). */
module SubmitRetry {
  import opened Common

  datatype Reply = Accepted | Priority(min: nat) | Transient(error: Failure)

  datatype Budget = Bounded(n: int) | Unbounded

  /** One turn of the loop: the reply, and what the liveness gate says before and after the backoff. */
  datatype Turn = Turn(reply: Reply, live: bool, liveAfterDelay: bool)

  datatype Verdict = Success | Propagated(reply: Reply) | StillTrying

  function Priorities(turns: seq<Turn>): nat {
    if turns == [] then 0
    else Priorities(turns[..|turns| - 1]) + if turns[|turns| - 1].reply.Priority? then 1 else 0
  }

  function Transients(turns: seq<Turn>): nat {
    if turns == [] then 0
    else Transients(turns[..|turns| - 1]) + if turns[|turns| - 1].reply.Transient? then 1 else 0
  }

  predicate Spent(budget: Budget, used: nat) {
    budget.Bounded? && used >= budget.n
  }

  /**
   * Whether the loop ends at turn k, said over the replies received so far: it was accepted, is no
   * longer live, or replies of this kind have used up their own budget.
   */
  predicate StopsAt(turns: seq<Turn>, k: nat, attempts: int, priorityAttempts: Budget)
    requires k < |turns|
  {
    var t := turns[k];
    || t.reply.Accepted?
    || !t.live
    || !t.liveAfterDelay
    || (t.reply.Priority? && Spent(priorityAttempts, Priorities(turns[..k])))
    || (t.reply.Transient? && Spent(Bounded(attempts), Transients(turns[..k])))
  }

  /** Losing the channel race is success, but only under the unbounded policy. */
  function VerdictAt(turns: seq<Turn>, k: nat, attempts: int, priorityAttempts: Budget): Verdict
    requires k < |turns| && StopsAt(turns, k, attempts, priorityAttempts)
  {
    var t := turns[k];
    if t.reply.Accepted? then Success
    else if priorityAttempts.Unbounded? && t.reply.Priority? && (!t.live || !t.liveAfterDelay) then Success
    else Propagated(t.reply)
  }

  /**
   * The retry loop against scripted replies. `floors` collects the minimum reported by every
   * priority rejection, including the last one.
   */
  method SubmitWithRetry(turns: seq<Turn>, attempts: int, priorityAttempts: Budget)
    returns (verdict: Verdict, calls: nat, floors: seq<nat>)
    ensures calls <= |turns|
    ensures forall k :: 0 <= k < calls - 1 ==> !StopsAt(turns, k, attempts, priorityAttempts)
    ensures verdict == StillTrying ==>
              calls == |turns| && (calls > 0 ==> !StopsAt(turns, calls - 1, attempts, priorityAttempts))
    ensures verdict != StillTrying ==>
              && calls > 0
              && StopsAt(turns, calls - 1, attempts, priorityAttempts)
              && verdict == VerdictAt(turns, calls - 1, attempts, priorityAttempts)
    ensures forall k :: 0 <= k < calls - 1 ==> !turns[k].reply.Accepted? && turns[k].live && turns[k].liveAfterDelay
    ensures verdict.Propagated? ==> calls > 0 && verdict.reply == turns[calls - 1].reply && !verdict.reply.Accepted?
    ensures priorityAttempts.Unbounded? ==>
              && (verdict.Propagated? ==> verdict.reply.Transient?)
              && (verdict == Success ==> calls > 0 && !turns[calls - 1].reply.Transient?)
    ensures priorityAttempts.Bounded? && verdict == Success ==> calls > 0 && turns[calls - 1].reply.Accepted?
    ensures calls > 0 && turns[calls - 1].reply.Accepted? ==> verdict == Success
    ensures verdict != StillTrying && calls > 0 && turns[calls - 1].live && turns[calls - 1].liveAfterDelay ==>
              match turns[calls - 1].reply
              case Accepted => true
              case Priority(_) => priorityAttempts.Bounded? && Priorities(turns[..calls - 1]) >= priorityAttempts.n
              case Transient(_) => Transients(turns[..calls - 1]) >= attempts
    ensures floors == ReportedFloors(turns[..calls])
  {
    var attemptsLeft, priorityLeft := attempts, priorityAttempts;
    calls, floors := 0, [];
    while calls < |turns|
      invariant calls <= |turns|
      invariant forall k :: 0 <= k < calls ==> !StopsAt(turns, k, attempts, priorityAttempts)
      invariant forall k :: 0 <= k < calls ==> !turns[k].reply.Accepted? && turns[k].live && turns[k].liveAfterDelay
      invariant attemptsLeft == attempts - Transients(turns[..calls])
      invariant priorityLeft == if priorityAttempts.Unbounded? then Unbounded
                                else Bounded(priorityAttempts.n - Priorities(turns[..calls]))
      invariant floors == ReportedFloors(turns[..calls])
    {
      var t := turns[calls];
      assert turns[..calls + 1][..calls] == turns[..calls];
      calls := calls + 1;
      if t.reply.Accepted? {
        return Success, calls, floors;
      }
      if t.reply.Priority? {
        floors := floors + [t.reply.min];
      }
      var budgetLeft := if t.reply.Priority? then priorityLeft else Bounded(attemptsLeft);
      if !t.live || (budgetLeft.Bounded? && budgetLeft.n <= 0) {
        return Settle(t.reply, t.live, priorityAttempts), calls, floors;
      }
      if t.reply.Priority? {
        if priorityLeft.Bounded? {
          priorityLeft := Bounded(priorityLeft.n - 1);
        }
      } else {
        attemptsLeft := attemptsLeft - 1;
      }
      if !t.liveAfterDelay {
        return Settle(t.reply, t.liveAfterDelay, priorityAttempts), calls, floors;
      }
    }
    return StillTrying, calls, floors;
  }

  function Settle(reply: Reply, live: bool, priorityAttempts: Budget): Verdict {
    if priorityAttempts.Unbounded? && !live && reply.Priority? then Success else Propagated(reply)
  }

  function ReportedFloors(turns: seq<Turn>): seq<nat> {
    if turns == [] then []
    else
      ReportedFloors(turns[..|turns| - 1])
      + if turns[|turns| - 1].reply.Priority? then [turns[|turns| - 1].reply.min] else []
  }

  // ---- what is counted and reported --------------------------------------------------------

  /** The turns of a kind are counted by their numbers. */
  lemma {:induction false} PrioritiesCounted(turns: seq<Turn>, numbers: set<nat>)
    requires forall k: nat :: k in numbers <==> k < |turns| && turns[k].reply.Priority?
    ensures Priorities(turns) == |numbers|
  {
    if turns == [] {
      assert numbers == {};
    } else {
      var last := |turns| - 1;
      PrioritiesCounted(turns[..last], numbers - {last});
    }
  }

  lemma {:induction false} TransientsCounted(turns: seq<Turn>, numbers: set<nat>)
    requires forall k: nat :: k in numbers <==> k < |turns| && turns[k].reply.Transient?
    ensures Transients(turns) == |numbers|
  {
    if turns == [] {
      assert numbers == {};
    } else {
      var last := |turns| - 1;
      TransientsCounted(turns[..last], numbers - {last});
    }
  }

  /** The n-th priority rejection reports the n-th floor. */
  lemma {:induction false} FloorsInOrder(turns: seq<Turn>, k: nat)
    requires k < |turns| && turns[k].reply.Priority?
    ensures Priorities(turns[..k]) < |ReportedFloors(turns)| == Priorities(turns)
    ensures ReportedFloors(turns)[Priorities(turns[..k])] == turns[k].reply.min
  {
    var init := turns[..|turns| - 1];
    FloorsCounted(init);
    if k < |turns| - 1 {
      FloorsInOrder(init, k);
      assert init[..k] == turns[..k];
    }
  }

  lemma {:induction false} FloorsCounted(turns: seq<Turn>)
    ensures |ReportedFloors(turns)| == Priorities(turns)
  {
    if turns != [] { FloorsCounted(turns[..|turns| - 1]); }
  }

  // ---- budgets ---------------------------------------------------------------------------

  ghost predicate RunsFor(turns: seq<Turn>, calls: nat, attempts: int, priorityAttempts: Budget) {
    calls <= |turns| && forall k :: 0 <= k < calls - 1 ==> !StopsAt(turns, k, attempts, priorityAttempts)
  }

  lemma {:induction false} KindsSum(turns: seq<Turn>)
    requires forall k :: 0 <= k < |turns| ==> !turns[k].reply.Accepted?
    ensures Priorities(turns) + Transients(turns) == |turns|
  {
    if turns != [] {
      KindsSum(turns[..|turns| - 1]);
    }
  }

  /** Retried replies of a kind never exceed that kind's budget, whatever the other kind did. */
  lemma {:induction false} WithinBudget(turns: seq<Turn>, n: nat, attempts: int, priorityAttempts: Budget)
    requires n <= |turns|
    requires forall k :: 0 <= k < n ==> !StopsAt(turns, k, attempts, priorityAttempts)
    ensures Transients(turns[..n]) <= Max(attempts, 0)
    ensures priorityAttempts.Bounded? ==> Priorities(turns[..n]) <= Max(priorityAttempts.n, 0)
  {
    if n > 0 {
      WithinBudget(turns, n - 1, attempts, priorityAttempts);
      assert turns[..n][..n - 1] == turns[..n - 1];
      assert !StopsAt(turns, n - 1, attempts, priorityAttempts);
    }
  }

  /** With both budgets bounded the loop makes at most attempts + priorityAttempts + 1 calls. */
  lemma BoundedCalls(turns: seq<Turn>, calls: nat, attempts: int, priorityAttempts: Budget)
    requires RunsFor(turns, calls, attempts, priorityAttempts) && priorityAttempts.Bounded?
    ensures calls <= Max(attempts, 0) + Max(priorityAttempts.n, 0) + 1
  {
    if calls > 0 {
      var retried := turns[..calls - 1];
      WithinBudget(turns, calls - 1, attempts, priorityAttempts);
      forall k | 0 <= k < |retried| ensures !retried[k].reply.Accepted? {
        assert !StopsAt(turns, k, attempts, priorityAttempts);
      }
      KindsSum(retried);
    }
  }

  /** Unbounded priority retries end after attempts + 1 transient errors at the latest, counted apart. */
  lemma UnboundedSparesTransients(turns: seq<Turn>, calls: nat, attempts: int)
    requires RunsFor(turns, calls, attempts, Unbounded)
    ensures Transients(turns[..calls]) <= Max(attempts, 0) + 1
    ensures calls > 0 && turns[calls - 1].reply.Priority? && turns[calls - 1].live && turns[calls - 1].liveAfterDelay
            ==> !StopsAt(turns, calls - 1, attempts, Unbounded)
  {
    if calls > 0 {
      WithinBudget(turns, calls - 1, attempts, Unbounded);
      assert turns[..calls][..calls - 1] == turns[..calls - 1];
    }
  }
}
