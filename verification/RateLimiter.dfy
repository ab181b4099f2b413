/** Fixed-window rate limiting (packages/host-container/src/rateLimiter.ts). */
module RateLimiter {
  import opened Common

  /** Tasks are numbered in the order they are scheduled. */
  type Task = nat

  datatype Config = Config(maxRequests: nat, interval: nat, maxQueued: nat)

  /** A task that ran: when, and after how many refills of the bucket. */
  datatype Start = Start(task: Task, time: int, epoch: nat)

  /**
   * The bucket with its history: `refills[e]` is when epoch e began, and `rejected` are the tasks
   * whose promise was rejected without running them.
   */
  datatype Limiter = Limiter(
    remaining: int,
    lastRefill: int,
    queue: seq<Task>,
    timer: bool,
    starts: seq<Start>,
    refills: seq<int>,
    scheduled: nat,
    rejected: set<Task>,
    clock: int)

  function Created(c: Config, now: int): Limiter {
    Limiter(c.maxRequests, now, [], false, [], [now], 0, {}, now)
  }

  function Refill(c: Config, l: Limiter, now: int): Limiter {
    var elapsed := now - l.lastRefill;
    if elapsed <= 0 || elapsed < c.interval then l.(clock := now)
    else l.(remaining := c.maxRequests, lastRefill := now, refills := l.refills + [now], clock := now)
  }

  /** The drop strategy has no guard against a clock that stands still. */
  function RefillDrop(c: Config, l: Limiter, now: int): Limiter {
    if now - l.lastRefill < c.interval then l.(clock := now)
    else l.(remaining := c.maxRequests, lastRefill := now, refills := l.refills + [now], clock := now)
  }

  function Launch(l: Limiter, tasks: seq<Task>): Limiter
    requires |l.refills| > 0
  {
    l.(remaining := l.remaining - |tasks|,
       starts := l.starts + seq(|tasks|, i requires 0 <= i < |tasks| => Start(tasks[i], l.clock, |l.refills| - 1)))
  }

  /** How many queued tasks a timer tick may start. */
  function Batch(l: Limiter): (n: nat)
    ensures n <= |l.queue| && (n < |l.queue| ==> n == Max(l.remaining, 0))
  {
    if l.remaining <= 0 then 0 else if l.remaining < |l.queue| then l.remaining else |l.queue|
  }

  function ProcessQueue(c: Config, l: Limiter, now: int): Limiter
    requires |l.refills| > 0
  {
    var refilled := Refill(c, l, now);
    var n := Batch(refilled);
    var ran := Launch(refilled, l.queue[..n]);
    ran.(queue := l.queue[n..], timer := n < |l.queue|)
  }

  function Schedule(c: Config, l: Limiter, now: int): Limiter
    requires |l.refills| > 0
  {
    var refilled := Refill(c, l, now).(scheduled := l.scheduled + 1);
    if refilled.remaining > 0 && l.queue == [] then Launch(refilled, [l.scheduled])
    else if |l.queue| >= c.maxQueued then refilled.(rejected := l.rejected + {l.scheduled})
    else refilled.(queue := l.queue + [l.scheduled], timer := true)
  }

  function Destroy(l: Limiter): Limiter {
    l.(queue := [], timer := false, rejected := l.rejected + set t | t in l.queue)
  }

  function ScheduleDrop(c: Config, l: Limiter, now: int): Limiter
    requires |l.refills| > 0
  {
    var refilled := RefillDrop(c, l, now).(scheduled := l.scheduled + 1);
    if refilled.remaining > 0 then Launch(refilled, [l.scheduled])
    else refilled.(rejected := l.rejected + {l.scheduled})
  }

  datatype Event = Scheduled(now: int) | TimerFired(now: int) | Destroyed | ScheduledDrop(now: int)

  predicate Enabled(l: Limiter, e: Event) {
    match e
    case Destroyed => true
    case TimerFired(now) => l.timer && l.clock <= now
    case _ => l.clock <= e.now
  }

  function Next(c: Config, l: Limiter, e: Event): Limiter
    requires |l.refills| > 0
  {
    match e
    case Scheduled(now) => Schedule(c, l, now)
    case TimerFired(now) => ProcessQueue(c, l, now)
    case Destroyed => Destroy(l)
    case ScheduledDrop(now) => ScheduleDrop(c, l, now)
  }

  // ---- the limiter object ------------------------------------------------------------------

  lemma RefillIgnoresTimer(c: Config, l: Limiter, now: int)
    ensures Refill(c, l.(timer := false), now) == Refill(c, l, now).(timer := false)
    ensures Refill(c, l, now).queue == l.queue && |Refill(c, l, now).refills| >= |l.refills|
    ensures Batch(Refill(c, l, now).(timer := false)) == Batch(Refill(c, l, now))
  {
  }

  class QueueLimiter {
    const config: Config
    var remainingTokens: int
    var lastRefillTimestamp: int
    var queue: seq<Task>
    var timerPending: bool
    var starts: seq<Start>
    var refills: seq<int>
    var scheduled: nat
    var rejected: set<Task>
    var clock: int

    function AsLimiter(): Limiter
      reads this
    {
      Limiter(remainingTokens, lastRefillTimestamp, queue, timerPending, starts, refills, scheduled, rejected, clock)
    }

    constructor (config: Config, now: int)
      ensures this.config == config && AsLimiter() == Created(config, now)
    {
      this.config := config;
      remainingTokens, lastRefillTimestamp, queue, timerPending := config.maxRequests, now, [], false;
      starts, refills, scheduled, rejected, clock := [], [now], 0, {}, now;
    }

    method RefillTokens(now: int)
      modifies this
      ensures AsLimiter() == Refill(config, old(AsLimiter()), now)
    {
      clock := now;
      var elapsed := now - lastRefillTimestamp;
      if elapsed <= 0 { return; }
      if elapsed >= config.interval {
        remainingTokens := config.maxRequests;
        lastRefillTimestamp := now;
        refills := refills + [now];
      }
    }

    method OnTimer(now: int)
      requires |refills| > 0
      modifies this
      ensures AsLimiter() == ProcessQueue(config, old(AsLimiter()), now)
    {
      hide Refill, Batch;
      RefillIgnoresTimer(config, AsLimiter(), now);
      timerPending := false;
      RefillTokens(now);
      DrainTokens();
      if |queue| > 0 {
        timerPending := true;
      }
    }

    /** The loop that runs queued tasks while tokens last. */
    method DrainTokens()
      requires |refills| > 0
      modifies this`remainingTokens, this`starts, this`queue
      ensures var l := old(AsLimiter());
              AsLimiter() == Launch(l, l.queue[..Batch(l)]).(queue := l.queue[Batch(l)..])
    {
      ghost var l := AsLimiter();
      ghost var n := 0;
      while remainingTokens > 0 && |queue| > 0
        invariant n <= |l.queue| && (n > 0 ==> n <= l.remaining)
        invariant queue == l.queue[n..] && remainingTokens == l.remaining - n
        invariant starts == l.starts + seq(n, i requires 0 <= i < n => Start(l.queue[..n][i], l.clock, |l.refills| - 1))
        decreases |queue|
      {
        var task := queue[0];
        queue := queue[1..];
        remainingTokens := remainingTokens - 1;
        starts := starts + [Start(task, clock, |refills| - 1)];
        n := n + 1;
      }
      assert n == Batch(l);
    }

    method ScheduleTask(now: int) returns (task: Task)
      requires |refills| > 0
      modifies this
      ensures task == old(scheduled) && AsLimiter() == Schedule(config, old(AsLimiter()), now)
    {
      task := scheduled;
      RefillTokens(now);
      scheduled := scheduled + 1;
      if remainingTokens > 0 && |queue| == 0 {
        remainingTokens := remainingTokens - 1;
        starts := starts + [Start(task, clock, |refills| - 1)];
      } else if |queue| >= config.maxQueued {
        rejected := rejected + {task};
      } else {
        queue := queue + [task];
        if !timerPending {
          timerPending := true;
        }
      }
    }

    method DestroyAll()
      modifies this
      ensures AsLimiter() == Destroy(old(AsLimiter()))
    {
      timerPending := false;
      while |queue| > 0
        invariant AsLimiter() == old(AsLimiter()).(timer := false, queue := queue, rejected := rejected)
        invariant rejected + (set t | t in queue) == old(rejected) + set t | t in old(queue)
        decreases |queue|
      {
        assert forall t :: t in queue <==> t == queue[0] || t in queue[1..];
        rejected := rejected + {queue[0]};
        queue := queue[1..];
      }
    }
  }

  // ---- invariant -------------------------------------------------------------------------

  /** The epochs, without the starts. */
  ghost predicate EpochsSpaced(c: Config, l: Limiter) {
    && |l.refills| > 0
    && l.refills[|l.refills| - 1] == l.lastRefill <= l.clock
    && (forall e :: 0 <= e < |l.refills| - 1 ==> l.refills[e] + c.interval <= l.refills[e + 1])
  }

  /** Starts of the current epoch are the last ones, one per token spent. */
  ghost predicate TokensSpent(c: Config, l: Limiter) {
    && 0 <= l.remaining <= c.maxRequests
    && c.maxRequests - l.remaining <= |l.starts|
    && (forall i :: 0 <= i < |l.starts| ==>
          && l.starts[i].epoch < |l.refills|
          && (l.starts[i].epoch == |l.refills| - 1 <==> |l.starts| - (c.maxRequests - l.remaining) <= i))
    && (forall i :: 0 <= i < |l.starts| - c.maxRequests ==> l.starts[i].epoch < l.starts[i + c.maxRequests].epoch)
    && (forall i, j :: 0 <= i < j < |l.starts| ==> l.starts[i].epoch <= l.starts[j].epoch)
  }

  /** Every start falls inside its epoch, and starts are logged in time order. */
  ghost predicate StartsTimed(c: Config, l: Limiter) {
    && |l.refills| > 0
    && (forall i :: 0 <= i < |l.starts| ==>
          && l.starts[i].epoch < |l.refills|
          && l.refills[l.starts[i].epoch] <= l.starts[i].time <= l.clock
          && (l.starts[i].epoch < |l.refills| - 1 ==> l.starts[i].time <= l.refills[l.starts[i].epoch + 1]))
    && (forall i, j :: 0 <= i < j < |l.starts| ==> l.starts[i].time <= l.starts[j].time)
  }

  ghost predicate Paced(c: Config, l: Limiter) {
    EpochsSpaced(c, l) && TokensSpent(c, l) && StartsTimed(c, l)
  }

  lemma AdvanceKeepsPaced(c: Config, l: Limiter, now: int)
    requires Paced(c, l) && l.clock <= now
    ensures Paced(c, l.(clock := now))
  {
  }

  lemma NewEpochKeepsPaced(c: Config, l: Limiter, now: int)
    requires Paced(c, l) && l.clock <= now && l.lastRefill + c.interval <= now
    ensures Paced(c, l.(remaining := c.maxRequests, lastRefill := now, refills := l.refills + [now], clock := now))
  {
  }

  lemma RefillKeepsPaced(c: Config, l: Limiter, now: int)
    requires Paced(c, l) && l.clock <= now
    ensures Paced(c, Refill(c, l, now)) && Paced(c, RefillDrop(c, l, now))
  {
    hide Paced;
    AdvanceKeepsPaced(c, l, now);
    if now - l.lastRefill >= c.interval { NewEpochKeepsPaced(c, l, now); }
  }

  lemma LaunchSpends(c: Config, l: Limiter, tasks: seq<Task>)
    requires |l.refills| > 0 && TokensSpent(c, l) && |tasks| <= l.remaining
    ensures TokensSpent(c, Launch(l, tasks))
  {
  }

  lemma LaunchKeepsPaced(c: Config, l: Limiter, tasks: seq<Task>)
    requires Paced(c, l) && |tasks| <= l.remaining
    ensures Paced(c, Launch(l, tasks))
  {
    hide TokensSpent;
    LaunchSpends(c, l, tasks);
  }

  lemma BookkeepingKeepsPaced(c: Config, l: Limiter, queue: seq<Task>, timer: bool, scheduled: nat, rejected: set<Task>)
    requires Paced(c, l)
    ensures Paced(c, l.(queue := queue, timer := timer, scheduled := scheduled, rejected := rejected))
  {
  }

  /** Every event, of either strategy, keeps the pace. */
  lemma NextKeepsPaced(c: Config, l: Limiter, e: Event)
    requires Paced(c, l) && |l.refills| > 0 && Enabled(l, e)
    ensures Paced(c, Next(c, l, e))
  {
    hide Paced;
    var l' := Next(c, l, e);
    match e {
      case Destroyed => BookkeepingKeepsPaced(c, l, l'.queue, l'.timer, l'.scheduled, l'.rejected);
      case TimerFired(now) =>
        RefillKeepsPaced(c, l, now);
        var refilled := Refill(c, l, now);
        RefilledTokens(c, refilled);
        LaunchKeepsPaced(c, refilled, l.queue[..Batch(refilled)]);
        BookkeepingKeepsPaced(c, Launch(refilled, l.queue[..Batch(refilled)]), l'.queue, l'.timer, l'.scheduled,
                              l'.rejected);
      case Scheduled(now) =>
        RefillKeepsPaced(c, l, now);
        AdmitKeepsPaced(c, Refill(c, l, now), l', l.scheduled);
      case ScheduledDrop(now) =>
        RefillKeepsPaced(c, l, now);
        AdmitKeepsPaced(c, RefillDrop(c, l, now), l', l.scheduled);
    }
  }

  lemma RefilledTokens(c: Config, l: Limiter)
    requires Paced(c, l)
    ensures |l.refills| > 0 && 0 <= l.remaining
  {
  }

  lemma AdmitKeepsPaced(c: Config, refilled: Limiter, l': Limiter, task: Task)
    requires Paced(c, refilled) && |refilled.refills| > 0
    requires || l' == refilled.(queue := l'.queue, timer := l'.timer, scheduled := l'.scheduled,
                                rejected := l'.rejected)
             || (refilled.remaining > 0 && l' == Launch(refilled.(scheduled := l'.scheduled), [task]))
    ensures Paced(c, l')
  {
    BookkeepingKeepsPaced(c, refilled, l'.queue, l'.timer, l'.scheduled, l'.rejected);
    if l' != refilled.(queue := l'.queue, timer := l'.timer, scheduled := l'.scheduled, rejected := l'.rejected) {
      BookkeepingKeepsPaced(c, refilled, refilled.queue, refilled.timer, l'.scheduled, refilled.rejected);
      LaunchKeepsPaced(c, refilled.(scheduled := l'.scheduled), [task]);
    }
  }

  // ---- the rate bound ----------------------------------------------------------------------

  lemma {:induction false} EpochsApart(c: Config, l: Limiter, d: nat, e: nat)
    requires Paced(c, l) && d <= e < |l.refills|
    ensures l.refills[e] - l.refills[d] >= (e - d) * c.interval
  {
    if d < e {
      EpochsApart(c, l, d, e - 1);
      assert (e - d) * c.interval == (e - 1 - d) * c.interval + c.interval;
    }
  }

  lemma {:induction false} EpochsShareTokens(c: Config, l: Limiter, i: nat, j: nat)
    requires Paced(c, l) && i <= j < |l.starts|
    ensures c.maxRequests > 0
    ensures j - i < (l.starts[j].epoch - l.starts[i].epoch + 1) * c.maxRequests
    decreases j - i
  {
    if c.maxRequests == 0 {
      assert false;
    } else if j - i >= c.maxRequests {
      EpochsShareTokens(c, l, i + c.maxRequests, j);
      var a, b, z := l.starts[i].epoch, l.starts[i + c.maxRequests].epoch, l.starts[j].epoch;
      MoreEpochs(z - b + 1, z - a + 1, c.maxRequests);
    } else {
      MoreEpochs(0, l.starts[j].epoch - l.starts[i].epoch + 1, c.maxRequests);
    }
  }

  lemma {:induction false} ProductNotNegative(d: nat, m: nat)
    ensures 0 <= d * m
  {
  }

  lemma MoreEpochs(a: int, b: int, m: nat)
    requires a < b
    ensures a * m + m <= b * m
  {
    var d: nat := b - a - 1;
    ProductNotNegative(d, m);
    assert (a + 1 + d) * m == a * m + m + d * m;
  }

  lemma EpochsFarApart(c: Config, l: Limiter, d: nat, e: nat, k: nat)
    requires Paced(c, l) && d + k <= e < |l.refills|
    ensures l.refills[e] - l.refills[d] >= k * c.interval
  {
    EpochsApart(c, l, d, e);
    if e - d > k { MoreEpochs(k, e - d, c.interval); }
  }

  /** Two starts less than k intervals apart have fewer than (k + 1) * maxRequests - 1 others between them. */
  lemma CloseStarts(c: Config, l: Limiter, k: nat, i: nat, j: nat)
    requires Paced(c, l) && i <= j < |l.starts| && k > 0
    requires l.starts[j].time < l.starts[i].time + k * c.interval
    ensures j - i < (k + 1) * c.maxRequests
  {
    var a, z := l.starts[i].epoch, l.starts[j].epoch;
    EpochsShareTokens(c, l, i, j);
    if z > a + k {
      EpochsFarApart(c, l, a + 1, z, k);
      assert false;
    }
    if z < a + k {
      MoreEpochs(z - a + 1, k + 1, c.maxRequests);
    }
  }

  function StartsIn(l: Limiter, from: int, until: int): set<nat> {
    set i: nat | i < |l.starts| && from <= l.starts[i].time < until
  }

  lemma {:induction false} SpreadBounds(s: set<nat>, lo: nat, n: nat)
    requires forall x :: x in s ==> lo <= x < lo + n
    ensures |s| <= n
  {
    if n == 0 {
      assert s == {};
    } else {
      SpreadBounds(s - {lo + n - 1}, lo, n - 1);
    }
  }

  /** At most (k + 1) * maxRequests tasks start in any half-open window of k intervals. */
  lemma RateBound(c: Config, l: Limiter, k: nat, from: int)
    requires Paced(c, l) && k > 0
    ensures |StartsIn(l, from, from + k * c.interval)| <= (k + 1) * c.maxRequests
  {
    var s := StartsIn(l, from, from + k * c.interval);
    if s == {} {
      assert (k + 1) * c.maxRequests >= 0;
    } else {
      var first := Least(s);
      forall x | x in s ensures first <= x < first + (k + 1) * c.maxRequests {
        CloseStarts(c, l, k, first, x);
      }
      SpreadBounds(s, first, (k + 1) * c.maxRequests);
    }
  }

  lemma {:induction false} Least(s: set<nat>) returns (m: nat)
    requires s != {}
    ensures m in s && forall x :: x in s ==> m <= x
    decreases |s|
  {
    m :| m in s;
    var rest := s - {m};
    assert forall x :: x in s ==> x == m || x in rest;
    if rest != {} {
      var other := Least(rest);
      if other < m { m := other; }
    }
  }

  // ---- order and accounting ----------------------------------------------------------------

  function Started(l: Limiter): seq<Task> {
    seq(|l.starts|, i requires 0 <= i < |l.starts| => l.starts[i].task)
  }

  predicate Rising(s: seq<Task>) {
    forall i, j :: 0 <= i < j < |s| ==> s[i] < s[j]
  }

  /**
   * Tasks start in scheduling order, the queue keeps to its cap, the timer is set exactly while something waits,
   * and each scheduled task is in exactly one of: started, queued, rejected.
   */
  ghost predicate Accounted(c: Config, l: Limiter) {
    && Rising(Started(l) + l.queue)
    && (forall t :: t in Started(l) + l.queue ==> t < l.scheduled && t !in l.rejected)
    && (forall t :: t in l.rejected ==> t < l.scheduled)
    && (forall t: nat :: t < l.scheduled ==> t in Started(l) + l.queue || t in l.rejected)
    && |l.queue| <= c.maxQueued
    && (l.queue != [] <==> l.timer)
  }

  lemma TimerKeepsAccounted(c: Config, l: Limiter, now: int)
    requires Accounted(c, l) && |l.refills| > 0
    ensures Accounted(c, ProcessQueue(c, l, now))
  {
    var l' := ProcessQueue(c, l, now);
    var n := Batch(Refill(c, l, now));
    assert l.queue == l.queue[..n] + l.queue[n..];
    assert Started(l') == Started(l) + l.queue[..n];
    assert Started(l') + l'.queue == Started(l) + l.queue;
  }

  lemma RisingExtended(s: seq<Task>, t: Task)
    requires Rising(s) && forall x :: x in s ==> x < t
    ensures Rising(s + [t])
  {
    forall i, j | 0 <= i < j < |s + [t]| ensures (s + [t])[i] < (s + [t])[j] {
      assert s[i] in s;
    }
  }

  lemma ScheduleKeepsAccounted(c: Config, l: Limiter, now: int)
    requires Accounted(c, l) && |l.refills| > 0
    ensures Accounted(c, Schedule(c, l, now))
  {
    var l' := Schedule(c, l, now);
    RisingExtended(Started(l) + l.queue, l.scheduled);
    if |Started(l')| > |Started(l)| {
      assert Started(l') == Started(l) + [l.scheduled];
      assert Started(l') + l'.queue == (Started(l) + l.queue) + [l.scheduled];
    } else if l'.queue != l.queue {
      assert Started(l') == Started(l);
      assert Started(l') + l'.queue == (Started(l) + l.queue) + [l.scheduled];
    } else {
      assert Started(l') == Started(l);
    }
  }

  lemma DestroyKeepsAccounted(c: Config, l: Limiter)
    requires Accounted(c, l)
    ensures Accounted(c, Destroy(l))
  {
    var l' := Destroy(l);
    assert Started(l') == Started(l) && Started(l') + l'.queue == Started(l);
    RisingParts(Started(l), l.queue);
    assert forall t :: t in Started(l) + l.queue <==> t in Started(l) || t in l.queue;
  }

  lemma RisingParts(a: seq<Task>, b: seq<Task>)
    requires Rising(a + b)
    ensures Rising(a) && forall t :: t in a ==> t !in b
  {
    forall i, j | 0 <= i < j < |a| ensures a[i] < a[j] {
      assert (a + b)[i] < (a + b)[j];
    }
    forall i, j | 0 <= i < |a| && 0 <= j < |b| ensures a[i] != b[j] {
      assert (a + b)[i] < (a + b)[|a| + j];
    }
  }

  // ---- whole runs ------------------------------------------------------------------------

  ghost predicate Behaviour(c: Config, ls: seq<Limiter>, events: seq<Event>, now: int) {
    && |ls| == |events| + 1
    && ls[0] == Created(c, now)
    && (forall i :: 0 <= i < |events| ==>
          |ls[i].refills| > 0 && Enabled(ls[i], events[i]) && ls[i + 1] == Next(c, ls[i], events[i]))
  }

  lemma {:induction false} AlwaysPaced(c: Config, ls: seq<Limiter>, events: seq<Event>, now: int, i: nat)
    requires Behaviour(c, ls, events, now) && i < |ls|
    ensures Paced(c, ls[i])
  {
    if i > 0 {
      AlwaysPaced(c, ls, events, now, i - 1);
      NextKeepsPaced(c, ls[i - 1], events[i - 1]);
    }
  }

  /** In every run of either strategy, any k intervals see at most (k + 1) * maxRequests starts. */
  lemma RunsAreRateBounded(c: Config, ls: seq<Limiter>, events: seq<Event>, now: int, i: nat, k: nat, from: int)
    requires Behaviour(c, ls, events, now) && i < |ls| && k > 0
    ensures |StartsIn(ls[i], from, from + k * c.interval)| <= (k + 1) * c.maxRequests
  {
    AlwaysPaced(c, ls, events, now, i);
    RateBound(c, ls[i], k, from);
  }

  /** In every run of the queue strategy nothing overtakes, overflows, gets stuck without a timer, or settles twice. */
  lemma {:induction false} QueueRunsAreAccounted(c: Config, ls: seq<Limiter>, events: seq<Event>, now: int, i: nat)
    requires Behaviour(c, ls, events, now) && i < |ls|
    requires forall j :: 0 <= j < i ==> !events[j].ScheduledDrop?
    ensures Accounted(c, ls[i])
  {
    hide Accounted, Schedule, ProcessQueue, Destroy;
    if i == 0 {
      FreshIsAccounted(c, now);
    } else {
      QueueRunsAreAccounted(c, ls, events, now, i - 1);
      match events[i - 1] {
        case Scheduled(t) => ScheduleKeepsAccounted(c, ls[i - 1], t);
        case TimerFired(t) => TimerKeepsAccounted(c, ls[i - 1], t);
        case Destroyed => DestroyKeepsAccounted(c, ls[i - 1]);
      }
    }
  }

  lemma FreshIsAccounted(c: Config, now: int)
    ensures Accounted(c, Created(c, now))
  {
  }

  // ---- which tasks start, wait and are rejected ----------------------------------------------

  /** The tasks that have started since the bucket was last refilled, by their place in the log. */
  function SinceRefill(l: Limiter): set<nat> {
    set i: nat | i < |l.starts| && l.starts[i].epoch == |l.refills| - 1
  }

  lemma {:induction false} StretchSize(s: set<nat>, lo: nat, n: nat)
    requires forall i: nat :: i in s <==> lo <= i < lo + n
    ensures |s| == n
  {
    if n == 0 {
      assert s == {};
    } else {
      StretchSize(s - {lo + n - 1}, lo, n - 1);
    }
  }

  /** The tokens count what may still start before the next refill. */
  lemma TokensLeft(c: Config, l: Limiter)
    requires TokensSpent(c, l) && |l.refills| > 0
    ensures l.remaining == c.maxRequests - |SinceRefill(l)| >= 0
  {
    var spent: nat := c.maxRequests - l.remaining;
    StretchSize(SinceRefill(l), |l.starts| - spent, spent);
  }

  /** A full interval has passed since the last refill; the queue strategy also waits for the clock to move. */
  predicate Due(c: Config, l: Limiter, now: int, drop: bool)
    requires |l.refills| > 0
  {
    now >= l.refills[|l.refills| - 1] + c.interval && (drop || now > l.refills[|l.refills| - 1])
  }

  /** How many tasks may start at this time. */
  function Free(c: Config, l: Limiter, now: int, drop: bool): int
    requires |l.refills| > 0
  {
    if Due(c, l, now, drop) then c.maxRequests else c.maxRequests - |SinceRefill(l)|
  }

  function Fewer(a: int, b: int): int {
    if a < b then a else b
  }

  function RefilledAt(c: Config, l: Limiter, now: int, drop: bool): seq<int>
    requires |l.refills| > 0
  {
    if Due(c, l, now, drop) then l.refills + [now] else l.refills
  }

  lemma RefillsWhenDue(c: Config, l: Limiter, now: int)
    requires Paced(c, l)
    ensures |l.refills| > 0
    ensures Refill(c, l, now).remaining == Free(c, l, now, false) >= 0
    ensures Refill(c, l, now).refills == RefilledAt(c, l, now, false)
    ensures RefillDrop(c, l, now).remaining == Free(c, l, now, true) >= 0
    ensures RefillDrop(c, l, now).refills == RefilledAt(c, l, now, true)
  {
    hide TokensSpent;
    TokensLeft(c, l);
  }

  /**
   * The queue strategy over runs: a task starts at once exactly when fewer than the maximum have started since the last
   * refill, or one is due, and nothing waits; else it waits behind the others, or is rejected if the queue is full.
   */
  lemma AdmittedIff(c: Config, ls: seq<Limiter>, events: seq<Event>, now: int, i: nat)
    requires Behaviour(c, ls, events, now) && i < |events| && events[i].Scheduled?
    ensures var (l, l', at) := (ls[i], ls[i + 1], events[i].now);
            var (starts, waits) := (l.queue == [] && Free(c, l, at, false) > 0, |l.queue| < c.maxQueued);
            && l'.refills == RefilledAt(c, l, at, false)
            && l'.starts == (if starts then l.starts + [Start(l.scheduled, at, |l'.refills| - 1)] else l.starts)
            && l'.queue == (if !starts && waits then l.queue + [l.scheduled] else l.queue)
            && l'.rejected == (if !starts && !waits then l.rejected + {l.scheduled} else l.rejected)
            && l'.scheduled == l.scheduled + 1
  {
    AlwaysPaced(c, ls, events, now, i);
    RefillsWhenDue(c, ls[i], events[i].now);
    hide Paced, Free, RefilledAt;
  }

  /** The drop strategy over runs: a task starts exactly when the maximum is not reached, else it is rejected. */
  lemma DropAdmittedIff(c: Config, ls: seq<Limiter>, events: seq<Event>, now: int, i: nat)
    requires Behaviour(c, ls, events, now) && i < |events| && events[i].ScheduledDrop?
    ensures var (l, l', at) := (ls[i], ls[i + 1], events[i].now);
            var starts := Free(c, l, at, true) > 0;
            && l'.refills == RefilledAt(c, l, at, true)
            && l'.starts == (if starts then l.starts + [Start(l.scheduled, at, |l'.refills| - 1)] else l.starts)
            && l'.rejected == (if starts then l.rejected else l.rejected + {l.scheduled})
            && l'.queue == l.queue && l'.scheduled == l.scheduled + 1
  {
    AlwaysPaced(c, ls, events, now, i);
    RefillsWhenDue(c, ls[i], events[i].now);
    hide Paced, Free, RefilledAt;
  }

  /** A tick over runs starts queued tasks from the front, as many as may start, and is set again if any are left. */
  lemma TickStarts(c: Config, ls: seq<Limiter>, events: seq<Event>, now: int, i: nat)
    requires Behaviour(c, ls, events, now) && i < |events| && events[i].TimerFired?
    ensures var (l, l', at) := (ls[i], ls[i + 1], events[i].now);
            && l'.refills == RefilledAt(c, l, at, false)
            && |l.starts| <= |l'.starts| && l'.starts[..|l.starts|] == l.starts
            && |l'.starts| - |l.starts| == Fewer(Free(c, l, at, false), |l.queue|)
            && (forall j :: |l.starts| <= j < |l'.starts| ==>
                  l'.starts[j] == Start(l.queue[j - |l.starts|], at, |l'.refills| - 1))
            && l'.queue == l.queue[|l'.starts| - |l.starts|..]
            && (l'.timer <==> l'.queue != [])
            && l'.rejected == l.rejected
  {
    AlwaysPaced(c, ls, events, now, i);
    RefillsWhenDue(c, ls[i], events[i].now);
    hide Paced, Free, RefilledAt;
  }

  // ---- where the bound is attained -----------------------------------------------------------

  /** The window of k intervals from `from` on sees as many starts as the bound allows. */
  ghost predicate Full(c: Config, l: Limiter, k: nat, from: int) {
    |StartsIn(l, from, from + k * c.interval)| == (k + 1) * c.maxRequests
  }

  ghost predicate Attained(c: Config, k: nat) {
    exists ls: seq<Limiter>, events: seq<Event>, now: int, i: nat, from: int ::
      Behaviour(c, ls, events, now) && i < |ls| && Full(c, ls[i], k, from)
  }

  /** The log of a run that schedules a task whenever one can start at once. */
  ghost predicate Bursting(c: Config, l: Limiter, n: nat, since: int) {
    && |l.refills| > 0 && l.queue == [] && |l.starts| == n
    && forall i :: 0 <= i < n ==> since <= l.starts[i].time <= l.clock
  }

  ghost predicate RunTo(c: Config, ls: seq<Limiter>, events: seq<Event>, l: Limiter) {
    Behaviour(c, ls, events, 0) && ls[|ls| - 1] == l
  }

  lemma Extended(c: Config, ls: seq<Limiter>, events: seq<Event>, l: Limiter, e: Event)
    requires RunTo(c, ls, events, l) && |l.refills| > 0 && Enabled(l, e)
    ensures RunTo(c, ls + [Next(c, l, e)], events + [e], Next(c, l, e))
  {
    hide Next, Enabled;
    var ls', events' := ls + [Next(c, l, e)], events + [e];
    forall i | 0 <= i < |events'|
      ensures |ls'[i].refills| > 0 && Enabled(ls'[i], events'[i]) && ls'[i + 1] == Next(c, ls'[i], events'[i])
    {
      if i < |events| { assert events'[i] == events[i] && ls'[i] == ls[i] && ls'[i + 1] == ls[i + 1]; }
    }
  }

  /** With a free token and nothing queued, a scheduled task starts at once. */
  lemma StartsAtOnce(c: Config, l: Limiter, n: nat, since: int, now: int)
    requires Bursting(c, l, n, since) && since <= now && l.clock <= now && Refill(c, l, now).remaining > 0
    ensures var l' := Next(c, l, Scheduled(now));
            && Bursting(c, l', n + 1, since) && l'.clock == now
            && l'.remaining == Refill(c, l, now).remaining - 1
            && l'.lastRefill == Refill(c, l, now).lastRefill
  {
  }

  /** Refilling again at the same time changes nothing. */
  lemma RefilledOnce(c: Config, l: Limiter, now: int)
    requires c.interval > 0 && l.clock == now && now - l.lastRefill < c.interval
    ensures Refill(c, l, now) == l
  {
  }

  /** As many tasks as the bucket holds start at one time. */
  lemma {:induction false} Burst(c: Config, ls: seq<Limiter>, events: seq<Event>, l: Limiter, n: nat, since: int,
                                 now: int, m: nat)
    returns (ls': seq<Limiter>, events': seq<Event>, l': Limiter)
    requires c.interval > 0 && RunTo(c, ls, events, l) && Bursting(c, l, n, since) && since <= now && l.clock <= now
    requires Refill(c, l, now).remaining == m
    ensures RunTo(c, ls', events', l') && Bursting(c, l', n + m, since) && l.clock <= l'.clock <= now
    ensures if m == 0 then l' == l else l'.clock == now && l'.lastRefill == Refill(c, l, now).lastRefill
    decreases m
  {
    hide RunTo, Bursting;
    ls', events', l' := ls, events, l;
    if m > 0 {
      StartsAtOnce(c, l, n, since, now);
      assert |l.refills| > 0 by { SomeRefill(c, l, n, since); }
      Extended(c, ls, events, l, Scheduled(now));
      var next := Next(c, l, Scheduled(now));
      assert now - next.lastRefill < c.interval;
      RefilledOnce(c, next, now);
      hide Next, Refill;
      ls', events', l' :=
        Burst(c, ls + [next], events + [Scheduled(now)], next, n + 1, since, now, m - 1);
    }
  }

  lemma SomeRefill(c: Config, l: Limiter, n: nat, since: int)
    requires Bursting(c, l, n, since)
    ensures |l.refills| > 0
  {
  }

  /** A burst just before the first refill, then one at each of the next k refills. */
  lemma {:induction false} Bursts(c: Config, k: nat) returns (ls: seq<Limiter>, events: seq<Event>, l: Limiter)
    requires c.interval >= 2 && c.maxRequests > 0
    ensures RunTo(c, ls, events, l) && Bursting(c, l, (k + 1) * c.maxRequests, c.interval - 1)
    ensures l.lastRefill == k * c.interval
    ensures l.clock == if k == 0 then c.interval - 1 else k * c.interval
  {
    hide Bursting, RunTo;
    if k == 0 {
      var start := Created(c, 0);
      assert RunTo(c, [start], [], start) && Bursting(c, start, 0, c.interval - 1) by { FreshBursting(c); }
      assert Refill(c, start, c.interval - 1).remaining == c.maxRequests;
      ls, events, l := Burst(c, [start], [], start, 0, c.interval - 1, c.interval - 1, c.maxRequests);
    } else {
      ls, events, l := Bursts(c, k - 1);
      var at := k * c.interval;
      assert at == (k - 1) * c.interval + c.interval;
      assert (k + 1) * c.maxRequests == k * c.maxRequests + c.maxRequests;
      ls, events, l := Burst(c, ls, events, l, k * c.maxRequests, c.interval - 1, at, c.maxRequests);
    }
  }

  lemma FreshBursting(c: Config)
    ensures RunTo(c, [Created(c, 0)], [], Created(c, 0)) && Bursting(c, Created(c, 0), 0, c.interval - 1)
  {
  }

  lemma BurstsFill(c: Config, l: Limiter, k: nat)
    requires c.interval >= 2 && k > 0 && Bursting(c, l, (k + 1) * c.maxRequests, c.interval - 1)
    requires l.clock == k * c.interval
    ensures Full(c, l, k, c.interval - 1)
  {
    StretchSize(StartsIn(l, c.interval - 1, c.interval - 1 + k * c.interval), 0, (k + 1) * c.maxRequests);
  }

  /** With an interval of one clock tick or none, every start is at the refill of its epoch. */
  ghost predicate AtRefills(l: Limiter) {
    && |l.refills| > 0 && l.clock == l.lastRefill == l.refills[|l.refills| - 1]
    && forall i :: 0 <= i < |l.starts| ==>
         l.starts[i].epoch < |l.refills| && l.starts[i].time == l.refills[l.starts[i].epoch]
  }

  lemma RefillKeepsAtRefills(c: Config, l: Limiter, now: int)
    requires c.interval <= 1 && AtRefills(l) && l.clock <= now
    ensures AtRefills(Refill(c, l, now)) && AtRefills(RefillDrop(c, l, now))
  {
  }

  lemma LaunchKeepsAtRefills(l: Limiter, tasks: seq<Task>)
    requires AtRefills(l)
    ensures AtRefills(Launch(l, tasks))
  {
  }

  lemma BookkeepingKeepsAtRefills(l: Limiter, l': Limiter)
    requires AtRefills(l) && l'.starts == l.starts && l'.refills == l.refills && l'.clock == l.clock
    requires l'.lastRefill == l.lastRefill
    ensures AtRefills(l')
  {
  }

  lemma NextKeepsAtRefills(c: Config, l: Limiter, e: Event)
    requires c.interval <= 1 && AtRefills(l) && |l.refills| > 0 && Enabled(l, e)
    ensures AtRefills(Next(c, l, e))
  {
    hide AtRefills, Refill, RefillDrop, Batch;
    var l' := Next(c, l, e);
    match e {
      case Destroyed => BookkeepingKeepsAtRefills(l, l');
      case TimerFired(now) =>
        RefillKeepsAtRefills(c, l, now);
        RefillIgnoresTimer(c, l, now);
        LaunchKeepsAtRefills(Refill(c, l, now), l.queue[..Batch(Refill(c, l, now))]);
        BookkeepingKeepsAtRefills(Launch(Refill(c, l, now), l.queue[..Batch(Refill(c, l, now))]), l');
      case Scheduled(now) =>
        RefillKeepsAtRefills(c, l, now);
        AdmitKeepsAtRefills(Refill(c, l, now), l', l.scheduled);
      case ScheduledDrop(now) =>
        RefillKeepsAtRefills(c, l, now);
        AdmitKeepsAtRefills(RefillDrop(c, l, now), l', l.scheduled);
    }
  }

  lemma AdmitKeepsAtRefills(refilled: Limiter, l': Limiter, task: Task)
    requires AtRefills(refilled) && |refilled.refills| > 0
    requires || l' == refilled.(queue := l'.queue, timer := l'.timer, scheduled := l'.scheduled,
                                rejected := l'.rejected)
             || l' == Launch(refilled.(scheduled := l'.scheduled), [task])
    ensures AtRefills(l')
  {
    hide AtRefills;
    if l'.starts == refilled.starts {
      BookkeepingKeepsAtRefills(refilled, l');
    } else {
      BookkeepingKeepsAtRefills(refilled, refilled.(scheduled := l'.scheduled));
      LaunchKeepsAtRefills(refilled.(scheduled := l'.scheduled), [task]);
    }
  }

  lemma {:induction false} AlwaysAtRefills(c: Config, ls: seq<Limiter>, events: seq<Event>, now: int, i: nat)
    requires c.interval <= 1 && Behaviour(c, ls, events, now) && i < |ls|
    ensures AtRefills(ls[i])
  {
    hide AtRefills, Next;
    if i == 0 {
      assert AtRefills(Created(c, now)) by { FreshAtRefill(c, now); }
    } else {
      AlwaysAtRefills(c, ls, events, now, i - 1);
      assert Enabled(ls[i - 1], events[i - 1]);
      NextKeepsAtRefills(c, ls[i - 1], events[i - 1]);
    }
  }

  lemma FreshAtRefill(c: Config, now: int)
    ensures AtRefills(Created(c, now))
  {
  }

  lemma TightStarts(c: Config, l: Limiter, k: nat, i: nat, j: nat)
    requires c.interval == 1 && Paced(c, l) && AtRefills(l) && i <= j < |l.starts| && k > 0
    requires l.starts[j].time < l.starts[i].time + k
    ensures j - i < k * c.maxRequests
  {
    var a, z := l.starts[i].epoch, l.starts[j].epoch;
    EpochsShareTokens(c, l, i, j);
    assert a <= z;
    EpochsApart(c, l, a, z);
    if z - a + 1 < k { MoreEpochs(z - a + 1, k, c.maxRequests); }
  }

  /** Then k intervals see at most k * maxRequests starts. */
  lemma TightBound(c: Config, l: Limiter, k: nat, from: int)
    requires c.interval <= 1 && Paced(c, l) && AtRefills(l) && k > 0
    ensures |StartsIn(l, from, from + k * c.interval)| <= k * c.maxRequests
  {
    var s := StartsIn(l, from, from + k * c.interval);
    ProductNotNegative(k, c.maxRequests);
    if c.interval == 0 {
      assert s == {};
    } else if s != {} {
      var first := Least(s);
      forall x | x in s ensures first <= x < first + k * c.maxRequests {
        TightStarts(c, l, k, first, x);
      }
      SpreadBounds(s, first, k * c.maxRequests);
    }
  }

  /**
   * The bound cannot be lowered, for any limit and any number of intervals, as soon as the interval is longer than one
   * tick of the clock; with one of a single tick it is never reached.
   */
  lemma BoundIsAttainedIff(c: Config, k: nat)
    requires c.maxRequests > 0 && k > 0
    ensures Attained(c, k) <==> c.interval >= 2
  {
    hide Full, Behaviour;
    if c.interval >= 2 {
      var ls, events, l := Bursts(c, k);
      BurstsFill(c, l, k);
      var last := |ls| - 1;
      assert Behaviour(c, ls, events, 0) && 0 <= last < |ls| && Full(c, ls[last], k, c.interval - 1) by {
        RunIsBehaviour(c, ls, events, l);
      }
    } else {
      forall ls: seq<Limiter>, events: seq<Event>, now: int, i: nat, from: int
        | Behaviour(c, ls, events, now) && i < |ls|
        ensures !Full(c, ls[i], k, from)
      {
        NotFull(c, ls, events, now, i, k, from);
      }
    }
  }

  lemma RunIsBehaviour(c: Config, ls: seq<Limiter>, events: seq<Event>, l: Limiter)
    requires RunTo(c, ls, events, l)
    ensures Behaviour(c, ls, events, 0) && |ls| > 0 && ls[|ls| - 1] == l
  {
  }

  lemma NotFull(c: Config, ls: seq<Limiter>, events: seq<Event>, now: int, i: nat, k: nat, from: int)
    requires c.interval <= 1 && c.maxRequests > 0 && k > 0 && Behaviour(c, ls, events, now) && i < |ls|
    ensures !Full(c, ls[i], k, from)
  {
    AlwaysPaced(c, ls, events, now, i);
    AlwaysAtRefills(c, ls, events, now, i);
    TightBound(c, ls[i], k, from);
    assert (k + 1) * c.maxRequests == k * c.maxRequests + c.maxRequests;
  }

  /** A tick a full interval after the last refill starts as many queued tasks as one interval allows. */
  lemma TickMakesProgress(c: Config, l: Limiter, now: int)
    requires |l.refills| > 0 && l.lastRefill < now && l.lastRefill + c.interval <= now
    ensures var l' := ProcessQueue(c, l, now);
            |l.queue| - |l'.queue| == if c.maxRequests < |l.queue| then c.maxRequests else |l.queue|
  {
  }
}