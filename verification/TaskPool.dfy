/** Named task pools with retries and aborts (packages/host-papp/src/helpers/createAsyncTaskPool.ts). */
module TaskPool {
  import opened Common

  type Task = nat
  type PoolName = nat
  type Signal = nat

  datatype Config = Config(poolSize: nat, retryCount: nat)

  datatype Outcome = Resolved | Rejected(error: Failure) | AbortedBySignal

  /**
   * What is known about a task: its pool, its signal if it has one, retries scheduled, times its function was
   * started, whether it has been dropped by its abort listener or refused, and its promise.
   */
  datatype Info = Info(pool: PoolName, signal: Option<Signal>, retry: nat, starts: nat, dropped: bool,
                       outcome: Option<Outcome>)

  /** A caller of `settle` for a pool, and whether its promise has resolved. */
  datatype Settler = Settler(pool: PoolName, resolved: bool)

  /**
   * Tasks are numbered in calling order. `waiting` tasks have a retry timer; `running` ones have
   * been started and their function has not settled yet, which a dropped one may still do. `fired`
   * are the abort signals that have fired; several tasks may share one.
   */
  datatype State = State(
    queue: seq<Task>,
    active: set<Task>,
    waiting: set<Task>,
    running: set<Task>,
    tasks: seq<Info>,
    fired: set<Signal>,
    settlers: seq<Settler>)

  const Idle := State([], {}, {}, {}, [], {}, [])

  predicate InPool(st: State, t: Task, pool: PoolName) {
    t < |st.tasks| && st.tasks[t].pool == pool
  }

  function ActiveIn(st: State, pool: PoolName): set<Task> {
    set t | t in st.active && InPool(st, t, pool)
  }

  function FirstQueued(st: State, pool: PoolName, from: nat): (k: nat)
    requires from <= |st.queue|
    ensures from <= k <= |st.queue|
    ensures k < |st.queue| ==> InPool(st, st.queue[k], pool)
    ensures forall i :: from <= i < k ==> !InPool(st, st.queue[i], pool)
    decreases |st.queue| - from
  {
    if from == |st.queue| || InPool(st, st.queue[from], pool) then from else FirstQueued(st, pool, from + 1)
  }

  function Without(s: seq<Task>, k: nat): seq<Task>
    requires k < |s|
  {
    s[..k] + s[k + 1..]
  }

  function Remove(s: seq<Task>, t: Task): seq<Task> {
    if s == [] then [] else if s[0] == t then s[1..] else [s[0]] + Remove(s[1..], t)
  }

  predicate Known(st: State, t: Task) {
    t < |st.tasks|
  }

  function Settle(st: State, t: Task, outcome: Outcome): State
    requires Known(st, t)
  {
    if st.tasks[t].outcome.Some? then st
    else st.(tasks := st.tasks[t := st.tasks[t].(outcome := Some(outcome))])
  }

  /** Starts the pool's next task if the pool has a free slot. */
  function ProcessPool(c: Config, st: State, pool: PoolName): State {
    var k := FirstQueued(st, pool, 0);
    if |ActiveIn(st, pool)| >= c.poolSize || k == |st.queue| then st
    else
      var t := st.queue[k];
      st.(queue := Without(st.queue, k), active := st.active + {t}, running := st.running + {t},
          tasks := st.tasks[t := st.tasks[t].(starts := st.tasks[t].starts + 1)])
  }

  predicate HasSignal(st: State, t: Task, s: Signal) {
    t < |st.tasks| && st.tasks[t].signal == Some(s)
  }

  predicate Fired(st: State, signal: Option<Signal>) {
    signal.Some? && signal.value in st.fired
  }

  /** A signal that has fired already refuses the task. */
  function Call(c: Config, st: State, pool: PoolName, signal: Option<Signal>): State {
    if Fired(st, signal) then st.(tasks := st.tasks + [Info(pool, signal, 0, 0, true, Some(AbortedBySignal))])
    else
      ProcessPool(c, st.(tasks := st.tasks + [Info(pool, signal, 0, 0, false, None)], queue := st.queue + [|st.tasks|]),
                  pool)
  }

  /** The condition under which the pool announces that it has settled. */
  predicate Announces(st: State, pool: PoolName) {
    ActiveIn(st, pool) == {} && !Queued(st, pool)
  }

  predicate Queued(st: State, pool: PoolName) {
    exists i :: 0 <= i < |st.queue| && InPool(st, st.queue[i], pool)
  }

  function Resolve(settlers: seq<Settler>, pool: PoolName): (r: seq<Settler>)
    ensures |r| == |settlers|
    ensures forall i :: 0 <= i < |r| ==> r[i] == if settlers[i].pool == pool then Settler(pool, true) else settlers[i]
  {
    seq(|settlers|, i requires 0 <= i < |settlers| =>
          if settlers[i].pool == pool then Settler(pool, true) else settlers[i])
  }

  /** Tells everybody who waits for the pool, if there is something to announce. */
  function TryToSettle(st: State, pool: PoolName): State {
    if Announces(st, pool) then st.(settlers := Resolve(st.settlers, pool)) else st
  }

  function Freed(st: State, t: Task): State {
    st.(active := st.active - {t}, running := st.running - {t})
  }

  function Finish(c: Config, st: State, t: Task): State
    requires Known(st, t)
  {
    ProcessPool(c, TryToSettle(Freed(st, t), st.tasks[t].pool), st.tasks[t].pool)
  }

  function Succeed(c: Config, st: State, t: Task): State
    requires Known(st, t)
  {
    Finish(c, Settle(st, t, Resolved), t)
  }

  function HandleError(c: Config, st: State, t: Task, error: Failure): State
    requires Known(st, t)
  {
    if Fired(st, st.tasks[t].signal) then st
    else if st.tasks[t].retry >= c.retryCount then Settle(st, t, Rejected(error))
    else st.(tasks := st.tasks[t := st.tasks[t].(retry := st.tasks[t].retry + 1)], waiting := st.waiting + {t})
  }

  function Fail(c: Config, st: State, t: Task, error: Failure): State
    requires Known(st, t)
  {
    Finish(c, HandleError(c, st, t, error), t)
  }

  function RetryDue(c: Config, st: State, t: Task): State
    requires Known(st, t)
  {
    ProcessPool(c, st.(waiting := st.waiting - {t}, queue := st.queue + [t]), st.tasks[t].pool)
  }

  /** The task out of queue, slot and timer, its promise rejected. */
  function Dropped(st: State, t: Task): State
    requires Known(st, t)
  {
    Settle(st.(waiting := st.waiting - {t},
               queue := Remove(st.queue, t),
               active := st.active - {t},
               tasks := st.tasks[t := st.tasks[t].(dropped := true)]), t, AbortedBySignal)
  }

  /** What a task's abort listener does. The slot it frees goes to the next task of the pool, whatever its signal. */
  function Abort(c: Config, st: State, t: Task): State
    requires Known(st, t)
  {
    TryToSettle(ProcessPool(c, Dropped(st, t), st.tasks[t].pool), st.tasks[t].pool)
  }

  /** The listeners of a signal from task n on run in the order they were registered, which is calling order. */
  function Listeners(c: Config, st: State, s: Signal, n: nat): State
    requires n <= |st.tasks|
    decreases |st.tasks| - n
  {
    if n == |st.tasks| then st
    else Listeners(c, if HasSignal(st, n, s) then Abort(c, st, n) else st, s, n + 1)
  }

  function FireSignal(c: Config, st: State, s: Signal): State {
    Listeners(c, st.(fired := st.fired + {s}), s, 0)
  }

  /** Resolves at once only if nothing at all is queued or active. */
  function CallSettle(st: State, pool: PoolName): State {
    st.(settlers := st.settlers + [Settler(pool, st.queue == [] && st.active == {})])
  }

  datatype Event =
    | Called(pool: PoolName, signal: Option<Signal>)
    | Succeeded(t: Task)
    | Failed(t: Task, error: Failure)
    | RetryTimer(t: Task)
    | SignalFires(s: Signal)
    | SettleCalled(pool: PoolName)

  predicate Enabled(st: State, e: Event) {
    match e
    case Succeeded(t) => t in st.running && Known(st, t)
    case Failed(t, _) => t in st.running && Known(st, t)
    case RetryTimer(t) => t in st.waiting && Known(st, t)
    case SignalFires(s) => s !in st.fired
    case _ => true
  }

  function Next(c: Config, st: State, e: Event): State
    requires Enabled(st, e)
  {
    match e
    case Called(pool, signal) => Call(c, st, pool, signal)
    case Succeeded(t) => Succeed(c, st, t)
    case Failed(t, error) => Fail(c, st, t, error)
    case RetryTimer(t) => RetryDue(c, st, t)
    case SignalFires(s) => FireSignal(c, st, s)
    case SettleCalled(pool) => CallSettle(st, pool)
  }

  // ---- the pool object -----------------------------------------------------------------------

  /**
   * A task whose signal has fired keeps its outcome; else it waits for its next try, or, after the last one, is
   * rejected with the error unless it is settled already.
   */
  predicate ErrorHandled(c: Config, before: State, after: State, t: Task, error: Failure)
    requires Known(before, t)
  {
    var info := before.tasks[t];
    var over := info.signal.Some? && info.signal.value in before.fired;
    && Known(after, t)
    && after.tasks[t].outcome == (if info.outcome.None? && !over && info.retry >= c.retryCount
                                  then Some(Rejected(error)) else info.outcome)
    && (!over && info.retry < c.retryCount ==> t in after.waiting && after.tasks[t].retry == info.retry + 1)
  }

  lemma FailHandles(c: Config, st: State, t: Task, error: Failure)
    requires Known(st, t)
    ensures ErrorHandled(c, st, Fail(c, st, t, error), t, error)
  {
    hide FirstQueued, ActiveIn, Without, Announces, Resolve;
  }

  class AsyncTaskPool {
    const config: Config
    var queue: seq<Task>
    var activeTasks: set<Task>
    var retryTimers: set<Task>
    var running: set<Task>
    var tasks: seq<Info>
    var fired: set<Signal>
    var settlers: seq<Settler>

    function AsState(): State
      reads this
    {
      State(queue, activeTasks, retryTimers, running, tasks, fired, settlers)
    }

    constructor (config: Config)
      ensures this.config == config && AsState() == Idle
    {
      this.config := config;
      queue, activeTasks, retryTimers, running, tasks, fired, settlers := [], {}, {}, {}, [], {}, [];
    }

    method Process(pool: PoolName)
      modifies this
      ensures AsState() == ProcessPool(config, old(AsState()), pool)
    {
      var active := set t | t in activeTasks && t < |tasks| && tasks[t].pool == pool;
      assert active == ActiveIn(AsState(), pool);
      if |active| >= config.poolSize { return; }
      var k := 0;
      while k < |queue| && !(queue[k] < |tasks| && tasks[queue[k]].pool == pool)
        invariant k <= |queue|
        invariant FirstQueued(AsState(), pool, 0) == FirstQueued(AsState(), pool, k)
      {
        k := k + 1;
      }
      if k == |queue| { return; }
      var t := queue[k];
      queue := queue[..k] + queue[k + 1..];
      activeTasks := activeTasks + {t};
      running := running + {t};
      tasks := tasks[t := tasks[t].(starts := tasks[t].starts + 1)];
    }

    method TryToSettlePool(pool: PoolName)
      modifies this`settlers
      ensures AsState() == TryToSettle(old(AsState()), pool)
    {
      if Announces(AsState(), pool) {
        settlers := Resolve(settlers, pool);
      }
    }

    method SettleTask(t: Task, outcome: Outcome)
      requires t < |tasks|
      modifies this`tasks
      ensures AsState() == Settle(old(AsState()), t, outcome)
    {
      if tasks[t].outcome.None? {
        tasks := tasks[t := tasks[t].(outcome := Some(outcome))];
      }
    }

    method CallTask(pool: PoolName, signal: Option<Signal>) returns (t: Task)
      modifies this
      ensures t == |old(tasks)| && AsState() == Call(config, old(AsState()), pool, signal)
    {
      t := |tasks|;
      if signal.Some? && signal.value in fired {
        tasks := tasks + [Info(pool, signal, 0, 0, true, Some(AbortedBySignal))];
        return;
      }
      tasks := tasks + [Info(pool, signal, 0, 0, false, None)];
      queue := queue + [t];
      Process(pool);
    }

    method OnSuccess(t: Task)
      requires t < |tasks|
      modifies this
      ensures AsState() == Succeed(config, old(AsState()), t)
      ensures t < |tasks| && tasks[t].outcome == if old(tasks)[t].outcome.None? then Some(Resolved)
                                                 else old(tasks)[t].outcome
    {
      SettleTask(t, Resolved);
      FinishTask(t);
    }

    method FinishTask(t: Task)
      requires t < |tasks|
      modifies this
      ensures AsState() == Finish(config, old(AsState()), t)
    {
      activeTasks, running := activeTasks - {t}, running - {t};
      TryToSettlePool(tasks[t].pool);
      Process(tasks[t].pool);
    }

    method OnError(t: Task, error: Failure)
      requires t < |tasks|
      modifies this
      ensures AsState() == Fail(config, old(AsState()), t, error)
      ensures ErrorHandled(config, old(AsState()), AsState(), t, error)
    {
      hide ErrorHandled;
      FailHandles(config, AsState(), t, error);
      if !Fired(AsState(), tasks[t].signal) {
        if tasks[t].retry >= config.retryCount {
          SettleTask(t, Rejected(error));
        } else {
          tasks := tasks[t := tasks[t].(retry := tasks[t].retry + 1)];
          retryTimers := retryTimers + {t};
        }
      }
      FinishTask(t);
    }

    method OnRetryTimer(t: Task)
      requires t < |tasks|
      modifies this
      ensures AsState() == RetryDue(config, old(AsState()), t)
    {
      retryTimers := retryTimers - {t};
      queue := queue + [t];
      Process(tasks[t].pool);
    }

    method AbortTask(t: Task)
      requires t < |tasks|
      modifies this
      ensures AsState() == Abort(config, old(AsState()), t)
    {
      tasks := tasks[t := tasks[t].(dropped := true)];
      retryTimers := retryTimers - {t};
      queue := Remove(queue, t);
      activeTasks := activeTasks - {t};
      SettleTask(t, AbortedBySignal);
      Process(tasks[t].pool);
      TryToSettlePool(tasks[t].pool);
    }

    /** A signal fires: its flag is set, then the listeners of its tasks run one after the other. */
    method OnSignal(s: Signal)
      modifies this
      ensures AsState() == FireSignal(config, old(AsState()), s)
    {
      fired := fired + {s};
      ghost var goal := Listeners(config, AsState(), s, 0);
      var n := 0;
      while n < |tasks|
        invariant n <= |tasks|
        invariant Listeners(config, AsState(), s, n) == goal
        decreases |tasks| - n
      {
        ghost var before := |tasks|;
        if tasks[n].signal == Some(s) {
          AbortTask(n);
        }
        assert |tasks| == before;
        n := n + 1;
      }
    }

    method SettlePool(pool: PoolName) returns (k: nat)
      modifies this`settlers
      ensures AsState() == CallSettle(old(AsState()), pool) && k == |old(settlers)|
    {
      k := |settlers|;
      settlers := settlers + [Settler(pool, |queue| == 0 && activeTasks == {})];
    }
  }

  // ---- invariant -------------------------------------------------------------------------

  predicate NoRepeats(s: seq<Task>) {
    forall i, j :: 0 <= i < j < |s| ==> s[i] != s[j]
  }

  /** Where an unsettled task is, and what that says about it. */
  ghost predicate Placed(c: Config, st: State, t: Task)
    requires Known(st, t)
  {
    var info := st.tasks[t];
    && (info.outcome.None? <==> t in st.queue || t in st.active || t in st.waiting)
    && !(t in st.queue && t in st.active) && !(t in st.queue && t in st.waiting) && !(t in st.active && t in st.waiting)
    && (info.dropped ==> info.outcome.Some?)
    && (t in st.active ==> t in st.running && info.starts == info.retry + 1)
    && (t in st.queue || t in st.waiting ==> t !in st.running && info.starts == info.retry)
    && (t in st.running && t !in st.active ==> info.dropped)
    && info.retry <= c.retryCount
    && info.starts <= info.retry + 1
  }

  ghost predicate Tracked(c: Config, st: State) {
    && NoRepeats(st.queue)
    && (forall t: Task :: t in st.queue || t in st.active || t in st.waiting || t in st.running ==> Known(st, t))
    && (forall t: Task :: Known(st, t) ==> Placed(c, st, t))
  }

  ghost predicate WithinSize(c: Config, st: State, pool: PoolName) {
    |ActiveIn(st, pool)| <= c.poolSize
  }

  /** A task waits in the queue only while its pool is full. */
  ghost predicate Busy(c: Config, st: State, pool: PoolName) {
    Queued(st, pool) ==> |ActiveIn(st, pool)| >= c.poolSize
  }

  /** One slot short of busy, or with only one task to start. */
  ghost predicate NearlyBusy(c: Config, st: State, pool: PoolName) {
    forall i, j :: 0 <= i < j < |st.queue| && InPool(st, st.queue[i], pool) && InPool(st, st.queue[j], pool) ==>
      |ActiveIn(st, pool)| + 1 >= c.poolSize
  }

  ghost predicate Inv(c: Config, st: State) {
    Tracked(c, st) && forall pool: PoolName :: WithinSize(c, st, pool) && Busy(c, st, pool)
  }

  /** Between events a task has been dropped, or refused, exactly when its signal has fired. */
  ghost predicate Listened(st: State) {
    forall t: Task :: Known(st, t) ==> (st.tasks[t].dropped <==> Fired(st, st.tasks[t].signal))
  }

  ghost predicate Sound(c: Config, st: State) {
    Inv(c, st) && Listened(st)
  }

  lemma IdleIsSafe(c: Config)
    ensures Sound(c, Idle)
  {
  }

  lemma WithoutElements(s: seq<Task>, k: nat)
    requires k < |s| && NoRepeats(s)
    ensures NoRepeats(Without(s, k))
    ensures forall x :: x in Without(s, k) <==> x in s && x != s[k]
  {
  }

  lemma {:induction false} RemoveElements(s: seq<Task>, t: Task)
    requires NoRepeats(s)
    ensures NoRepeats(Remove(s, t))
    ensures forall x :: x in Remove(s, t) <==> x in s && x != t
    ensures t !in s ==> Remove(s, t) == s
  {
    if s != [] && s[0] != t {
      RemoveElements(s[1..], t);
      assert s == [s[0]] + s[1..];
      assert s[0] !in s[1..];
      assert s[0] !in Remove(s[1..], t);
    } else if s != [] {
      assert s == [s[0]] + s[1..];
    }
  }

  lemma ProcessKeepsTracked(c: Config, st: State, pool: PoolName)
    requires Tracked(c, st)
    ensures Tracked(c, ProcessPool(c, st, pool))
  {
    var k := FirstQueued(st, pool, 0);
    var st' := ProcessPool(c, st, pool);
    if st' != st {
      WithoutElements(st.queue, k);
      forall t: Task | Known(st', t) ensures Placed(c, st', t) {
        assert Placed(c, st, t);
      }
    }
  }

  /** What starting a task changes, as far as counting is concerned. */
  lemma ProcessStarts(c: Config, st: State, pool: PoolName)
    requires Tracked(c, st) && ProcessPool(c, st, pool) != st
    ensures var st' := ProcessPool(c, st, pool);
            var k := FirstQueued(st, pool, 0);
            && k < |st.queue| && st'.queue == Without(st.queue, k)
            && SamePools(st, st')
            && |ActiveIn(st, pool)| < c.poolSize
    ensures forall p: PoolName ::
              |ActiveIn(ProcessPool(c, st, pool), p)| == |ActiveIn(st, p)| + if p == pool then 1 else 0
  {
    var st' := ProcessPool(c, st, pool);
    var t := st.queue[FirstQueued(st, pool, 0)];
    assert Placed(c, st, t);
    hide Tracked;
    forall p: PoolName ensures |ActiveIn(st', p)| == |ActiveIn(st, p)| + if p == pool then 1 else 0 {
      assert ActiveIn(st', p) == if p == pool then ActiveIn(st, p) + {t} else ActiveIn(st, p);
    }
  }

  ghost predicate SamePools(st: State, st': State) {
    |st'.tasks| == |st.tasks| && forall u: Task :: Known(st, u) ==> st'.tasks[u].pool == st.tasks[u].pool
  }

  lemma OthersStayBusy(c: Config, st: State, pool: PoolName, p: PoolName)
    requires Tracked(c, st) && Busy(c, st, p) && p != pool
    ensures Busy(c, ProcessPool(c, st, pool), p)
  {
    hide Tracked;
    var st' := ProcessPool(c, st, pool);
    if st' != st {
      ProcessStarts(c, st, pool);
      hide ProcessPool;
      var k := FirstQueued(st, pool, 0);
      if Queued(st', p) {
        var i :| 0 <= i < |st'.queue| && InPool(st', st'.queue[i], p);
        assert st'.queue[i] == st.queue[if i < k then i else i + 1];
      }
    }
  }

  lemma ProcessMakesBusy(c: Config, st: State, pool: PoolName)
    requires Tracked(c, st) && NearlyBusy(c, st, pool)
    ensures Busy(c, ProcessPool(c, st, pool), pool)
  {
    hide Tracked;
    var st' := ProcessPool(c, st, pool);
    var k := FirstQueued(st, pool, 0);
    if st' != st {
      ProcessStarts(c, st, pool);
      hide ProcessPool;
      if Queued(st', pool) {
        var i :| 0 <= i < |st'.queue| && InPool(st', st'.queue[i], pool);
        var j := if i < k then i else i + 1;
        assert st'.queue[i] == st.queue[j];
        assert InPool(st, st.queue[j], pool) && InPool(st, st.queue[k], pool);
      }
    }
  }

  lemma ProcessKeepsSizes(c: Config, st: State, pool: PoolName)
    requires Tracked(c, st)
    requires forall p: PoolName :: WithinSize(c, st, p) && (p != pool ==> Busy(c, st, p))
    requires NearlyBusy(c, st, pool)
    ensures Inv(c, ProcessPool(c, st, pool))
  {
    hide Tracked, Busy, NearlyBusy;
    var st' := ProcessPool(c, st, pool);
    ProcessKeepsTracked(c, st, pool);
    if st' != st { ProcessStarts(c, st, pool); }
    forall p: PoolName ensures WithinSize(c, st', p) && Busy(c, st', p) {
      if p == pool { ProcessMakesBusy(c, st, pool); } else { OthersStayBusy(c, st, pool, p); }
    }
  }

  // ---- events ----------------------------------------------------------------------------

  /** Taking a task out of the active set frees at most one slot, of its own pool. */
  lemma ActiveFreed(c: Config, st: State, st': State, t: Task)
    requires Inv(c, st) && Known(st, t) && st'.active == st.active - {t} && SamePools(st, st')
    ensures forall p: PoolName :: WithinSize(c, st', p)
    ensures forall p: PoolName :: Queued(st, p) ==>
              |ActiveIn(st', p)| + (if p == st.tasks[t].pool then 1 else 0) >= c.poolSize
  {
    hide Tracked;
    var pool := st.tasks[t].pool;
    forall p: PoolName
      ensures WithinSize(c, st', p)
      ensures Queued(st, p) ==> |ActiveIn(st', p)| + (if p == pool then 1 else 0) >= c.poolSize
    {
      assert WithinSize(c, st, p) && Busy(c, st, p);
      assert ActiveIn(st', p) == if p == pool then ActiveIn(st, p) - {t} else ActiveIn(st, p);
    }
  }

  lemma SlotFreed(c: Config, st: State, st': State, t: Task)
    requires Inv(c, st) && Known(st, t) && st'.active == st.active - {t} && SamePools(st, st')
    requires forall p: PoolName :: Queued(st', p) ==> Queued(st, p)
    ensures forall p: PoolName :: WithinSize(c, st', p)
    ensures forall p: PoolName :: p != st.tasks[t].pool ==> Busy(c, st', p)
    ensures NearlyBusy(c, st', st.tasks[t].pool)
  {
    ActiveFreed(c, st, st', t);
    hide Inv;
  }

  lemma SameQueue(st: State, st': State)
    requires st'.queue == st.queue && SamePools(st, st')
    ensures forall p: PoolName :: Queued(st', p) ==> Queued(st, p)
  {
  }

  lemma ShorterQueue(st: State, st': State, t: Task)
    requires NoRepeats(st.queue) && st'.queue == Remove(st.queue, t) && SamePools(st, st')
    ensures forall p: PoolName :: Queued(st', p) ==> Queued(st, p)
  {
    RemoveElements(st.queue, t);
    forall p: PoolName | Queued(st', p) ensures Queued(st, p) {
      var i :| 0 <= i < |st'.queue| && InPool(st', st'.queue[i], p);
      assert st'.queue[i] in st.queue;
      var j :| 0 <= j < |st.queue| && st.queue[j] == st'.queue[i];
      assert InPool(st, st.queue[j], p);
    }
  }

  /** Neither the callers of `settle` nor the record of fired signals matter to the invariant. */
  lemma RecordsOnly(c: Config, st: State, st': State)
    requires st' == st.(settlers := st'.settlers, fired := st'.fired)
    ensures Tracked(c, st) ==> Tracked(c, st')
    ensures forall p: PoolName ::
              && (WithinSize(c, st, p) <==> WithinSize(c, st', p))
              && (Busy(c, st, p) <==> Busy(c, st', p))
              && (NearlyBusy(c, st, p) <==> NearlyBusy(c, st', p))
  {
    forall p: PoolName
      ensures ActiveIn(st, p) == ActiveIn(st', p) && (Queued(st, p) <==> Queued(st', p))
      ensures NearlyBusy(c, st, p) <==> NearlyBusy(c, st', p)
    {
      assert forall i :: 0 <= i < |st.queue| ==> (InPool(st, st.queue[i], p) <==> InPool(st', st.queue[i], p));
    }
    if Tracked(c, st) {
      forall t: Task | Known(st', t) ensures Placed(c, st', t) {
        assert Placed(c, st, t);
      }
    }
  }

  lemma FinishKeepsInv(c: Config, st: State, mid: State, t: Task)
    requires Inv(c, st) && t in st.running && Known(st, t)
    requires mid == st.(tasks := mid.tasks, waiting := mid.waiting)
    requires |mid.tasks| == |st.tasks| && mid.tasks[t].pool == st.tasks[t].pool
    requires forall u: Task :: Known(st, u) && u != t ==>
               mid.tasks[u] == st.tasks[u] && (u in mid.waiting <==> u in st.waiting)
    requires mid.waiting <= st.waiting + {t}
    requires Placed(c, Freed(mid, t), t)
    ensures Inv(c, Finish(c, mid, t))
  {
    var free := Freed(mid, t);
    forall u: Task | Known(free, u) ensures Placed(c, free, u) {
      assert Placed(c, st, u);
    }
    SameQueue(st, free);
    SlotFreed(c, st, free, t);
    assert Tracked(c, free);
    var told := TryToSettle(free, st.tasks[t].pool);
    hide Tracked, WithinSize, Busy, NearlyBusy, Placed;
    RecordsOnly(c, free, told);
    ProcessKeepsSizes(c, told, st.tasks[t].pool);
  }

  lemma SucceedKeepsInv(c: Config, st: State, t: Task)
    requires Inv(c, st) && Enabled(st, Succeeded(t))
    ensures Inv(c, Succeed(c, st, t))
  {
    assert Placed(c, st, t);
    FinishKeepsInv(c, st, Settle(st, t, Resolved), t);
  }

  lemma FailKeepsInv(c: Config, st: State, t: Task, error: Failure)
    requires Sound(c, st) && Enabled(st, Failed(t, error))
    ensures Inv(c, Fail(c, st, t, error))
  {
    assert Placed(c, st, t);
    FinishKeepsInv(c, st, HandleError(c, st, t, error), t);
  }

  lemma PoolsKept(c: Config, st: State, st': State)
    requires Inv(c, st) && st'.active == st.active
    requires |st.tasks| <= |st'.tasks| && forall u: Task :: Known(st, u) ==> st'.tasks[u].pool == st.tasks[u].pool
    ensures forall p: PoolName :: ActiveIn(st', p) == ActiveIn(st, p) && WithinSize(c, st', p) && Busy(c, st, p)
    ensures forall i, p: PoolName :: 0 <= i < |st.queue| ==>
              (InPool(st', st.queue[i], p) <==> InPool(st, st.queue[i], p))
  {
    forall i | 0 <= i < |st.queue| ensures Known(st, st.queue[i]) {
      assert st.queue[i] in st.queue;
    }
    forall p: PoolName ensures ActiveIn(st', p) == ActiveIn(st, p) && WithinSize(c, st', p) && Busy(c, st, p) {
      assert WithinSize(c, st, p);
    }
  }

  /** Queueing one more task leaves its pool at most one start away from being busy. */
  lemma TaskQueued(c: Config, st: State, st': State, t: Task, pool: PoolName)
    requires Inv(c, st) && st'.queue == st.queue + [t] && st'.active == st.active && InPool(st', t, pool)
    requires |st.tasks| <= |st'.tasks| && forall u: Task :: Known(st, u) ==> st'.tasks[u].pool == st.tasks[u].pool
    ensures forall p: PoolName :: WithinSize(c, st', p) && (p != pool ==> Busy(c, st', p))
    ensures NearlyBusy(c, st', pool)
  {
    PoolsKept(c, st, st');
    hide Tracked;
    forall p: PoolName | p != pool ensures Busy(c, st', p) {
      if Queued(st', p) {
        var i :| 0 <= i < |st'.queue| && InPool(st', st'.queue[i], p);
        assert st'.queue[i] == st.queue[i] && InPool(st, st.queue[i], p);
      }
    }
    forall i, j | 0 <= i < j < |st'.queue| && InPool(st', st'.queue[i], pool) && InPool(st', st'.queue[j], pool)
      ensures |ActiveIn(st', pool)| + 1 >= c.poolSize
    {
      assert st'.queue[i] == st.queue[i] && InPool(st, st.queue[i], pool);
      assert Queued(st, pool);
    }
  }

  lemma CallKeepsInv(c: Config, st: State, pool: PoolName, signal: Option<Signal>)
    requires Inv(c, st)
    ensures Inv(c, Call(c, st, pool, signal))
  {
    var t := |st.tasks|;
    if Fired(st, signal) {
      RefusedCallKeepsInv(c, st, pool, signal);
    } else {
      var st' := st.(tasks := st.tasks + [Info(pool, signal, 0, 0, false, None)], queue := st.queue + [t]);
      forall u: Task | Known(st', u) ensures Placed(c, st', u) {
        if u != t { assert Placed(c, st, u); }
      }
      TaskQueued(c, st, st', t, pool);
      ProcessKeepsSizes(c, st', pool);
    }
  }

  lemma RefusedCallKeepsInv(c: Config, st: State, pool: PoolName, signal: Option<Signal>)
    requires Inv(c, st)
    ensures Inv(c, st.(tasks := st.tasks + [Info(pool, signal, 0, 0, true, Some(AbortedBySignal))]))
  {
    var st' := st.(tasks := st.tasks + [Info(pool, signal, 0, 0, true, Some(AbortedBySignal))]);
    forall u: Task | Known(st', u) ensures Placed(c, st', u) {
      if u < |st.tasks| { assert Placed(c, st, u); }
    }
    PoolsKept(c, st, st');
    forall p: PoolName ensures Busy(c, st', p) {
      assert Queued(st', p) ==> Queued(st, p);
    }
  }

  lemma RetryKeepsInv(c: Config, st: State, t: Task)
    requires Inv(c, st) && Enabled(st, RetryTimer(t))
    ensures Inv(c, RetryDue(c, st, t))
  {
    var st' := st.(waiting := st.waiting - {t}, queue := st.queue + [t]);
    forall u: Task | Known(st', u) ensures Placed(c, st', u) {
      assert Placed(c, st, u);
    }
    TaskQueued(c, st, st', t, st.tasks[t].pool);
    ProcessKeepsSizes(c, st', st.tasks[t].pool);
  }

  lemma AbortKeepsInv(c: Config, st: State, t: Task)
    requires Inv(c, st) && Known(st, t)
    ensures Inv(c, Abort(c, st, t))
  {
    var st' := Dropped(st, t);
    RemoveElements(st.queue, t);
    forall u: Task | Known(st', u) ensures Placed(c, st', u) {
      assert Placed(c, st, u);
    }
    ShorterQueue(st, st', t);
    SlotFreed(c, st, st', t);
    ProcessKeepsSizes(c, st', st.tasks[t].pool);
    var done := ProcessPool(c, st', st.tasks[t].pool);
    hide Tracked, WithinSize, Busy, NearlyBusy, Placed, ProcessPool, Dropped;
    RecordsOnly(c, done, TryToSettle(done, st.tasks[t].pool));
  }

  /** Starting a task changes no task but in its count of starts. */
  lemma ProcessKeepsTasks(c: Config, st: State, pool: PoolName)
    ensures var st' := ProcessPool(c, st, pool);
            && |st'.tasks| == |st.tasks| && st'.fired == st.fired && st'.settlers == st.settlers
            && forall u: Task :: Known(st, u) ==>
                 && st'.tasks[u] == st.tasks[u].(starts := st'.tasks[u].starts)
                 && st.tasks[u].starts <= st'.tasks[u].starts
  {
  }

  lemma AbortKeepsTasks(c: Config, st: State, t: Task)
    requires Known(st, t)
    ensures var st' := Abort(c, st, t);
            && |st'.tasks| == |st.tasks| && st'.fired == st.fired
            && forall u: Task :: Known(st, u) ==>
                 && st'.tasks[u].pool == st.tasks[u].pool && st'.tasks[u].signal == st.tasks[u].signal
                 && (st'.tasks[u].dropped <==> st.tasks[u].dropped || u == t)
                 && st.tasks[u].starts <= st'.tasks[u].starts
                 && (st.tasks[u].outcome.Some? ==> st'.tasks[u].outcome == st.tasks[u].outcome)
  {
    ProcessKeepsTasks(c, Dropped(st, t), st.tasks[t].pool);
    hide ProcessPool;
  }

  /** The listeners drop exactly the tasks of the signal, and keep the invariant between them. */
  lemma {:induction false} ListenersKeep(c: Config, st: State, s: Signal, n: nat)
    requires Inv(c, st) && n <= |st.tasks|
    ensures var st' := Listeners(c, st, s, n);
            && Inv(c, st') && |st'.tasks| == |st.tasks| && st'.fired == st.fired
            && forall u: Task :: Known(st, u) ==>
                 && st'.tasks[u].pool == st.tasks[u].pool && st'.tasks[u].signal == st.tasks[u].signal
                 && (st'.tasks[u].dropped <==> st.tasks[u].dropped || (u >= n && HasSignal(st, u, s)))
                 && st.tasks[u].starts <= st'.tasks[u].starts
                 && (st.tasks[u].outcome.Some? ==> st'.tasks[u].outcome == st.tasks[u].outcome)
    decreases |st.tasks| - n
  {
    hide Inv, Abort;
    if n < |st.tasks| {
      var next := if HasSignal(st, n, s) then Abort(c, st, n) else st;
      if HasSignal(st, n, s) {
        AbortKeepsInv(c, st, n);
        AbortKeepsTasks(c, st, n);
      }
      ListenersKeep(c, next, s, n + 1);
    }
  }

  lemma FireKeepsSound(c: Config, st: State, s: Signal)
    requires Sound(c, st)
    ensures Sound(c, FireSignal(c, st, s))
  {
    var fired := st.(fired := st.fired + {s});
    RecordsOnly(c, st, fired);
    ListenersKeep(c, fired, s, 0);
    hide Inv, Listeners;
  }

  lemma ProcessKeepsListened(c: Config, st: State, pool: PoolName)
    requires Listened(st)
    ensures Listened(ProcessPool(c, st, pool))
  {
    ProcessKeepsTasks(c, st, pool);
    hide ProcessPool;
  }

  lemma BeforeKeepsListened(c: Config, st: State, e: Event)
    requires Listened(st) && Enabled(st, e) && !e.SignalFires? && !e.SettleCalled?
    requires !(e.Called? && Fired(st, e.signal))
    ensures Listened(BeforeProcessing(c, st, e))
  {
    hide Announces;
  }

  /** A refused task, and a call of `settle`, start nothing. */
  lemma RecordKeepsListened(c: Config, st: State, e: Event)
    requires Listened(st) && (e.SettleCalled? || (e.Called? && Fired(st, e.signal)))
    ensures Listened(Next(c, st, e))
  {
  }

  /** Events other than the firing of a signal leave what the abort listeners did as it was. */
  lemma OthersKeepListened(c: Config, st: State, e: Event)
    requires Listened(st) && Enabled(st, e) && !e.SignalFires?
    ensures Listened(Next(c, st, e))
  {
    hide Listened, ProcessPool, BeforeProcessing, Next;
    if e.SettleCalled? || (e.Called? && Fired(st, e.signal)) {
      RecordKeepsListened(c, st, e);
    } else {
      ProcessesBefore(c, st, e);
      BeforeKeepsListened(c, st, e);
      ProcessKeepsListened(c, BeforeProcessing(c, st, e), if e.Called? then e.pool else st.tasks[e.t].pool);
    }
  }

  lemma NextKeepsInv(c: Config, st: State, e: Event)
    requires Sound(c, st) && Enabled(st, e)
    ensures Sound(c, Next(c, st, e))
  {
    hide Inv, Listened;
    match e {
      case Called(pool, signal) => CallKeepsInv(c, st, pool, signal);
      case Succeeded(t) => SucceedKeepsInv(c, st, t);
      case Failed(t, error) => FailKeepsInv(c, st, t, error);
      case RetryTimer(t) => RetryKeepsInv(c, st, t);
      case SignalFires(s) => FireKeepsSound(c, st, s);
      case SettleCalled(pool) => SettleKeepsInv(c, st, pool);
    }
    if !e.SignalFires? { OthersKeepListened(c, st, e); }
  }

  lemma SettleKeepsInv(c: Config, st: State, pool: PoolName)
    requires Inv(c, st)
    ensures Inv(c, CallSettle(st, pool))
  {
    RecordsOnly(c, st, CallSettle(st, pool));
  }

  lemma ProcessesBefore(c: Config, st: State, e: Event)
    requires Enabled(st, e) && !e.SignalFires? && !e.SettleCalled? && !(e.Called? && Fired(st, e.signal))
    ensures Next(c, st, e)
            == ProcessPool(c, BeforeProcessing(c, st, e), if e.Called? then e.pool else st.tasks[e.t].pool)
  {
  }

  /** The state in which an event calls `ProcessPool`. */
  function BeforeProcessing(c: Config, st: State, e: Event): State
    requires Enabled(st, e) && !e.SignalFires? && !e.SettleCalled?
  {
    match e
    case Called(pool, signal) =>
      st.(tasks := st.tasks + [Info(pool, signal, 0, 0, false, None)], queue := st.queue + [|st.tasks|])
    case Succeeded(t) => TryToSettle(Freed(Settle(st, t, Resolved), t), st.tasks[t].pool)
    case Failed(t, error) => TryToSettle(Freed(HandleError(c, st, t, error), t), st.tasks[t].pool)
    case RetryTimer(t) => st.(waiting := st.waiting - {t}, queue := st.queue + [t])
  }

  // ---- whole runs ------------------------------------------------------------------------

  ghost predicate Behaviour(c: Config, sts: seq<State>, events: seq<Event>) {
    && |sts| == |events| + 1
    && sts[0] == Idle
    && (forall i :: 0 <= i < |events| ==> Enabled(sts[i], events[i]) && sts[i + 1] == Next(c, sts[i], events[i]))
  }

  lemma {:induction false} AlwaysSafe(c: Config, sts: seq<State>, events: seq<Event>, i: nat)
    requires Behaviour(c, sts, events) && i < |sts|
    ensures Sound(c, sts[i])
  {
    if i == 0 {
      IdleIsSafe(c);
    } else {
      AlwaysSafe(c, sts, events, i - 1);
      NextKeepsInv(c, sts[i - 1], events[i - 1]);
    }
  }

  /**
   * At every reachable state a pool runs at most poolSize tasks, queues only when it is full, and
   * has started no task more than retryCount + 1 times. A promise is pending exactly while its
   * task is queued, active or waiting for its retry.
   */
  lemma ReachableStates(c: Config, sts: seq<State>, events: seq<Event>, i: nat, pool: PoolName, t: Task)
    requires Behaviour(c, sts, events) && i < |sts|
    ensures |ActiveIn(sts[i], pool)| <= c.poolSize
    ensures Queued(sts[i], pool) ==> |ActiveIn(sts[i], pool)| == c.poolSize
    ensures Known(sts[i], t) ==> sts[i].tasks[t].starts <= c.retryCount + 1
    ensures Known(sts[i], t) ==>
              (sts[i].tasks[t].outcome.None? <==> t in sts[i].queue || t in sts[i].active || t in sts[i].waiting)
  {
    AlwaysSafe(c, sts, events, i);
    assert WithinSize(c, sts[i], pool) && Busy(c, sts[i], pool);
    if Known(sts[i], t) { assert Placed(c, sts[i], t); }
  }

  lemma BeforeKeepsOutcomes(c: Config, st: State, e: Event, t: Task)
    requires Inv(c, st) && Enabled(st, e) && Known(st, t) && !e.SignalFires? && !e.SettleCalled?
    ensures var mid := BeforeProcessing(c, st, e);
            && Known(mid, t) && mid.fired == st.fired && mid.tasks[t].signal == st.tasks[t].signal
            && (st.tasks[t].outcome.Some? ==> mid.tasks[t].outcome == st.tasks[t].outcome)
            && mid.tasks[t].starts == st.tasks[t].starts && mid.tasks[t].dropped == st.tasks[t].dropped
            && (st.tasks[t].dropped ==> t !in mid.queue)
  {
    assert Placed(c, st, t);
    if e.RetryTimer? { assert Placed(c, st, e.t); }
  }

  lemma FiringKeepsOutcomes(c: Config, st: State, s: Signal, t: Task)
    requires Inv(c, st) && Known(st, t)
    ensures var st' := FireSignal(c, st, s);
            && Known(st', t) && st'.fired == st.fired + {s} && st'.tasks[t].signal == st.tasks[t].signal
            && (st.tasks[t].outcome.Some? ==> st'.tasks[t].outcome == st.tasks[t].outcome)
  {
    var fired := st.(fired := st.fired + {s});
    RecordsOnly(c, st, fired);
    ListenersKeep(c, fired, s, 0);
    hide Inv, Listeners;
  }

  /** A settled promise keeps its outcome, whatever happens, and a signal that has fired stays fired. */
  lemma OutcomesAreFinal(c: Config, st: State, e: Event, t: Task)
    requires Sound(c, st) && Enabled(st, e) && Known(st, t)
    ensures var st' := Next(c, st, e);
            && Known(st', t)
            && (st.tasks[t].outcome.Some? ==> st'.tasks[t].outcome == st.tasks[t].outcome)
            && st'.tasks[t].signal == st.tasks[t].signal && st.fired <= st'.fired
  {
    hide Inv, Listened, ProcessPool, FireSignal, BeforeProcessing, Call, Succeed, Fail, RetryDue;
    if e.SignalFires? {
      FiringKeepsOutcomes(c, st, e.s, t);
    } else if e.Called? && Fired(st, e.signal) {
      RefusedKeepsTasks(c, st, e.pool, e.signal);
    } else if !e.SettleCalled? {
      BeforeKeepsOutcomes(c, st, e, t);
      ProcessesBefore(c, st, e);
      ProcessKeepsTasks(c, BeforeProcessing(c, st, e), if e.Called? then e.pool else st.tasks[e.t].pool);
    }
  }

  lemma RefusedKeepsTasks(c: Config, st: State, pool: PoolName, signal: Option<Signal>)
    requires Fired(st, signal)
    ensures var st' := Call(c, st, pool, signal);
            st' == st.(tasks := st'.tasks) && |st'.tasks| == |st.tasks| + 1 && st.tasks == st'.tasks[..|st.tasks|]
  {
  }

  // ---- what a task is settled with ----------------------------------------------------------------

  /** The task may still be settled. */
  predicate Unsettled(st: State, t: Task) {
    t < |st.tasks| && st.tasks[t].outcome.None?
  }

  /** The event settles the task with this outcome. */
  predicate SettledBy(c: Config, st: State, e: Event, t: Task, o: Outcome) {
    match o
    case Resolved => e == Succeeded(t) && Unsettled(st, t)
    case Rejected(error) =>
      && e == Failed(t, error) && Unsettled(st, t)
      && !(st.tasks[t].signal.Some? && st.tasks[t].signal.value in st.fired)
      && st.tasks[t].starts == c.retryCount + 1
    case AbortedBySignal =>
      || (e.SignalFires? && Unsettled(st, t) && st.tasks[t].signal == Some(e.s))
      || (e.Called? && t == |st.tasks| && e.signal.Some? && e.signal.value in st.fired)
  }

  lemma FiringSettles(c: Config, st: State, s: Signal, n: nat, t: Task)
    requires Inv(c, st) && n <= |st.tasks| && Known(st, t)
    ensures var end := Listeners(c, st, s, n);
            && Known(end, t)
            && end.tasks[t].outcome == if st.tasks[t].outcome.None? && n <= t && st.tasks[t].signal == Some(s)
                                       then Some(AbortedBySignal) else st.tasks[t].outcome
    decreases |st.tasks| - n
  {
    if n < |st.tasks| {
      if HasSignal(st, n, s) {
        AbortKeepsInv(c, st, n);
        AbortKeepsTasks(c, st, n);
        AbortSettles(c, st, n, t);
        hide Abort, Inv;
        FiringSettles(c, Abort(c, st, n), s, n + 1, t);
      } else {
        hide Abort, Inv;
        FiringSettles(c, st, s, n + 1, t);
      }
    }
  }

  lemma AbortSettles(c: Config, st: State, n: Task, t: Task)
    requires Known(st, n) && Known(st, t)
    ensures Known(Abort(c, st, n), t)
    ensures Abort(c, st, n).tasks[t].outcome
            == if t == n && st.tasks[t].outcome.None? then Some(AbortedBySignal) else st.tasks[t].outcome
  {
    ProcessKeepsTasks(c, Dropped(st, n), st.tasks[n].pool);
    hide ProcessPool;
  }

  /** Before the queue is processed an event has settled its task, or not. */
  lemma BeforeSettles(c: Config, st: State, e: Event, t: Task, o: Outcome)
    requires Sound(c, st) && Enabled(st, e) && !e.SignalFires? && !e.SettleCalled?
    requires !(e.Called? && Fired(st, e.signal))
    ensures var mid := BeforeProcessing(c, st, e);
            && (Known(mid, t) && mid.tasks[t].outcome == Some(o)
                <==> (Known(st, t) && st.tasks[t].outcome == Some(o)) || SettledBy(c, st, e, t, o))
  {
    if e.Failed? {
      assert Placed(c, st, e.t);
      assert st.tasks[e.t].outcome.None? && !Fired(st, st.tasks[e.t].signal) ==>
          st.tasks[e.t].starts == st.tasks[e.t].retry + 1;
    }
    hide Inv, Listened, Announces;
  }

  lemma StepSettles(c: Config, st: State, e: Event, t: Task, o: Outcome)
    requires Sound(c, st) && Enabled(st, e)
    ensures var st' := Next(c, st, e);
            && (Known(st', t) && st'.tasks[t].outcome == Some(o)
                <==> (Known(st, t) && st.tasks[t].outcome == Some(o)) || SettledBy(c, st, e, t, o))
  {
    if e.SignalFires? {
      var fired := st.(fired := st.fired + {e.s});
      RecordsOnly(c, st, fired);
      ListenersKeep(c, fired, e.s, 0);
      if Known(st, t) { FiringSettles(c, fired, e.s, 0, t); }
      FiringIs(c, st, e.s);
      hide Inv, Next, Listeners;
    } else if e.SettleCalled? || (e.Called? && Fired(st, e.signal)) {
      hide Inv, Listened;
    } else {
      BeforeSettles(c, st, e, t, o);
      ProcessesBefore(c, st, e);
      ProcessKeepsTasks(c, BeforeProcessing(c, st, e), if e.Called? then e.pool else st.tasks[e.t].pool);
      hide Inv, Next, ProcessPool, BeforeProcessing, SettledBy;
    }
  }

  /**
   * Over every run a task is resolved exactly if it succeeded while unsettled; rejected with an error exactly if it
   * failed with it while unsettled, its signal not fired and its last retry used up; and aborted exactly if its signal
   * fired while it was unsettled, or before it was called.
   */
  lemma {:induction false} OutcomeIff(c: Config, sts: seq<State>, events: seq<Event>, i: nat, t: Task, o: Outcome)
    requires Behaviour(c, sts, events) && i < |sts|
    ensures Known(sts[i], t) && sts[i].tasks[t].outcome == Some(o)
            <==> exists k :: 0 <= k < i && SettledBy(c, sts[k], events[k], t, o)
  {
    hide Sound, Next, SettledBy;
    if i > 0 {
      OutcomeIff(c, sts, events, i - 1, t, o);
      AlwaysSafe(c, sts, events, i - 1);
      assert Enabled(sts[i - 1], events[i - 1]);
      StepSettles(c, sts[i - 1], events[i - 1], t, o);
    }
  }

  // ---- starts that follow the task's own signal --------------------------------------------------

  /** How many tasks of the pool without the signal stand before u in the queue. */
  function Ahead(st: State, q: seq<Task>, pool: PoolName, s: Signal, u: Task): nat {
    if q == [] || q[0] == u then 0
    else (if InPool(st, q[0], pool) && !HasSignal(st, q[0], s) then 1 else 0) + Ahead(st, q[1..], pool, s, u)
  }

  /** The active tasks of the pool with the signal that were called from n on and before a. */
  function ActiveBetween(st: State, pool: PoolName, s: Signal, n: nat, a: nat): set<Task> {
    set x | x in st.active && n <= x < a && InPool(st, x, pool) && HasSignal(st, x, s)
  }

  /**
   * u is queued and a, called before it, is active; both have the signal and the pool, and the tasks of the signal
   * active before a free too few slots for the others that stand before u. Then the slot of a goes to a task whose
   * signal has fired.
   */
  ghost predicate Overtaken(st: State, s: Signal, n: nat, a: Task, u: Task) {
    && n <= a < u
    && a in st.active && HasSignal(st, a, s)
    && u in st.queue && HasSignal(st, u, s)
    && st.tasks[a].pool == st.tasks[u].pool
    && Ahead(st, st.queue, st.tasks[u].pool, s, u) <= |ActiveBetween(st, st.tasks[u].pool, s, n, a)|
  }

  ghost predicate Overtakes(st: State, s: Signal, n: nat) {
    exists a: Task, u: Task :: Overtaken(st, s, n, a, u)
  }

  /** Some task of the signal has been started more often. */
  ghost predicate StartsMore(st: State, st': State, s: Signal) {
    exists t: Task :: t < |st'.tasks| && HasSignal(st, t, s) && st.tasks[t].starts < st'.tasks[t].starts
  }

  lemma ActiveIsPlaced(c: Config, st: State, t: Task)
    requires Inv(c, st) && t in st.active
    ensures Known(st, t) && t !in st.queue && 0 < |ActiveIn(st, st.tasks[t].pool)| <= c.poolSize
  {
    assert Placed(c, st, t);
    assert WithinSize(c, st, st.tasks[t].pool);
    assert t in ActiveIn(st, st.tasks[t].pool);
  }

  lemma QueuedIsPlaced(c: Config, st: State, t: Task)
    requires Inv(c, st) && t in st.queue
    ensures Known(st, t) && t !in st.active && !st.tasks[t].dropped
  {
    assert Placed(c, st, t);
  }

  lemma DroppedStays(st: State, t: Task)
    requires Known(st, t)
    ensures var mid := Dropped(st, t);
            && SamePools(st, mid) && mid.queue == Remove(st.queue, t) && mid.active == st.active - {t}
            && forall u: Task :: Known(st, u) ==> mid.tasks[u].starts == st.tasks[u].starts
  {
  }

  /** The listener of a task that holds no slot only takes it out of the queue. */
  lemma IdleAbortMoves(c: Config, st: State, t: Task)
    requires Inv(c, st) && Known(st, t) && t !in st.active
    ensures var st' := Abort(c, st, t);
            && st'.active == st.active && st'.queue == Remove(st.queue, t)
            && forall u: Task :: Known(st, u) ==> st'.tasks[u].starts == st.tasks[u].starts
  {
    var mid, pool := Dropped(st, t), st.tasks[t].pool;
    DroppedStays(st, t);
    ShorterQueue(st, mid, t);
    assert Busy(c, st, pool);
    hide Dropped, Tracked, Busy, WithinSize, Remove;
    assert ActiveIn(mid, pool) == ActiveIn(st, pool);
    if FirstQueued(mid, pool, 0) < |mid.queue| { assert Queued(mid, pool); }
  }

  /** The listener of a task that holds a slot gives it to the first task queued in the pool. */
  lemma ActiveAbortMoves(c: Config, st: State, t: Task)
    requires Inv(c, st) && t in st.active
    ensures Known(st, t)
    ensures var st' := Abort(c, st, t);
            var k := FirstQueued(st, st.tasks[t].pool, 0);
            if k == |st.queue| then
              && st'.active == st.active - {t} && st'.queue == st.queue
              && (forall u: Task :: Known(st, u) ==> st'.tasks[u].starts == st.tasks[u].starts)
            else
              && st'.active == st.active - {t} + {st.queue[k]} && st'.queue == Without(st.queue, k)
              && (forall u: Task :: Known(st, u) ==>
                    st'.tasks[u].starts == st.tasks[u].starts + (if u == st.queue[k] then 1 else 0))
  {
    ActiveIsPlaced(c, st, t);
    var mid, pool := Dropped(st, t), st.tasks[t].pool;
    DroppedStays(st, t);
    RemovedNothing(c, st, t);
    hide Inv, Dropped, Remove;
    SameFirst(st, mid, pool, 0);
    assert ActiveIn(mid, pool) == ActiveIn(st, pool) - {t};
  }

  lemma RemovedNothing(c: Config, st: State, t: Task)
    requires Inv(c, st) && t !in st.queue
    ensures Remove(st.queue, t) == st.queue
  {
    RemoveElements(st.queue, t);
  }

  lemma {:induction false} SameFirst(st: State, st': State, pool: PoolName, from: nat)
    requires st'.queue == st.queue && SamePools(st, st') && from <= |st.queue|
    ensures FirstQueued(st', pool, from) == FirstQueued(st, pool, from)
    decreases |st.queue| - from
  {
    if from < |st.queue| { SameFirst(st, st', pool, from + 1); }
  }

  ghost predicate SameKinds(st: State, st': State) {
    && |st'.tasks| == |st.tasks|
    && forall u: Task :: Known(st, u) ==>
         st'.tasks[u].pool == st.tasks[u].pool && st'.tasks[u].signal == st.tasks[u].signal
  }

  lemma {:induction false} AheadKinds(st: State, st': State, q: seq<Task>, pool: PoolName, s: Signal, u: Task)
    requires SameKinds(st, st')
    ensures Ahead(st', q, pool, s, u) == Ahead(st, q, pool, s, u)
  {
    if q != [] { AheadKinds(st, st', q[1..], pool, s, u); }
  }

  /** Taking out a task of the signal changes nobody's place. */
  lemma {:induction false} AheadRemoved(st: State, q: seq<Task>, pool: PoolName, s: Signal, u: Task, t: Task)
    requires u != t && HasSignal(st, t, s)
    ensures Ahead(st, Remove(q, t), pool, s, u) == Ahead(st, q, pool, s, u)
  {
    if q != [] && q[0] != t { AheadRemoved(st, q[1..], pool, s, u, t); }
  }

  /** Taking out the pool's first task brings those behind it one place forward if it does not have the signal. */
  lemma {:induction false} AheadStarted(st: State, q: seq<Task>, pool: PoolName, s: Signal, u: Task, k: nat)
    requires k < |q| && q[k] != u && u !in q[..k]
    ensures Ahead(st, Without(q, k), pool, s, u)
            + (if InPool(st, q[k], pool) && !HasSignal(st, q[k], s) then 1 else 0) == Ahead(st, q, pool, s, u)
  {
    if k == 0 {
      assert Without(q, 0) == q[1..];
    } else {
      assert Without(q, k)[0] == q[0] && Without(q, k)[1..] == Without(q[1..], k - 1);
      assert forall x :: x in q[1..][..k - 1] ==> x in q[..k];
      AheadStarted(st, q[1..], pool, s, u, k - 1);
    }
  }

  lemma {:induction false} AheadElsewhere(st: State, q: seq<Task>, pool: PoolName, s: Signal, u: Task, k: nat)
    requires k < |q| && q[k] != u && !InPool(st, q[k], pool)
    ensures Ahead(st, Without(q, k), pool, s, u) == Ahead(st, q, pool, s, u)
  {
    if k == 0 {
      assert Without(q, 0) == q[1..];
    } else {
      assert Without(q, k)[0] == q[0] && Without(q, k)[1..] == Without(q[1..], k - 1);
      AheadElsewhere(st, q[1..], pool, s, u, k - 1);
    }
  }

  lemma QueuedPlace(q: seq<Task>, u: Task) returns (p: nat)
    requires u in q
    ensures p < |q| && q[p] == u
  {
    p :| 0 <= p < |q| && q[p] == u;
  }

  /** A task without the signal has no listener: nothing moves. */
  lemma SkipStep(st: State, s: Signal, n: nat, a: Task, u: Task)
    requires !HasSignal(st, n, s)
    ensures Overtaken(st, s, n, a, u) <==> Overtaken(st, s, n + 1, a, u)
  {
    if u < |st.tasks| {
      assert ActiveBetween(st, st.tasks[u].pool, s, n, a) == ActiveBetween(st, st.tasks[u].pool, s, n + 1, a);
    }
  }

  lemma IdleStep(c: Config, st: State, s: Signal, n: nat, a: Task, u: Task)
    requires Inv(c, st) && HasSignal(st, n, s) && n !in st.active
    ensures Overtaken(st, s, n, a, u) <==> Overtaken(Abort(c, st, n), s, n + 1, a, u)
  {
    var st' := Abort(c, st, n);
    IdleAbortMoves(c, st, n);
    AbortKeepsTasks(c, st, n);
    RemovedFrom(c, st, n);
    hide Inv, Abort, Remove, Ahead;
    if n < a < u && HasSignal(st, u, s) {
      var pool := st.tasks[u].pool;
      AheadKinds(st, st', st'.queue, pool, s, u);
      AheadRemoved(st, st.queue, pool, s, u, n);
      assert ActiveBetween(st', pool, s, n + 1, a) == ActiveBetween(st, pool, s, n, a);
    }
  }

  lemma RemovedFrom(c: Config, st: State, t: Task)
    requires Inv(c, st)
    ensures forall x :: x in Remove(st.queue, t) <==> x in st.queue && x != t
  {
    RemoveElements(st.queue, t);
  }

  lemma EmptyStep(c: Config, st: State, s: Signal, n: nat, a: Task, u: Task)
    requires Inv(c, st) && HasSignal(st, n, s) && n in st.active
    requires FirstQueued(st, st.tasks[n].pool, 0) == |st.queue|
    ensures Overtaken(st, s, n, a, u) <==> Overtaken(Abort(c, st, n), s, n + 1, a, u)
  {
    var st' := Abort(c, st, n);
    ActiveAbortMoves(c, st, n);
    AbortKeepsTasks(c, st, n);
    hide Inv, Abort, Ahead;
    if n <= a < u && HasSignal(st, u, s) && u in st.queue {
      var pool := st.tasks[u].pool;
      var p := QueuedPlace(st.queue, u);
      assert pool != st.tasks[n].pool;
      AheadKinds(st, st', st'.queue, pool, s, u);
      assert ActiveBetween(st', pool, s, n + 1, a) == ActiveBetween(st, pool, s, n, a);
    }
  }

  /** The freed slot goes to a task without the signal: everybody behind it moves up, and one slot fewer is to come. */
  lemma TakenStep(c: Config, st: State, s: Signal, n: nat, a: Task, u: Task)
    requires Inv(c, st) && HasSignal(st, n, s) && n in st.active
    requires var k := FirstQueued(st, st.tasks[n].pool, 0); k < |st.queue| && !HasSignal(st, st.queue[k], s)
    ensures Overtaken(st, s, n, a, u) <==> Overtaken(Abort(c, st, n), s, n + 1, a, u)
  {
    hide Inv, Abort, Ahead, Without, FirstQueued;
    var st', k := Abort(c, st, n), FirstQueued(st, st.tasks[n].pool, 0);
    ActiveAbortMoves(c, st, n);
    AbortKeepsTasks(c, st, n);
    StartedOne(c, st, k);
    if n <= a < u && HasSignal(st, u, s) && u in st.queue && HasSignal(st, a, s) {
      AheadKinds(st, st', st'.queue, st.tasks[u].pool, s, u);
      if st.tasks[u].pool == st.tasks[n].pool {
        TakenHere(st, st', s, n, a, u, k);
      } else {
        TakenElsewhere(st, st', s, n, a, u, k);
      }
    }
  }

  lemma StartedOne(c: Config, st: State, k: nat)
    requires Inv(c, st) && k < |st.queue|
    ensures forall x :: x in Without(st.queue, k) <==> x in st.queue && x != st.queue[k]
    ensures st.queue[k] !in st.active
  {
    WithoutElements(st.queue, k);
    QueuedIsPlaced(c, st, st.queue[k]);
  }

  lemma TakenHere(st: State, st': State, s: Signal, n: nat, a: Task, u: Task, k: nat)
    requires SameKinds(st, st') && HasSignal(st, n, s) && n in st.active && n <= a < u
    requires k < |st.queue| && k == FirstQueued(st, st.tasks[n].pool, 0)
    requires !HasSignal(st, st.queue[k], s)
    requires HasSignal(st, u, s) && u in st.queue && st.tasks[u].pool == st.tasks[n].pool
    requires st'.queue == Without(st.queue, k) && st'.active == st.active - {n} + {st.queue[k]}
    ensures var pool := st.tasks[u].pool;
            && Ahead(st, st'.queue, pool, s, u) + 1 == Ahead(st, st.queue, pool, s, u)
            && (a == n ==> ActiveBetween(st, pool, s, n, a) == {})
            && (a > n ==> |ActiveBetween(st', pool, s, n + 1, a)| + 1 == |ActiveBetween(st, pool, s, n, a)|)
  {
    var pool := st.tasks[u].pool;
    assert u !in st.queue[..k];
    AheadStarted(st, st.queue, pool, s, u, k);
    if a > n {
      assert ActiveBetween(st, pool, s, n, a) == ActiveBetween(st', pool, s, n + 1, a) + {n};
    }
  }

  lemma TakenElsewhere(st: State, st': State, s: Signal, n: nat, a: Task, u: Task, k: nat)
    requires SameKinds(st, st') && HasSignal(st, n, s) && n <= a < u
    requires k < |st.queue| && InPool(st, st.queue[k], st.tasks[n].pool) && !HasSignal(st, st.queue[k], s)
    requires HasSignal(st, u, s) && u in st.queue && st.tasks[u].pool != st.tasks[n].pool
    requires st'.queue == Without(st.queue, k) && st'.active == st.active - {n} + {st.queue[k]}
    ensures var pool := st.tasks[u].pool;
            && Ahead(st, st'.queue, pool, s, u) == Ahead(st, st.queue, pool, s, u)
            && ActiveBetween(st', pool, s, n + 1, a) == ActiveBetween(st, pool, s, n, a)
  {
    AheadElsewhere(st, st.queue, st.tasks[u].pool, s, u, k);
  }

  /** Before listener n runs, exactly the tasks of the signal before it have been dropped. */
  ghost predicate DroppedBelow(st: State, s: Signal, n: nat) {
    forall t: Task :: HasSignal(st, t, s) ==> (st.tasks[t].dropped <==> t < n)
  }

  lemma StepAgrees(c: Config, st: State, s: Signal, n: nat)
    requires Inv(c, st) && n < |st.tasks|
    requires HasSignal(st, n, s) && n in st.active ==>
               var k := FirstQueued(st, st.tasks[n].pool, 0); k == |st.queue| || !HasSignal(st, st.queue[k], s)
    ensures var next := if HasSignal(st, n, s) then Abort(c, st, n) else st;
            Overtakes(st, s, n) <==> Overtakes(next, s, n + 1)
  {
    hide Overtaken, Abort, Inv;
    var next := if HasSignal(st, n, s) then Abort(c, st, n) else st;
    forall a: Task, u: Task ensures Overtaken(st, s, n, a, u) <==> Overtaken(next, s, n + 1, a, u) {
      if !HasSignal(st, n, s) { SkipStep(st, s, n, a, u); }
      else if n !in st.active { IdleStep(c, st, s, n, a, u); }
      else if FirstQueued(st, st.tasks[n].pool, 0) == |st.queue| { EmptyStep(c, st, s, n, a, u); }
      else { TakenStep(c, st, s, n, a, u); }
    }
    if a: Task, u: Task :| Overtaken(st, s, n, a, u) { assert Overtaken(next, s, n + 1, a, u); }
    var m := n + 1;
    if a: Task, u: Task :| Overtaken(next, s, m, a, u) { assert Overtaken(st, s, n, a, u); }
  }

  /** The slot goes to a task of the signal. */
  lemma SlotOvertakes(c: Config, st: State, s: Signal, n: nat)
    requires Inv(c, st) && DroppedBelow(st, s, n) && HasSignal(st, n, s) && n in st.active
    requires var k := FirstQueued(st, st.tasks[n].pool, 0); k < |st.queue| && HasSignal(st, st.queue[k], s)
    ensures Overtakes(st, s, n)
    ensures StartsMore(st, Listeners(c, st, s, n), s)
  {
    var pool := st.tasks[n].pool;
    var k := FirstQueued(st, pool, 0);
    var u := st.queue[k];
    ActiveIsPlaced(c, st, n);
    QueuedIsPlaced(c, st, u);
    assert u > n;
    FirstIsAhead(st, st.queue, pool, s, k);
    assert Overtaken(st, s, n, n, u);
    hide Inv, Overtaken, Overtakes, DroppedBelow;
    SlotStarts(c, st, s, n);
  }

  lemma SlotStarts(c: Config, st: State, s: Signal, n: nat)
    requires Inv(c, st) && DroppedBelow(st, s, n) && HasSignal(st, n, s) && n in st.active
    requires var k := FirstQueued(st, st.tasks[n].pool, 0); k < |st.queue| && HasSignal(st, st.queue[k], s)
    ensures StartsMore(st, Listeners(c, st, s, n), s)
  {
    var u := st.queue[FirstQueued(st, st.tasks[n].pool, 0)];
    ActiveAbortMoves(c, st, n);
    AbortKeepsInv(c, st, n);
    AbortKeepsTasks(c, st, n);
    ListenersKeep(c, Abort(c, st, n), s, n + 1);
    hide Inv, Abort;
    assert st.tasks[u].starts < Listeners(c, st, s, n).tasks[u].starts;
  }

  lemma {:induction false} FirstIsAhead(st: State, q: seq<Task>, pool: PoolName, s: Signal, k: nat)
    requires k < |q| && forall i :: 0 <= i < k ==> !InPool(st, q[i], pool)
    ensures Ahead(st, q, pool, s, q[k]) == 0
  {
    if k > 0 {
      assert q[1..][k - 1] == q[k];
      FirstIsAhead(st, q[1..], pool, s, k - 1);
    }
  }

  lemma {:induction false} CascadeStartsIff(c: Config, st: State, s: Signal, n: nat)
    requires Inv(c, st) && n <= |st.tasks| && DroppedBelow(st, s, n)
    ensures StartsMore(st, Listeners(c, st, s, n), s) <==> Overtakes(st, s, n)
    decreases |st.tasks| - n
  {
    hide Inv, Abort, FirstQueued;
    if n == |st.tasks| {
      NobodyLeft(c, st, s);
    } else if HasSignal(st, n, s) && n in st.active && FirstQueued(st, st.tasks[n].pool, 0) < |st.queue|
              && HasSignal(st, st.queue[FirstQueued(st, st.tasks[n].pool, 0)], s) {
      SlotOvertakes(c, st, s, n);
    } else {
      var next := if HasSignal(st, n, s) then Abort(c, st, n) else st;
      NextListener(c, st, s, n);
      StepAgrees(c, st, s, n);
      CascadeStartsIff(c, next, s, n + 1);
      var end := Listeners(c, st, s, n);
      assert end == Listeners(c, next, s, n + 1);
      SameStarts(st, next, end, s);
    }
  }

  lemma NobodyLeft(c: Config, st: State, s: Signal)
    requires Inv(c, st)
    ensures !Overtakes(st, s, |st.tasks|)
  {
    if a: Task, u: Task :| Overtaken(st, s, |st.tasks|, a, u) {
      ActiveIsPlaced(c, st, a);
      assert false;
    }
  }

  lemma NextListener(c: Config, st: State, s: Signal, n: nat)
    requires Inv(c, st) && n < |st.tasks| && DroppedBelow(st, s, n)
    requires HasSignal(st, n, s) && n in st.active ==>
               var k := FirstQueued(st, st.tasks[n].pool, 0); k == |st.queue| || !HasSignal(st, st.queue[k], s)
    ensures var next := if HasSignal(st, n, s) then Abort(c, st, n) else st;
            && Inv(c, next) && SameKinds(st, next) && DroppedBelow(next, s, n + 1)
            && forall t: Task :: HasSignal(st, t, s) ==> next.tasks[t].starts == st.tasks[t].starts
  {
    if HasSignal(st, n, s) {
      AbortKeepsInv(c, st, n);
      AbortKeepsTasks(c, st, n);
      if n in st.active { ActiveAbortMoves(c, st, n); } else { IdleAbortMoves(c, st, n); }
    }
    hide Inv, Abort;
  }

  lemma SameStarts(st: State, next: State, end: State, s: Signal)
    requires SameKinds(st, next)
    requires forall t: Task :: HasSignal(st, t, s) ==> next.tasks[t].starts == st.tasks[t].starts
    ensures StartsMore(st, end, s) <==> StartsMore(next, end, s)
  {
    forall t: Task ensures HasSignal(st, t, s) <==> HasSignal(next, t, s) {}
  }

  /** A task is started in this step although its signal has fired. */
  ghost predicate StartsFired(st: State, st': State) {
    exists t: Task :: t < |st.tasks| && t < |st'.tasks| && st.tasks[t].starts < st'.tasks[t].starts
                      && Fired(st', st'.tasks[t].signal)
  }

  /** Any other event starts only tasks whose signal has not fired. */
  lemma OthersStartUnfired(c: Config, st: State, e: Event)
    requires Sound(c, st) && Enabled(st, e) && !e.SignalFires?
    ensures !StartsFired(st, Next(c, st, e))
  {
    var st' := Next(c, st, e);
    forall t: Task | t < |st.tasks| && t < |st'.tasks| && Fired(st', st'.tasks[t].signal)
      ensures st'.tasks[t].starts == st.tasks[t].starts
    {
      OthersStartUnfiredTask(c, st, e, t);
    }
  }

  lemma OthersStartUnfiredTask(c: Config, st: State, e: Event, t: Task)
    requires Sound(c, st) && Enabled(st, e) && !e.SignalFires? && Known(st, t)
    ensures var st' := Next(c, st, e);
            Known(st', t) && (Fired(st', st'.tasks[t].signal) ==> st'.tasks[t].starts == st.tasks[t].starts)
  {
    hide Inv, ProcessPool, BeforeProcessing, Call, Succeed, Fail, RetryDue;
    if e.Called? && Fired(st, e.signal) {
      RefusedKeepsTasks(c, st, e.pool, e.signal);
    } else if !e.SettleCalled? {
      BeforeKeepsOutcomes(c, st, e, t);
      ProcessesBefore(c, st, e);
      StartsOnlyQueued(c, BeforeProcessing(c, st, e), if e.Called? then e.pool else st.tasks[e.t].pool, t);
    }
  }

  lemma StartsOnlyQueued(c: Config, st: State, pool: PoolName, t: Task)
    requires Known(st, t) && (st.tasks[t].dropped ==> t !in st.queue)
    ensures var st' := ProcessPool(c, st, pool);
            && Known(st', t) && st'.fired == st.fired && st'.tasks[t].signal == st.tasks[t].signal
            && (st.tasks[t].dropped ==> st'.tasks[t].starts == st.tasks[t].starts)
  {
  }

  /** When a signal fires, only its own tasks can be started after their signal. */
  lemma FiringStartsIff(c: Config, st: State, s: Signal)
    requires Sound(c, st) && s !in st.fired
    ensures StartsFired(st, FireSignal(c, st, s)) <==> Overtakes(st, s, 0)
  {
    var fired := st.(fired := st.fired + {s});
    var end := FireSignal(c, st, s);
    RecordsOnly(c, st, fired);
    ListenersKeep(c, fired, s, 0);
    CascadeStartsIff(c, fired, s, 0);
    assert StartsMore(fired, end, s) ==> StartsFired(st, end) by {
      if t: Task :| t < |end.tasks| && HasSignal(fired, t, s) && fired.tasks[t].starts < end.tasks[t].starts {
        assert Fired(end, end.tasks[t].signal);
      }
    }
    assert StartsFired(st, end) ==> StartsMore(fired, end, s) by {
      if t: Task :| t < |st.tasks| && t < |end.tasks| && st.tasks[t].starts < end.tasks[t].starts
                    && Fired(end, end.tasks[t].signal) {
        FiringStartsOwn(c, fired, s, 0, t);
        assert HasSignal(fired, t, s);
      }
    }
    FiredOnly(st, fired, s);
  }

  lemma FiredOnly(st: State, fired: State, s: Signal)
    requires fired == st.(fired := fired.fired)
    ensures Overtakes(st, s, 0) <==> Overtakes(fired, s, 0)
  {
    forall a: Task, u: Task ensures Overtaken(st, s, 0, a, u) <==> Overtaken(fired, s, 0, a, u) {
      if u < |st.tasks| {
        AheadKinds(st, fired, st.queue, st.tasks[u].pool, s, u);
        assert ActiveBetween(st, st.tasks[u].pool, s, 0, a) == ActiveBetween(fired, st.tasks[u].pool, s, 0, a);
      }
    }
  }

  /** A task dropped already, as one whose signal fired earlier is, is not started by the listeners. */
  lemma {:induction false} FiringStartsOwn(c: Config, st: State, s: Signal, n: nat, t: Task)
    requires Inv(c, st) && n <= |st.tasks| && Known(st, t)
    ensures t < |Listeners(c, st, s, n).tasks|
    ensures st.tasks[t].dropped ==> Listeners(c, st, s, n).tasks[t].starts == st.tasks[t].starts
    decreases |st.tasks| - n
  {
    hide Inv, Abort, Listeners;
    if n < |st.tasks| {
      var next := if HasSignal(st, n, s) then Abort(c, st, n) else st;
      if HasSignal(st, n, s) {
        AbortKeepsInv(c, st, n);
        AbortKeepsTasks(c, st, n);
        if st.tasks[t].dropped { AbortStartsUndropped(c, st, n, t); }
      }
      FiringStartsOwn(c, next, s, n + 1, t);
    }
    OneListener(c, st, s, n);
  }

  lemma OneListener(c: Config, st: State, s: Signal, n: nat)
    requires n <= |st.tasks|
    ensures Listeners(c, st, s, n) == if n == |st.tasks| then st
                                      else Listeners(c, if HasSignal(st, n, s) then Abort(c, st, n) else st, s, n + 1)
  {
  }

  lemma AbortStartsUndropped(c: Config, st: State, n: Task, t: Task)
    requires Inv(c, st) && Known(st, n) && Known(st, t) && st.tasks[t].dropped
    ensures Abort(c, st, n).tasks[t].starts == st.tasks[t].starts
  {
    if n in st.active {
      ActiveAbortMoves(c, st, n);
      var k := FirstQueued(st, st.tasks[n].pool, 0);
      if k < |st.queue| { QueuedIsPlaced(c, st, st.queue[k]); }
    } else {
      IdleAbortMoves(c, st, n);
    }
  }

  /**
   * A task is started after its own signal has fired exactly when the signal fires while one of its tasks is active
   * and a later one stands in the queue of the pool close enough to get a slot that an earlier one frees.
   */
  lemma StartsAfterSignalIff(c: Config, sts: seq<State>, events: seq<Event>, i: nat)
    requires Behaviour(c, sts, events) && i < |events|
    ensures StartsFired(sts[i], sts[i + 1]) <==> events[i].SignalFires? && Overtakes(sts[i], events[i].s, 0)
  {
    AlwaysSafe(c, sts, events, i);
    assert Enabled(sts[i], events[i]);
    hide Sound, Next;
    if events[i].SignalFires? {
      FiringStartsIff(c, sts[i], events[i].s);
      assert sts[i + 1] == FireSignal(c, sts[i], events[i].s) by { FiringIs(c, sts[i], events[i].s); }
    } else {
      OthersStartUnfired(c, sts[i], events[i]);
    }
  }

  lemma FiringIs(c: Config, st: State, s: Signal)
    requires Enabled(st, SignalFires(s))
    ensures Next(c, st, SignalFires(s)) == FireSignal(c, st, s)
  {
  }

  /** One slot taken by a task of the signal, and a second one behind it. */
  function TwoShare(s: Signal): State {
    State([1], {0}, {}, {0}, [Info(0, Some(s), 0, 1, false, None), Info(0, Some(s), 0, 0, false, None)], {}, [])
  }

  lemma TwoCalls(s: Signal)
    ensures Next(Config(1, 0), Next(Config(1, 0), Idle, Called(0, Some(s))), Called(0, Some(s))) == TwoShare(s)
  {
    var c, one := Config(1, 0), State([0], {}, {}, {}, [Info(0, Some(s), 0, 0, false, None)], {}, []);
    assert ActiveIn(one, 0) == {};
    var started := Next(c, Idle, Called(0, Some(s)));
    assert started == State([], {0}, {}, {0}, [Info(0, Some(s), 0, 1, false, None)], {}, []);
    assert ActiveIn(TwoShare(s), 0) == {0};
  }

  /** The first task is dropped, and its slot goes to the second, whose signal has fired. */
  function SecondStarted(s: Signal): State {
    State([], {1}, {}, {0, 1},
          [Info(0, Some(s), 0, 1, true, Some(AbortedBySignal)), Info(0, Some(s), 0, 1, false, None)], {s}, [])
  }

  lemma FirstAborts(s: Signal)
    ensures Abort(Config(1, 0), TwoShare(s).(fired := {s}), 0) == SecondStarted(s)
  {
    hide Dropped, ProcessPool;
    FirstDropped(s);
    FreedSlotTaken(Dropped(TwoShare(s).(fired := {s}), 0), s);
    assert !Announces(SecondStarted(s), 0) by { assert 1 in ActiveIn(SecondStarted(s), 0); }
  }

  lemma FirstDropped(s: Signal)
    ensures var mid := Dropped(TwoShare(s).(fired := {s}), 0);
            mid.queue == [1] && mid.active == {} && mid.running == {0} && mid.waiting == {} && mid.settlers == []
            && mid.fired == {s} && |mid.tasks| == 2
            && mid.tasks == [SecondStarted(s).tasks[0], SecondStarted(s).tasks[1].(starts := 0)]
  {
  }

  lemma FreedSlotTaken(mid: State, s: Signal)
    requires mid.queue == [1] && mid.active == {} && mid.running == {0} && mid.waiting == {} && mid.settlers == []
    requires mid.fired == {s} && |mid.tasks| == 2
    requires mid.tasks == [SecondStarted(s).tasks[0], SecondStarted(s).tasks[1].(starts := 0)]
    ensures ProcessPool(Config(1, 0), mid, 0) == SecondStarted(s)
  {
    assert ActiveIn(mid, 0) == {} && FirstQueued(mid, 0, 0) == 0;
  }

  lemma SecondAborts(s: Signal)
    ensures var second := Abort(Config(1, 0), SecondStarted(s), 1);
            |second.tasks| == 2 && second.tasks[1] == Info(0, Some(s), 0, 1, true, Some(AbortedBySignal))
  {
    var none: seq<Task> := [];
    assert Remove(none, 1) == none;
  }

  /** It does happen: with one slot, a shared signal starts the task behind the one it aborts. */
  lemma SharedSignalStarts(s: Signal)
    ensures var c := Config(1, 0);
            var st := Next(c, Next(c, Idle, Called(0, Some(s))), Called(0, Some(s)));
            var st' := Next(c, st, SignalFires(s));
            && |st.tasks| == |st'.tasks| == 2
            && st.tasks[1].starts == 0
            && st'.tasks[1].starts == 1 && st'.tasks[1].outcome == Some(AbortedBySignal)
  {
    hide Abort, Call;
    TwoCalls(s);
    var c, fired := Config(1, 0), TwoShare(s).(fired := {s});
    assert TwoShare(s).fired + {s} == {s};
    FirstAborts(s);
    SecondAborts(s);
    var first := Abort(c, fired, 0);
    assert Listeners(c, fired, s, 0) == Listeners(c, first, s, 1);
    var second := Abort(c, first, 1);
    assert Listeners(c, first, s, 1) == Listeners(c, second, s, 2) == second;
    FiringIs(c, TwoShare(s), s);
  }

  /** No pool with slots stalls: an unsettled task means something of its pool runs or has a timer. */
  lemma NoStall(c: Config, st: State, t: Task)
    requires Inv(c, st) && Known(st, t) && st.tasks[t].outcome.None? && c.poolSize > 0
    ensures var pool := st.tasks[t].pool;
            ActiveIn(st, pool) != {} || exists u :: u in st.waiting && InPool(st, u, pool)
  {
    assert Placed(c, st, t);
    var pool := st.tasks[t].pool;
    QueuedByMember(st, t, pool);
    if t in st.queue {
      assert Busy(c, st, pool);
    } else if t in st.active {
      assert t in ActiveIn(st, pool);
    } else {
      assert t in st.waiting && InPool(st, t, pool);
    }
  }

  // ---- who waits for a pool to settle --------------------------------------------------------------

  /** The event ends a task of the pool, or runs the abort listener of one. */
  ghost predicate Touches(st: State, e: Event, pool: PoolName) {
    || ((e.Succeeded? || e.Failed?) && InPool(st, e.t, pool))
    || (e.SignalFires? && exists t: Task :: InPool(st, t, pool) && HasSignal(st, t, e.s))
  }

  lemma NobodyIn(st: State, pool: PoolName)
    ensures Announces(st, pool) <==> forall t: Task :: InPool(st, t, pool) ==> t !in st.active && t !in st.queue
  {
    if Announces(st, pool) {
      forall t: Task | InPool(st, t, pool) ensures t !in st.active && t !in st.queue {
        assert t in st.active ==> t in ActiveIn(st, pool);
        QueuedByMember(st, t, pool);
      }
    } else if Queued(st, pool) {
      var i :| 0 <= i < |st.queue| && InPool(st, st.queue[i], pool);
      assert st.queue[i] in st.queue;
    } else {
      var t: Task :| t in ActiveIn(st, pool);
    }
  }

  /** An abort listener announces its own pool if nothing is left there, and leaves every other pool alone. */
  lemma AbortAnnounces(c: Config, st: State, t: Task, pool: PoolName)
    requires Inv(c, st) && Known(st, t)
    ensures var st' := Abort(c, st, t);
            if st.tasks[t].pool == pool then
              && st'.settlers == (if Announces(st', pool) then Resolve(st.settlers, pool) else st.settlers)
              && (Announces(st, pool) ==> Announces(st', pool))
            else
              && (Announces(st', pool) <==> Announces(st, pool))
              && (st'.settlers == st.settlers || st'.settlers == Resolve(st.settlers, st.tasks[t].pool))
  {
    var st' := Abort(c, st, t);
    AbortKeepsTasks(c, st, t);
    RemovedFrom(c, st, t);
    if t in st.active {
      ActiveAbortMoves(c, st, t);
      var k := FirstQueued(st, st.tasks[t].pool, 0);
      if k < |st.queue| { StartedOne(c, st, k); }
    } else {
      IdleAbortMoves(c, st, t);
    }
    var done := ProcessPool(c, Dropped(st, t), st.tasks[t].pool);
    assert done.settlers == st.settlers;
    assert Announces(done, pool) == Announces(st', pool) by { SettlersApart(done, st', pool); }
    hide Inv, Abort, Dropped, ProcessPool, Remove, Without;
    NobodyIn(st, pool);
    NobodyIn(st', pool);
    assert forall u: Task :: InPool(st, u, pool) <==> InPool(st', u, pool);
  }

  lemma SettlersApart(st: State, st': State, pool: PoolName)
    requires st' == st.(settlers := st'.settlers)
    ensures Announces(st, pool) <==> Announces(st', pool)
  {
    NobodyIn(st, pool);
    NobodyIn(st', pool);
    assert forall u: Task :: InPool(st, u, pool) <==> InPool(st', u, pool);
  }

  ghost predicate TouchedFrom(st: State, s: Signal, n: nat, pool: PoolName) {
    exists t: Task :: t >= n && InPool(st, t, pool) && HasSignal(st, t, s)
  }

  ghost predicate SameSettler(st: State, st': State, k: nat) {
    k < |st.settlers| && |st'.settlers| == |st.settlers| && st'.settlers[k].pool == st.settlers[k].pool
  }

  lemma {:induction false} ListenersSettle(c: Config, st: State, s: Signal, n: nat, k: nat)
    requires Inv(c, st) && n <= |st.tasks| && k < |st.settlers|
    ensures var end, pool := Listeners(c, st, s, n), st.settlers[k].pool;
            && SameSettler(st, end, k)
            && (st.settlers[k].resolved ==> end.settlers[k].resolved)
            && (!st.settlers[k].resolved ==>
                  (end.settlers[k].resolved <==> TouchedFrom(st, s, n, pool) && Announces(end, pool)))
            && (Announces(st, pool) ==> Announces(end, pool))
            && (!TouchedFrom(st, s, n, pool) ==> (Announces(end, pool) <==> Announces(st, pool)))
    decreases |st.tasks| - n
  {
    hide Inv, Abort, Listeners, Announces;
    OneListener(c, st, s, n);
    if n < |st.tasks| {
      var next, pool := if HasSignal(st, n, s) then Abort(c, st, n) else st, st.settlers[k].pool;
      if HasSignal(st, n, s) {
        AbortKeepsInv(c, st, n);
        AbortKeepsTasks(c, st, n);
        AbortAnnounces(c, st, n, pool);
      }
      ListenersSettle(c, next, s, n + 1, k);
      TouchedNext(st, next, s, n, pool);
    }
  }

  lemma TouchedNext(st: State, next: State, s: Signal, n: nat, pool: PoolName)
    requires SameKinds(st, next) && n < |st.tasks|
    ensures TouchedFrom(st, s, n, pool) <==>
            TouchedFrom(next, s, n + 1, pool) || (HasSignal(st, n, s) && st.tasks[n].pool == pool)
  {
    if TouchedFrom(next, s, n + 1, pool) {
      var t: Task :| t >= n + 1 && InPool(next, t, pool) && HasSignal(next, t, s);
      assert InPool(st, t, pool) && HasSignal(st, t, s);
    }
    if TouchedFrom(st, s, n, pool) {
      var t: Task :| t >= n && InPool(st, t, pool) && HasSignal(st, t, s);
      assert InPool(next, t, pool) && HasSignal(next, t, s);
    }
    assert HasSignal(st, n, s) && st.tasks[n].pool == pool ==> InPool(st, n, pool);
  }

  /** Giving the freed slot on takes nothing from an announced pool, and never leaves a pool with tasks announced. */
  lemma ProcessAnnounces(c: Config, st: State, pool: PoolName, p: PoolName)
    ensures Announces(ProcessPool(c, st, pool), p) ==> Announces(st, p)
    ensures Announces(st, p) ==> Announces(ProcessPool(c, st, pool), p)
  {
    var st' := ProcessPool(c, st, pool);
    NobodyIn(st, p);
    NobodyIn(st', p);
    var k := FirstQueued(st, pool, 0);
    if st' != st {
      var t := st.queue[k];
      assert t in st.queue && t in st'.active;
      assert forall x :: x in st'.queue ==> x in st.queue;
      assert forall u: Task :: InPool(st, u, p) <==> InPool(st', u, p);
      forall u: Task | u in st.queue && u != t ensures u in st'.queue {
        var i :| 0 <= i < |st.queue| && st.queue[i] == u;
        assert u == st'.queue[if i < k then i else i - 1];
      }
    }
  }

  lemma FinishSettles(c: Config, mid: State, t: Task, k: nat)
    requires Known(mid, t) && k < |mid.settlers| && !mid.settlers[k].resolved
    ensures var end, pool := Finish(c, mid, t), mid.settlers[k].pool;
            && SameSettler(mid, end, k)
            && (end.settlers[k].resolved <==> mid.tasks[t].pool == pool && Announces(end, pool))
  {
    var free, pool := Freed(mid, t), mid.settlers[k].pool;
    var told := TryToSettle(free, mid.tasks[t].pool);
    ProcessAnnounces(c, told, mid.tasks[t].pool, pool);
    ProcessKeepsTasks(c, told, mid.tasks[t].pool);
    SettlersApart(free, told, pool);
    hide ProcessPool, Announces;
  }

  /**
   * A caller of `settle` that waits is answered by exactly those events that end a task of its pool, or run the
   * abort listener of one, and leave nothing active or queued there.
   */
  lemma SettlesIff(c: Config, st: State, e: Event, k: nat)
    requires Sound(c, st) && Enabled(st, e) && k < |st.settlers| && !st.settlers[k].resolved
    ensures var st', pool := Next(c, st, e), st.settlers[k].pool;
            && k < |st'.settlers| && st'.settlers[k].pool == pool
            && (st'.settlers[k].resolved <==> Touches(st, e, pool) && Announces(st', pool))
  {
    hide Announces, Inv, ProcessPool, Listeners;
    match e
    case Succeeded(t) => FinishSettles(c, Settle(st, t, Resolved), t, k);
    case Failed(t, error) => FinishSettles(c, HandleError(c, st, t, error), t, k);
    case SignalFires(s) =>
      var fired := st.(fired := st.fired + {s});
      RecordsKeepInv(c, st, fired);
      ListenersSettle(c, fired, s, 0, k);
      TouchedAtAll(st, fired, s, st.settlers[k].pool);
    case Called(pool, signal) => CallSettles(c, st, pool, signal);
    case RetryTimer(t) =>
      ProcessKeepsTasks(c, st.(waiting := st.waiting - {t}, queue := st.queue + [t]), st.tasks[t].pool);
    case SettleCalled(_) =>
  }

  lemma RecordsKeepInv(c: Config, st: State, st': State)
    requires Inv(c, st) && st' == st.(settlers := st'.settlers, fired := st'.fired)
    ensures Inv(c, st')
  {
    RecordsOnly(c, st, st');
  }

  lemma TouchedAtAll(st: State, fired: State, s: Signal, pool: PoolName)
    requires fired == st.(fired := fired.fired)
    ensures TouchedFrom(fired, s, 0, pool) <==> Touches(st, SignalFires(s), pool)
  {
    if t: Task :| t >= 0 && InPool(fired, t, pool) && HasSignal(fired, t, s) {
      assert InPool(st, t, pool) && HasSignal(st, t, s);
    }
    if t: Task :| InPool(st, t, pool) && HasSignal(st, t, s) {
      assert InPool(fired, t, pool) && HasSignal(fired, t, s);
    }
  }

  lemma CallSettles(c: Config, st: State, pool: PoolName, signal: Option<Signal>)
    ensures Call(c, st, pool, signal).settlers == st.settlers
  {
  }

  lemma SettleIsRecorded(c: Config, st: State, pool: PoolName)
    ensures Next(c, st, SettleCalled(pool)) == CallSettle(st, pool)
  {
  }

  /** A call is answered at once exactly when no pool at all has anything active or queued. */
  lemma {:induction false} SettleWaitsForItsPool(c: Config, sts: seq<State>, events: seq<Event>, i: nat, j: nat)
    requires Behaviour(c, sts, events) && i < j < |sts| && events[i].SettleCalled?
    requires forall k :: i < k < j ==> !Touches(sts[k], events[k], events[i].pool)
    ensures var k := |sts[i].settlers|;
            && k < |sts[j].settlers| && sts[j].settlers[k].pool == events[i].pool
            && (sts[j].settlers[k].resolved <==> sts[i].queue == [] && sts[i].active == {})
    decreases j
  {
    hide Sound, Next, Touches, Announces;
    var k := |sts[i].settlers|;
    assert Enabled(sts[j - 1], events[j - 1]);
    if i + 1 == j {
      SettleIsRecorded(c, sts[i], events[i].pool);
    } else {
      SettleWaitsForItsPool(c, sts, events, i, j - 1);
      AlwaysSafe(c, sts, events, j - 1);
      if sts[j - 1].settlers[k].resolved {
        ResolvedStays(c, sts[j - 1], events[j - 1], k);
      } else {
        SettlesIff(c, sts[j - 1], events[j - 1], k);
      }
    }
  }

  /** So a caller waits for a pool that is idle already if another one is not. */
  lemma IdlePoolKeepsWaiting()
    ensures var c := Config(1, 0);
            var st := Next(c, Next(c, Idle, Called(0, None)), SettleCalled(1));
            && Announces(st, 1) && |st.settlers| == 1 && st.settlers[0] == Settler(1, false)
  {
    var c, one := Config(1, 0), State([0], {}, {}, {}, [Info(0, None, 0, 0, false, None)], {}, []);
    assert ActiveIn(one, 0) == {};
    var started := Next(c, Idle, Called(0, None));
    assert started == State([], {0}, {}, {0}, [Info(0, None, 0, 1, false, None)], {}, []);
  }

  lemma ResolvedStays(c: Config, st: State, e: Event, k: nat)
    requires Sound(c, st) && Enabled(st, e) && k < |st.settlers| && st.settlers[k].resolved
    ensures var st' := Next(c, st, e);
            k < |st'.settlers| && st'.settlers[k].pool == st.settlers[k].pool && st'.settlers[k].resolved
  {
    hide Announces, Inv, Listeners;
    if e.SignalFires? {
      var fired := st.(fired := st.fired + {e.s});
      RecordsKeepInv(c, st, fired);
      ListenersSettle(c, fired, e.s, 0, k);
    }
  }

  lemma QueuedByMember(st: State, t: Task, pool: PoolName)
    requires InPool(st, t, pool)
    ensures t in st.queue ==> Queued(st, pool)
  {
  }

  /** The announcement means that every promise of the pool is settled exactly when no retry timer is pending. */
  lemma AnnouncedMeansSettled(c: Config, st: State, pool: PoolName)
    requires Inv(c, st) && Announces(st, pool)
    ensures (forall t: Task :: InPool(st, t, pool) ==> st.tasks[t].outcome.Some?)
            <==> (forall t: Task :: InPool(st, t, pool) ==> t !in st.waiting)
  {
    forall t: Task | InPool(st, t, pool) ensures st.tasks[t].outcome.Some? <==> t !in st.waiting {
      assert Placed(c, st, t);
      assert t in st.active ==> t in ActiveIn(st, pool);
      QueuedByMember(st, t, pool);
    }
  }

  /** It is announced too early whenever the last task fails with a retry to go. */
  lemma AnnouncedTooEarly(error: Failure)
    ensures var c := Config(1, 1);
            var st := Next(c, Next(c, Idle, Called(0, None)), Failed(0, error));
            Announces(st, 0) && InPool(st, 0, 0) && st.tasks[0].outcome.None?
  {
  }
}