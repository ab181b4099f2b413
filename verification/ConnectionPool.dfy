/**
 * Reference-counted clients with delayed destruction
 * (packages/host-substrate-chain-connection/src/connectionPool.ts and refCounter.ts).
 */
module ConnectionPool {
  import opened Common

  type Chain = string
  type ClientId = nat
  type TimerId = nat
  type LockId = nat

  /**
   * `timers` is the pool's own table, `armed` the timers that may still fire; `destroyed` logs every client the
   * pool destroyed.
   */
  datatype Pool = Pool(
    refs: map<Chain, nat>,
    clients: map<Chain, ClientId>,
    timers: map<Chain, TimerId>,
    armed: map<TimerId, Chain>,
    nextClient: ClientId,
    nextTimer: TimerId,
    destroyed: seq<ClientId>)

  const EmptyPool := Pool(map[], map[], map[], map[], 0, 0, [])

  function Refs(p: Pool, chain: Chain): nat {
    if chain in p.refs then p.refs[chain] else 0
  }

  function Increment(p: Pool, chain: Chain): Pool {
    p.(refs := p.refs[chain := Refs(p, chain) + 1])
  }

  function Decrement(p: Pool, chain: Chain): Pool {
    if Refs(p, chain) == 0 then p else p.(refs := p.refs[chain := Refs(p, chain) - 1])
  }

  function CancelTimer(p: Pool, chain: Chain): Pool {
    if chain in p.timers then p.(armed := p.armed - {p.timers[chain]}, timers := p.timers - {chain}) else p
  }

  function Destroy(p: Pool, chain: Chain): Pool {
    var p' := CancelTimer(p, chain);
    if chain in p.clients
    then p'.(clients := p.clients - {chain}, destroyed := p.destroyed + [p.clients[chain]])
    else p'
  }

  /** `factoryWorks` says whether building a client for the chain would succeed. */
  function Acquire(delay: int, p: Pool, chain: Chain, factoryWorks: bool): (Pool, Option<ClientId>) {
    var p1 := Increment(if delay > 0 then CancelTimer(p, chain) else p, chain);
    if chain in p1.clients then (p1, Some(p1.clients[chain]))
    else if factoryWorks then
      (p1.(clients := p1.clients[chain := p1.nextClient], nextClient := p1.nextClient + 1), Some(p1.nextClient))
    else
      var p2 := Decrement(p1, chain);
      (if Refs(p2, chain) == 0 then Destroy(p2, chain) else p2, None)
  }

  function Unlock(delay: int, p: Pool, chain: Chain): Pool {
    var p1 := Decrement(p, chain);
    if Refs(p1, chain) != 0 then p1
    else if delay == 0 then Destroy(p1, chain)
    else p1.(armed := p1.armed[p1.nextTimer := chain], timers := p1.timers[chain := p1.nextTimer],
                 nextTimer := p1.nextTimer + 1)
  }

  function TimerFires(p: Pool, timer: TimerId): Pool
    requires timer in p.armed
  {
    Destroy(p.(armed := p.armed - {timer}), p.armed[timer])
  }

  // ---- the pool as it runs ---------------------------------------------------------------------

  class ConnectionTable {
    const destroyDelay: int
    var refs: map<Chain, nat>
    var clients: map<Chain, ClientId>
    var timers: map<Chain, TimerId>
    var armed: map<TimerId, Chain>
    var nextClient: ClientId
    var nextTimer: TimerId
    var destroyed: seq<ClientId>

    function AsPool(): Pool
      reads this
    {
      Pool(refs, clients, timers, armed, nextClient, nextTimer, destroyed)
    }

    constructor (destroyDelay: int)
      ensures AsPool() == EmptyPool && this.destroyDelay == destroyDelay
    {
      this.destroyDelay := destroyDelay;
      refs, clients, timers, armed, nextClient, nextTimer, destroyed := map[], map[], map[], map[], 0, 0, [];
    }

    method IncrementRefs(chain: Chain) returns (count: nat)
      modifies this`refs
      ensures AsPool() == Increment(old(AsPool()), chain) && count == Refs(AsPool(), chain)
    {
      count := (if chain in refs then refs[chain] else 0) + 1;
      refs := refs[chain := count];
    }

    method DecrementRefs(chain: Chain) returns (count: nat)
      modifies this`refs
      ensures AsPool() == Decrement(old(AsPool()), chain) && count == Refs(AsPool(), chain)
    {
      count := if chain in refs then refs[chain] else 0;
      if count == 0 { return; }
      count := count - 1;
      refs := refs[chain := count];
    }

    method CancelDestructionTimer(chain: Chain)
      modifies this`armed, this`timers
      ensures AsPool() == CancelTimer(old(AsPool()), chain)
    {
      if chain in timers {
        armed := armed - {timers[chain]};
        timers := timers - {chain};
      }
    }

    method DestroyClient(chain: Chain)
      modifies this
      ensures AsPool() == Destroy(old(AsPool()), chain)
    {
      CancelDestructionTimer(chain);
      if chain in clients {
        destroyed := destroyed + [clients[chain]];
        clients := clients - {chain};
      }
    }

    method RawAcquire(chain: Chain, factoryWorks: bool) returns (client: Option<ClientId>)
      modifies this
      ensures (AsPool(), client) == Acquire(destroyDelay, old(AsPool()), chain, factoryWorks)
    {
      if destroyDelay > 0 { CancelDestructionTimer(chain); }
      var count := IncrementRefs(chain);
      if chain in clients {
        client := Some(clients[chain]);
      } else if factoryWorks {
        client := Some(nextClient);
        clients := clients[chain := nextClient];
        nextClient := nextClient + 1;
      } else {
        client := None;
        count := DecrementRefs(chain);
        if count == 0 { DestroyClient(chain); }
      }
    }

    method Release(chain: Chain)
      modifies this
      ensures AsPool() == Unlock(destroyDelay, old(AsPool()), chain)
    {
      var count := DecrementRefs(chain);
      if count == 0 {
        if destroyDelay == 0 {
          DestroyClient(chain);
        } else {
          armed := armed[nextTimer := chain];
          timers := timers[chain := nextTimer];
          nextTimer := nextTimer + 1;
        }
      }
    }

    method OnTimer(timer: TimerId)
      requires timer in armed
      modifies this
      ensures AsPool() == TimerFires(old(AsPool()), timer)
    {
      var chain := armed[timer];
      armed := armed - {timer};
      DestroyClient(chain);
    }
  }

  // ---- consumers -------------------------------------------------------------------------------

  datatype Lock = Lock(chain: Chain, client: ClientId)

  /** What a provider made by `getProvider` does with its lock. */
  datatype Consumer = Acquiring(lock: LockId, torn: bool) | Holding(lock: LockId) | Done

  /** `locks` are the locks handed out and not yet released. */
  datatype World = World(pool: Pool, locks: map<LockId, Lock>, nextLock: LockId, consumers: seq<Consumer>)

  const FreshWorld := World(EmptyPool, map[], 0, [])

  datatype Action =
    | LockApi(chain: Chain, factoryWorks: bool)
    | UnlockApi(lock: LockId)
    | Connect(chain: Chain, factoryWorks: bool)
    | AcquireResolves(k: nat)
    | TearDown(k: nat)
    | Disconnect(k: nat)
    | Fire(timer: TimerId)

  /** A caller of `lockApi` releases its own lock, once; a consumer may tear down or disconnect as often as it likes. */
  predicate Enabled(w: World, act: Action) {
    match act
    case UnlockApi(lock) => lock in w.locks && forall k :: 0 <= k < |w.consumers| ==> !Uses(w.consumers[k], lock)
    case AcquireResolves(k) => k < |w.consumers| && w.consumers[k].Acquiring?
    case TearDown(k) => k < |w.consumers|
    case Disconnect(k) => k < |w.consumers| && !w.consumers[k].Acquiring?
    case Fire(timer) => timer in w.pool.armed
    case _ => true
  }

  predicate Uses(c: Consumer, lock: LockId) {
    !c.Done? && c.lock == lock
  }

  function Lend(delay: int, w: World, chain: Chain, factoryWorks: bool): World {
    var r := Acquire(delay, w.pool, chain, factoryWorks);
    if r.1.None? then w.(pool := r.0)
    else w.(pool := r.0, locks := w.locks[w.nextLock := Lock(chain, r.1.value)], nextLock := w.nextLock + 1)
  }

  function Return(delay: int, w: World, lock: LockId): World {
    if lock in w.locks
    then w.(pool := Unlock(delay, w.pool, w.locks[lock].chain), locks := w.locks - {lock})
    else w
  }

  function ReleaseUnlock(delay: int, w: World, k: nat): World
    requires k < |w.consumers|
  {
    if w.consumers[k].Holding?
    then Return(delay, w, w.consumers[k].lock).(consumers := w.consumers[k := Done])
    else w
  }

  function Next(delay: int, w: World, act: Action): World
    requires Enabled(w, act)
  {
    match act
    case LockApi(chain, factoryWorks) => Lend(delay, w, chain, factoryWorks)
    case UnlockApi(lock) => Return(delay, w, lock)
    case Connect(chain, factoryWorks) =>
      var w' := Lend(delay, w, chain, factoryWorks);
      w'.(consumers := w.consumers + [if w'.nextLock == w.nextLock then Done else Acquiring(w.nextLock, false)])
    case AcquireResolves(k) =>
      var c := w.consumers[k];
      if c.torn then Return(delay, w, c.lock).(consumers := w.consumers[k := Done])
      else w.(consumers := w.consumers[k := Holding(c.lock)])
    case TearDown(k) =>
      if w.consumers[k].Acquiring? then w.(consumers := w.consumers[k := w.consumers[k].(torn := true)])
      else ReleaseUnlock(delay, w, k)
    case Disconnect(k) => ReleaseUnlock(delay, w, k)
    case Fire(timer) => w.(pool := TimerFires(w.pool, timer))
  }

  // ---- invariant -------------------------------------------------------------------------------

  function LocksOn(locks: map<LockId, Lock>, chain: Chain): set<LockId> {
    set l | l in locks && locks[l].chain == chain
  }

  /** The count of a chain is the number of its outstanding locks. */
  ghost predicate Counted(p: Pool, locks: map<LockId, Lock>) {
    forall chain :: Refs(p, chain) == |LocksOn(locks, chain)|
  }

  /** A client exists exactly while its chain is held or waits out its delay, and only an unheld chain waits. */
  ghost predicate ClientsKept(delay: int, p: Pool) {
    forall chain ::
      && (chain in p.clients <==> Refs(p, chain) > 0 || chain in p.timers)
      && (chain in p.timers ==> Refs(p, chain) == 0 && delay > 0)
  }

  /** The table holds every timer that may fire. */
  ghost predicate TimersKept(p: Pool) {
    && (forall t: TimerId :: t in p.armed ==> p.armed[t] in p.timers && p.timers[p.armed[t]] == t && t < p.nextTimer)
    && (forall chain :: chain in p.timers ==> p.timers[chain] in p.armed && p.armed[p.timers[chain]] == chain)
  }

  ghost predicate Distinct(s: seq<nat>) {
    forall i, j :: 0 <= i < j < |s| ==> s[i] != s[j]
  }

  ghost predicate ClientsFresh(p: Pool) {
    && (forall chain :: chain in p.clients ==> p.clients[chain] < p.nextClient && p.clients[chain] !in p.destroyed)
    && (forall a, b :: a in p.clients && b in p.clients && p.clients[a] == p.clients[b] ==> a == b)
    && (forall c: ClientId :: c in p.destroyed ==> c < p.nextClient)
    && Distinct(p.destroyed)
  }

  ghost predicate PoolInv(delay: int, p: Pool) {
    ClientsKept(delay, p) && TimersKept(p) && ClientsFresh(p)
  }

  /** Every lock is for the client its chain has now. */
  ghost predicate LocksCurrent(p: Pool, locks: map<LockId, Lock>) {
    forall l: LockId :: l in locks ==> locks[l].chain in p.clients && p.clients[locks[l].chain] == locks[l].client
  }

  ghost predicate ConsumersOk(w: World) {
    && (forall l: LockId :: l in w.locks ==> l < w.nextLock)
    && (forall k :: 0 <= k < |w.consumers| && !w.consumers[k].Done? ==> w.consumers[k].lock in w.locks)
    && (forall j, k :: 0 <= j < k < |w.consumers| && !w.consumers[j].Done? ==>
          !Uses(w.consumers[k], w.consumers[j].lock))
  }

  ghost predicate WorldOk(delay: int, w: World) {
    PoolInv(delay, w.pool) && Counted(w.pool, w.locks) && LocksCurrent(w.pool, w.locks)
  }

  ghost predicate Inv(delay: int, w: World) {
    WorldOk(delay, w) && ConsumersOk(w)
  }

  lemma FreshWorldIsSafe(delay: int)
    ensures Inv(delay, FreshWorld)
  {
  }

  lemma DestroyKeeps(p: Pool, chain: Chain)
    requires TimersKept(p) && ClientsFresh(p)
    ensures TimersKept(Destroy(p, chain)) && ClientsFresh(Destroy(p, chain))
  {
  }

  lemma CancelKeeps(p: Pool, chain: Chain)
    requires TimersKept(p) && ClientsFresh(p)
    ensures TimersKept(CancelTimer(p, chain)) && ClientsFresh(CancelTimer(p, chain))
  {
  }

  lemma ArmKeeps(p: Pool, chain: Chain)
    requires TimersKept(p) && chain !in p.timers
    ensures TimersKept(p.(armed := p.armed[p.nextTimer := chain], timers := p.timers[chain := p.nextTimer],
                          nextTimer := p.nextTimer + 1))
  {
  }

  lemma CreateKeeps(p: Pool, chain: Chain)
    requires ClientsFresh(p)
    ensures ClientsFresh(p.(clients := p.clients[chain := p.nextClient], nextClient := p.nextClient + 1))
  {
  }

  /** What acquiring does, once the invariant is known. */
  lemma AcquireDoes(delay: int, p: Pool, chain: Chain, factoryWorks: bool)
    requires delay >= 0 && ClientsKept(delay, p)
    ensures var r, base := Acquire(delay, p, chain, factoryWorks), CancelTimer(p, chain);
            if chain in p.clients then
              r == (base.(refs := base.refs[chain := Refs(p, chain) + 1]), Some(p.clients[chain]))
            else if factoryWorks then
              r == (p.(refs := p.refs[chain := 1], clients := p.clients[chain := p.nextClient],
                       nextClient := p.nextClient + 1),
                    Some(p.nextClient))
            else r == (p.(refs := p.refs[chain := 0]), None)
  {
    assert delay == 0 ==> chain !in p.timers;
    assert p.refs[chain := 1][chain := 0] == p.refs[chain := 0];
  }

  lemma AcquireKeepsTables(delay: int, p: Pool, chain: Chain, factoryWorks: bool)
    requires delay >= 0 && PoolInv(delay, p)
    ensures var p' := Acquire(delay, p, chain, factoryWorks).0; TimersKept(p') && ClientsFresh(p')
  {
    AcquireDoes(delay, p, chain, factoryWorks);
    hide TimersKept, ClientsFresh, ClientsKept, Acquire;
    CancelKeeps(p, chain);
    CreateKeeps(p, chain);
    TimersOnly(p, chain);
    var base := if chain in p.clients then CancelTimer(p, chain)
                else p.(clients := p.clients[chain := p.nextClient], nextClient := p.nextClient + 1);
    RefsOnly(if chain in p.clients || factoryWorks then base else p, Acquire(delay, p, chain, factoryWorks).0);
  }

  lemma AcquireKeepsPool(delay: int, p: Pool, chain: Chain, factoryWorks: bool)
    requires delay >= 0 && PoolInv(delay, p)
    ensures var r := Acquire(delay, p, chain, factoryWorks);
            && PoolInv(delay, r.0)
            && (forall c :: Refs(r.0, c) == Refs(p, c) + (if c == chain && r.1.Some? then 1 else 0))
            && (r.1.Some? ==> chain in r.0.clients && r.0.clients[chain] == r.1.value)
            && (forall c :: c in p.clients ==> c in r.0.clients && r.0.clients[c] == p.clients[c])
  {
    hide TimersKept, ClientsFresh, Acquire;
    AcquireKeepsTables(delay, p, chain, factoryWorks);
    AcquireDoes(delay, p, chain, factoryWorks);
  }

  /** The counts matter to neither the timers nor the clients. */
  lemma RefsOnly(p: Pool, p': Pool)
    requires TimersKept(p) && ClientsFresh(p) && p' == p.(refs := p'.refs)
    ensures TimersKept(p') && ClientsFresh(p')
  {
  }

  lemma TimersOnly(p: Pool, chain: Chain)
    requires TimersKept(p)
    ensures TimersKept(p.(clients := p.clients[chain := p.nextClient], nextClient := p.nextClient + 1))
  {
  }

  lemma FreshOnly(p: Pool, p': Pool)
    requires ClientsFresh(p) && p' == p.(armed := p'.armed, timers := p'.timers, nextTimer := p'.nextTimer)
    ensures ClientsFresh(p')
  {
  }

  lemma UnlockKeepsPool(delay: int, p: Pool, chain: Chain)
    requires delay >= 0 && PoolInv(delay, p) && Refs(p, chain) > 0
    ensures var p' := Unlock(delay, p, chain);
            && PoolInv(delay, p')
            && (forall c :: Refs(p', c) == Refs(p, c) - (if c == chain then 1 else 0))
            && (forall c :: c in p.clients && Refs(p', c) > 0 ==> c in p'.clients && p'.clients[c] == p.clients[c])
  {
    hide TimersKept, ClientsFresh;
    var p1 := Decrement(p, chain);
    RefsOnly(p, p1);
    assert chain !in p.timers;
    DestroyKeeps(p1, chain);
    ArmKeeps(p1, chain);
    FreshOnly(p1, p1.(armed := p1.armed[p1.nextTimer := chain], timers := p1.timers[chain := p1.nextTimer],
                      nextTimer := p1.nextTimer + 1));
  }

  lemma FireKeepsPool(delay: int, p: Pool, timer: TimerId)
    requires PoolInv(delay, p) && timer in p.armed
    ensures var p' := TimerFires(p, timer);
            && PoolInv(delay, p')
            && (forall c :: Refs(p', c) == Refs(p, c))
            && (forall c :: c in p.clients && Refs(p', c) > 0 ==> c in p'.clients && p'.clients[c] == p.clients[c])
  {
  }

  lemma LentCounts(locks: map<LockId, Lock>, l: LockId, lock: Lock)
    requires l !in locks
    ensures forall chain ::
              |LocksOn(locks[l := lock], chain)| == |LocksOn(locks, chain)| + (if chain == lock.chain then 1 else 0)
  {
    forall chain
      ensures |LocksOn(locks[l := lock], chain)| == |LocksOn(locks, chain)| + (if chain == lock.chain then 1 else 0)
    {
      assert LocksOn(locks[l := lock], chain) == LocksOn(locks, chain) + (if chain == lock.chain then {l} else {});
    }
  }

  lemma ReturnedCounts(locks: map<LockId, Lock>, l: LockId)
    requires l in locks
    ensures forall chain ::
              |LocksOn(locks - {l}, chain)| == |LocksOn(locks, chain)| - (if chain == locks[l].chain then 1 else 0)
  {
    forall chain
      ensures |LocksOn(locks - {l}, chain)| == |LocksOn(locks, chain)| - (if chain == locks[l].chain then 1 else 0)
    {
      assert LocksOn(locks, chain) == LocksOn(locks - {l}, chain) + (if chain == locks[l].chain then {l} else {});
    }
  }

  lemma HeldIsCounted(p: Pool, locks: map<LockId, Lock>, l: LockId)
    requires Counted(p, locks) && l in locks
    ensures Refs(p, locks[l].chain) > 0
  {
    assert l in LocksOn(locks, locks[l].chain);
  }

  lemma LendKeeps(delay: int, w: World, chain: Chain, factoryWorks: bool)
    requires delay >= 0 && WorldOk(delay, w) && forall l: LockId :: l in w.locks ==> l < w.nextLock
    ensures WorldOk(delay, Lend(delay, w, chain, factoryWorks))
  {
    hide PoolInv, Acquire, Refs, LocksOn;
    AcquireKeepsPool(delay, w.pool, chain, factoryWorks);
    var r := Acquire(delay, w.pool, chain, factoryWorks);
    if r.1.Some? { LentCounts(w.locks, w.nextLock, Lock(chain, r.1.value)); }
  }

  lemma ReturnKeeps(delay: int, w: World, lock: LockId)
    requires delay >= 0 && WorldOk(delay, w)
    ensures WorldOk(delay, Return(delay, w, lock))
  {
    hide PoolInv, Unlock, Refs, LocksOn;
    if lock in w.locks {
      HeldIsCounted(w.pool, w.locks, lock);
      UnlockKeepsPool(delay, w.pool, w.locks[lock].chain);
      ReturnedCounts(w.locks, lock);
      var w' := Return(delay, w, lock);
      assert Counted(w'.pool, w'.locks);
      forall l: LockId | l in w'.locks
        ensures w'.locks[l].chain in w'.pool.clients && w'.pool.clients[w'.locks[l].chain] == w'.locks[l].client
      {
        HeldIsCounted(w'.pool, w'.locks, l);
      }
    }
  }

  lemma FireKeeps(delay: int, w: World, timer: TimerId)
    requires WorldOk(delay, w) && timer in w.pool.armed
    ensures WorldOk(delay, w.(pool := TimerFires(w.pool, timer)))
  {
    hide PoolInv, TimerFires, Refs, LocksOn;
    FireKeepsPool(delay, w.pool, timer);
    var p' := TimerFires(w.pool, timer);
    assert Counted(p', w.locks);
    forall l: LockId | l in w.locks
      ensures w.locks[l].chain in p'.clients && p'.clients[w.locks[l].chain] == w.locks[l].client
    {
      HeldIsCounted(p', w.locks, l);
    }
  }

  lemma NextKeepsInv(delay: int, w: World, act: Action)
    requires delay >= 0 && Inv(delay, w) && Enabled(w, act)
    ensures Inv(delay, Next(delay, w, act))
  {
    NextKeepsConsumers(delay, w, act);
    NextKeepsPool(delay, w, act);
  }

  lemma NextKeepsPool(delay: int, w: World, act: Action)
    requires delay >= 0 && Inv(delay, w) && Enabled(w, act)
    ensures WorldOk(delay, Next(delay, w, act))
  {
    hide PoolInv, Counted, LocksCurrent, Lend, Unlock, TimerFires;
    match act
    case LockApi(chain, factoryWorks) => LendKeeps(delay, w, chain, factoryWorks);
    case Connect(chain, factoryWorks) => LendKeeps(delay, w, chain, factoryWorks);
    case UnlockApi(lock) => ReturnKeeps(delay, w, lock);
    case AcquireResolves(k) => ReturnKeeps(delay, w, w.consumers[k].lock);
    case TearDown(k) => if w.consumers[k].Holding? { ReturnKeeps(delay, w, w.consumers[k].lock); }
    case Disconnect(k) => if w.consumers[k].Holding? { ReturnKeeps(delay, w, w.consumers[k].lock); }
    case Fire(timer) => FireKeeps(delay, w, timer);
  }

  lemma NextKeepsConsumers(delay: int, w: World, act: Action)
    requires ConsumersOk(w) && Enabled(w, act)
    ensures ConsumersOk(Next(delay, w, act))
  {
    hide Acquire, Unlock, TimerFires;
  }

  // ---- whole runs ------------------------------------------------------------------------------

  ghost predicate Behaviour(delay: int, ws: seq<World>, acts: seq<Action>) {
    && |ws| == |acts| + 1
    && ws[0] == FreshWorld
    && forall k :: 0 <= k < |acts| ==> Enabled(ws[k], acts[k]) && ws[k + 1] == Next(delay, ws[k], acts[k])
  }

  lemma {:induction false} AlwaysSafe(delay: int, ws: seq<World>, acts: seq<Action>, i: nat)
    requires delay >= 0 && Behaviour(delay, ws, acts) && i < |ws|
    ensures Inv(delay, ws[i])
  {
    hide Inv, Next;
    if i == 0 {
      FreshWorldIsSafe(delay);
    } else {
      AlwaysSafe(delay, ws, acts, i - 1);
      NextKeepsInv(delay, ws[i - 1], acts[i - 1]);
    }
  }

  /** The counts are the outstanding locks; a client exists exactly while it is held or waits out its delay. */
  lemma ClientLifetime(delay: int, ws: seq<World>, acts: seq<Action>, i: nat, chain: Chain)
    requires delay >= 0 && Behaviour(delay, ws, acts) && i < |ws|
    ensures var p := ws[i].pool;
            && Refs(p, chain) == |LocksOn(ws[i].locks, chain)|
            && (chain in p.clients <==> LocksOn(ws[i].locks, chain) != {} || chain in p.timers)
            && (chain in p.timers ==> LocksOn(ws[i].locks, chain) == {})
            && Distinct(p.destroyed)
  {
    AlwaysSafe(delay, ws, acts, i);
    hide TimersKept, LocksCurrent, ConsumersOk;
  }

  /** Whoever holds a lock holds a client that has not been destroyed. */
  ghost predicate HeldAlive(w: World) {
    forall l: LockId :: l in w.locks ==> w.locks[l].client !in w.pool.destroyed
  }

  ghost predicate HeldAlwaysAlive(delay: int) {
    forall ws: seq<World>, acts: seq<Action>, i :: Behaviour(delay, ws, acts) && 0 <= i < |ws| ==> HeldAlive(ws[i])
  }

  lemma InvKeepsHeldAlive(delay: int, w: World)
    requires Inv(delay, w)
    ensures HeldAlive(w)
  {
  }

  /** No held client is ever destroyed, exactly when the configured delay is not negative. */
  lemma HeldClientsSurviveIff(delay: int)
    ensures HeldAlwaysAlive(delay) <==> delay >= 0
  {
    if delay >= 0 {
      forall ws: seq<World>, acts: seq<Action>, i | Behaviour(delay, ws, acts) && 0 <= i < |ws|
        ensures HeldAlive(ws[i])
      {
        AlwaysSafe(delay, ws, acts, i);
        InvKeepsHeldAlive(delay, ws[i]);
      }
    } else {
      NegativeDelayDestroys(delay);
    }
  }

  const HeldOnce := World(Pool(map["a" := 1], map["a" := 0], map[], map[], 1, 0, []), map[0 := Lock("a", 0)], 1, [])

  const Waiting := World(Pool(map["a" := 0], map["a" := 0], map["a" := 0], map[0 := "a"], 1, 1, []), map[], 1, [])

  const HeldAgain := World(Waiting.pool.(refs := map["a" := 1]), map[1 := Lock("a", 0)], 2, [])

  const CutOff := World(Pool(map["a" := 1], map[], map[], map[], 1, 1, [0]), map[1 := Lock("a", 0)], 2, [])

  lemma NegativeDelaySteps(delay: int)
    requires delay < 0
    ensures Next(delay, FreshWorld, LockApi("a", true)) == HeldOnce
    ensures Next(delay, HeldOnce, UnlockApi(0)) == Waiting
    ensures Next(delay, Waiting, LockApi("a", true)) == HeldAgain
  {
  }

  lemma TimerCutsOff(delay: int)
    ensures Next(delay, HeldAgain, Fire(0)) == CutOff
    ensures !HeldAlive(CutOff)
  {
    assert CutOff.pool.destroyed[0] == CutOff.locks[1].client;
  }

  /** With a negative delay the next holder does not cancel the timer, and the timer destroys its client. */
  lemma NegativeDelayDestroys(delay: int)
    requires delay < 0
    ensures !HeldAlwaysAlive(delay)
  {
    NegativeDelaySteps(delay);
    TimerCutsOff(delay);
    hide Next, HeldAlive;
    var acts := [LockApi("a", true), UnlockApi(0), LockApi("a", true), Fire(0)];
    var ws := [FreshWorld, HeldOnce, Waiting, HeldAgain, CutOff];
    assert Behaviour(delay, ws, acts);
    assert !HeldAlive(ws[4]);
  }

  /** Releasing the last lock and locking again at once: only without a delay does it destroy the client. */
  lemma ReleaseThenReacquire(delay: int, w: World, lock: LockId, factoryWorks: bool)
    requires delay >= 0 && Inv(delay, w) && lock in w.locks
    requires LocksOn(w.locks, w.locks[lock].chain) == {lock}
    ensures var r := Acquire(delay, Unlock(delay, w.pool, w.locks[lock].chain), w.locks[lock].chain, factoryWorks);
            if delay > 0 then r.1 == Some(w.locks[lock].client) && r.0.destroyed == w.pool.destroyed
            else r.1 != Some(w.locks[lock].client) && r.0.destroyed == w.pool.destroyed + [w.locks[lock].client]
  {
  }

  /** The chain's destruction timer fires. */
  predicate TimesOut(w: World, act: Action, chain: Chain) {
    act.Fire? && act.timer in w.pool.armed && w.pool.armed[act.timer] == chain
  }

  /** Acquiring and unlocking take no client away while there is a delay. */
  lemma UnlockKeepsClients(delay: int, p: Pool, chain: Chain)
    requires delay > 0
    ensures Unlock(delay, p, chain).clients == p.clients
  {
  }

  lemma ReturnKeepsClients(delay: int, w: World, lock: LockId)
    requires delay > 0
    ensures Return(delay, w, lock).pool.clients == w.pool.clients
  {
    hide Unlock;
    if lock in w.locks { UnlockKeepsClients(delay, w.pool, w.locks[lock].chain); }
  }

  /** With a delay a client goes away only when its chain's timer fires, and then for good. */
  lemma StepKeepsClient(delay: int, w: World, act: Action, chain: Chain)
    requires delay > 0 && Inv(delay, w) && Enabled(w, act) && chain in w.pool.clients
    ensures var p, p' := w.pool, Next(delay, w, act).pool;
            if TimesOut(w, act, chain) then p.clients[chain] in p'.destroyed
            else chain in p'.clients && p'.clients[chain] == p.clients[chain]
  {
    hide Acquire, Return, PoolInv, Counted, LocksCurrent, ConsumersOk;
    match act
    case LockApi(c, works) => AcquireKeepsPool(delay, w.pool, c, works);
    case Connect(c, works) => AcquireKeepsPool(delay, w.pool, c, works);
    case UnlockApi(lock) => ReturnKeepsClients(delay, w, lock);
    case AcquireResolves(k) => ReturnKeepsClients(delay, w, w.consumers[k].lock);
    case TearDown(k) => if w.consumers[k].Holding? { ReturnKeepsClients(delay, w, w.consumers[k].lock); }
    case Disconnect(k) => if w.consumers[k].Holding? { ReturnKeepsClients(delay, w, w.consumers[k].lock); }
    case Fire(timer) =>
      var p' := Next(delay, w, act).pool;
      if TimesOut(w, act, chain) { assert p'.destroyed == w.pool.destroyed + [w.pool.clients[chain]]; }
  }

  /** Destroyed clients stay destroyed, and client ids are not drawn again. */
  ghost predicate Evolves(p: Pool, p': Pool) {
    p.destroyed <= p'.destroyed && p.nextClient <= p'.nextClient
  }

  lemma AcquireEvolves(delay: int, p: Pool, chain: Chain, factoryWorks: bool)
    ensures Evolves(p, Acquire(delay, p, chain, factoryWorks).0)
  {
  }

  lemma UnlockEvolves(delay: int, p: Pool, chain: Chain)
    ensures Evolves(p, Unlock(delay, p, chain))
  {
  }

  lemma ReturnEvolves(delay: int, w: World, lock: LockId)
    ensures Evolves(w.pool, Return(delay, w, lock).pool)
  {
    hide Unlock;
    if lock in w.locks { UnlockEvolves(delay, w.pool, w.locks[lock].chain); }
  }

  lemma StepEvolves(delay: int, w: World, act: Action)
    requires Enabled(w, act)
    ensures Evolves(w.pool, Next(delay, w, act).pool)
  {
    hide Acquire, Return;
    match act
    case LockApi(c, works) => AcquireEvolves(delay, w.pool, c, works);
    case Connect(c, works) => AcquireEvolves(delay, w.pool, c, works);
    case UnlockApi(lock) => ReturnEvolves(delay, w, lock);
    case AcquireResolves(k) => ReturnEvolves(delay, w, w.consumers[k].lock);
    case TearDown(k) => if w.consumers[k].Holding? { ReturnEvolves(delay, w, w.consumers[k].lock); }
    case Disconnect(k) => if w.consumers[k].Holding? { ReturnEvolves(delay, w, w.consumers[k].lock); }
    case Fire(timer) =>
  }

  lemma {:induction false} RunEvolves(delay: int, ws: seq<World>, acts: seq<Action>, i: nat, j: nat)
    requires Behaviour(delay, ws, acts) && i <= j < |ws|
    ensures Evolves(ws[i].pool, ws[j].pool)
  {
    hide Next;
    if i < j {
      RunEvolves(delay, ws, acts, i, j - 1);
      assert Enabled(ws[j - 1], acts[j - 1]);
      StepEvolves(delay, ws[j - 1], acts[j - 1]);
    }
  }

  ghost predicate SameClient(p: Pool, p': Pool, chain: Chain) {
    chain in p.clients && chain in p'.clients && p'.clients[chain] == p.clients[chain]
  }

  /**
   * With a delay, a chain still has its client, and whoever locks it is lent that one, exactly when its destruction
   * timer has not fired in between, whatever locks were taken and given back meanwhile.
   */
  lemma {:induction false} ReacquireKeepsClient(delay: int, ws: seq<World>, acts: seq<Action>, i: nat, j: nat,
                                                chain: Chain, factoryWorks: bool)
    requires delay > 0 && Behaviour(delay, ws, acts) && i <= j < |ws| && chain in ws[i].pool.clients
    ensures Acquire(delay, ws[j].pool, chain, factoryWorks).1 == Some(ws[i].pool.clients[chain])
            <==> SameClient(ws[i].pool, ws[j].pool, chain)
    ensures SameClient(ws[i].pool, ws[j].pool, chain)
            <==> forall k :: i <= k < j ==> !TimesOut(ws[k], acts[k], chain)
  {
    hide Next, Acquire;
    LentIffPresent(delay, ws, acts, i, j, chain, factoryWorks);
    if forall k :: i <= k < j ==> !TimesOut(ws[k], acts[k], chain) {
      KeptUntil(delay, ws, acts, i, j, chain);
    } else {
      var k := FirstTimeout(ws, acts, i, j, chain);
      KeptUntil(delay, ws, acts, i, k, chain);
      TimedOut(delay, ws, acts, k, j, chain);
    }
  }

  /** The first step of the stretch at which the chain's timer fires. */
  ghost function FirstTimeout(ws: seq<World>, acts: seq<Action>, i: nat, j: nat, chain: Chain): (k: nat)
    requires i <= j <= |acts| && |ws| == |acts| + 1
    requires exists k :: i <= k < j && TimesOut(ws[k], acts[k], chain)
    ensures i <= k < j && TimesOut(ws[k], acts[k], chain)
    ensures forall m :: i <= m < k ==> !TimesOut(ws[m], acts[m], chain)
    decreases j - i
  {
    if TimesOut(ws[i], acts[i], chain) then i else FirstTimeout(ws, acts, i + 1, j, chain)
  }

  lemma {:induction false} KeptUntil(delay: int, ws: seq<World>, acts: seq<Action>, i: nat, j: nat, chain: Chain)
    requires delay > 0 && Behaviour(delay, ws, acts) && i <= j < |ws| && chain in ws[i].pool.clients
    requires forall k :: i <= k < j ==> !TimesOut(ws[k], acts[k], chain)
    ensures SameClient(ws[i].pool, ws[j].pool, chain)
  {
    hide Next, TimesOut;
    if i < j {
      KeptUntil(delay, ws, acts, i, j - 1, chain);
      AlwaysSafe(delay, ws, acts, j - 1);
      assert Enabled(ws[j - 1], acts[j - 1]);
      StepKeepsClient(delay, ws[j - 1], acts[j - 1], chain);
    }
  }

  lemma TimedOut(delay: int, ws: seq<World>, acts: seq<Action>, k: nat, j: nat, chain: Chain)
    requires delay > 0 && Behaviour(delay, ws, acts) && k < j < |ws| && chain in ws[k].pool.clients
    requires TimesOut(ws[k], acts[k], chain)
    ensures !SameClient(ws[k].pool, ws[j].pool, chain)
  {
    hide Next, TimesOut;
    AlwaysSafe(delay, ws, acts, k);
    AlwaysSafe(delay, ws, acts, j);
    assert Enabled(ws[k], acts[k]);
    StepKeepsClient(delay, ws[k], acts[k], chain);
    RunEvolves(delay, ws, acts, k + 1, j);
    assert ws[k].pool.clients[chain] in ws[j].pool.destroyed;
  }

  lemma LentIffPresent(delay: int, ws: seq<World>, acts: seq<Action>, i: nat, j: nat, chain: Chain, works: bool)
    requires delay > 0 && Behaviour(delay, ws, acts) && i <= j < |ws| && chain in ws[i].pool.clients
    ensures Acquire(delay, ws[j].pool, chain, works).1 == Some(ws[i].pool.clients[chain])
            <==> SameClient(ws[i].pool, ws[j].pool, chain)
  {
    hide Next;
    AlwaysSafe(delay, ws, acts, i);
    AlwaysSafe(delay, ws, acts, j);
    RunEvolves(delay, ws, acts, i, j);
    AcquireDoes(delay, ws[j].pool, chain, works);
  }

  /** However often a consumer is torn down or disconnected, its lock goes back once, and then it is done for good. */
  lemma ConsumerReleasesOnce(delay: int, ws: seq<World>, acts: seq<Action>, i: nat, k: nat)
    requires delay >= 0 && Behaviour(delay, ws, acts) && i < |acts| && k < |ws[i].consumers|
    ensures k < |ws[i + 1].consumers|
    ensures var before, after := ws[i].consumers[k], ws[i + 1].consumers[k];
            && (before.Done? ==> after.Done?)
            && (!before.Done? ==> before.lock in ws[i].locks && (after.Done? <==> before.lock !in ws[i + 1].locks))
            && (acts[i] == TearDown(k) ==> after.Done? || (after.Acquiring? && after.torn))
            && (acts[i] == Disconnect(k) ==> after.Done?)
            && (before.Acquiring? && before.torn && acts[i] == AcquireResolves(k) ==> after.Done?)
  {
    AlwaysSafe(delay, ws, acts, i);
    assert Enabled(ws[i], acts[i]);
    StepReleases(delay, ws[i], acts[i], k);
  }

  lemma StepReleases(delay: int, w: World, act: Action, k: nat)
    requires ConsumersOk(w) && Enabled(w, act) && k < |w.consumers|
    ensures var w' := Next(delay, w, act);
            && k < |w'.consumers|
            && (w.consumers[k].Done? ==> w'.consumers[k].Done?)
            && (!w.consumers[k].Done? ==> w.consumers[k].lock in w.locks
                                          && (w'.consumers[k].Done? <==> w.consumers[k].lock !in w'.locks))
            && (act == TearDown(k) ==> w'.consumers[k].Done? || (w'.consumers[k].Acquiring? && w'.consumers[k].torn))
            && (act == Disconnect(k) ==> w'.consumers[k].Done?)
            && (w.consumers[k].Acquiring? && w.consumers[k].torn && act == AcquireResolves(k) ==> w'.consumers[k].Done?)
  {
  }

  // ---- who holds which lock ----------------------------------------------------------------------

  /** Acquiring the chain succeeds: its client exists or can be built. */
  predicate Lends(w: World, act: Action) {
    (act.LockApi? || act.Connect?) && (act.chain in w.pool.clients || act.factoryWorks)
  }

  /** The lock is given back by its caller, or by the consumer that has it. */
  predicate Releases(w: World, act: Action, lock: LockId) {
    || act == UnlockApi(lock)
    || (act.AcquireResolves? && act.k < |w.consumers| && w.consumers[act.k] == Acquiring(lock, true))
    || ((act.TearDown? || act.Disconnect?) && act.k < |w.consumers| && w.consumers[act.k] == Holding(lock))
  }

  /** A lock is outstanding from the call that lends it until it is given back, and is for the chain that was asked. */
  lemma LockStep(delay: int, w: World, act: Action, lock: LockId, chain: Chain)
    requires ConsumersOk(w) && Enabled(w, act)
    ensures var w' := Next(delay, w, act);
            lock in w'.locks && w'.locks[lock].chain == chain <==>
            || (lock in w.locks && w.locks[lock].chain == chain && !Releases(w, act, lock))
            || (lock == w.nextLock && Lends(w, act) && act.chain == chain)
  {
    hide Unlock, TimerFires, Destroy;
  }

  /**
   * A consumer waits for its lock, and holds it once that resolves; torn down before, it gives it back when it
   * resolves; torn down or disconnected after, at once.
   */
  lemma ConsumerStep(delay: int, w: World, act: Action, k: nat)
    requires Enabled(w, act) && k < |w.consumers|
    ensures var (w', c) := (Next(delay, w, act), w.consumers[k]);
            && k < |w'.consumers|
            && w'.consumers[k] == if c.Acquiring? && act == AcquireResolves(k)
                                  then (if c.torn then Done else Holding(c.lock))
                                  else if c.Acquiring? && act == TearDown(k) then Acquiring(c.lock, true)
                                  else if c.Holding? && (act == TearDown(k) || act == Disconnect(k)) then Done
                                  else c
  {
    hide Unlock, TimerFires, Acquire;
  }

  /** A new consumer waits for a new lock exactly if acquiring the chain succeeds. */
  lemma ConsumersGrow(delay: int, w: World, act: Action)
    requires Enabled(w, act)
    ensures var w' := Next(delay, w, act);
            && |w'.consumers| == |w.consumers| + (if act.Connect? then 1 else 0)
            && (act.Connect? ==> w'.consumers[|w.consumers|] ==
                                 if Lends(w, act) then Acquiring(w.nextLock, false) else Done)
  {
    hide Unlock, TimerFires, Destroy;
  }
}
