/**
 * Who keeps a chain's client alive
 * (packages/host-container/src/chainConnectionManager.ts, and `handleChainConnection` in createContainer.ts).
 */
module ChainRefs {
  import opened Common

  type Chain = string
  type OperationId = string
  type ClientId = nat
  type FollowId = nat
  type HolderId = nat

  datatype Entry = Entry(client: ClientId, follows: set<FollowId>, refCount: nat)

  /** `destroyed` logs the clients torn down. */
  datatype Manager = Manager(chains: map<Chain, Entry>, nextFollowId: FollowId, nextClient: ClientId,
                             destroyed: seq<ClientId>)

  const NewManager := Manager(map[], 0, 0, [])

  /** `supported` says whether the factory has a provider for the chain. */
  function GetOrCreateChain(m: Manager, chain: Chain, supported: bool): (Manager, bool) {
    if chain in m.chains then
      (m.(chains := m.chains[chain := m.chains[chain].(refCount := m.chains[chain].refCount + 1)]), true)
    else if supported then
      (m.(chains := m.chains[chain := Entry(m.nextClient, {}, 1)], nextClient := m.nextClient + 1), true)
    else (m, false)
  }

  function ReleaseChain(m: Manager, chain: Chain): Manager {
    if chain !in m.chains then m
    else if m.chains[chain].refCount <= 1 then
      m.(chains := m.chains - {chain}, destroyed := m.destroyed + [m.chains[chain].client])
    else m.(chains := m.chains[chain := m.chains[chain].(refCount := m.chains[chain].refCount - 1)])
  }

  function StartFollow(m: Manager, chain: Chain): (Manager, FollowId)
    requires chain in m.chains
  {
    (m.(chains := m.chains[chain := m.chains[chain].(follows := m.chains[chain].follows + {m.nextFollowId})],
        nextFollowId := m.nextFollowId + 1), m.nextFollowId)
  }

  /** Both a stop by the caller and an error from the client drop the follow. */
  function DropFollow(m: Manager, chain: Chain, follow: FollowId): Manager {
    if chain in m.chains && follow in m.chains[chain].follows
    then m.(chains := m.chains[chain := m.chains[chain].(follows := m.chains[chain].follows - {follow})])
    else m
  }

  /** A broadcast with an operation id keeps its reference, one without gives it back. */
  function ReturnBroadcast(m: Manager, live: set<(Chain, OperationId)>, chain: Chain, op: Option<OperationId>)
    : (Manager, set<(Chain, OperationId)>)
  {
    if op.Some? && op.value != "" then (m, live + {(chain, op.value)}) else (ReleaseChain(m, chain), live)
  }

  /** Only the first stop of a live broadcast is forwarded. */
  function RequestStop(live: set<(Chain, OperationId)>, chain: Chain, op: OperationId)
    : (set<(Chain, OperationId)>, bool)
  {
    (live - {(chain, op)}, (chain, op) in live)
  }

  /** The manager and the set of live broadcasts as the container keeps them. */
  class ChainTable {
    var chains: map<Chain, Entry>
    var nextFollowId: FollowId
    var nextClient: ClientId
    var destroyed: seq<ClientId>
    var liveBroadcasts: set<(Chain, OperationId)>

    function AsManager(): Manager
      reads this
    {
      Manager(chains, nextFollowId, nextClient, destroyed)
    }

    constructor ()
      ensures AsManager() == NewManager && liveBroadcasts == {}
    {
      chains, nextFollowId, nextClient, destroyed, liveBroadcasts := map[], 0, 0, [], {};
    }

    method Acquire(chain: Chain, supported: bool) returns (ok: bool)
      modifies this`chains, this`nextClient
      ensures (AsManager(), ok) == GetOrCreateChain(old(AsManager()), chain, supported)
    {
      ok := true;
      if chain in chains {
        chains := chains[chain := chains[chain].(refCount := chains[chain].refCount + 1)];
      } else if supported {
        chains := chains[chain := Entry(nextClient, {}, 1)];
        nextClient := nextClient + 1;
      } else {
        ok := false;
      }
    }

    method Release(chain: Chain)
      modifies this`chains, this`destroyed
      ensures AsManager() == ReleaseChain(old(AsManager()), chain)
    {
      if chain !in chains { return; }
      var count := chains[chain].refCount - 1;
      if count <= 0 {
        destroyed := destroyed + [chains[chain].client];
        chains := chains - {chain};
      } else {
        chains := chains[chain := chains[chain].(refCount := count)];
      }
    }

    method Follow(chain: Chain) returns (follow: FollowId)
      requires chain in chains
      modifies this`chains, this`nextFollowId
      ensures (AsManager(), follow) == StartFollow(old(AsManager()), chain)
    {
      follow := nextFollowId;
      nextFollowId := nextFollowId + 1;
      chains := chains[chain := chains[chain].(follows := chains[chain].follows + {follow})];
    }

    /** The cleanup of a follow subscription. */
    method CloseFollow(chain: Chain, follow: FollowId)
      modifies this`chains, this`destroyed
      ensures AsManager() == ReleaseChain(DropFollow(old(AsManager()), chain, follow), chain)
    {
      if chain in chains && follow in chains[chain].follows {
        chains := chains[chain := chains[chain].(follows := chains[chain].follows - {follow})];
      }
      Release(chain);
    }

    method BroadcastReturned(chain: Chain, op: Option<OperationId>)
      modifies this`chains, this`destroyed, this`liveBroadcasts
      ensures (AsManager(), liveBroadcasts) == ReturnBroadcast(old(AsManager()), old(liveBroadcasts), chain, op)
    {
      if op.Some? && op.value != "" {
        liveBroadcasts := liveBroadcasts + {(chain, op.value)};
      } else {
        Release(chain);
      }
    }

    /** Whether a stop is forwarded; the chain is released once it has been answered. */
    method StopRequested(chain: Chain, op: OperationId) returns (forwarded: bool)
      modifies this`liveBroadcasts
      ensures (liveBroadcasts, forwarded) == RequestStop(old(liveBroadcasts), chain, op)
    {
      forwarded := (chain, op) in liveBroadcasts;
      liveBroadcasts := liveBroadcasts - {(chain, op)};
    }
  }

  // ---- the handlers ----------------------------------------------------------------------------

  /** A handler invocation that has acquired its chain and not released it. */
  datatype Work = Following(follow: FollowId) | ReadingSpec | Broadcasting | Stopping(op: OperationId)

  datatype Holder = Holder(chain: Chain, client: ClientId, work: Work)

  /**
   * `live` is the container's set of broadcasts, each with the client it runs on. `holders` are the invocations in
   * progress. `repeats` counts, per chain, the broadcasts that came back with an operation id that was still live.
   */
  datatype World = World(m: Manager, live: map<(Chain, OperationId), ClientId>, holders: map<HolderId, Holder>,
                         nextHolder: HolderId, repeats: map<Chain, nat>)

  const FreshWorld := World(NewManager, map[], map[], 0, map[])

  datatype Action =
    | OpenFollow(chain: Chain, supported: bool)
    | CloseFollow(holder: HolderId)
    | FollowDies(holder: HolderId)
    | BeginSpec(chain: Chain, supported: bool)
    | EndSpec(holder: HolderId)
    | BeginBroadcast(chain: Chain, supported: bool)
    | EndBroadcast(holder: HolderId, result: Option<OperationId>)
    | StopTransaction(chain: Chain, op: OperationId)
    | EndStop(holder: HolderId)

  predicate Doing(w: World, holder: HolderId, isWork: Work -> bool) {
    holder in w.holders && isWork(w.holders[holder].work)
  }

  predicate Enabled(w: World, act: Action) {
    match act
    case CloseFollow(h) => Doing(w, h, (x: Work) => x.Following?)
    case FollowDies(h) => Doing(w, h, (x: Work) => x.Following?)
    case EndSpec(h) => Doing(w, h, (x: Work) => x.ReadingSpec?)
    case EndBroadcast(h, op) => Doing(w, h, (x: Work) => x.Broadcasting?)
    case EndStop(h) => Doing(w, h, (x: Work) => x.Stopping?)
    case _ => true
  }

  function Repeats(w: World, chain: Chain): nat {
    if chain in w.repeats then w.repeats[chain] else 0
  }

  function Begin(w: World, chain: Chain, supported: bool, work: Work): World {
    var r := GetOrCreateChain(w.m, chain, supported);
    if r.1 && chain in r.0.chains
    then w.(m := r.0, holders := w.holders[w.nextHolder := Holder(chain, r.0.chains[chain].client, work)],
             nextHolder := w.nextHolder + 1)
    else w
  }

  function Finish(w: World, holder: HolderId): World
    requires holder in w.holders
  {
    w.(m := ReleaseChain(w.m, w.holders[holder].chain), holders := w.holders - {holder})
  }

  function BeginFollow(w: World, chain: Chain, supported: bool): World {
    var r := GetOrCreateChain(w.m, chain, supported);
    if r.1 && chain in r.0.chains
    then
      var f := StartFollow(r.0, chain);
      w.(m := f.0, holders := w.holders[w.nextHolder := Holder(chain, r.0.chains[chain].client, Following(f.1))],
         nextHolder := w.nextHolder + 1)
    else w
  }

  /** A live operation keeps the chain acquired for its broadcast; an empty or missing one does not. */
  function FinishBroadcast(w: World, holder: HolderId, op: Option<OperationId>): World
    requires holder in w.holders
  {
    var h := w.holders[holder];
    if op.None? || op.value == "" then Finish(w, holder)
    else
      var key := (h.chain, op.value);
      var w' := w.(holders := w.holders - {holder});
      if key in w.live then w'.(repeats := w.repeats[h.chain := Repeats(w, h.chain) + 1])
      else w'.(live := w.live[key := h.client])
  }

  function Next(w: World, act: Action): World
    requires Enabled(w, act)
  {
    match act
    case OpenFollow(chain, supported) => BeginFollow(w, chain, supported)
    case CloseFollow(h) =>
      Finish(w.(m := DropFollow(w.m, w.holders[h].chain, w.holders[h].work.follow)), h)
    case FollowDies(h) => w.(m := DropFollow(w.m, w.holders[h].chain, w.holders[h].work.follow))
    case BeginSpec(chain, supported) => Begin(w, chain, supported, ReadingSpec)
    case EndSpec(h) => Finish(w, h)
    case BeginBroadcast(chain, supported) => Begin(w, chain, supported, Broadcasting)
    case EndBroadcast(h, op) => FinishBroadcast(w, h, op)
    case StopTransaction(chain, op) =>
      if (chain, op) in w.live then
        w.(live := w.live - {(chain, op)},
           holders := w.holders[w.nextHolder := Holder(chain, w.live[(chain, op)], Stopping(op))],
           nextHolder := w.nextHolder + 1)
      else w
    case EndStop(h) => Finish(w, h)
  }

  // ---- invariant -------------------------------------------------------------------------------

  function HoldersOn(holders: map<HolderId, Holder>, chain: Chain): set<HolderId> {
    set h | h in holders && holders[h].chain == chain
  }

  function LiveOn(live: map<(Chain, OperationId), ClientId>, chain: Chain): set<(Chain, OperationId)> {
    set k | k in live && k.0 == chain
  }

  function Count(m: Manager, chain: Chain): nat {
    if chain in m.chains then m.chains[chain].refCount else 0
  }

  /** Every reference is an invocation in progress, a live broadcast, or one lost to a repeated operation id. */
  ghost predicate Conserved(w: World) {
    forall chain :: Count(w.m, chain) == |HoldersOn(w.holders, chain)| + |LiveOn(w.live, chain)| + Repeats(w, chain)
  }

  ghost predicate Distinct(s: seq<nat>) {
    forall i, j :: 0 <= i < j < |s| ==> s[i] != s[j]
  }

  ghost predicate ClientsOk(m: Manager) {
    && (forall chain :: chain in m.chains ==>
          && m.chains[chain].refCount > 0
          && m.chains[chain].client < m.nextClient
          && m.chains[chain].client !in m.destroyed)
    && (forall a, b :: a in m.chains && b in m.chains && m.chains[a].client == m.chains[b].client ==> a == b)
  }

  ghost predicate InUse(m: Manager, client: ClientId) {
    exists chain :: OnCurrentClient(m, chain, client)
  }

  /** Each client ever made is the client of a chain or has been destroyed, once. */
  ghost predicate ClientsTracked(m: Manager) {
    && (forall c: ClientId :: c in m.destroyed ==> c < m.nextClient)
    && (forall c: ClientId :: c < m.nextClient && c !in m.destroyed ==> InUse(m, c))
    && Distinct(m.destroyed)
  }

  ghost predicate ManagerOk(m: Manager) {
    ClientsOk(m) && ClientsTracked(m)
  }

  ghost predicate OnCurrentClient(m: Manager, chain: Chain, client: ClientId) {
    chain in m.chains && m.chains[chain].client == client
  }

  ghost predicate ClientsHeld(w: World) {
    && (forall h: HolderId :: h in w.holders ==>
          h < w.nextHolder && OnCurrentClient(w.m, w.holders[h].chain, w.holders[h].client))
    && (forall k :: k in w.live ==> OnCurrentClient(w.m, k.0, w.live[k]))
  }

  ghost predicate Inv(w: World) {
    ManagerOk(w.m) && Conserved(w) && ClientsHeld(w)
  }

  lemma FreshWorldIsSafe()
    ensures Inv(FreshWorld)
  {
  }

  // ---- what each operation does to the counts ----------------------------------------------------

  ghost predicate KeepsClients(m: Manager, m': Manager) {
    forall c, cl: ClientId :: OnCurrentClient(m, c, cl) ==> OnCurrentClient(m', c, cl)
  }

  lemma TrackedOn(m: Manager, m': Manager)
    requires ClientsTracked(m) && KeepsClients(m, m') && m'.destroyed == m.destroyed
    requires m.nextClient <= m'.nextClient && forall c: ClientId :: m.nextClient <= c < m'.nextClient ==> InUse(m', c)
    ensures ClientsTracked(m')
  {
  }

  lemma AcquireDoes(m: Manager, chain: Chain, supported: bool)
    requires ManagerOk(m)
    ensures var r := GetOrCreateChain(m, chain, supported);
            && ManagerOk(r.0)
            && (r.1 <==> chain in m.chains || supported)
            && (r.1 ==> chain in r.0.chains)
            && (!r.1 ==> r.0 == m)
            && (forall c :: Count(r.0, c) == Count(m, c) + (if r.1 && c == chain then 1 else 0))
            && KeepsClients(m, r.0)
  {
    hide ClientsTracked;
    var m' := GetOrCreateChain(m, chain, supported).0;
    assert ClientsOk(m') by { AcquireKeepsClientsOk(m, chain, supported); }
    hide ClientsOk;
    assert KeepsClients(m, m');
    if chain !in m.chains && supported { assert OnCurrentClient(m', chain, m.nextClient); }
    TrackedOn(m, m');
  }

  lemma AcquireKeepsClientsOk(m: Manager, chain: Chain, supported: bool)
    requires ManagerOk(m)
    ensures ClientsOk(GetOrCreateChain(m, chain, supported).0)
  {
  }

  lemma ReleaseKeepsTracked(m: Manager, chain: Chain)
    requires ManagerOk(m) && chain in m.chains && m.chains[chain].refCount == 1
    ensures ClientsTracked(ReleaseChain(m, chain))
  {
    var m' := ReleaseChain(m, chain);
    assert forall i :: 0 <= i < |m.destroyed| ==> m.destroyed[i] in m.destroyed;
    forall c: ClientId | c < m'.nextClient && c !in m'.destroyed ensures InUse(m', c) {
      assert c !in m.destroyed;
      var x :| OnCurrentClient(m, x, c);
      assert m.chains[chain].client in m'.destroyed;
      assert OnCurrentClient(m', x, c);
    }
  }

  lemma ReleaseDoes(m: Manager, chain: Chain)
    requires ManagerOk(m) && Count(m, chain) > 0
    ensures var m' := ReleaseChain(m, chain);
            && ManagerOk(m')
            && (forall c :: Count(m', c) == Count(m, c) - (if c == chain then 1 else 0))
            && (forall c, cl: ClientId :: OnCurrentClient(m, c, cl) && Count(m', c) > 0 ==> OnCurrentClient(m', c, cl))
  {
    hide ClientsTracked;
    if m.chains[chain].refCount == 1 {
      ReleaseKeepsTracked(m, chain);
    } else {
      TrackedOn(m, ReleaseChain(m, chain));
    }
  }

  /** Starting or dropping a follow leaves the clients and the counts alone. */
  lemma FollowsOnly(m: Manager, m': Manager)
    requires ManagerOk(m) && m'.destroyed == m.destroyed && m'.nextClient == m.nextClient
             && m'.chains.Keys == m.chains.Keys
    requires forall c :: c in m.chains ==>
               m'.chains[c].client == m.chains[c].client && m'.chains[c].refCount == m.chains[c].refCount
    ensures ManagerOk(m') && KeepsClients(m, m') && forall c :: Count(m', c) == Count(m, c)
  {
    hide ClientsTracked;
    assert KeepsClients(m, m');
    TrackedOn(m, m');
  }

  lemma DropDoes(m: Manager, chain: Chain, follow: FollowId)
    requires ManagerOk(m)
    ensures var m' := DropFollow(m, chain, follow);
            ManagerOk(m') && KeepsClients(m, m') && forall c :: Count(m', c) == Count(m, c)
  {
    hide ManagerOk;
    FollowsOnly(m, DropFollow(m, chain, follow));
  }

  lemma StartDoes(m: Manager, chain: Chain)
    requires ManagerOk(m) && chain in m.chains
    ensures var m' := StartFollow(m, chain).0;
            ManagerOk(m') && KeepsClients(m, m') && forall c :: Count(m', c) == Count(m, c)
  {
    hide ManagerOk;
    FollowsOnly(m, StartFollow(m, chain).0);
  }

  lemma HolderAdded(holders: map<HolderId, Holder>, h: HolderId, holder: Holder)
    requires h !in holders
    ensures forall c ::
              |HoldersOn(holders[h := holder], c)| == |HoldersOn(holders, c)| + (if c == holder.chain then 1 else 0)
  {
    forall c
      ensures |HoldersOn(holders[h := holder], c)| == |HoldersOn(holders, c)| + (if c == holder.chain then 1 else 0)
    {
      assert HoldersOn(holders[h := holder], c) == HoldersOn(holders, c) + (if c == holder.chain then {h} else {});
    }
  }

  lemma HolderRemoved(holders: map<HolderId, Holder>, h: HolderId)
    requires h in holders
    ensures forall c ::
              |HoldersOn(holders - {h}, c)| == |HoldersOn(holders, c)| - (if c == holders[h].chain then 1 else 0)
  {
    forall c
      ensures |HoldersOn(holders - {h}, c)| == |HoldersOn(holders, c)| - (if c == holders[h].chain then 1 else 0)
    {
      assert HoldersOn(holders, c) == HoldersOn(holders - {h}, c) + (if c == holders[h].chain then {h} else {});
    }
  }

  lemma LiveAdded(live: map<(Chain, OperationId), ClientId>, k: (Chain, OperationId), client: ClientId)
    requires k !in live
    ensures forall c :: |LiveOn(live[k := client], c)| == |LiveOn(live, c)| + (if c == k.0 then 1 else 0)
  {
    forall c ensures |LiveOn(live[k := client], c)| == |LiveOn(live, c)| + (if c == k.0 then 1 else 0) {
      assert LiveOn(live[k := client], c) == LiveOn(live, c) + (if c == k.0 then {k} else {});
    }
  }

  lemma LiveRemoved(live: map<(Chain, OperationId), ClientId>, k: (Chain, OperationId))
    requires k in live
    ensures forall c :: |LiveOn(live - {k}, c)| == |LiveOn(live, c)| - (if c == k.0 then 1 else 0)
  {
    forall c ensures |LiveOn(live - {k}, c)| == |LiveOn(live, c)| - (if c == k.0 then 1 else 0) {
      assert LiveOn(live, c) == LiveOn(live - {k}, c) + (if c == k.0 then {k} else {});
    }
  }

  lemma HolderCounted(w: World, h: HolderId)
    requires Conserved(w) && h in w.holders
    ensures Count(w.m, w.holders[h].chain) > 0
  {
    assert h in HoldersOn(w.holders, w.holders[h].chain);
  }

  lemma LiveCounted(w: World, k: (Chain, OperationId))
    requires Conserved(w) && k in w.live
    ensures Count(w.m, k.0) > 0
  {
    assert k in LiveOn(w.live, k.0);
  }

  // ---- every step keeps the invariant ------------------------------------------------------------

  lemma BeginKeeps(w: World, chain: Chain, supported: bool, work: Work)
    requires Inv(w)
    ensures Inv(Begin(w, chain, supported, work))
  {
    hide ManagerOk, GetOrCreateChain, HoldersOn, LiveOn, Count;
    AcquireDoes(w.m, chain, supported);
    var r := GetOrCreateChain(w.m, chain, supported);
    if r.1 { HolderAdded(w.holders, w.nextHolder, Holder(chain, r.0.chains[chain].client, work)); }
  }

  lemma BeginFollowKeeps(w: World, chain: Chain, supported: bool)
    requires Inv(w)
    ensures Inv(BeginFollow(w, chain, supported))
  {
    hide ManagerOk, GetOrCreateChain, HoldersOn, LiveOn, Count;
    AcquireDoes(w.m, chain, supported);
    var r := GetOrCreateChain(w.m, chain, supported);
    if r.1 {
      StartDoes(r.0, chain);
      HolderAdded(w.holders, w.nextHolder, Holder(chain, r.0.chains[chain].client, Following(r.0.nextFollowId)));
    }
  }

  lemma FinishKeeps(w: World, h: HolderId)
    requires Inv(w) && h in w.holders
    ensures Inv(Finish(w, h))
  {
    hide ManagerOk, ReleaseChain, HoldersOn, LiveOn, Count;
    HolderCounted(w, h);
    ReleaseDoes(w.m, w.holders[h].chain);
    HolderRemoved(w.holders, h);
    var w' := Finish(w, h);
    assert Conserved(w');
    forall x: HolderId | x in w'.holders ensures OnCurrentClient(w'.m, w'.holders[x].chain, w'.holders[x].client) {
      HolderCounted(w', x);
    }
    forall k | k in w'.live ensures OnCurrentClient(w'.m, k.0, w'.live[k]) {
      LiveCounted(w', k);
    }
  }

  lemma DropKeeps(w: World, chain: Chain, follow: FollowId)
    requires Inv(w)
    ensures Inv(w.(m := DropFollow(w.m, chain, follow)))
  {
    hide ManagerOk, DropFollow, HoldersOn, LiveOn, Count;
    DropDoes(w.m, chain, follow);
  }

  lemma BroadcastKeeps(w: World, h: HolderId, op: Option<OperationId>)
    requires Inv(w) && h in w.holders
    ensures Inv(FinishBroadcast(w, h, op))
  {
    hide ManagerOk, ReleaseChain, HoldersOn, LiveOn, Count;
    FinishKeeps(w, h);
    HolderRemoved(w.holders, h);
    if op.Some? && (w.holders[h].chain, op.value) !in w.live {
      LiveAdded(w.live, (w.holders[h].chain, op.value), w.holders[h].client);
    }
  }

  lemma StopKeeps(w: World, chain: Chain, op: OperationId)
    requires Inv(w)
    ensures Inv(Next(w, StopTransaction(chain, op)))
  {
    hide ManagerOk, HoldersOn, LiveOn, Count;
    if (chain, op) in w.live {
      LiveRemoved(w.live, (chain, op));
      HolderAdded(w.holders, w.nextHolder, Holder(chain, w.live[(chain, op)], Stopping(op)));
    }
  }

  lemma NextKeepsInv(w: World, act: Action)
    requires Inv(w) && Enabled(w, act)
    ensures Inv(Next(w, act))
  {
    hide Inv, Begin, BeginFollow, Finish, FinishBroadcast, DropFollow;
    match act
    case OpenFollow(chain, supported) => BeginFollowKeeps(w, chain, supported);
    case CloseFollow(h) =>
      DropKeeps(w, w.holders[h].chain, w.holders[h].work.follow);
      FinishKeeps(w.(m := DropFollow(w.m, w.holders[h].chain, w.holders[h].work.follow)), h);
    case FollowDies(h) => DropKeeps(w, w.holders[h].chain, w.holders[h].work.follow);
    case BeginSpec(chain, supported) => BeginKeeps(w, chain, supported, ReadingSpec);
    case EndSpec(h) => FinishKeeps(w, h);
    case BeginBroadcast(chain, supported) => BeginKeeps(w, chain, supported, Broadcasting);
    case EndBroadcast(h, op) => BroadcastKeeps(w, h, op);
    case StopTransaction(chain, op) => StopKeeps(w, chain, op);
    case EndStop(h) => FinishKeeps(w, h);
  }

  // ---- whole runs --------------------------------------------------------------------------------

  ghost predicate Behaviour(ws: seq<World>, acts: seq<Action>) {
    && |ws| == |acts| + 1
    && ws[0] == FreshWorld
    && forall k :: 0 <= k < |acts| ==> Enabled(ws[k], acts[k]) && ws[k + 1] == Next(ws[k], acts[k])
  }

  lemma {:induction false} AlwaysSafe(ws: seq<World>, acts: seq<Action>, i: nat)
    requires Behaviour(ws, acts) && i < |ws|
    ensures Inv(ws[i])
  {
    hide Inv, Next;
    if i == 0 {
      FreshWorldIsSafe();
    } else {
      AlwaysSafe(ws, acts, i - 1);
      NextKeepsInv(ws[i - 1], acts[i - 1]);
    }
  }

  /** A chain's count is its invocations in progress plus its live broadcasts plus its repeated operation ids. */
  lemma ReferencesConserved(ws: seq<World>, acts: seq<Action>, i: nat, chain: Chain)
    requires Behaviour(ws, acts) && i < |ws|
    ensures var w := ws[i];
            && Count(w.m, chain) == |HoldersOn(w.holders, chain)| + |LiveOn(w.live, chain)| + Repeats(w, chain)
            && (chain in w.m.chains <==>
                  HoldersOn(w.holders, chain) != {} || LiveOn(w.live, chain) != {} || Repeats(w, chain) > 0)
  {
    AlwaysSafe(ws, acts, i);
    var w := ws[i];
    hide ClientsTracked, ClientsHeld, HoldersOn, LiveOn;
    assert chain in w.m.chains <==> Count(w.m, chain) > 0;
    assert Count(w.m, chain) == |HoldersOn(w.holders, chain)| + |LiveOn(w.live, chain)| + Repeats(w, chain);
  }

  /** Whoever holds a chain, and every live broadcast, runs on the chain's client, and it has not been destroyed. */
  lemma HeldClientsLive(ws: seq<World>, acts: seq<Action>, i: nat)
    requires Behaviour(ws, acts) && i < |ws|
    ensures var w := ws[i];
            && (forall h: HolderId :: h in w.holders ==>
                  && OnCurrentClient(w.m, w.holders[h].chain, w.holders[h].client)
                  && w.holders[h].client !in w.m.destroyed)
            && (forall k :: k in w.live ==> OnCurrentClient(w.m, k.0, w.live[k]) && w.live[k] !in w.m.destroyed)
            && Distinct(w.m.destroyed)
  {
    AlwaysSafe(ws, acts, i);
    hide Conserved;
  }

  /** Once nothing is in progress and no broadcast is live, only a chain with a repeated operation id is connected. */
  lemma QuietChainsAreClosed(ws: seq<World>, acts: seq<Action>, i: nat, chain: Chain)
    requires Behaviour(ws, acts) && i < |ws| && ws[i].holders == map[] && ws[i].live == map[]
    ensures chain in ws[i].m.chains <==> Repeats(ws[i], chain) > 0
  {
    ReferencesConserved(ws, acts, i, chain);
  }

  /** A repeated operation id keeps its chain connected for ever. */
  lemma {:induction false} RepeatPinsChain(ws: seq<World>, acts: seq<Action>, i: nat, j: nat, chain: Chain)
    requires Behaviour(ws, acts) && i <= j < |ws| && Repeats(ws[i], chain) > 0
    ensures Repeats(ws[j], chain) > 0 && chain in ws[j].m.chains
  {
    hide Inv;
    if i < j {
      RepeatPinsChain(ws, acts, i, j - 1, chain);
      assert Enabled(ws[j - 1], acts[j - 1]);
      RepeatsGrow(ws[j - 1], acts[j - 1], chain);
    }
    ReferencesConserved(ws, acts, j, chain);
  }

  const LiveOnce := World(Manager(map["a" := Entry(0, {}, 2)], 0, 1, []), map[("a", "x") := 0],
                          map[1 := Holder("a", 0, Broadcasting)], 2, map[])

  lemma SecondBroadcast()
    ensures var w := Next(Next(FreshWorld, BeginBroadcast("a", true)), BeginBroadcast("a", true));
            Enabled(w, EndBroadcast(0, Some("x"))) && Next(w, EndBroadcast(0, Some("x"))) == LiveOnce
  {
    var w1 := Next(FreshWorld, BeginBroadcast("a", true));
    assert w1 == World(Manager(map["a" := Entry(0, {}, 1)], 0, 1, []), map[], map[0 := Holder("a", 0, Broadcasting)],
                       1, map[]);
    var w2 := Next(w1, BeginBroadcast("a", true));
    assert w2.holders == map[0 := Holder("a", 0, Broadcasting), 1 := Holder("a", 0, Broadcasting)];
    assert w2.m == LiveOnce.m;
    assert w2.holders - {0} == LiveOnce.holders;
  }

  /** Two broadcasts that come back with one operation id, and its stop, leave the chain connected with nobody on it. */
  lemma RepeatedOperationId()
    ensures var begun := Next(Next(FreshWorld, BeginBroadcast("a", true)), BeginBroadcast("a", true));
            && Enabled(begun, EndBroadcast(0, Some("x")))
            && (var once := Next(begun, EndBroadcast(0, Some("x")));
                && Enabled(once, EndBroadcast(1, Some("x")))
                && (var stopping := Next(Next(once, EndBroadcast(1, Some("x"))), StopTransaction("a", "x"));
                    && Enabled(stopping, EndStop(2))
                    && (var w := Next(stopping, EndStop(2));
                        w.holders == map[] && w.live == map[] && "a" in w.m.chains)))
  {
    SecondBroadcast();
    hide Begin;
    RepeatedStop();
  }

  lemma RepeatedStop()
    ensures Enabled(LiveOnce, EndBroadcast(1, Some("x")))
    ensures var stopping := Next(Next(LiveOnce, EndBroadcast(1, Some("x"))), StopTransaction("a", "x"));
            && Enabled(stopping, EndStop(2))
            && (var w := Next(stopping, EndStop(2)); w.holders == map[] && w.live == map[] && "a" in w.m.chains)
  {
    var w := Next(LiveOnce, EndBroadcast(1, Some("x")));
    assert w == World(LiveOnce.m, LiveOnce.live, map[], 2, map["a" := 1]);
    var stopping := Next(w, StopTransaction("a", "x"));
    assert stopping.holders == map[2 := Holder("a", 0, Stopping("x"))];
    assert stopping.live == map[];
  }

  lemma RepeatsGrow(w: World, act: Action, chain: Chain)
    requires Enabled(w, act)
    ensures Repeats(w, chain) <= Repeats(Next(w, act), chain)
    ensures Repeats(w, chain) < Repeats(Next(w, act), chain) <==>
            && act.EndBroadcast? && act.result.Some? && act.result.value != ""
            && w.holders[act.holder].chain == chain && (chain, act.result.value) in w.live
  {
  }

  /** What the handlers do to the chains and to the live broadcasts is what the container's table does. */
  lemma HandlersUseTheTable(w: World, act: Action)
    requires Enabled(w, act)
    ensures var w' := Next(w, act);
            match act
            case EndBroadcast(h, op) =>
              (w'.m, w'.live.Keys) == ReturnBroadcast(w.m, w.live.Keys, w.holders[h].chain, op)
            case StopTransaction(chain, op) =>
              w'.m == w.m && (w'.live.Keys, w'.nextHolder > w.nextHolder) == RequestStop(w.live.Keys, chain, op)
            case CloseFollow(h) =>
              && w'.m == ReleaseChain(DropFollow(w.m, w.holders[h].chain, w.holders[h].work.follow), w.holders[h].chain)
              && w'.live == w.live
            case _ => w'.live == w.live
  {
    var w' := Next(w, act);
    match act
    case EndBroadcast(h, op) =>
      if op.Some? && op.value != "" { assert w'.live.Keys == w.live.Keys + {(w.holders[h].chain, op.value)}; }
    case StopTransaction(chain, op) => assert w'.live.Keys == w.live.Keys - {(chain, op)};
    case _ =>
  }

  /** A second stop of the same operation, like one that was never live, changes nothing. */
  lemma DuplicateStopChangesNothing(w: World, chain: Chain, op: OperationId)
    ensures var once := Next(w, StopTransaction(chain, op)); Next(once, StopTransaction(chain, op)) == once
    ensures (chain, op) !in w.live ==> Next(w, StopTransaction(chain, op)) == w
  {
  }

  // ---- open follows ------------------------------------------------------------------------------

  ghost predicate Owned(holders: map<HolderId, Holder>, chain: Chain, follow: FollowId) {
    exists h: HolderId :: h in holders && holders[h].chain == chain && holders[h].work == Following(follow)
  }

  /** Every open follow belongs to a subscription that is still open. */
  ghost predicate FollowsOwned(w: World) {
    forall chain, f: FollowId :: chain in w.m.chains && f in w.m.chains[chain].follows ==> Owned(w.holders, chain, f)
  }

  lemma OwnedAdded(holders: map<HolderId, Holder>, h: HolderId, holder: Holder, chain: Chain, follow: FollowId)
    requires Owned(holders, chain, follow) && h !in holders
    ensures Owned(holders[h := holder], chain, follow)
  {
    var o: HolderId :| o in holders && holders[o].chain == chain && holders[o].work == Following(follow);
    assert holders[h := holder][o] == holders[o];
  }

  lemma OwnedRemoved(holders: map<HolderId, Holder>, h: HolderId, chain: Chain, follow: FollowId)
    requires Owned(holders, chain, follow) && h in holders && holders[h].work != Following(follow)
    ensures Owned(holders - {h}, chain, follow)
  {
    var o: HolderId :| o in holders && holders[o].chain == chain && holders[o].work == Following(follow);
    assert (holders - {h})[o] == holders[o];
  }

  lemma NewestHolder(holders: map<HolderId, Holder>, h: HolderId, chain: Chain, client: ClientId, follow: FollowId)
    ensures Owned(holders[h := Holder(chain, client, Following(follow))], chain, follow)
  {
    assert holders[h := Holder(chain, client, Following(follow))][h].work == Following(follow);
  }

  /** `w'` has no new follow except that of a new holder, and has lost at most one holder, whose follow is gone. */
  lemma FinishKeepsOwned(w: World, h: HolderId)
    requires FollowsOwned(w) && h in w.holders
    requires w.holders[h].work.Following? && w.holders[h].chain in w.m.chains ==>
               w.holders[h].work.follow !in w.m.chains[w.holders[h].chain].follows
    ensures FollowsOwned(Finish(w, h))
  {
    var w' := Finish(w, h);
    forall chain, f: FollowId | chain in w'.m.chains && f in w'.m.chains[chain].follows
      ensures Owned(w'.holders, chain, f)
    {
      assert chain in w.m.chains && f in w.m.chains[chain].follows;
      var o: HolderId :| o in w.holders && w.holders[o].chain == chain && w.holders[o].work == Following(f);
      assert o != h;
      assert w'.holders[o] == w.holders[o];
    }
  }

  lemma BeginKeepsOwned(w: World, chain: Chain, supported: bool, work: Work)
    requires FollowsOwned(w) && w.nextHolder !in w.holders
    ensures FollowsOwned(Begin(w, chain, supported, work))
  {
    var w' := Begin(w, chain, supported, work);
    forall c, f: FollowId | c in w'.m.chains && f in w'.m.chains[c].follows ensures Owned(w'.holders, c, f) {
      assert c in w.m.chains && f in w.m.chains[c].follows;
      if w' != w { OwnedAdded(w.holders, w.nextHolder, w'.holders[w.nextHolder], c, f); }
    }
  }

  lemma BeginFollowKeepsOwned(w: World, chain: Chain, supported: bool)
    requires FollowsOwned(w) && w.nextHolder !in w.holders
    ensures FollowsOwned(BeginFollow(w, chain, supported))
  {
    var w' := BeginFollow(w, chain, supported);
    forall c, f: FollowId | c in w'.m.chains && f in w'.m.chains[c].follows ensures Owned(w'.holders, c, f) {
      if c in w.m.chains && f in w.m.chains[c].follows {
        if w' != w { OwnedAdded(w.holders, w.nextHolder, w'.holders[w.nextHolder], c, f); }
      } else {
        NewestHolder(w.holders, w.nextHolder, chain, w'.holders[w.nextHolder].client, f);
      }
    }
  }

  lemma NextKeepsOwned(w: World, act: Action)
    requires FollowsOwned(w) && Enabled(w, act) && w.nextHolder !in w.holders
    ensures FollowsOwned(Next(w, act))
  {
    hide FollowsOwned, Begin, BeginFollow, Finish;
    match act
    case OpenFollow(chain, supported) => BeginFollowKeepsOwned(w, chain, supported);
    case CloseFollow(h) =>
      DropKeepsOwned(w, w.holders[h].chain, w.holders[h].work.follow);
      FinishKeepsOwned(w.(m := DropFollow(w.m, w.holders[h].chain, w.holders[h].work.follow)), h);
    case FollowDies(h) => DropKeepsOwned(w, w.holders[h].chain, w.holders[h].work.follow);
    case BeginSpec(chain, supported) => BeginKeepsOwned(w, chain, supported, ReadingSpec);
    case EndSpec(h) => FinishKeepsOwned(w, h);
    case BeginBroadcast(chain, supported) => BeginKeepsOwned(w, chain, supported, Broadcasting);
    case EndBroadcast(h, result) =>
      FinishKeepsOwned(w, h);
      RemovedKeepsOwned(w, Next(w, act), h);
    case StopTransaction(chain, op) => StopKeepsOwned(w, chain, op);
    case EndStop(h) => FinishKeepsOwned(w, h);
  }

  lemma DropKeepsOwned(w: World, chain: Chain, follow: FollowId)
    requires FollowsOwned(w)
    ensures FollowsOwned(w.(m := DropFollow(w.m, chain, follow)))
  {
  }

  lemma RemovedKeepsOwned(w: World, w': World, h: HolderId)
    requires FollowsOwned(w) && h in w.holders && !w.holders[h].work.Following?
    ensures w'.m == w.m && w'.holders == w.holders - {h} ==> FollowsOwned(w')
  {
    forall c, f: FollowId | c in w.m.chains && f in w.m.chains[c].follows ensures Owned(w.holders - {h}, c, f) {
      OwnedRemoved(w.holders, h, c, f);
    }
  }

  lemma StopKeepsOwned(w: World, chain: Chain, op: OperationId)
    requires FollowsOwned(w) && w.nextHolder !in w.holders
    ensures FollowsOwned(Next(w, StopTransaction(chain, op)))
  {
    var w' := Next(w, StopTransaction(chain, op));
    forall c, f: FollowId | c in w'.m.chains && f in w'.m.chains[c].follows ensures Owned(w'.holders, c, f) {
      if w' != w { OwnedAdded(w.holders, w.nextHolder, w'.holders[w.nextHolder], c, f); }
    }
  }

  lemma {:induction false} FollowsAlwaysOwned(ws: seq<World>, acts: seq<Action>, i: nat)
    requires Behaviour(ws, acts) && i < |ws|
    ensures FollowsOwned(ws[i])
  {
    hide Next, Inv;
    if i > 0 {
      FollowsAlwaysOwned(ws, acts, i - 1);
      AlwaysSafe(ws, acts, i - 1);
      NextHolderIsNew(ws[i - 1]);
      NextKeepsOwned(ws[i - 1], acts[i - 1]);
    }
  }

  lemma NextHolderIsNew(w: World)
    requires Inv(w)
    ensures w.nextHolder !in w.holders
  {
  }

  /** When the last reference to a chain goes, no follow of it is open but the one being closed. */
  lemma ClosedWithoutOpenFollows(ws: seq<World>, acts: seq<Action>, i: nat, chain: Chain)
    requires Behaviour(ws, acts) && i < |acts| && chain in ws[i].m.chains && chain !in ws[i + 1].m.chains
    ensures forall f: FollowId :: f in ws[i].m.chains[chain].follows ==>
              && acts[i].CloseFollow?
              && ws[i].holders[acts[i].holder].chain == chain
              && ws[i].holders[acts[i].holder].work == Following(f)
  {
    AlwaysSafe(ws, acts, i);
    AlwaysSafe(ws, acts, i + 1);
    FollowsAlwaysOwned(ws, acts, i);
    assert Enabled(ws[i], acts[i]);
    forall f: FollowId | f in ws[i].m.chains[chain].follows
      ensures acts[i].CloseFollow? && ws[i].holders[acts[i].holder].chain == chain
              && ws[i].holders[acts[i].holder].work == Following(f)
    {
      assert Owned(ws[i].holders, chain, f);
      var o: HolderId :| o in ws[i].holders && ws[i].holders[o].chain == chain && ws[i].holders[o].work == Following(f);
      OwnerMustClose(ws[i], acts[i], chain, o);
    }
  }

  /** A step that closes a chain ends every invocation on it. */
  lemma OwnerMustClose(w: World, act: Action, chain: Chain, o: HolderId)
    requires Enabled(w, act) && Inv(Next(w, act)) && chain !in Next(w, act).m.chains
    requires o in w.holders && w.holders[o].chain == chain && w.holders[o].work.Following? && o < w.nextHolder
    ensures act == CloseFollow(o)
  {
    hide GetOrCreateChain, ReleaseChain, DropFollow, StartFollow, ManagerOk, Conserved;
    var w' := Next(w, act);
    assert o !in w'.holders;
  }

  // ---- what is in progress, live and open --------------------------------------------------------

  /** The chain is supported or connected already. */
  predicate Reaches(w: World, chain: Chain, supported: bool) {
    supported || chain in w.m.chains
  }

  /** The action starts an invocation, which holds the chain for this work. */
  predicate Starts(w: World, act: Action, chain: Chain, work: Work) {
    match act
    case OpenFollow(c, supported) => c == chain && Reaches(w, c, supported) && work == Following(w.m.nextFollowId)
    case BeginSpec(c, supported) => c == chain && Reaches(w, c, supported) && work == ReadingSpec
    case BeginBroadcast(c, supported) => c == chain && Reaches(w, c, supported) && work == Broadcasting
    case StopTransaction(c, op) => c == chain && (c, op) in w.live && work == Stopping(op)
    case _ => false
  }

  predicate EndsHolder(act: Action, h: HolderId) {
    (act.CloseFollow? || act.EndSpec? || act.EndBroadcast? || act.EndStop?) && act.holder == h
  }

  /** Who holds a chain, and what for, in one step: an invocation holds its chain from its start to its end. */
  lemma HolderStep(w: World, act: Action, h: HolderId, chain: Chain, work: Work)
    requires Inv(w) && Enabled(w, act)
    ensures var w' := Next(w, act);
            h in w'.holders && w'.holders[h].chain == chain && w'.holders[h].work == work <==>
            || (h in w.holders && w.holders[h].chain == chain && w.holders[h].work == work && !EndsHolder(act, h))
            || (h == w.nextHolder && Starts(w, act, chain, work))
  {
    hide ManagerOk, Conserved;
  }

  /** Whether a broadcast on the chain comes back with this operation id. */
  predicate ComesBack(w: World, act: Action, chain: Chain, op: OperationId) {
    act.EndBroadcast? && act.holder in w.holders && w.holders[act.holder].chain == chain && act.result == Some(op)
    && op != ""
  }

  lemma LiveStep(w: World, act: Action, chain: Chain, op: OperationId)
    requires Enabled(w, act)
    ensures (chain, op) in Next(w, act).live <==>
            ((chain, op) in w.live && act != StopTransaction(chain, op)) || ComesBack(w, act, chain, op)
  {
    hide GetOrCreateChain, ReleaseChain, StartFollow, DropFollow;
  }

  ghost predicate CameBackSince(ws: seq<World>, acts: seq<Action>, i: nat, chain: Chain, op: OperationId)
    requires i <= |acts| && i < |ws|
  {
    exists k :: 0 <= k < i && ComesBack(ws[k], acts[k], chain, op)
                && forall j :: k < j < i ==> acts[j] != StopTransaction(chain, op)
  }

  /** Over every run a broadcast is live exactly if one came back with its id and no stop of it was asked for since. */
  lemma {:induction false} LiveIff(ws: seq<World>, acts: seq<Action>, i: nat, chain: Chain, op: OperationId)
    requires Behaviour(ws, acts) && i < |ws|
    ensures (chain, op) in ws[i].live <==> CameBackSince(ws, acts, i, chain, op)
  {
    hide Next, ComesBack;
    if i > 0 {
      LiveIff(ws, acts, i - 1, chain, op);
      assert Enabled(ws[i - 1], acts[i - 1]);
      LiveStep(ws[i - 1], acts[i - 1], chain, op);
    }
  }

  predicate IsOpen(m: Manager, chain: Chain, f: FollowId) {
    chain in m.chains && f in m.chains[chain].follows
  }

  /** The follow's subscription is closed, or its client reports an error. */
  predicate EndsFollow(w: World, act: Action, chain: Chain, f: FollowId) {
    (act.CloseFollow? || act.FollowDies?) && act.holder in w.holders && w.holders[act.holder].chain == chain
    && w.holders[act.holder].work == Following(f)
  }

  /** A follow is open on its chain from its start until it is closed or dies, while the chain is connected. */
  lemma FollowStep(w: World, act: Action, chain: Chain, f: FollowId)
    requires Enabled(w, act)
    ensures var m' := Next(w, act).m;
            IsOpen(m', chain, f) <==>
            || (IsOpen(w.m, chain, f) && !EndsFollow(w, act, chain, f) && chain in m'.chains)
            || Starts(w, act, chain, Following(f))
  {
  }

  ghost predicate FollowsDiffer(w: World) {
    && (forall h: HolderId :: h in w.holders && w.holders[h].work.Following? ==>
          h < w.nextHolder && w.holders[h].work.follow < w.m.nextFollowId)
    && (forall h: HolderId, k: HolderId ::
          h in w.holders && k in w.holders && w.holders[h].work.Following? && h != k ==>
            w.holders[h].work != w.holders[k].work)
  }

  lemma StepKeepsFollowsDiffer(w: World, act: Action)
    requires FollowsDiffer(w) && Enabled(w, act) && w.nextHolder !in w.holders
    ensures FollowsDiffer(Next(w, act))
  {
  }

  /** No two subscriptions in progress share a follow. */
  lemma {:induction false} EachFollowsItsOwn(ws: seq<World>, acts: seq<Action>, i: nat)
    requires Behaviour(ws, acts) && i < |ws|
    ensures FollowsDiffer(ws[i])
  {
    hide Next, Inv, FollowsDiffer;
    if i == 0 {
      assert FollowsDiffer(FreshWorld) by { NoFollows(); }
    } else {
      EachFollowsItsOwn(ws, acts, i - 1);
      AlwaysSafe(ws, acts, i - 1);
      NextHolderIsNew(ws[i - 1]);
      assert Enabled(ws[i - 1], acts[i - 1]);
      StepKeepsFollowsDiffer(ws[i - 1], acts[i - 1]);
    }
  }

  lemma NoFollows()
    ensures FollowsDiffer(FreshWorld)
  {
  }
}
