/**
 * The session driver: performs the reducer's effects and keeps the promises handed to callers
 * (packages/statement-store/src/session/core.ts).
 */
module SessionCore {
  import opened Common
  import opened SessionMachine
  import opened SessionSteps
  import opened SessionRuns
  import opened SessionRestart
  import opened SessionAdmission
  import opened ExpiryAllocator

  datatype Promise = Pending | Resolved(requestId: RequestId, code: ResponseStatus) | Rejected(error: Failure)

  const SESSION_DISPOSED: Failure := "Session disposed"
  const BATCH_ABORTED: Failure := "Outgoing batch aborted"
  const TOO_BIG: Failure := "message too big"

  /** The keys of `pendingDelivery`, and every promise ever made with what became of it. */
  datatype Deliveries = Deliveries(pending: set<Token>, promises: map<Token, Promise>)

  function Settle(d: Deliveries, tokens: seq<Token>, outcome: Promise): Deliveries {
    Deliveries(set t | t in d.pending && t !in tokens,
               map t | t in d.promises :: if t in d.pending && t in tokens then outcome else d.promises[t])
  }

  function Perform(d: Deliveries, effects: seq<SessionEffect>): Deliveries {
    if effects == [] then d
    else
      var before := Perform(d, effects[..|effects| - 1]);
      match effects[|effects| - 1]
      case SubmitRequest(_, _) => before
      case ResolveTokens(tokens, requestId, code) => Settle(before, tokens, Resolved(requestId, code))
      case RejectTokens(tokens, error) => Settle(before, tokens, Rejected(error))
  }

  function Started(effects: seq<SessionEffect>): seq<(RequestId, seq<Bytes>)> {
    if effects == [] then []
    else
      Started(effects[..|effects| - 1])
      + if effects[|effects| - 1].SubmitRequest?
        then [(effects[|effects| - 1].requestId, effects[|effects| - 1].messages)] else []
  }

  lemma StartedOne(id: RequestId, messages: seq<Bytes>)
    ensures Started([SubmitRequest(id, messages)]) == [(id, messages)]
    ensures Started([]) == []
  {
    assert [SubmitRequest(id, messages)][..0] == [];
  }

  lemma {:induction false} SubmissionsSettleNothing(d: Deliveries, effects: seq<SessionEffect>)
    requires forall i :: 0 < i < |effects| ==> effects[i].SubmitRequest?
    ensures Perform(d, effects) == if effects == [] then d else Perform(d, effects[..1])
  {
    if |effects| > 1 {
      var init := effects[..|effects| - 1];
      SubmissionsSettleNothing(d, init);
      assert init[..1] == effects[..1];
    }
  }

  /** What one event does to the promises: the batch it ends settles its tokens, nothing else does. */
  function Outcome(st: SessionState, ev: SessionEvent): Promise
    requires EndsBatch(st, ev)
  {
    if ev.ResponseReceived? then Resolved(ev.requestId, ev.code) else Rejected(ev.error)
  }

  lemma DispatchSettles(d: Deliveries, st: SessionState, ev: SessionEvent, ctx: Context)
    ensures Perform(d, Reduce(st, ev, ctx).effects)
            == if EndsBatch(st, ev) then Settle(d, st.outgoing.value.tokens, Outcome(st, ev)) else d
  {
    var effects := Reduce(st, ev, ctx).effects;
    StepSubmissions(st, ev, ctx);
    var subs := Submissions(st, ev, effects);
    forall i | 0 < i < |effects| ensures effects[i].SubmitRequest? {
      if EndsBatch(st, ev) { assert effects[i] == subs[i - 1]; } else { assert effects[i] == subs[i]; }
    }
    SubmissionsSettleNothing(d, effects);
    if effects != [] {
      assert effects[..1][..0] == [];
      assert Perform(d, []) == d;
      if !EndsBatch(st, ev) { assert effects[0] == subs[0]; }
    }
  }

  predicate Unique(m: multiset<Token>) {
    forall t :: t in m ==> m[t] == 1
  }

  /** Who is waiting after an event: whoever was, plus the submitter, minus the tokens it settles. */
  lemma WaitersAfter(st: SessionState, ev: SessionEvent, ctx: Context)
    requires !Discards(ev) && Unique(Held(st))
    requires ev.MessageSubmitted? ==> ev.token !in Held(st)
    ensures var after := Reduce(st, ev, ctx).state;
            && Unique(Held(after))
            && (forall t :: t in Held(after) <==>
                  && (t in Held(st) || (ev.MessageSubmitted? && t == ev.token))
                  && !(EndsBatch(st, ev) && t in st.outgoing.value.tokens))
  {
    StepConservesTokens(st, ev, ctx);
    var after := Reduce(st, ev, ctx).state;
    MultiplicitiesAfter(Held(st), Held(after), Settled(st, ev), Dropped(st, ev), Submitted(ev));
    assert forall t :: t in Settled(st, ev) <==> EndsBatch(st, ev) && t in st.outgoing.value.tokens;
    assert forall t :: Settled(st, ev)[t] <= Held(st)[t];
  }

  lemma MultiplicitiesAfter(held: multiset<Token>, after: multiset<Token>, settled: multiset<Token>,
                            dropped: multiset<Token>, submitted: multiset<Token>)
    requires after + settled + dropped == held + submitted
    ensures forall t :: after[t] + settled[t] + dropped[t] == held[t] + submitted[t]
  {
    forall t ensures after[t] + settled[t] + dropped[t] == held[t] + submitted[t] {
      assert (after + settled + dropped)[t] == (held + submitted)[t];
    }
  }

  /** Rejecting everyone still waiting. */
  function RejectAll(d: Deliveries, error: Failure): Deliveries {
    Deliveries({}, map t | t in d.promises :: if t in d.pending then Rejected(error) else d.promises[t])
  }

  /** A promise is settled at most once, only while it is pending, and only by the batch that held it. */
  lemma SettlesOnce(d: Deliveries, tokens: seq<Token>, outcome: Promise, t: Token)
    requires Accounted(d) && t in d.promises && !outcome.Pending?
    ensures var d' := Settle(d, tokens, outcome);
            && Accounted(d')
            && (d.promises[t].Pending? && t in tokens ==> d'.promises[t] == outcome)
            && (!(d.promises[t].Pending? && t in tokens) ==> d'.promises[t] == d.promises[t])
            && (d'.promises[t].Pending? <==> d.promises[t].Pending? && t !in tokens)
  {
  }

  ghost predicate Accounted(d: Deliveries) {
    forall t :: t in d.promises && d.promises[t].Pending? <==> t in d.pending
  }

  /** The driver's state as a value. */
  datatype Core = Core(state: SessionState, nextId: RequestId, nextToken: Token, waiting: Deliveries, disposed: bool)

  /** No waiter is orphaned: a promise is pending exactly while the machine holds its token. */
  ghost predicate Sound(c: Core) {
    && Unique(Held(c.state))
    && (forall t :: t in c.waiting.pending <==> t in Held(c.state))
    && Accounted(c.waiting)
    && (forall t :: t in c.waiting.promises ==> t < c.nextToken)
    && IdsOrdered(c.state, c.nextId)
    && InPhase(c.state)
    && (c.disposed ==> c.state.outgoing.None? && c.state.messageQueue == [])
  }

  predicate InPhase(st: SessionState) {
    && (st.phase == Initialization ==> st.outgoing.None?)
    && (st.phase == Active && st.outgoing.None? ==> st.messageQueue == [])
    && (st.phase == Failed ==> st.outgoing.None? && st.messageQueue == [])
  }

  lemma PhaseKept(st: SessionState, ev: SessionEvent, ctx: Context)
    requires InPhase(st) && !ev.OutgoingRestored? && (ev.MessageSubmitted? ==> st.phase != Failed)
    requires ev.InitFailed? ==> st.phase == Initialization
    ensures InPhase(Reduce(st, ev, ctx).state)
  {
    if Drains(st, ev) {
      DrainStops(if ev.Activated? then st.(phase := Active) else Base(st, ev), ctx);
    }
  }

  lemma SubmitKeepsSound(c: Core, encoded: Bytes, ctx: Context)
    requires Sound(c) && !c.disposed && c.state.phase != Failed && ctx.nextId == c.nextId
    ensures var t := Reduce(c.state, MessageSubmitted(encoded, c.nextToken), ctx);
            var d := Deliveries(c.waiting.pending + {c.nextToken}, c.waiting.promises[c.nextToken := Pending]);
            Sound(Core(t.state, t.nextId, c.nextToken + 1, d, false))
  {
    hide Reduce, Held, IdsOrdered, InPhase;
    var ev := MessageSubmitted(encoded, c.nextToken);
    assert c.nextToken !in c.waiting.pending;
    WaitersAfter(c.state, ev, ctx);
    IdsOrderedStep(c.state, ev, ctx);
    PhaseKept(c.state, ev, ctx);
  }

  /** What one event leaves waiting. */
  function DeliveriesAfter(c: Core, ev: SessionEvent): Deliveries {
    if EndsBatch(c.state, ev) then Settle(c.waiting, c.state.outgoing.value.tokens, Outcome(c.state, ev)) else c.waiting
  }

  lemma EventKeepsSound(c: Core, ev: SessionEvent, ctx: Context)
    requires Sound(c) && ctx.nextId == c.nextId && !Discards(ev) && !ev.MessageSubmitted?
    requires c.disposed ==> !ev.Activated?
    ensures var t := Reduce(c.state, ev, ctx);
            Sound(Core(t.state, t.nextId, c.nextToken, DeliveriesAfter(c, ev), c.disposed))
  {
    WaitersAfter(c.state, ev, ctx);
    IdsOrderedStep(c.state, ev, ctx);
    PhaseKept(c.state, ev, ctx);
    if c.disposed && !Drains(c.state, ev) {
      OtherwiseKeeps(c.state, ev, ctx);
    } else if c.disposed {
      DrainStops(c.state, ctx);
    }
  }

  lemma DropEmpties(st: SessionState, ev: SessionEvent, ctx: Context)
    requires ev.OutgoingCleared? || (ev.InitFailed? && st.phase == Initialization && st.outgoing.None?)
    ensures var t := Reduce(st, ev, ctx);
            && t.effects == [] && t.nextId == ctx.nextId
            && t.state.outgoing.None? && t.state.messageQueue == []
            && Held(t.state) == multiset{}
            && IdsOrdered(t.state, t.nextId) && InPhase(t.state)
  {
  }

  lemma DropKeepsSound(c: Core, ev: SessionEvent, ctx: Context, error: Failure, disposed: bool)
    requires Sound(c) && ctx.nextId == c.nextId && (c.disposed ==> disposed)
    requires ev.OutgoingCleared? || (ev.InitFailed? && c.state.phase == Initialization)
    ensures var t := Reduce(c.state, ev, ctx);
            Sound(Core(t.state, t.nextId, c.nextToken, RejectAll(c.waiting, error), disposed))
  {
    assert InPhase(c.state);
    DropEmpties(c.state, ev, ctx);
    hide Reduce, Held, IdsOrdered, InPhase;
  }

  lemma RecoverKeepsHeld(st: SessionState, ctx: Context, own: seq<Stored>, peer: seq<Stored>)
    requires st.outgoing.None?
    ensures Held(Restored(st, ctx, own, peer)) == Held(st)
  {
  }

  lemma RestoredIdsOrdered(st: SessionState, ctx: Context, own: seq<Stored>, peer: seq<Stored>)
    requires st.outgoing.None?
    requires FirstRequest(own).Some? ==> FirstRequest(own).value.requestId < ctx.nextId
    ensures IdsOrdered(Restored(st, ctx, own, peer), ctx.nextId)
  {
  }

  lemma RecoverKeepsSound(c: Core, ctx: Context, own: seq<Stored>, peer: seq<Stored>)
    requires Sound(c) && c.state.phase == Initialization && ctx.nextId == c.nextId && !c.disposed
    requires FirstRequest(own).Some? ==> FirstRequest(own).value.requestId < ctx.nextId
    ensures var t := Recover(c.state, ctx, own, peer);
            Sound(c.(state := t.state, nextId := t.nextId))
  {
    hide Reduce, Held, IdsOrdered, Drain, Restored, Recover;
    var from := Restored(c.state, ctx, own, peer);
    RestoredBatch(c.state, ctx, own, peer);
    RecoverKeepsHeld(c.state, ctx, own, peer);
    RestoredIdsOrdered(c.state, ctx, own, peer);
    DrainKeeps(from, ctx);
    DrainStops(from, ctx);
    ActivatedIds(from, ctx);
  }

  lemma ActivatedIds(from: SessionState, ctx: Context)
    requires from.phase == Active && IdsOrdered(from, ctx.nextId)
    ensures IdsOrdered(Drain(from, ctx).state, Drain(from, ctx).nextId)
  {
    IdsOrderedStep(from, SessionEvent.CapacityChanged, ctx);
  }

  lemma SoundKeys(c: Core)
    requires Sound(c)
    ensures c.waiting.pending <= c.waiting.promises.Keys
    ensures c.nextToken !in c.waiting.promises
  {
  }

  lemma RestoringIsQuiet(st: SessionState, ev: SessionEvent, ctx: Context)
    requires ev.OutgoingRestored? || ev.IncomingRestored?
    ensures Reduce(st, ev, ctx).nextId == ctx.nextId && Reduce(st, ev, ctx).effects == [] && !EndsBatch(st, ev)
  {
  }

  lemma CapacityStep(c: Core, ctx: Context)
    requires Sound(c) && ctx.nextId == c.nextId
    ensures var t := Reduce(c.state, SessionEvent.CapacityChanged, ctx);
            && Sound(c.(state := t.state, nextId := t.nextId))
            && Justified(t.state, ctx.fits)
            && Content(t.state) == Content(c.state)
    ensures DeliveriesAfter(c, SessionEvent.CapacityChanged) == c.waiting
  {
    hide Sound, Reduce, Justified, Content;
    EventKeepsSound(c, SessionEvent.CapacityChanged, ctx);
    JustifiedStep(c.state, SessionEvent.CapacityChanged, ctx);
    CapacityKeepsContent(c.state, ctx);
  }

  lemma CapacityKeepsContent(st: SessionState, ctx: Context)
    ensures Content(Reduce(st, SessionEvent.CapacityChanged, ctx).state) == Content(st)
  {
    DrainKeeps(st, ctx);
  }

  lemma BatchEffects(st: SessionState, ev: SessionEvent, ctx: Context)
    requires ev.ResponseReceived? || ev.RequestSubmitFailed?
    ensures |Reduce(st, ev, ctx).effects| > 0 <==> EndsBatch(st, ev)
  {
  }

  class Session {
    var machineState: SessionState
    var nextId: RequestId
    var nextToken: Token
    var pendingDelivery: set<Token>
    var promises: map<Token, Promise>
    var submissions: seq<(RequestId, seq<Bytes>)>
    var disposed: bool
    const allocator: Allocator
    const maxPayloadSize: nat

    function Waiting(): Deliveries
      reads this
    {
      Deliveries(pendingDelivery, promises)
    }

    function AsCore(): Core
      reads this
    {
      Core(machineState, nextId, nextToken, Waiting(), disposed)
    }

    ghost predicate Valid()
      reads this
    {
      Sound(AsCore())
    }

    constructor (allocator: Allocator, maxPayloadSize: nat, firstId: RequestId)
      ensures Valid() && fresh(this)
      ensures this.allocator == allocator && this.maxPayloadSize == maxPayloadSize
      ensures AsCore() == Core(InitialState, firstId, 0, Deliveries({}, map[]), false) && submissions == []
    {
      machineState, nextId, nextToken := InitialState, firstId, 0;
      pendingDelivery, promises, submissions, disposed := {}, map[], [], false;
      this.allocator, this.maxPayloadSize := allocator, maxPayloadSize;
    }

    method SettleTokens(tokens: seq<Token>, outcome: Promise)
      requires pendingDelivery <= promises.Keys
      modifies this`pendingDelivery, this`promises
      ensures Waiting() == Settle(old(Waiting()), tokens, outcome)
      ensures pendingDelivery <= promises.Keys
    {
      var i := 0;
      while i < |tokens|
        invariant i <= |tokens|
        invariant Waiting() == Settle(old(Waiting()), tokens[..i], outcome)
      {
        if tokens[i] in pendingDelivery {
          promises := promises[tokens[i] := outcome];
          pendingDelivery := pendingDelivery - {tokens[i]};
        }
        assert forall t :: t in tokens[..i + 1] <==> t in tokens[..i] || t == tokens[i];
        i := i + 1;
      }
      assert tokens[..i] == tokens;
    }

    method RunEffects(effects: seq<SessionEffect>)
      requires pendingDelivery <= promises.Keys
      modifies this`pendingDelivery, this`promises, this`submissions
      ensures Waiting() == Perform(old(Waiting()), effects)
      ensures submissions == old(submissions) + Started(effects)
    {
      var i := 0;
      while i < |effects|
        invariant i <= |effects|
        invariant pendingDelivery <= promises.Keys
        invariant Waiting() == Perform(old(Waiting()), effects[..i])
        invariant submissions == old(submissions) + Started(effects[..i])
      {
        assert effects[..i + 1][..i] == effects[..i];
        match effects[i] {
          case SubmitRequest(requestId, messages) => submissions := submissions + [(requestId, messages)];
          case ResolveTokens(tokens, requestId, code) => SettleTokens(tokens, Resolved(requestId, code));
          case RejectTokens(tokens, error) => SettleTokens(tokens, Rejected(error));
        }
        i := i + 1;
      }
      assert effects[..i] == effects;
    }

    method Dispatch(ev: SessionEvent, fits: seq<Bytes> -> bool) returns (effects: seq<SessionEffect>)
      requires pendingDelivery <= promises.Keys
      modifies this`machineState, this`nextId, this`pendingDelivery, this`promises, this`submissions
      ensures Transition(machineState, effects, nextId)
              == Reduce(old(machineState), ev, Context(fits, old(nextId)))
      ensures Waiting() == DeliveriesAfter(old(AsCore()), ev)
      ensures submissions == old(submissions) + Started(effects)
    {
      var result := Reduce(machineState, ev, Context(fits, nextId));
      DispatchSettles(Waiting(), machineState, ev, Context(fits, nextId));
      machineState, nextId := result.state, result.nextId;
      RunEffects(result.effects);
      return result.effects;
    }

    /** Sizes, then hands the message to the machine. `built` is the body builder's result for it alone. */
    method SubmitRequestMessage(encoded: Bytes, built: Result<nat>, fits: seq<Bytes> -> bool)
      returns (r: Result<Token>)
      requires Valid()
      modifies this
      ensures Valid()
      ensures r.Ok? <==> !old(disposed) && built.Ok? && built.value <= maxPayloadSize
                         && old(machineState).phase != Failed
      ensures r.Err? ==> AsCore() == old(AsCore()) && submissions == old(submissions)
      ensures r.Ok? ==>
                var t := Reduce(old(machineState), MessageSubmitted(encoded, r.value), Context(fits, old(nextId)));
                && r.value !in old(promises)
                && promises == old(promises)[r.value := Pending]
                && (machineState, nextId) == (t.state, t.nextId)
                && submissions == old(submissions) + Started(t.effects)
      ensures r.Ok? ==>
                var st := old(machineState);
                if IsNew(st, encoded) && MayGoOut(st, encoded, fits)
                then submissions == old(submissions) + [(old(nextId), LiveMessages(st) + [encoded])]
                else submissions == old(submissions)
                     && (IsNew(st, encoded) ==>
                           machineState == st.(messageQueue := st.messageQueue + [QueuedMessage(encoded, [r.value])]))
    {
      hide Sound, Reduce;
      if disposed { return Err(SESSION_DISPOSED); }
      if built.Err? { return Err(built.error); }
      if built.value > maxPayloadSize { return Err(TOO_BIG); }
      if machineState.phase == Failed {
        return Err(if machineState.initError.Some? then machineState.initError.value
                   else "Session initialization failed");
      }
      SoundKeys(AsCore());
      SubmitKeepsSound(AsCore(), encoded, Context(fits, nextId));
      var token := nextToken;
      SubmittedGoes(machineState, encoded, token, Context(fits, nextId));
      StartedOne(nextId, LiveMessages(machineState) + [encoded]);
      assert submissions + [] == submissions;
      nextToken := nextToken + 1;
      pendingDelivery := pendingDelivery + {token};
      promises := promises[token := Pending];
      var _ := Dispatch(MessageSubmitted(encoded, token), fits);
      return Ok(token);
    }

    /** A peer response: resolves the whole batch if it names any id the batch was sent under. */
    method ReceiveResponse(requestId: RequestId, code: ResponseStatus, fits: seq<Bytes> -> bool)
      returns (delivered: bool)
      requires Valid()
      modifies this
      ensures Valid() && disposed == old(disposed)
      ensures delivered <==> requestId in RequestIds(old(machineState))
      ensures Waiting() == if delivered
                           then Settle(old(Waiting()), old(machineState).outgoing.value.tokens,
                                       Resolved(requestId, code))
                           else old(Waiting())
      ensures var t := Reduce(old(machineState), ResponseReceived(requestId, code), Context(fits, old(nextId)));
              && (machineState, nextId, nextToken) == (t.state, t.nextId, old(nextToken))
              && submissions == old(submissions) + Started(t.effects)
    {
      hide Sound, Reduce;
      SoundKeys(AsCore());
      ghost var ev := ResponseReceived(requestId, code);
      EventKeepsSound(AsCore(), ev, Context(fits, nextId));
      BatchEffects(machineState, ev, Context(fits, nextId));
      var effects := Dispatch(ResponseReceived(requestId, code), fits);
      return |effects| > 0;
    }

    /** A submission exhausted its retries: only the newest one may fail the batch. */
    method SubmitFailed(requestId: RequestId, error: Failure, fits: seq<Bytes> -> bool) returns (reported: bool)
      requires Valid()
      modifies this
      ensures Valid() && disposed == old(disposed)
      ensures reported <==> !old(disposed) && LiveRequestId(old(machineState)) == Some(requestId)
      ensures Waiting() == if reported
                           then Settle(old(Waiting()), old(machineState).outgoing.value.tokens, Rejected(error))
                           else old(Waiting())
      ensures old(disposed) ==> AsCore() == old(AsCore()) && submissions == old(submissions)
      ensures !old(disposed) ==>
                var t := Reduce(old(machineState), RequestSubmitFailed(requestId, error), Context(fits, old(nextId)));
                && (machineState, nextId, nextToken) == (t.state, t.nextId, old(nextToken))
                && submissions == old(submissions) + Started(t.effects)
    {
      hide Sound, Reduce;
      if disposed { return false; }
      SoundKeys(AsCore());
      ghost var ev := RequestSubmitFailed(requestId, error);
      EventKeepsSound(AsCore(), ev, Context(fits, nextId));
      BatchEffects(machineState, ev, Context(fits, nextId));
      var effects := Dispatch(RequestSubmitFailed(requestId, error), fits);
      return |effects| > 0;
    }

    method RejectAllPending(error: Failure)
      requires pendingDelivery <= promises.Keys
      modifies this`pendingDelivery, this`promises
      ensures Waiting() == RejectAll(old(Waiting()), error)
    {
      var left := pendingDelivery;
      while left != {}
        invariant left <= pendingDelivery == old(pendingDelivery) <= promises.Keys
        invariant promises == map t | t in old(promises) ::
                    if t in old(pendingDelivery) && t !in left then Rejected(error) else old(promises)[t]
        decreases |left|
      {
        var t :| t in left;
        promises := promises[t := Rejected(error)];
        left := left - {t};
      }
      pendingDelivery := {};
    }

    /**
     * Drops everything unanswered. The result is the id whose statement has to be superseded with
     * an empty batch, if one is on the channel.
     */
    method ClearOutgoingStatement() returns (superseded: Option<RequestId>)
      requires Valid()
      modifies this
      ensures Valid() && disposed == old(disposed)
      ensures superseded == LiveRequestId(old(machineState))
      ensures machineState == old(machineState).(outgoing := None, messageQueue := [])
      ensures nextId == old(nextId) && nextToken == old(nextToken) && submissions == old(submissions)
      ensures Waiting() == RejectAll(old(Waiting()), BATCH_ABORTED)
    {
      hide Sound;
      SoundKeys(AsCore());
      DropKeepsSound(AsCore(), OutgoingCleared, Context(_ => false, nextId), BATCH_ABORTED, disposed);
      superseded := LiveRequestId(machineState);
      var _ := Dispatch(OutgoingCleared, _ => false);
      RejectAllPending(BATCH_ABORTED);
    }

    method FailInit(error: Failure)
      requires Valid() && machineState.phase == Initialization
      modifies this
      ensures Valid() && disposed == old(disposed)
      ensures machineState == old(machineState).(phase := Failed, initError := Some(error), messageQueue := [])
      ensures nextId == old(nextId) && nextToken == old(nextToken) && submissions == old(submissions)
      ensures Waiting() == RejectAll(old(Waiting()), error)
    {
      hide Sound;
      SoundKeys(AsCore());
      DropKeepsSound(AsCore(), InitFailed(error), Context(_ => false, nextId), error, disposed);
      var _ := Dispatch(InitFailed(error), _ => false);
      RejectAllPending(error);
    }

    /** The rest of `init` once both queries have succeeded. */
    method Init(own: seq<Stored>, peer: seq<Stored>, fits: seq<Bytes> -> bool)
      requires Valid() && machineState.phase == Initialization
      requires FirstRequest(own).Some? ==> FirstRequest(own).value.requestId < nextId
      modifies this, allocator
      ensures Valid() && disposed == old(disposed) && Waiting() == old(Waiting())
      ensures allocator.current == Max(old(allocator.current), MaxExpiry(own))
      ensures old(disposed) ==> AsCore() == old(AsCore()) && submissions == old(submissions)
      ensures !old(disposed) ==>
                var t := Recover(old(machineState), Context(fits, old(nextId)), own, peer);
                && (machineState, nextId, nextToken) == (t.state, t.nextId, old(nextToken))
                && submissions == old(submissions) + Started(t.effects)
    {
      hide Sound, Reduce, Drain, MaxExpiry, FirstRequest, FirstResponse;
      allocator.RaiseFloor(MaxExpiry(own));
      if disposed { return; }
      ghost var before, ctx := AsCore(), Context(fits, nextId);
      SoundKeys(before);
      RecoverKeepsSound(before, ctx, own, peer);
      var ownRequest, peerRequest := FirstRequest(own), FirstRequest(peer);
      if ownRequest.Some? && !FirstResponseIs(peer, ownRequest.value.requestId) {
        RestoringIsQuiet(machineState, OutgoingRestored(ownRequest.value.requestId, ownRequest.value.messages), ctx);
        var _ := Dispatch(OutgoingRestored(ownRequest.value.requestId, ownRequest.value.messages), fits);
      }
      assert machineState == RestoreOutgoing(before.state, ctx, own, peer) && nextId == before.nextId;
      assert Waiting() == before.waiting && submissions == old(submissions);
      if peerRequest.Some? {
        var requestId := peerRequest.value.requestId;
        RestoringIsQuiet(machineState, IncomingRestored(requestId, FirstResponseIs(own, requestId)), ctx);
        var _ := Dispatch(IncomingRestored(requestId, FirstResponseIs(own, requestId)), fits);
      }
      assert nextId == before.nextId && Waiting() == before.waiting && submissions == old(submissions);
      var _ := Dispatch(Activated, fits);
    }

    method CapacityChanged(fits: seq<Bytes> -> bool)
      requires Valid()
      modifies this
      ensures Valid() && disposed == old(disposed) && Waiting() == old(Waiting())
      ensures disposed ==> AsCore() == old(AsCore()) && submissions == old(submissions)
      ensures var t := Reduce(old(machineState), SessionEvent.CapacityChanged, Context(fits, old(nextId)));
              !disposed ==>
                && Justified(machineState, fits) && Content(machineState) == old(Content(machineState))
                && (machineState, nextId, nextToken) == (t.state, t.nextId, old(nextToken))
                && submissions == old(submissions) + Started(t.effects)
    {
      hide Sound, Reduce, Content, Justified;
      if !disposed {
        SoundKeys(AsCore());
        CapacityStep(AsCore(), Context(fits, nextId));
        var _ := Dispatch(SessionEvent.CapacityChanged, fits);
      }
    }

    method Dispose()
      requires Valid()
      modifies this
      ensures Valid() && disposed
      ensures machineState == old(machineState).(outgoing := None, messageQueue := [])
      ensures nextId == old(nextId) && nextToken == old(nextToken) && submissions == old(submissions)
      ensures Waiting() == RejectAll(old(Waiting()), SESSION_DISPOSED)
    {
      hide Sound;
      SoundKeys(AsCore());
      DropKeepsSound(AsCore(), OutgoingCleared, Context(_ => false, nextId), SESSION_DISPOSED, true);
      disposed := true;
      var _ := Dispatch(OutgoingCleared, _ => false);
      RejectAllPending(SESSION_DISPOSED);
    }
  }
}
