/**
 * The session's transport decision logic: a reducer from (state, event) to the next state
 * and the effects its driver performs (packages/statement-store/src/session/stateMachine.ts).
 */
module SessionMachine {
  import opened Common

  datatype Phase = Initialization | Active | Failed

  datatype ResponseStatus = Success | DecodingFailed | DecryptionFailed | Unknown

  datatype QueuedMessage = QueuedMessage(encoded: Bytes, tokens: seq<Token>)

  datatype OutgoingRequest = OutgoingRequest(requestIds: seq<RequestId>, messages: seq<Bytes>, tokens: seq<Token>)

  datatype SessionState = SessionState(
    phase: Phase,
    initError: Option<Failure>,
    outgoing: Option<OutgoingRequest>,
    messageQueue: seq<QueuedMessage>,
    incoming: map<RequestId, bool>)  // true: already responded

  datatype SessionEvent =
    | MessageSubmitted(encoded: Bytes, token: Token)
    | RequestReceived(requestId: RequestId)
    | ResponseReceived(requestId: RequestId, code: ResponseStatus)
    | RequestSubmitFailed(requestId: RequestId, error: Failure)
    | ResponseSubmitted(requestId: RequestId)
    | ResponseSubmitFailed(requestId: RequestId)
    | CapacityChanged
    | OutgoingCleared
    | OutgoingRestored(requestId: RequestId, messages: seq<Bytes>)
    | IncomingRestored(requestId: RequestId, responded: bool)
    | Activated
    | InitFailed(error: Failure)

  datatype SessionEffect =
    | SubmitRequest(requestId: RequestId, messages: seq<Bytes>)
    | ResolveTokens(tokens: seq<Token>, requestId: RequestId, code: ResponseStatus)
    | RejectTokens(tokens: seq<Token>, error: Failure)

  /** The size oracle, and the next id to draw. */
  datatype Context = Context(fits: seq<Bytes> -> bool, nextId: RequestId)

  datatype Transition = Transition(state: SessionState, effects: seq<SessionEffect>, nextId: RequestId)

  const InitialState := SessionState(Initialization, None, None, [], map[])

  // ---- selectors -------------------------------------------------------------------------

  /** The newest submission of the live batch: the only id still worth retrying. */
  function LiveRequestId(st: SessionState): Option<RequestId> {
    if st.outgoing.Some? && |st.outgoing.value.requestIds| > 0
    then Some(st.outgoing.value.requestIds[|st.outgoing.value.requestIds| - 1])
    else None
  }

  function LiveMessages(st: SessionState): seq<Bytes> {
    if st.outgoing.Some? then st.outgoing.value.messages else []
  }

  function QueuedBytes(q: seq<QueuedMessage>): seq<Bytes> {
    seq(|q|, i requires 0 <= i < |q| => q[i].encoded)
  }

  // ---- internals -------------------------------------------------------------------------

  function Nothing(st: SessionState, ctx: Context): Transition {
    Transition(st, [], ctx.nextId)
  }

  function IndexOf(q: seq<QueuedMessage>, encoded: Bytes): (k: nat)
    ensures k <= |q|
    ensures k < |q| ==> q[k].encoded == encoded
    ensures forall i :: 0 <= i < k ==> q[i].encoded != encoded
  {
    if q == [] || q[0].encoded == encoded then 0 else 1 + IndexOf(q[1..], encoded)
  }

  /** Lets `token` ride on an identical message in flight or queued, if there is one. */
  function AttachToDuplicate(st: SessionState, encoded: Bytes, token: Token): Option<SessionState> {
    if st.outgoing.Some? && encoded in st.outgoing.value.messages then
      var live := st.outgoing.value;
      Some(st.(outgoing := Some(live.(tokens := live.tokens + [token]))))
    else
      var k := IndexOf(st.messageQueue, encoded);
      if k == |st.messageQueue| then None
      else
        var entry := st.messageQueue[k];
        Some(st.(messageQueue := st.messageQueue[k := entry.(tokens := entry.tokens + [token])]))
  }

  /** Starts a batch, extends the live one, or parks the message behind it. */
  function Admit(st: SessionState, encoded: Bytes, tokens: seq<Token>, ctx: Context): Transition {
    if st.outgoing.None? then
      var live := OutgoingRequest([ctx.nextId], [encoded], tokens);
      Transition(st.(outgoing := Some(live)), [SubmitRequest(ctx.nextId, live.messages)], ctx.nextId + 1)
    else
      var live := st.outgoing.value;
      var messages := live.messages + [encoded];
      if ctx.fits(messages) then
        var grown := OutgoingRequest(live.requestIds + [ctx.nextId], messages, live.tokens + tokens);
        Transition(st.(outgoing := Some(grown)), [SubmitRequest(ctx.nextId, messages)], ctx.nextId + 1)
      else
        Nothing(st.(messageQueue := st.messageQueue + [QueuedMessage(encoded, tokens)]), ctx)
  }

  /** True when the queue head may move into the batch now. */
  predicate HeadAdmissible(st: SessionState, fits: seq<Bytes> -> bool) {
    && |st.messageQueue| > 0
    && (st.outgoing.Some? ==> fits(st.outgoing.value.messages + [st.messageQueue[0].encoded]))
  }

  /** Moves queue heads into the batch for as long as the budget allows. */
  function Drain(st: SessionState, ctx: Context): Transition
    decreases |st.messageQueue|
  {
    if !HeadAdmissible(st, ctx.fits) then Nothing(st, ctx)
    else
      var head := st.messageQueue[0];
      var admitted := Admit(st.(messageQueue := st.messageQueue[1..]), head.encoded, head.tokens, ctx);
      var rest := Drain(admitted.state, ctx.(nextId := admitted.nextId));
      Transition(rest.state, admitted.effects + rest.effects, rest.nextId)
  }

  /** The loop that drains the queue, proved to compute `Drain`. */
  method DrainQueue(st: SessionState, ctx: Context) returns (t: Transition)
    ensures t == Drain(st, ctx)
  {
    var current := st;
    var effects: seq<SessionEffect> := [];
    var nextId := ctx.nextId;
    while |current.messageQueue| > 0
      invariant var rest := Drain(current, ctx.(nextId := nextId));
                Drain(st, ctx) == Transition(rest.state, effects + rest.effects, rest.nextId)
      decreases |current.messageQueue|
    {
      var head := current.messageQueue[0];
      if current.outgoing.Some? && !ctx.fits(current.outgoing.value.messages + [head.encoded]) {
        break;
      }
      var admitted := Admit(current.(messageQueue := current.messageQueue[1..]), head.encoded, head.tokens,
                            ctx.(nextId := nextId));
      ghost var rest := Drain(admitted.state, ctx.(nextId := admitted.nextId));
      assert effects + (admitted.effects + rest.effects) == (effects + admitted.effects) + rest.effects;
      current := admitted.state;
      effects := effects + admitted.effects;
      nextId := admitted.nextId;
    }
    assert effects + [] == effects;
    return Transition(current, effects, nextId);
  }

  // ---- reducer ---------------------------------------------------------------------------

  function WithIncoming(st: SessionState, requestId: RequestId, responded: bool): SessionState {
    st.(incoming := st.incoming[requestId := responded])
  }

  /** True when `ev` ends the live batch: it answers any of its ids, or its newest submission failed for good. */
  predicate EndsBatch(st: SessionState, ev: SessionEvent) {
    && st.outgoing.Some?
    && ((ev.ResponseReceived? && ev.requestId in st.outgoing.value.requestIds)
        || (ev.RequestSubmitFailed? && LiveRequestId(st) == Some(ev.requestId)))
  }

  function Settlement(st: SessionState, ev: SessionEvent): SessionEffect
    requires EndsBatch(st, ev)
  {
    if ev.ResponseReceived? then ResolveTokens(st.outgoing.value.tokens, ev.requestId, ev.code)
    else RejectTokens(st.outgoing.value.tokens, ev.error)
  }

  function Reduce(st: SessionState, ev: SessionEvent, ctx: Context): Transition {
    match ev
    case MessageSubmitted(encoded, token) =>
      var deduped := AttachToDuplicate(st, encoded, token);
      if deduped.Some? then Nothing(deduped.value, ctx)
      else if st.phase == Initialization || |st.messageQueue| > 0 then
        Nothing(st.(messageQueue := st.messageQueue + [QueuedMessage(encoded, [token])]), ctx)
      else Admit(st, encoded, [token], ctx)
    case RequestReceived(requestId) =>
      if requestId in st.incoming then Nothing(st, ctx) else Nothing(WithIncoming(st, requestId, false), ctx)
    case ResponseReceived(_, _) => EndBatch(st, ev, ctx)
    case RequestSubmitFailed(_, _) => EndBatch(st, ev, ctx)
    case ResponseSubmitted(requestId) =>
      if requestId in st.incoming then Nothing(WithIncoming(st, requestId, true), ctx) else Nothing(st, ctx)
    case ResponseSubmitFailed(requestId) =>
      if requestId in st.incoming then Nothing(WithIncoming(st, requestId, false), ctx) else Nothing(st, ctx)
    case CapacityChanged =>
      if st.phase == Active then Drain(st, ctx) else Nothing(st, ctx)
    case OutgoingCleared => Nothing(st.(outgoing := None, messageQueue := []), ctx)
    case OutgoingRestored(requestId, messages) =>
      Nothing(st.(outgoing := Some(OutgoingRequest([requestId], messages, []))), ctx)
    case IncomingRestored(requestId, responded) =>
      if requestId in st.incoming then Nothing(st, ctx) else Nothing(WithIncoming(st, requestId, responded), ctx)
    case Activated => Drain(st.(phase := Active), ctx)
    case InitFailed(error) => Nothing(st.(phase := Failed, initError := Some(error), messageQueue := []), ctx)
  }

  function EndBatch(st: SessionState, ev: SessionEvent, ctx: Context): Transition {
    if !EndsBatch(st, ev) then Nothing(st, ctx)
    else
      var drained := Drain(st.(outgoing := None), ctx);
      Transition(drained.state, [Settlement(st, ev)] + drained.effects, drained.nextId)
  }
}
