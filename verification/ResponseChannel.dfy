/**
 * Answers to peer requests, which share one channel
 * (packages/statement-store/src/session/core.ts, `submitResponseMessage` and `submitWithSessionRetry`).
 */
module ResponseChannel {
  import opened Common
  import opened ExpiryAllocator

  /**
   * `Decided`: the store took the attempt, or refused it and reported what it holds; the reply is on its way.
   * `Absorbed`: given up because a newer answer had been started. `Failed`: its request may be answered again.
   */
  datatype Status = InFlight(expiry: nat) | Decided(min: Option<nat>) | BackingOff | Accepted | Absorbed | Failed

  datatype Answer = Answer(id: RequestId, status: Status)

  /** What the channel holds; `owner` is the number of our answer, if it is ours. */
  datatype Entry = Entry(expiry: nat, owner: Option<nat>)

  /**
   * `responded` is the machine's record of the incoming requests, `last` the request answered last. Answers are
   * numbered as they are started; `shown` logs those the store took, in order.
   */
  datatype World = World(
    responded: map<RequestId, bool>,
    last: Option<RequestId>,
    answers: seq<Answer>,
    current: nat,
    channel: Option<Entry>,
    shown: seq<nat>)

  // ---- the session's part: who is marked answered ------------------------------------------------

  /** The machine's record of the incoming requests, and the request answered last. */
  datatype Marks = Marks(responded: map<RequestId, bool>, last: Option<RequestId>)

  /** A known, unanswered request is marked before its answer goes out; an answered one needs nothing. */
  function Begin(m: Marks, id: RequestId): (Marks, Result<bool>) {
    if id !in m.responded then (m, Err("No incoming request with this id"))
    else if m.responded[id] then (m, Ok(false))
    else (Marks(m.responded[id := true], Some(id)), Ok(true))
  }

  /** An error that is not retried any more is surfaced, and rolls the mark back, only for the latest answer. */
  function Rollback(m: Marks, id: RequestId): (Marks, bool) {
    if m.last != Some(id) then (m, false)
    else (if id in m.responded then m.(responded := m.responded[id := false]) else m, true)
  }

  class ResponseDesk {
    var responded: map<RequestId, bool>
    var last: Option<RequestId>

    function AsMarks(): Marks
      reads this
    {
      Marks(responded, last)
    }

    constructor (restored: map<RequestId, bool>)
      ensures AsMarks() == Marks(restored, None)
    {
      responded, last := restored, None;
    }

    /** Whether a submission is started; an unknown request is an error. */
    method SubmitResponseMessage(id: RequestId) returns (started: Result<bool>)
      modifies this
      ensures (AsMarks(), started) == Begin(old(AsMarks()), id)
      ensures id in old(responded) ==> started == Ok(!old(responded)[id]) && responded[id]
      ensures id !in old(responded) ==> started.Err? && AsMarks() == old(AsMarks())
    {
      if id !in responded { return Err("No incoming request with this id"); }
      if responded[id] { return Ok(false); }
      responded := responded[id := true];
      last := Some(id);
      started := Ok(true);
    }

    /** A submission ended in an error that is not retried; `surfaced` says the caller sees it. */
    method SubmissionFailed(id: RequestId) returns (surfaced: bool)
      modifies this`responded
      ensures (AsMarks(), surfaced) == Rollback(old(AsMarks()), id)
      ensures surfaced <==> last == Some(id)
      ensures responded == if surfaced && id in old(responded) then old(responded)[id := false] else old(responded)
    {
      if last != Some(id) { return false; }
      if id in responded { responded := responded[id := false]; }
      surfaced := true;
    }
  }

  // ---- the channel -------------------------------------------------------------------------------

  datatype Action =
    | RequestArrives(id: RequestId)
    | Respond(id: RequestId, clock: nat)
    | Lands(k: nat)
    | Replied(k: nat)
    | Errs(k: nat, final: bool)
    | Wakes(k: nat, clock: nat)
    | ForeignWrite(expiry: nat)
    | OtherDraw(clock: nat)
    | FloorRaised(min: nat)

  predicate Flying(w: World, k: nat) {
    k < |w.answers| && w.answers[k].status.InFlight?
  }

  predicate Awaiting(w: World, k: nat) {
    k < |w.answers| && w.answers[k].status.Decided?
  }

  predicate Enabled(w: World, act: Action) {
    match act
    case Lands(k) => Flying(w, k)
    case Replied(k) => Awaiting(w, k)
    case Errs(k, _) => Flying(w, k) || Awaiting(w, k)
    case Wakes(k, clock) => k < |w.answers| && w.answers[k].status.BackingOff? && clock < U64
    case Respond(_, clock) => clock < U64
    case OtherDraw(clock) => clock < U64
    case _ => true
  }

  predicate Live(w: World, k: nat)
    requires k < |w.answers|
  {
    w.last == Some(w.answers[k].id)
  }

  function SetStatus(w: World, k: nat, status: Status): World
    requires k < |w.answers|
  {
    w.(answers := w.answers[k := w.answers[k].(status := status)])
  }

  predicate Takes(w: World, expiry: nat) {
    w.channel.None? || expiry > w.channel.value.expiry
  }

  /** The store takes a statement if its expiry is strictly higher than what the channel holds. */
  function Stored(w: World, k: nat): World
    requires Flying(w, k)
  {
    var expiry := w.answers[k].status.expiry;
    if Takes(w, expiry) then w.(channel := Some(Entry(expiry, Some(k))), shown := w.shown + [k]) else w
  }

  function MarksOf(w: World): Marks {
    Marks(w.responded, w.last)
  }

  /** A request that may be answered is marked, and its answer goes out above everything drawn before. */
  function Started(w: World, id: RequestId, clock: nat): World
    requires clock < U64
  {
    var r := Begin(MarksOf(w), id);
    if r.1 != Ok(true) then w
    else
      var expiry := NextExpiry(w.current, clock);
      w.(responded := r.0.responded, last := r.0.last, current := expiry,
         answers := w.answers + [Answer(id, InFlight(expiry))])
  }

  /** An error that is not retried any more: absorbed unless the answer is still the latest, which is rolled back. */
  function GiveUp(w: World, k: nat): World
    requires k < |w.answers|
  {
    var r := Rollback(MarksOf(w), w.answers[k].id);
    if r.1 then SetStatus(w, k, Failed).(responded := r.0.responded) else SetStatus(w, k, Absorbed)
  }

  function RaiseFloor(w: World, min: nat): World {
    if min > w.current then w.(current := min) else w
  }

  function Next(w: World, act: Action): World
    requires Enabled(w, act)
  {
    match act
    case RequestArrives(id) => if id in w.responded then w else w.(responded := w.responded[id := false])
    case Respond(id, clock) => Started(w, id, clock)
    case Lands(k) =>
      if Takes(w, w.answers[k].status.expiry) then SetStatus(Stored(w, k), k, Decided(None))
      else SetStatus(w, k, Decided(Some(w.channel.value.expiry)))
    case Replied(k) =>
      var min := w.answers[k].status.min;
      if min.None? then SetStatus(w, k, Accepted)
      else SetStatus(RaiseFloor(w, min.value), k, if Live(w, k) then BackingOff else Absorbed)
    case Errs(k, final) => if Live(w, k) && !final then SetStatus(w, k, BackingOff) else GiveUp(w, k)
    case Wakes(k, clock) =>
      if !Live(w, k) then SetStatus(w, k, Absorbed)
      else
        var expiry := NextExpiry(w.current, clock);
        SetStatus(w.(current := expiry), k, InFlight(expiry))
    case ForeignWrite(expiry) => if Takes(w, expiry) then w.(channel := Some(Entry(expiry, None))) else w
    case OtherDraw(clock) => w.(current := NextExpiry(w.current, clock))
    case FloorRaised(min) => RaiseFloor(w, min)
  }

  /** A session starts with whatever the store showed of earlier requests and answers. */
  function FreshWorld(restored: map<RequestId, bool>, channel: Option<Entry>): World {
    World(restored, None, [], 0, channel, [])
  }

  // ---- invariant -------------------------------------------------------------------------

  /** The latest answer is the newest one started. */
  ghost predicate LastIsNewest(w: World) {
    w.last == if w.answers == [] then None else Some(w.answers[|w.answers| - 1].id)
  }

  /** A request is answered again only after its answer failed. */
  ghost predicate OneAnswerEach(w: World) {
    && (forall j, k :: 0 <= j < k < |w.answers| && w.answers[j].id == w.answers[k].id ==> w.answers[j].status.Failed?)
    && (forall k :: 0 <= k < |w.answers| ==>
          w.answers[k].id in w.responded && (!w.answers[k].status.Failed? ==> w.responded[w.answers[k].id]))
    && (forall k :: 0 <= k < |w.answers| && w.answers[k].status.Absorbed? ==> k < |w.answers| - 1)
  }

  /** A request marked answered has been: by this session, or already when it was restored. */
  ghost predicate MarkedForAReason(w: World, restored: map<RequestId, bool>) {
    forall id: RequestId :: id in w.responded && w.responded[id] ==>
      || (id in restored && restored[id])
      || exists k :: 0 <= k < |w.answers| && w.answers[k].id == id && !w.answers[k].status.Failed?
  }

  /** Attempts of newer answers have higher expiries. */
  ghost predicate ExpiriesOrdered(answers: seq<Answer>, current: nat) {
    && (forall k :: 0 <= k < |answers| && answers[k].status.InFlight? ==> answers[k].status.expiry <= current)
    && (forall j, k :: 0 <= j < k < |answers| && answers[j].status.InFlight? && answers[k].status.InFlight? ==>
          answers[j].status.expiry < answers[k].status.expiry)
  }

  ghost predicate Rising(s: seq<nat>, bound: nat) {
    && (forall i, j :: 0 <= i <= j < |s| ==> s[i] <= s[j])
    && (forall i :: 0 <= i < |s| ==> s[i] < bound)
  }

  /** An attempt of an answer older than one the store took cannot be taken any more. */
  ghost predicate Outranked(answers: seq<Answer>, channel: Option<Entry>, shown: seq<nat>) {
    shown != [] ==>
      && channel.Some?
      && (channel.value.owner.Some? ==> channel.value.owner.value == shown[|shown| - 1])
      && (forall k :: 0 <= k < |answers| && answers[k].status.InFlight? && k < shown[|shown| - 1] ==>
            answers[k].status.expiry < channel.value.expiry)
  }

  ghost predicate InvOrder(w: World) {
    && ExpiriesOrdered(w.answers, w.current)
    && Rising(w.shown, |w.answers|)
    && Outranked(w.answers, w.channel, w.shown)
  }

  ghost predicate InvMarks(w: World, restored: map<RequestId, bool>) {
    LastIsNewest(w) && OneAnswerEach(w) && MarkedForAReason(w, restored)
  }

  ghost predicate Inv(w: World, restored: map<RequestId, bool>) {
    InvMarks(w, restored) && InvOrder(w)
  }

  lemma FreshWorldIsSafe(restored: map<RequestId, bool>, channel: Option<Entry>)
    ensures Inv(FreshWorld(restored, channel), restored)
  {
  }

  // ---- the channel never goes back ---------------------------------------------------------

  lemma StoredKeepsOrder(w: World, k: nat)
    requires InvOrder(w) && Flying(w, k)
    ensures InvOrder(Stored(w, k))
  {
  }

  lemma QuietedKeepsOrder(w: World, k: nat, status: Status)
    requires InvOrder(w) && k < |w.answers| && !status.InFlight?
    ensures InvOrder(SetStatus(w, k, status))
  {
  }

  lemma RaisedKeepsOrder(w: World, current: nat)
    requires InvOrder(w) && current >= w.current
    ensures InvOrder(w.(current := current))
  {
  }

  /** A new attempt of the newest answer is above everything drawn before. */
  lemma DrawnKeepsOrder(w: World, clock: nat)
    requires InvOrder(w) && clock < U64 && w.answers != []
    ensures var e := NextExpiry(w.current, clock);
            InvOrder(SetStatus(w.(current := e), |w.answers| - 1, InFlight(e)))
  {
  }

  lemma AppendedKeepsOrder(w: World, id: RequestId, clock: nat)
    requires InvOrder(w) && clock < U64
    ensures var e := NextExpiry(w.current, clock);
            InvOrder(w.(current := e, answers := w.answers + [Answer(id, InFlight(e))]))
  {
  }

  lemma MarksOnly(w: World, w': World)
    requires InvOrder(w) && w'.answers == w.answers && w'.current == w.current && w'.channel == w.channel
             && w'.shown == w.shown
    ensures InvOrder(w')
  {
  }

  lemma ForeignKeepsOrder(w: World, expiry: nat)
    requires InvOrder(w) && Takes(w, expiry)
    ensures InvOrder(w.(channel := Some(Entry(expiry, None))))
  {
  }

  /** Only the newest answer can be live. */
  lemma LiveIsNewest(w: World, k: nat)
    requires LastIsNewest(w) && OneAnswerEach(w) && k < |w.answers| && !w.answers[k].status.Failed? && Live(w, k)
    ensures k == |w.answers| - 1
  {
  }

  lemma NextKeepsOrder(w: World, act: Action)
    requires LastIsNewest(w) && OneAnswerEach(w) && InvOrder(w) && Enabled(w, act)
    ensures InvOrder(Next(w, act))
  {
    hide InvOrder, LastIsNewest, OneAnswerEach;
    match act
    case RequestArrives(id) => MarksOnly(w, Next(w, act));
    case Respond(id, clock) =>
      AppendedKeepsOrder(w, id, clock);
      var e := NextExpiry(w.current, clock);
      if id in w.responded && !w.responded[id] {
        MarksOnly(w.(current := e, answers := w.answers + [Answer(id, InFlight(e))]), Next(w, act));
      }
      MarksOnly(w, w);
    case Lands(k) => LandKeepsOrder(w, k);
    case Replied(k) => ReplyKeepsOrder(w, k);
    case Errs(k, final) => ErrKeepsOrder(w, k, final);
    case Wakes(k, clock) =>
      if Live(w, k) {
        LiveIsNewest(w, k);
        DrawnKeepsOrder(w, clock);
      } else {
        QuietedKeepsOrder(w, k, Absorbed);
      }
    case ForeignWrite(expiry) => if Takes(w, expiry) { ForeignKeepsOrder(w, expiry); }
    case OtherDraw(clock) => RaisedKeepsOrder(w, NextExpiry(w.current, clock));
    case FloorRaised(min) => if min > w.current { RaisedKeepsOrder(w, min); }
  }

  lemma LandKeepsOrder(w: World, k: nat)
    requires InvOrder(w) && Flying(w, k)
    ensures InvOrder(Next(w, Lands(k)))
  {
    hide InvOrder;
    StoredKeepsOrder(w, k);
    if Takes(w, w.answers[k].status.expiry) {
      QuietedKeepsOrder(Stored(w, k), k, Decided(None));
    } else {
      QuietedKeepsOrder(w, k, Decided(Some(w.channel.value.expiry)));
    }
  }

  lemma ReplyKeepsOrder(w: World, k: nat)
    requires InvOrder(w) && Awaiting(w, k)
    ensures InvOrder(Next(w, Replied(k)))
  {
    hide InvOrder;
    var min := w.answers[k].status.min;
    if min.None? {
      QuietedKeepsOrder(w, k, Accepted);
    } else {
      if min.value > w.current { RaisedKeepsOrder(w, min.value); }
      QuietedKeepsOrder(RaiseFloor(w, min.value), k, if Live(w, k) then BackingOff else Absorbed);
    }
  }

  lemma ErrKeepsOrder(w: World, k: nat, final: bool)
    requires InvOrder(w) && Enabled(w, Errs(k, final))
    ensures InvOrder(Next(w, Errs(k, final)))
  {
    hide InvOrder;
    QuietedKeepsOrder(w, k, BackingOff);
    QuietedKeepsOrder(w, k, Absorbed);
    QuietedKeepsOrder(w, k, Failed);
    if Live(w, k) && final { MarksOnly(SetStatus(w, k, Failed), GiveUp(w, k)); }
  }

  // ---- who is marked answered ----------------------------------------------------------------

  /** A step that leaves the marks and only moves an unfinished answer on. */
  lemma MovedKeepsMarks(w: World, w': World, k: nat, status: Status, restored: map<RequestId, bool>)
    requires InvMarks(w, restored) && k < |w.answers| && !w.answers[k].status.Failed? && !status.Failed?
    requires w'.responded == w.responded && w'.last == w.last
    requires w'.answers == w.answers[k := w.answers[k].(status := status)]
    requires status.Absorbed? ==> !Live(w, k)
    ensures InvMarks(w', restored)
  {
    assert |w.answers| > 0;
    forall id: RequestId | id in w'.responded && w'.responded[id]
      ensures (id in restored && restored[id])
              || exists j :: 0 <= j < |w'.answers| && w'.answers[j].id == id && !w'.answers[j].status.Failed?
    {
      if !(id in restored && restored[id]) {
        var j :| 0 <= j < |w.answers| && w.answers[j].id == id && !w.answers[j].status.Failed?;
        assert w'.answers[j].id == id && !w'.answers[j].status.Failed?;
      }
    }
  }

  lemma RolledBackKeepsMarks(w: World, w': World, k: nat, restored: map<RequestId, bool>)
    requires InvMarks(w, restored) && k < |w.answers| && !w.answers[k].status.Failed?
    requires w'.responded == w.responded[w.answers[k].id := false] && w'.last == w.last
    requires w'.answers == w.answers[k := w.answers[k].(status := Failed)]
    ensures InvMarks(w', restored)
  {
    forall id: RequestId | id in w'.responded && w'.responded[id]
      ensures (id in restored && restored[id])
              || exists j :: 0 <= j < |w'.answers| && w'.answers[j].id == id && !w'.answers[j].status.Failed?
    {
      if !(id in restored && restored[id]) {
        var j :| 0 <= j < |w.answers| && w.answers[j].id == id && !w.answers[j].status.Failed?;
        assert w'.answers[j].id == id && !w'.answers[j].status.Failed?;
      }
    }
  }

  lemma StartedKeepsMarks(w: World, id: RequestId, clock: nat, restored: map<RequestId, bool>)
    requires InvMarks(w, restored) && clock < U64
    ensures InvMarks(Started(w, id, clock), restored)
  {
    var w' := Started(w, id, clock);
    forall x: RequestId | x in w'.responded && w'.responded[x]
      ensures (x in restored && restored[x])
              || exists j :: 0 <= j < |w'.answers| && w'.answers[j].id == x && !w'.answers[j].status.Failed?
    {
      if x in w.responded && w.responded[x] && !(x in restored && restored[x]) {
        var j :| 0 <= j < |w.answers| && w.answers[j].id == x && !w.answers[j].status.Failed?;
        assert w'.answers[j].id == x && !w'.answers[j].status.Failed?;
      } else if x == id && w' != w {
        assert w'.answers[|w.answers|].id == id;
      }
    }
  }

  /** A new request is not marked. */
  lemma ArrivalKeepsMarks(w: World, id: RequestId, restored: map<RequestId, bool>)
    requires InvMarks(w, restored)
    ensures InvMarks(Next(w, RequestArrives(id)), restored)
  {
  }

  lemma ErrKeepsMarks(w: World, k: nat, final: bool, restored: map<RequestId, bool>)
    requires InvMarks(w, restored) && Enabled(w, Errs(k, final))
    ensures InvMarks(Next(w, Errs(k, final)), restored)
  {
    MarkedFor(w, k, restored);
    hide InvMarks;
    var w' := Next(w, Errs(k, final));
    if Live(w, k) && final {
      RolledBackKeepsMarks(w, w', k, restored);
    } else {
      MovedKeepsMarks(w, w', k, w'.answers[k].status, restored);
    }
  }

  lemma MarkedFor(w: World, k: nat, restored: map<RequestId, bool>)
    requires InvMarks(w, restored) && k < |w.answers|
    ensures w.answers[k].id in w.responded
  {
  }

  lemma SameMarks(w: World, w': World, restored: map<RequestId, bool>)
    requires InvMarks(w, restored)
    requires w'.responded == w.responded && w'.last == w.last && w'.answers == w.answers
    ensures InvMarks(w', restored)
  {
  }

  lemma NextKeepsMarks(w: World, act: Action, restored: map<RequestId, bool>)
    requires InvMarks(w, restored) && Enabled(w, act)
    ensures InvMarks(Next(w, act), restored)
  {
    hide InvMarks, Started, GiveUp;
    var w' := Next(w, act);
    match act
    case Respond(id, clock) => StartedKeepsMarks(w, id, clock, restored);
    case Lands(k) => MovedKeepsMarks(w, w', k, w'.answers[k].status, restored);
    case Wakes(k, _) => MovedKeepsMarks(w, w', k, w'.answers[k].status, restored);
    case Replied(k) => MovedKeepsMarks(w, w', k, w'.answers[k].status, restored);
    case Errs(k, final) => ErrKeepsMarks(w, k, final, restored);
    case RequestArrives(id) => ArrivalKeepsMarks(w, id, restored);
    case _ => SameMarks(w, w', restored);
  }

  // ---- whole runs ------------------------------------------------------------------------------

  ghost predicate Behaviour(ws: seq<World>, acts: seq<Action>, restored: map<RequestId, bool>, channel: Option<Entry>) {
    && |ws| == |acts| + 1
    && ws[0] == FreshWorld(restored, channel)
    && forall k :: 0 <= k < |acts| ==> Enabled(ws[k], acts[k]) && ws[k + 1] == Next(ws[k], acts[k])
  }

  lemma {:induction false} AlwaysSafe(ws: seq<World>, acts: seq<Action>, restored: map<RequestId, bool>,
                                      channel: Option<Entry>, i: nat)
    requires Behaviour(ws, acts, restored, channel) && i < |ws|
    ensures Inv(ws[i], restored)
  {
    hide InvMarks, InvOrder, Next;
    if i == 0 {
      FreshWorldIsSafe(restored, channel);
    } else {
      AlwaysSafe(ws, acts, restored, channel, i - 1);
      NextKeepsMarks(ws[i - 1], acts[i - 1], restored);
      MarksSplit(ws[i - 1], restored);
      NextKeepsOrder(ws[i - 1], acts[i - 1]);
    }
  }

  lemma MarksSplit(w: World, restored: map<RequestId, bool>)
    requires InvMarks(w, restored)
    ensures LastIsNewest(w) && OneAnswerEach(w)
  {
  }

  /** The store takes our answers in the order they were started: an older one never replaces a newer one. */
  lemma AnswersShownInOrder(ws: seq<World>, acts: seq<Action>, restored: map<RequestId, bool>, channel: Option<Entry>,
                            i: nat)
    requires Behaviour(ws, acts, restored, channel) && i < |ws|
    ensures forall a, b :: 0 <= a <= b < |ws[i].shown| ==> ws[i].shown[a] <= ws[i].shown[b]
    ensures ws[i].shown != [] ==> ws[i].channel.Some?
    ensures ws[i].shown != [] && ws[i].channel.value.owner.Some? ==>
              ws[i].channel.value.owner.value == ws[i].shown[|ws[i].shown| - 1]
  {
    AlwaysSafe(ws, acts, restored, channel, i);
  }

  /** A request has at most one answer under way or done, and is marked answered exactly while it has one. */
  lemma AnsweredIff(ws: seq<World>, acts: seq<Action>, restored: map<RequestId, bool>, channel: Option<Entry>, i: nat,
                    id: RequestId)
    requires Behaviour(ws, acts, restored, channel) && i < |ws| && id in ws[i].responded
    requires !(id in restored && restored[id])
    ensures ws[i].responded[id] <==>
            exists k :: 0 <= k < |ws[i].answers| && ws[i].answers[k].id == id && !ws[i].answers[k].status.Failed?
    ensures forall j, k :: 0 <= j < k < |ws[i].answers| && ws[i].answers[j].id == id && ws[i].answers[k].id == id ==>
              ws[i].answers[j].status.Failed?
  {
    AlwaysSafe(ws, acts, restored, channel, i);
  }

  /** Only an answer that a newer one superseded is given up silently; the newest lands or is rolled back. */
  lemma NewestIsNeverAbsorbed(ws: seq<World>, acts: seq<Action>, restored: map<RequestId, bool>,
                              channel: Option<Entry>, i: nat, k: nat)
    requires Behaviour(ws, acts, restored, channel) && i < |ws| && k < |ws[i].answers|
    ensures ws[i].answers[k].status.Absorbed? ==> k < |ws[i].answers| - 1
    ensures ws[i].answers[k].id in ws[i].responded
    ensures ws[i].answers[k].status.Failed? || ws[i].responded[ws[i].answers[k].id]
  {
    AlwaysSafe(ws, acts, restored, channel, i);
  }

  /** An attempt of answer `k` comes to nothing: rejected by the store, ended in an error, or found stale on waking. */
  predicate Fails(w: World, act: Action, k: nat) {
    && Enabled(w, act) && k < |w.answers|
    && (match act
        case Replied(n) => n == k && w.answers[k].status.min.Some?
        case Errs(n, _) => n == k
        case Wakes(n, _) => n == k
        case _ => false)
  }

  predicate Newest(w: World, k: nat) {
    k == |w.answers| - 1
  }

  /** What a step makes of an answer that had neither been absorbed nor failed. */
  lemma StepSettles(w: World, act: Action, k: nat)
    requires LastIsNewest(w) && OneAnswerEach(w) && Enabled(w, act) && k < |w.answers|
    requires !w.answers[k].status.Absorbed? && !w.answers[k].status.Failed?
    ensures var w' := Next(w, act);
            && k < |w'.answers| && w'.answers[k].id == w.answers[k].id
            && (w'.answers[k].status.Absorbed? <==> Fails(w, act, k) && !Newest(w, k))
            && (w'.answers[k].status.Failed? <==> Fails(w, act, k) && Newest(w, k) && act.Errs? && act.final)
  {
    hide OneAnswerEach;
    if Fails(w, act, k) {
      LiveIffNewest(w, k);
      hide LastIsNewest;
    }
  }

  lemma LiveIffNewest(w: World, k: nat)
    requires LastIsNewest(w) && OneAnswerEach(w) && k < |w.answers| && !w.answers[k].status.Failed?
    ensures Live(w, k) <==> Newest(w, k)
  {
    if Live(w, k) { LiveIsNewest(w, k); }
  }

  lemma SettledKept(w: World, act: Action, k: nat)
    requires Enabled(w, act) && k < |w.answers| && (w.answers[k].status.Absorbed? || w.answers[k].status.Failed?)
    ensures var w' := Next(w, act); k < |w'.answers| && w'.answers[k] == w.answers[k]
  {
  }

  /** Some attempt of answer `k` came to nothing before `i` while a newer answer had been started. */
  ghost predicate FailedStale(ws: seq<World>, acts: seq<Action>, i: nat, k: nat)
    requires i <= |acts| && |ws| == |acts| + 1
  {
    exists n :: 0 <= n < i && Fails(ws[n], acts[n], k) && !Newest(ws[n], k)
  }

  /** It ended in a final error before `i` while it was the newest. */
  ghost predicate FailedNewest(ws: seq<World>, acts: seq<Action>, i: nat, k: nat)
    requires i <= |acts| && |ws| == |acts| + 1
  {
    exists n :: 0 <= n < i && Fails(ws[n], acts[n], k) && Newest(ws[n], k) && acts[n].Errs? && acts[n].final
  }

  lemma FailsOnlyUnsettled(w: World, act: Action, k: nat)
    requires Fails(w, act, k)
    ensures !w.answers[k].status.Absorbed? && !w.answers[k].status.Failed?
  {
  }

  /** An answer that does not exist yet has not failed. */
  lemma {:induction false} StartedLater(ws: seq<World>, acts: seq<Action>, restored: map<RequestId, bool>,
                                        channel: Option<Entry>, n: nat, i: nat)
    requires Behaviour(ws, acts, restored, channel) && n <= i < |ws|
    ensures |ws[n].answers| <= |ws[i].answers|
    ensures i > 0 && n < i ==> |ws[i].answers| <= |ws[i - 1].answers| + 1
    ensures i > 0 && n < i && |ws[i].answers| > |ws[i - 1].answers| ==>
              ws[i].answers[|ws[i - 1].answers|].status.InFlight?
  {
    if n < i {
      StartedLater(ws, acts, restored, channel, n, i - 1);
      assert Enabled(ws[i - 1], acts[i - 1]);
    }
  }

  /**
   * The fate of an answer over a whole run: it is given up silently exactly when an attempt of it came to nothing after
   * a newer answer had been started, and it is rolled back exactly when it ended in a final error as the newest.
   */
  lemma {:induction false} AbsorbedIff(ws: seq<World>, acts: seq<Action>, restored: map<RequestId, bool>,
                                       channel: Option<Entry>, i: nat, k: nat)
    requires Behaviour(ws, acts, restored, channel) && i < |ws| && k < |ws[i].answers|
    ensures ws[i].answers[k].status.Absorbed? <==> FailedStale(ws, acts, i, k)
    ensures ws[i].answers[k].status.Failed? <==> FailedNewest(ws, acts, i, k)
  {
    hide InvOrder, Next, Fails, Newest;
    if i > 0 {
      StartedLater(ws, acts, restored, channel, i - 1, i);
      if k < |ws[i - 1].answers| {
        AbsorbedIff(ws, acts, restored, channel, i - 1, k);
        AlwaysSafe(ws, acts, restored, channel, i - 1);
        MarksSplit(ws[i - 1], restored);
        FateStep(ws, acts, i, k);
      } else {
        NoEarlierFailure(ws, acts, restored, channel, i, k);
      }
    }
  }

  lemma FateStep(ws: seq<World>, acts: seq<Action>, i: nat, k: nat)
    requires 0 < i <= |acts| && |ws| == |acts| + 1 && k < |ws[i - 1].answers|
    requires Enabled(ws[i - 1], acts[i - 1]) && ws[i] == Next(ws[i - 1], acts[i - 1])
    requires LastIsNewest(ws[i - 1]) && OneAnswerEach(ws[i - 1])
    requires ws[i - 1].answers[k].status.Absorbed? <==> FailedStale(ws, acts, i - 1, k)
    requires ws[i - 1].answers[k].status.Failed? <==> FailedNewest(ws, acts, i - 1, k)
    ensures k < |ws[i].answers|
    ensures ws[i].answers[k].status.Absorbed? <==> FailedStale(ws, acts, i, k)
    ensures ws[i].answers[k].status.Failed? <==> FailedNewest(ws, acts, i, k)
  {
    hide Next, Fails, Newest, LastIsNewest, OneAnswerEach;
    if ws[i - 1].answers[k].status.Absorbed? || ws[i - 1].answers[k].status.Failed? {
      SettledKept(ws[i - 1], acts[i - 1], k);
      if Fails(ws[i - 1], acts[i - 1], k) { FailsOnlyUnsettled(ws[i - 1], acts[i - 1], k); }
    } else {
      StepSettles(ws[i - 1], acts[i - 1], k);
    }
  }

  lemma NoEarlierFailure(ws: seq<World>, acts: seq<Action>, restored: map<RequestId, bool>, channel: Option<Entry>,
                         i: nat, k: nat)
    requires Behaviour(ws, acts, restored, channel) && 0 < i < |ws| && |ws[i - 1].answers| <= k
    ensures !FailedStale(ws, acts, i, k) && !FailedNewest(ws, acts, i, k)
  {
    forall n | 0 <= n < i ensures !Fails(ws[n], acts[n], k) {
      StartedLater(ws, acts, restored, channel, n, i - 1);
    }
  }

  /** An answer given up for a newer one is never started again: its request stays marked. */
  lemma {:induction false} AbsorbedForGood(ws: seq<World>, acts: seq<Action>, restored: map<RequestId, bool>,
                                           channel: Option<Entry>, i: nat, j: nat, k: nat)
    requires Behaviour(ws, acts, restored, channel) && i <= j < |ws|
    requires k < |ws[i].answers| && ws[i].answers[k].status.Absorbed?
    ensures k < |ws[j].answers| && ws[j].answers[k] == ws[i].answers[k]
    ensures ws[j].answers[k].id in ws[j].responded && ws[j].responded[ws[j].answers[k].id]
    ensures forall n :: k < n < |ws[j].answers| ==> ws[j].answers[n].id != ws[j].answers[k].id
  {
    hide InvOrder, Next;
    AlwaysSafe(ws, acts, restored, channel, j);
    if i < j {
      AbsorbedForGood(ws, acts, restored, channel, i, j - 1, k);
      assert Enabled(ws[j - 1], acts[j - 1]);
      SettledKept(ws[j - 1], acts[j - 1], k);
    }
  }

  /** Which can happen before the store showed it: two requests are answered at once and the first submission errs. */
  lemma UnseenAnswer()
    ensures var w := World(map[1 := true, 2 := true], Some(2),
                           [Answer(1, InFlight(TimestampPriority(0))), Answer(2, InFlight(TimestampPriority(0) + 1))],
                           TimestampPriority(0) + 1, None, []);
            && Next(Next(FreshWorld(map[1 := false, 2 := false], None), Respond(1, 0)), Respond(2, 0)) == w
            && Next(w, Errs(0, false)).answers[0].status.Absorbed?
            && Next(w, Errs(0, false)).responded[1]
            && Next(w, Errs(0, false)).shown == []
  {
  }

  // ---- what starts, lands and is drawn -----------------------------------------------------------

  /** An answer is started exactly by answering a known request that is not marked, and then as the newest. */
  lemma StartStep(w: World, act: Action)
    requires Enabled(w, act)
    ensures var w' := Next(w, act);
            && |w.answers| <= |w'.answers|
            && (forall k :: 0 <= k < |w.answers| ==> w'.answers[k].id == w.answers[k].id)
            && (if act.Respond? && act.id in w.responded && !w.responded[act.id]
                then |w'.answers| == |w.answers| + 1 && w'.answers[|w.answers|].id == act.id
                     && w'.answers[|w.answers|].status.InFlight? && w'.last == Some(act.id)
                else |w'.answers| == |w.answers| && w'.last == w.last)
  {
  }

  /** An answer is done when the reply to an accepted attempt arrives; the latest backs off after any other outcome. */
  lemma StatusStep(w: World, act: Action, k: nat)
    requires Enabled(w, act) && k < |w.answers|
    ensures var (before, w') := (w.answers[k].status, Next(w, act));
            && k < |w'.answers|
            && (w'.answers[k].status.Accepted? <==>
                  before.Accepted? || (act == Replied(k) && before == Decided(None)))
            && (w'.answers[k].status.BackingOff? <==>
                  || (before.BackingOff? && !(act.Wakes? && act.k == k))
                  || (w.last == Some(w.answers[k].id)
                      && (act == Errs(k, false) || (act == Replied(k) && before != Decided(None)))))
  {
  }

  lemma KnownStep(w: World, act: Action, id: RequestId)
    requires Enabled(w, act)
    ensures id in Next(w, act).responded <==> id in w.responded || act == RequestArrives(id)
  {
  }

  /** A request can be answered exactly once it has arrived, or was restored. */
  lemma {:induction false} KnownIff(ws: seq<World>, acts: seq<Action>, restored: map<RequestId, bool>,
                                    channel: Option<Entry>, i: nat, id: RequestId)
    requires Behaviour(ws, acts, restored, channel) && i < |ws|
    ensures id in ws[i].responded <==> id in restored || exists k :: 0 <= k < i && acts[k] == RequestArrives(id)
  {
    hide Next;
    if i > 0 {
      KnownIff(ws, acts, restored, channel, i - 1, id);
      assert Enabled(ws[i - 1], acts[i - 1]);
      KnownStep(ws[i - 1], acts[i - 1], id);
    }
  }

  /** The store takes an attempt exactly above what the channel holds, and else reports that; nothing else takes it. */
  lemma LandingDecides(w: World, act: Action)
    requires Enabled(w, act)
    ensures var w' := Next(w, act);
            && (act.Lands? ==>
                  var (e, status) := (w.answers[act.k].status.expiry, w'.answers[act.k].status);
                  if w.channel.None? || w.channel.value.expiry < e
                  then status == Decided(None) && w'.channel == Some(Entry(e, Some(act.k)))
                       && w'.shown == w.shown + [act.k]
                  else status == Decided(Some(w.channel.value.expiry)) && w'.channel == w.channel)
            && (act.ForeignWrite? ==>
                  w'.channel == if w.channel.None? || w.channel.value.expiry < act.expiry
                                then Some(Entry(act.expiry, None)) else w.channel)
            && (!act.Lands? && !act.ForeignWrite? ==> w'.channel == w.channel && w'.shown == w.shown)
  {
  }

  /** The step makes this minimum known: somebody raises the floor, or the store's refusal arrives. */
  predicate Adopts(w: World, act: Action, min: nat) {
    || act == FloorRaised(min)
    || (act.Replied? && Awaiting(w, act.k) && w.answers[act.k].status.min == Some(min))
  }

  /** The step sends an attempt of answer `k` with this expiry. */
  predicate Attempts(w: World, act: Action, k: nat, expiry: nat)
    requires Enabled(w, act)
  {
    var w' := Next(w, act);
    k < |w'.answers| && w'.answers[k].status == InFlight(expiry) && !Flying(w, k)
  }

  lemma DrawStep(w: World, act: Action, k: nat, expiry: nat, min: nat)
    requires Enabled(w, act)
    ensures w.current <= Next(w, act).current
    ensures act.OtherDraw? ==> w.current < Next(w, act).current
    ensures Attempts(w, act, k, expiry) ==> w.current < expiry == Next(w, act).current
    ensures Adopts(w, act, min) ==> min <= Next(w, act).current
  {
  }

  lemma {:induction false} CurrentGrows(ws: seq<World>, acts: seq<Action>, restored: map<RequestId, bool>,
                                        channel: Option<Entry>, i: nat, j: nat)
    requires Behaviour(ws, acts, restored, channel) && i <= j < |ws|
    ensures ws[i].current <= ws[j].current
    decreases j
  {
    hide Next;
    if i < j {
      CurrentGrows(ws, acts, restored, channel, i, j - 1);
      assert Enabled(ws[j - 1], acts[j - 1]);
      DrawStep(ws[j - 1], acts[j - 1], 0, 0, 0);
    }
  }

  /** Every attempt is above every minimum made known and every attempt sent before it, of whatever answer. */
  lemma AttemptsClearFloors(ws: seq<World>, acts: seq<Action>, restored: map<RequestId, bool>, channel: Option<Entry>,
                            i: nat, j: nat, k: nat, expiry: nat, earlier: nat, low: nat)
    requires Behaviour(ws, acts, restored, channel) && i < j < |acts|
    requires Enabled(ws[j], acts[j]) && Attempts(ws[j], acts[j], k, expiry)
    requires Enabled(ws[i], acts[i]) && (Adopts(ws[i], acts[i], low) || Attempts(ws[i], acts[i], earlier, low))
    ensures low < expiry
  {
    hide Next, Attempts, Adopts;
    CurrentGrows(ws, acts, restored, channel, i + 1, j);
    DrawStep(ws[i], acts[i], earlier, low, low);
    DrawStep(ws[j], acts[j], k, expiry, 0);
  }
}
