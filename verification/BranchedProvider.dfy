/**
 * One connection shared by many branches
 * (packages/host-substrate-chain-connection/src/branchedProvider.ts).
 */
module BranchedProvider {
  import opened Common

  type Branch = nat
  type Connection = nat
  type Message = Bytes

  /**
   * `joined` are the branches whose listeners are registered; `sent` what went out on each connection, `heard` what
   * each branch's listener was called with; `closed` logs the connections disconnected.
   */
  datatype Shared = Shared(
    connection: Option<Connection>,
    refs: nat,
    joined: set<Branch>,
    nextBranch: Branch,
    nextConnection: Connection,
    closed: seq<Connection>,
    sent: seq<(Connection, Message)>,
    heard: map<Branch, seq<Message>>)

  const NewShared := Shared(None, 0, {}, 0, 0, [], [], map[])

  function Connect(s: Shared): Shared {
    var s' := if s.connection.Some? then s
              else s.(connection := Some(s.nextConnection), nextConnection := s.nextConnection + 1);
    s'.(refs := s.refs + 1, joined := s.joined + {s.nextBranch}, heard := s.heard[s.nextBranch := []],
        nextBranch := s.nextBranch + 1)
  }

  function Send(s: Shared, message: Message): Shared {
    if s.connection.Some? then s.(sent := s.sent + [(s.connection.value, message)]) else s
  }

  /** The shared connection's messages go to every registered listener. */
  function Receive(s: Shared, message: Message): Shared {
    s.(heard := map b: Branch | b in s.heard :: if b in s.joined then s.heard[b] + [message] else s.heard[b])
  }

  function Disconnect(s: Shared, b: Branch): Shared {
    var refs := if s.refs == 0 then 0 else s.refs - 1;
    var s' := s.(refs := refs, joined := s.joined - {b});
    if refs == 0 && s.connection.Some? then s'.(connection := None, closed := s.closed + [s.connection.value]) else s'
  }

  class SharedProvider {
    var connection: Option<Connection>
    var refs: nat
    var joined: set<Branch>
    var nextBranch: Branch
    var nextConnection: Connection
    var closed: seq<Connection>
    var sent: seq<(Connection, Message)>
    var heard: map<Branch, seq<Message>>

    function AsShared(): Shared
      reads this
    {
      Shared(connection, refs, joined, nextBranch, nextConnection, closed, sent, heard)
    }

    constructor ()
      ensures AsShared() == NewShared && Inv(AsShared())
    {
      connection, refs, joined, nextBranch, nextConnection := None, 0, {}, 0, 0;
      closed, sent, heard := [], [], map[];
    }

    method Open() returns (b: Branch)
      modifies this
      ensures AsShared() == Connect(old(AsShared())) && b == old(nextBranch)
    {
      if connection.None? {
        connection := Some(nextConnection);
        nextConnection := nextConnection + 1;
      }
      b := nextBranch;
      nextBranch := nextBranch + 1;
      joined := joined + {b};
      heard := heard[b := []];
      refs := refs + 1;
    }

    method Close(b: Branch)
      modifies this
      ensures AsShared() == Disconnect(old(AsShared()), b)
    {
      if refs > 0 { refs := refs - 1; }
      if refs == 0 && connection.Some? {
        closed := closed + [connection.value];
        connection := None;
      }
      joined := joined - {b};
    }
  }

  ghost predicate Distinct(s: seq<nat>) {
    forall i, j :: 0 <= i < j < |s| ==> s[i] != s[j]
  }

  /** One connection, up exactly while somebody is joined, counted by the branches that are. */
  ghost predicate Inv(s: Shared) {
    && s.refs == |s.joined|
    && (s.connection.Some? <==> s.joined != {})
    && (forall b: Branch :: b in s.joined ==> b < s.nextBranch && b in s.heard)
    && (s.connection.Some? ==> s.connection.value < s.nextConnection && s.connection.value !in s.closed)
    && (forall c: Connection :: c in s.closed ==> c < s.nextConnection)
    && s.nextConnection == |s.closed| + (if s.connection.Some? then 1 else 0)
    && Distinct(s.closed)
  }

  /** A disconnect keeps the count honest exactly when the branch had not disconnected before, or nobody is left. */
  lemma DisconnectKeepsIff(s: Shared, b: Branch)
    requires Inv(s)
    ensures Inv(Disconnect(s, b)) <==> b in s.joined || s.joined == {}
  {
  }

  /** A branch that disconnects again while one other is left takes that branch's connection away. */
  lemma SecondDisconnectCutsOff(s: Shared, b: Branch, other: Branch)
    requires Inv(s) && s.joined == {other} && b != other
    ensures var s' := Disconnect(s, b);
            other in s'.joined && s'.connection.None? && s'.closed == s.closed + [s.connection.value]
  {
  }

  datatype Event = Connects | Disconnects(b: Branch) | Sends(m: Message) | Receives(m: Message)

  function Next(s: Shared, e: Event): Shared {
    match e
    case Connects => Connect(s)
    case Disconnects(b) => Disconnect(s, b)
    case Sends(m) => Send(s, m)
    case Receives(m) => Receive(s, m)
  }

  function After(s: Shared, events: seq<Event>): Shared
    decreases |events|
  {
    if events == [] then s else After(Next(s, events[0]), events[1..])
  }

  /** No branch disconnects when it is not joined. */
  predicate Orderly(s: Shared, events: seq<Event>)
    decreases |events|
  {
    events == [] || ((events[0].Disconnects? ==> events[0].b in s.joined) && Orderly(Next(s, events[0]), events[1..]))
  }

  /**
   * Over any orderly run from a state in which a branch is joined and stays joined, its connection is never replaced,
   * it hears every message that arrives, and whatever a branch sends goes out on that connection, in order.
   */
  lemma {:induction false} JoinedBranchKeepsItsConnection(s: Shared, events: seq<Event>, b: Branch)
    requires Inv(s) && b in s.joined && Orderly(s, events) && Disconnects(b) !in events
    ensures var s' := After(s, events);
            && Inv(s') && b in s'.joined
            && s'.connection == s.connection && s.connection.Some?
            && s'.heard[b] == s.heard[b] + Arrivals(events)
            && s'.sent == s.sent + Departures(events, s.connection.value)
    decreases |events|
  {
    hide Inv, Next;
    JoinedHears(s, b);
    if events == [] {
      assert s.heard[b] + [] == s.heard[b] && s.sent + [] == s.sent;
    } else {
      assert events[0] in events;
      StepKeepsBranch(s, events[0], b);
      JoinedBranchKeepsItsConnection(Next(s, events[0]), events[1..], b);
      assert s.heard[b] + (Arrival(events[0]) + Arrivals(events[1..]))
          == s.heard[b] + Arrival(events[0]) + Arrivals(events[1..]);
      var c := s.connection.value;
      assert s.sent + (Departure(events[0], c) + Departures(events[1..], c))
          == s.sent + Departure(events[0], c) + Departures(events[1..], c);
    }
  }

  lemma JoinedHears(s: Shared, b: Branch)
    requires Inv(s) && b in s.joined
    ensures b in s.heard && s.connection.Some?
  {
  }

  lemma StepKeepsBranch(s: Shared, e: Event, b: Branch)
    requires Inv(s) && b in s.joined && e != Disconnects(b) && (e.Disconnects? ==> e.b in s.joined)
    ensures var s' := Next(s, e);
            && Inv(s') && b in s'.joined && s'.connection == s.connection && s'.heard[b] == s.heard[b] + Arrival(e)
            && s'.sent == s.sent + Departure(e, s.connection.value)
  {
  }

  function Arrival(e: Event): seq<Message> {
    if e.Receives? then [e.m] else []
  }

  function Arrivals(events: seq<Event>): seq<Message>
    decreases |events|
  {
    if events == [] then []
    else Arrival(events[0]) + Arrivals(events[1..])
  }

  function Departure(e: Event, c: Connection): seq<(Connection, Message)> {
    if e.Sends? then [(c, e.m)] else []
  }

  function Departures(events: seq<Event>, c: Connection): seq<(Connection, Message)>
    decreases |events|
  {
    if events == [] then []
    else Departure(events[0], c) + Departures(events[1..], c)
  }

  /**
   * From the start, over any orderly run, there is a connection exactly while somebody is joined, the count is that of
   * the joined branches, and each connection but the present one has been closed, once.
   */
  lemma {:induction false} OrderlyRunsKeepInv(s: Shared, events: seq<Event>)
    requires s == NewShared || Inv(s)
    requires Orderly(s, events)
    ensures Inv(After(s, events))
    decreases |events|
  {
    hide Inv, Next;
    FreshInv();
    if events != [] {
      OrderlyStep(s, events[0]);
      OrderlyRunsKeepInv(Next(s, events[0]), events[1..]);
    }
  }

  lemma FreshInv()
    ensures Inv(NewShared)
  {
  }

  lemma OrderlyStep(s: Shared, e: Event)
    requires Inv(s) && (e.Disconnects? ==> e.b in s.joined)
    ensures Inv(Next(s, e))
  {
  }

  /** A branch that joins hears nothing of the past, and everything from then on on the connection it finds. */
  lemma JoiningBranch(s: Shared, events: seq<Event>)
    requires Inv(s)
    requires var (b, joined) := (s.nextBranch, Next(s, Connects)); Orderly(joined, events) && Disconnects(b) !in events
    ensures var (b, joined) := (s.nextBranch, Next(s, Connects));
            var s' := After(joined, events);
            && b !in s.joined && b in s'.joined && b in s'.heard && s'.heard[b] == Arrivals(events)
            && (s.connection.Some? ==> s'.connection == s.connection)
            && (s.connection.None? ==> s'.connection.Some? && s'.connection.value !in s'.closed)
  {
    OrderlyStep(s, Connects);
    JoinedBranchKeepsItsConnection(Next(s, Connects), events, s.nextBranch);
    assert [] + Arrivals(events) == Arrivals(events);
  }
}
