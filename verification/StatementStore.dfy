/** The store contract the sessions rely on (packages/statement-store/src/adapter/inMemory.ts). */
module StatementStore {
  import opened Common

  datatype Statement = Statement(channel: Bytes, expiry: nat, topics: seq<Bytes>, data: Bytes)

  datatype TopicFilter = MatchAll(all: seq<Bytes>) | MatchAny(some: seq<Bytes>)

  datatype Outcome = Accepted | Known | ExpiryTooLow(submitted: nat, min: nat)

  /** What the store retains, and every write it ever accepted, in order. */
  datatype Contents = Contents(channels: map<Bytes, Statement>, accepted: seq<Statement>)

  const EmptyStore := Contents(map[], [])

  predicate Matches(filter: TopicFilter, s: Statement) {
    match filter
    case MatchAll(all) => forall i :: 0 <= i < |all| ==> all[i] in s.topics
    case MatchAny(some) => exists i :: 0 <= i < |some| && some[i] in s.topics
  }

  /** A write supersedes only with a strictly higher expiry. */
  predicate Supersedes(existing: Option<nat>, expiry: nat) {
    existing.Some? ==> expiry > existing.value
  }

  function ExpiryOn(c: Contents, channel: Bytes): Option<nat> {
    if channel in c.channels then Some(c.channels[channel].expiry) else None
  }

  function Submit(c: Contents, s: Statement): (Contents, Outcome) {
    if s.channel in c.channels && c.channels[s.channel] == s then (c, Known)
    else if !Supersedes(ExpiryOn(c, s.channel), s.expiry) then
      (c, ExpiryTooLow(s.expiry, c.channels[s.channel].expiry))
    else (Contents(c.channels[s.channel := s], c.accepted + [s]), Accepted)
  }

  function SubmitAll(c: Contents, ss: seq<Statement>): Contents {
    if ss == [] then c else Submit(SubmitAll(c, ss[..|ss| - 1]), ss[|ss| - 1]).0
  }

  /** One statement per channel: the last accepted, of a strictly rising sequence. */
  ghost predicate Consistent(c: Contents) {
    && (forall channel :: channel in c.channels ==>
          c.channels[channel].channel == channel && c.channels[channel] in c.accepted)
    && (forall i :: 0 <= i < |c.accepted| ==>
          && c.accepted[i].channel in c.channels
          && c.accepted[i].expiry <= c.channels[c.accepted[i].channel].expiry)
    && (forall i, j :: 0 <= i < j < |c.accepted| && c.accepted[i].channel == c.accepted[j].channel ==>
          c.accepted[i].expiry < c.accepted[j].expiry)
  }

  lemma SubmitKeepsConsistent(c: Contents, s: Statement)
    requires Consistent(c)
    ensures Consistent(Submit(c, s).0)
  {
  }

  /** Which topics a filter asks for. */
  lemma MatchesByTopics(filter: TopicFilter, s: Statement)
    ensures filter.MatchAll? ==> (Matches(filter, s) <==> (set t | t in filter.all) <= set t | t in s.topics)
    ensures filter.MatchAny? ==> (Matches(filter, s) <==> (set t | t in filter.some) * (set t | t in s.topics) != {})
  {
    if filter.MatchAll? {
      var asked, given := set t | t in filter.all, set t | t in s.topics;
      if asked <= given {
        forall i | 0 <= i < |filter.all| ensures filter.all[i] in s.topics { assert filter.all[i] in asked; }
      }
    } else {
      assert Matches(filter, s) <==> exists t :: t in filter.some && t in s.topics;
      if t :| t in filter.some && t in s.topics {
        assert t in (set t | t in filter.some) * (set t | t in s.topics);
      }
    }
  }

  /** A write is known, or too low with the survivor's expiry as the minimum reported, or becomes the survivor. */
  lemma SubmitDecides(c: Contents, s: Statement, min: nat)
    ensures var (after, outcome) := Submit(c, s);
            && (outcome == Known <==> s.channel in c.channels && c.channels[s.channel] == s)
            && (outcome == ExpiryTooLow(s.expiry, min) <==>
                  && s.channel in c.channels && c.channels[s.channel] != s
                  && s.expiry <= min && min == c.channels[s.channel].expiry)
            && (outcome.ExpiryTooLow? ==> outcome.submitted == s.expiry)
            && (outcome == Accepted ==>
                  && s.channel in after.channels && after.channels[s.channel] == s
                  && after.accepted == c.accepted + [s]
                  && forall channel :: channel != s.channel ==>
                       && (channel in after.channels <==> channel in c.channels)
                       && (channel in c.channels ==> after.channels[channel] == c.channels[channel]))
            && (outcome != Accepted ==> after == c)
  {
  }

  /** `channels` holds, for each channel written to in `ss`, a highest-expiry statement of `ss`. */
  ghost predicate Survivors(channels: map<Bytes, Statement>, ss: seq<Statement>) {
    && (forall channel :: channel in channels ==> channels[channel] in ss && channels[channel].channel == channel)
    && (forall s :: s in ss ==> s.channel in channels && s.expiry <= channels[s.channel].expiry)
  }

  lemma SurvivorsStep(c: Contents, init: seq<Statement>, s: Statement)
    requires Survivors(c.channels, init)
    ensures Survivors(Submit(c, s).0.channels, init + [s])
  {
  }

  /**
   * Whatever order writes land in, a channel ends up with a highest-expiry one among them:
   * nothing that was submitted outranks the survivor.
   */
  lemma {:induction false} HighestExpirySurvives(ss: seq<Statement>)
    ensures Survivors(SubmitAll(EmptyStore, ss).channels, ss)
  {
    if ss != [] {
      var init, s := ss[..|ss| - 1], ss[|ss| - 1];
      HighestExpirySurvives(init);
      SurvivorsStep(SubmitAll(EmptyStore, init), init, s);
      assert init + [s] == ss;
    }
  }

  /** Over every sequence of writes, each channel's accepted expiries rise strictly and end at the survivor. */
  lemma {:induction false} AlwaysConsistent(ss: seq<Statement>)
    ensures Consistent(SubmitAll(EmptyStore, ss))
  {
    if ss != [] {
      AlwaysConsistent(ss[..|ss| - 1]);
      SubmitKeepsConsistent(SubmitAll(EmptyStore, ss[..|ss| - 1]), ss[|ss| - 1]);
    }
  }

  ghost predicate NoTies(ss: seq<Statement>) {
    forall s, t :: s in ss && t in ss && s.channel == t.channel && s.expiry == t.expiry ==> s == t
  }

  lemma SurvivorsUnique(a: map<Bytes, Statement>, b: map<Bytes, Statement>, ss: seq<Statement>)
    requires NoTies(ss) && Survivors(a, ss) && Survivors(b, ss)
    ensures a == b
  {
  }

  /** Writers that never share an expiry make the outcome independent of the landing order. */
  lemma LandingOrderIrrelevant(ss: seq<Statement>, ts: seq<Statement>)
    requires (forall s :: s in ss <==> s in ts) && NoTies(ss)
    ensures SubmitAll(EmptyStore, ss).channels == SubmitAll(EmptyStore, ts).channels
  {
    HighestExpirySurvives(ss);
    HighestExpirySurvives(ts);
    SurvivorsUnique(SubmitAll(EmptyStore, ss).channels, SubmitAll(EmptyStore, ts).channels, ss);
  }

  /** The in-memory adapter. Subscribers are numbered; `delivered` logs their callbacks. */
  class InMemoryStore {
    var channels: map<Bytes, Statement>
    var accepted: seq<Statement>
    var subscribers: seq<(nat, TopicFilter)>
    var delivered: seq<(nat, Statement)>

    function Stored(): Contents
      reads this
    {
      Contents(channels, accepted)
    }

    ghost predicate Valid()
      reads this
    {
      Consistent(Stored())
    }

    constructor ()
      ensures Valid() && Stored() == EmptyStore && subscribers == [] && delivered == []
    {
      channels, accepted, subscribers, delivered := map[], [], [], [];
    }

    /** Finds, of every channel, the highest statement it ever accepted, where that one matches. */
    method QueryStatements(filter: TopicFilter) returns (found: set<Statement>)
      requires Valid()
      ensures forall s :: s in found <==>
                s in accepted && Matches(filter, s)
                && forall t :: t in accepted && t.channel == s.channel ==> t.expiry <= s.expiry
      ensures forall s, t :: s in found && t in found && s.channel == t.channel ==> s == t
    {
      found := set channel | channel in channels && Matches(filter, channels[channel]) :: channels[channel];
    }

    method SubmitStatement(s: Statement) returns (outcome: Outcome)
      requires Valid()
      modifies this
      ensures Valid()
      ensures (Stored(), outcome) == Submit(old(Stored()), s)
      ensures subscribers == old(subscribers)
      ensures delivered == old(delivered) + if outcome.Accepted? then Deliveries(subscribers, s) else []
    {
      if s.channel in channels {
        var existing := channels[s.channel];
        if existing == s {
          return Known;
        }
        if s.expiry <= existing.expiry {
          return ExpiryTooLow(s.expiry, existing.expiry);
        }
      }
      SubmitKeepsConsistent(Stored(), s);
      channels := channels[s.channel := s];
      accepted := accepted + [s];
      var i := 0;
      while i < |subscribers|
        invariant i <= |subscribers| && subscribers == old(subscribers)
        invariant Stored() == Contents(old(channels)[s.channel := s], old(accepted) + [s])
        invariant delivered == old(delivered) + Deliveries(subscribers[..i], s)
      {
        DeliveriesExtended(subscribers[..i], subscribers[i], s);
        assert subscribers[..i + 1] == subscribers[..i] + [subscribers[i]];
        if Matches(subscribers[i].1, s) {
          delivered := delivered + [(subscribers[i].0, s)];
        }
        i := i + 1;
      }
      assert subscribers[..i] == subscribers;
      return Accepted;
    }
  }

  function Deliveries(subs: seq<(nat, TopicFilter)>, s: Statement): seq<(nat, Statement)> {
    if subs == [] then []
    else (if Matches(subs[0].1, s) then [(subs[0].0, s)] else []) + Deliveries(subs[1..], s)
  }

  /** How many of the subscribers a statement concerns. */
  function Concerned(subs: seq<(nat, TopicFilter)>, s: Statement): set<nat> {
    set k: nat | k < |subs| && Matches(subs[k].1, s)
  }

  lemma ConcernedGrows(init: seq<(nat, TopicFilter)>, sub: (nat, TopicFilter), s: Statement)
    ensures |Concerned(init + [sub], s)| == |Concerned(init, s)| + if Matches(sub.1, s) then 1 else 0
  {
    hide Matches;
    assert Concerned(init + [sub], s) == Concerned(init, s) + if Matches(sub.1, s) then {|init|} else {};
  }

  lemma {:induction false} DeliveriesCounted(subs: seq<(nat, TopicFilter)>, s: Statement)
    ensures |Deliveries(subs, s)| == |Concerned(subs, s)|
  {
    hide Matches;
    if subs == [] {
      assert Concerned(subs, s) == {};
    } else {
      var init, last := subs[..|subs| - 1], subs[|subs| - 1];
      DeliveriesCounted(init, s);
      DeliveriesExtended(init, last, s);
      ConcernedGrows(init, last, s);
      assert subs == init + [last];
      hide Deliveries, Concerned;
    }
  }

  /** Each subscriber that a statement concerns is called once, in the order of subscription. */
  lemma {:induction false} DeliveredInOrder(subs: seq<(nat, TopicFilter)>, s: Statement, k: nat)
    requires k < |subs| && Matches(subs[k].1, s)
    ensures |Concerned(subs[..k], s)| < |Deliveries(subs, s)| == |Concerned(subs, s)|
    ensures Deliveries(subs, s)[|Concerned(subs[..k], s)|] == (subs[k].0, s)
  {
    hide Matches, Deliveries, Concerned;
    var init, last := subs[..|subs| - 1], subs[|subs| - 1];
    DeliveriesCounted(subs, s);
    DeliveriesCounted(init, s);
    DeliveriesExtended(init, last, s);
    assert subs == init + [last];
    if k < |init| {
      DeliveredInOrder(init, s, k);
      assert init[..k] == subs[..k];
    } else {
      assert subs[..k] == init;
    }
  }

  lemma {:induction false} DeliveriesExtended(subs: seq<(nat, TopicFilter)>, sub: (nat, TopicFilter), s: Statement)
    ensures Deliveries(subs + [sub], s) == Deliveries(subs, s) + if Matches(sub.1, s) then [(sub.0, s)] else []
  {
    if subs == [] {
      assert [sub][1..] == [];
    } else {
      DeliveriesExtended(subs[1..], sub, s);
      assert (subs + [sub])[1..] == subs[1..] + [sub];
    }
  }
}
