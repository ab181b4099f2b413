/**
 * A replaceable handler whose registrations can be undone
 * (packages/host-container/src/createContainer.ts, request slots).
 */
module HandlerSlot {
  datatype Handler = Unregistered | Registered(name: nat)

  /** `captured` holds the version each registration's undo closure remembers. */
  datatype Slot = Slot(current: Handler, version: nat, captured: seq<nat>)

  const NewSlot := Slot(Unregistered, 0, [])

  /** `Undo(n)` calls the undo that the n-th registration returned. */
  datatype Op = Update(name: nat) | Undo(n: nat)

  function Apply(s: Slot, op: Op): Slot
    requires op.Undo? ==> op.n < |s.captured|
  {
    match op
    case Update(name) => Slot(Registered(name), s.version + 1, s.captured + [s.version + 1])
    case Undo(n) => if s.captured[n] != s.version then s else s.(version := s.version + 1, current := Unregistered)
  }

  class RequestSlot {
    var current: Handler
    var version: nat
    var captured: seq<nat>

    function AsSlot(): Slot
      reads this
    {
      Slot(current, version, captured)
    }

    constructor ()
      ensures AsSlot() == NewSlot
    {
      current, version, captured := Unregistered, 0, [];
    }

    method Register(name: nat) returns (n: nat)
      modifies this
      ensures AsSlot() == Apply(old(AsSlot()), Update(name)) && n == |old(captured)|
    {
      current := Registered(name);
      version := version + 1;
      n := |captured|;
      captured := captured + [version];
    }

    method Withdraw(n: nat)
      requires n < |captured|
      modifies this
      ensures AsSlot() == Apply(old(AsSlot()), Undo(n))
    {
      if captured[n] != version { return; }
      version := version + 1;
      current := Unregistered;
    }
  }

  function Updates(ops: seq<Op>): nat {
    if ops == [] then 0 else Updates(ops[..|ops| - 1]) + (if ops[|ops| - 1].Update? then 1 else 0)
  }

  /** An undo exists once its registration has been made. */
  predicate Legal(ops: seq<Op>) {
    ops == [] ||
    (Legal(ops[..|ops| - 1]) && (ops[|ops| - 1].Undo? ==> ops[|ops| - 1].n < Updates(ops[..|ops| - 1])))
  }

  function After(ops: seq<Op>): (s: Slot)
    requires Legal(ops)
    ensures |s.captured| == Updates(ops)
  {
    if ops == [] then NewSlot else Apply(After(ops[..|ops| - 1]), ops[|ops| - 1])
  }

  /** The latest registration, and whether it has been undone, told from the history alone. */
  function Latest(ops: seq<Op>): Handler {
    if ops == [] then Unregistered
    else if ops[|ops| - 1].Update? then Registered(ops[|ops| - 1].name)
    else Latest(ops[..|ops| - 1])
  }

  predicate LatestUndone(ops: seq<Op>) {
    Updates(ops) > 0 && Undo(Updates(ops) - 1) in ops
  }

  /** Older registrations remember older versions. */
  ghost predicate VersionsOk(s: Slot) {
    && (forall i, j :: 0 <= i < j < |s.captured| ==> s.captured[i] < s.captured[j])
    && (forall i :: 0 <= i < |s.captured| ==> s.captured[i] <= s.version)
  }

  lemma {:induction false} VersionsKept(ops: seq<Op>)
    requires Legal(ops)
    ensures VersionsOk(After(ops))
  {
    if ops != [] { VersionsKept(ops[..|ops| - 1]); }
  }

  lemma {:induction false} UndoneIffVersionMoved(ops: seq<Op>)
    requires Legal(ops) && Updates(ops) > 0
    ensures var s := After(ops); s.captured[|s.captured| - 1] == s.version <==> !LatestUndone(ops)
  {
    var init, last := ops[..|ops| - 1], ops[|ops| - 1];
    VersionsKept(init);
    assert ops == init + [last];
    if last.Update? {
      UndosBelow(init, Updates(init));
    } else {
      UndoneIffVersionMoved(init);
    }
  }

  /** No undo of a registration that has not been made. */
  lemma {:induction false} UndosBelow(ops: seq<Op>, n: nat)
    requires Legal(ops) && n >= Updates(ops)
    ensures Undo(n) !in ops
  {
    if ops != [] {
      UndosBelow(ops[..|ops| - 1], n);
      assert ops == ops[..|ops| - 1] + [ops[|ops| - 1]];
    }
  }

  /**
   * The slot serves the latest registration until that one is undone, and nothing after: undoing an older one, or
   * the same one again, has no effect, and no undo brings an earlier handler back.
   */
  lemma {:induction false} SlotServesLatest(ops: seq<Op>)
    requires Legal(ops)
    ensures After(ops).current == if LatestUndone(ops) then Unregistered else Latest(ops)
  {
    if ops != [] {
      var init, last := ops[..|ops| - 1], ops[|ops| - 1];
      SlotServesLatest(init);
      VersionsKept(init);
      assert ops == init + [last];
      if last.Update? {
        UndosBelow(init, Updates(init));
      } else {
        UndoneIffVersionMoved(init);
      }
    }
  }
}
