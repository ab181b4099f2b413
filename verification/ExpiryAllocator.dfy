/** Strictly increasing statement expiries (packages/statement-store/src/submit/allocator.ts). */
module ExpiryAllocator {
  import opened Common

  const WORD := 0x1_0000_0000
  const U64 := WORD * WORD
  const NEVER_EXPIRE_HIGH := 0xffff_ffff
  const PRIORITY_EPOCH_OFFSET := 1_763_164_800

  /**
   * (0xFFFFFFFF << 32) | priority. All high bits are already set, so or-ing a priority
   * below 2^64 into them keeps its low word.
   */
  function TimestampPriority(nowSecs: nat): nat {
    var priority := if nowSecs > PRIORITY_EPOCH_OFFSET then nowSecs - PRIORITY_EPOCH_OFFSET else 0;
    NEVER_EXPIRE_HIGH * WORD + priority % WORD
  }

  function NextExpiry(current: nat, nowSecs: nat): nat
    requires nowSecs < U64
  {
    var timestamp := TimestampPriority(nowSecs);
    if timestamp > current then timestamp else current + 1
  }

  /**
   * The next expiry is the least value that is above everything drawn and at least the clock's priority: a high word of
   * ones over the seconds since 2025-11-15. It still is a u64 unless the floor has already reached the largest one.
   */
  lemma NextExpiryIsLeast(current: nat, nowSecs: nat, candidate: nat)
    requires nowSecs < U64
    ensures var e := NextExpiry(current, nowSecs);
            var low := if nowSecs > 1_763_164_800 then (nowSecs - 1_763_164_800) % 0x1_0000_0000 else 0;
            && (candidate > current && candidate >= 0xFFFF_FFFF_0000_0000 + low <==> candidate >= e)
            && (e < U64 <==> current < U64 - 1)
  {
  }

  /** The high word is all ones, the low word the seconds since 2025-11-15; before that date it is zero. */
  lemma DrawLayout(current: nat, nowSecs: nat)
    requires nowSecs < 0x1_0000_0000_0000_0000
    ensures NextExpiry(current, nowSecs) >= 0xFFFF_FFFF_0000_0000
    ensures nowSecs <= 1_763_164_800 && current < 0xFFFF_FFFF_0000_0000 ==>
              NextExpiry(current, nowSecs) == 0xFFFF_FFFF_0000_0000
    ensures 1_763_164_800 <= nowSecs < 1_763_164_800 + 0x1_0000_0000
            && current < 0xFFFF_FFFF_0000_0000 + (nowSecs - 1_763_164_800) ==>
              NextExpiry(current, nowSecs) == 0xFFFF_FFFF_0000_0000 + (nowSecs - 1_763_164_800)
    ensures 1_763_164_800 <= nowSecs < 1_763_164_800 + 0x1_0000_0000
            && current >= 0xFFFF_FFFF_0000_0000 + (nowSecs - 1_763_164_800) ==>
              NextExpiry(current, nowSecs) == current + 1
  {
  }

  class Allocator {
    var current: nat

    constructor ()
      ensures current == 0
    {
      current := 0;
    }

    method Next(nowSecs: nat) returns (expiry: nat)
      requires nowSecs < U64
      modifies this
      ensures expiry == current == NextExpiry(old(current), nowSecs)
      ensures expiry > old(current) && expiry >= 0xFFFF_FFFF_0000_0000
    {
      current := NextExpiry(current, nowSecs);
      expiry := current;
    }

    method RaiseFloor(min: nat)
      modifies this
      ensures current == Max(old(current), min)
    {
      if min > current {
        current := min;
      }
    }
  }
}
