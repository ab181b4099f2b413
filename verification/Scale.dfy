/** The SCALE encodings the packages rely on: fixed-width and compact integers, byte strings and vectors of them. */
module Scale {
  import opened Common

  function Pow256(k: nat): (r: nat)
    ensures r > 0
  {
    if k == 0 then 1 else 256 * Pow256(k - 1)
  }

  function LittleEndian(n: nat, k: nat): (r: Bytes)
    ensures |r| == k
    decreases k
  {
    if k == 0 then [] else [(n % 256) as byte] + LittleEndian(n / 256, k - 1)
  }

  function FromLittleEndian(bytes: Bytes): nat {
    if bytes == [] then 0 else bytes[0] as nat + 256 * FromLittleEndian(bytes[1..])
  }

  /** How many bytes a number needs. */
  function ByteLength(n: nat): (k: nat)
    ensures n < Pow256(k)
    ensures k > 0 ==> Pow256(k - 1) <= n
  {
    if n == 0 then 0 else 1 + ByteLength(n / 256)
  }

  lemma {:induction false} LittleEndianRoundTrip(n: nat, k: nat)
    ensures FromLittleEndian(LittleEndian(n, k)) == n % Pow256(k)
    decreases k
  {
    if k > 0 {
      LittleEndianRoundTrip(n / 256, k - 1);
      assert LittleEndian(n, k)[1..] == LittleEndian(n / 256, k - 1);
      ModSplit(n, Pow256(k - 1));
    }
  }

  lemma ModSplit(n: nat, m: nat)
    requires m > 0
    ensures n % (256 * m) == n % 256 + 256 * ((n / 256) % m)
  {
    var q, r := n / 256 / m, n / 256 % m;
    assert n == 256 * (n / 256) + n % 256;
    assert n / 256 == q * m + r;
    assert n == q * (256 * m) + (n % 256 + 256 * r) by {
      assert 256 * (q * m + r) == q * (256 * m) + 256 * r;
    }
    assert n % 256 + 256 * r < 256 * m by { assert r <= m - 1; }
    ModUnique(n, 256 * m, q, n % 256 + 256 * r);
  }

  lemma ModUnique(n: nat, m: nat, q: nat, r: nat)
    requires m > 0 && r < m && n == q * m + r
    ensures n % m == r
  {
    var d := q - n / m;
    assert n == (n / m) * m + n % m;
    assert d * m == n % m - r by { assert d * m == q * m - (n / m) * m; }
    MultipleBound(d, m);
  }

  lemma MultipleBound(d: int, m: nat)
    ensures d > 0 ==> d * m >= m
    ensures d < 0 ==> d * m + m <= 0
  {
  }

  lemma SmallMod(n: nat, m: nat)
    requires n < m
    ensures n % m == n
  {
  }

  lemma PowerValues()
    ensures Pow256(1) == 0x100 && Pow256(2) == 0x1_0000 && Pow256(3) == 0x100_0000 && Pow256(4) == 0x1_0000_0000
  {
  }

  // ---- compact integers --------------------------------------------------------------------------

  /** The compact encoding has room for 67 bytes. */
  const COMPACT_LIMIT: nat := Pow256(67)

  function CompactEnc(n: nat): Bytes
    requires n < COMPACT_LIMIT
  {
    if n < 0x40 then LittleEndian(n * 4, 1)
    else if n < 0x4000 then LittleEndian(n * 4 + 1, 2)
    else if n < 0x4000_0000 then LittleEndian(n * 4 + 2, 4)
    else
      var k := BigLength(n);
      [((k - 4) * 4 + 3) as byte] + LittleEndian(n, k)
  }

  lemma {:induction false} PowMonotone(a: nat, b: nat)
    requires a <= b
    ensures Pow256(a) <= Pow256(b)
    decreases b
  {
    if a < b { PowMonotone(a, b - 1); }
  }

  /** The width of the big-integer mode. */
  function BigLength(n: nat): (k: nat)
    requires 0x4000_0000 <= n < COMPACT_LIMIT
    ensures 4 <= k <= 67
    ensures Pow256(k - 1) <= n < Pow256(k)
  {
    PowerValues();
    var k := ByteLength(n);
    assert k >= 4 by { if k < 4 { PowMonotone(k, 3); } }
    assert k <= 67 by { if k > 67 { PowMonotone(67, k - 1); } }
    k
  }

  /** The length of the compact integer that starts with `first`. */
  function CompactLength(first: byte): (r: nat)
    ensures 1 <= r <= 68
  {
    if first % 4 == 0 then 1
    else if first % 4 == 1 then 2
    else if first % 4 == 2 then 4
    else first as nat / 4 + 5
  }

  function CompactDec(bytes: Bytes): nat
    requires bytes != [] && |bytes| == CompactLength(bytes[0])
  {
    if bytes[0] % 4 == 3 then FromLittleEndian(bytes[1..]) else FromLittleEndian(bytes) / 4
  }

  lemma ModOfMultiple(n: nat, c: nat)
    requires c < 4
    ensures (n * 4 + c) % 256 % 4 == c
  {
  }

  /** All four modes decode to what was encoded, and the first byte gives the length. */
  lemma CompactRoundTrip(n: nat)
    requires n < COMPACT_LIMIT
    ensures var bytes := CompactEnc(n);
            bytes != [] && |bytes| == CompactLength(bytes[0]) && CompactDec(bytes) == n
  {
    hide CompactDec, CompactLength;
    if n < 0x40 {
      SmallModeRoundTrip(n, 0, 1);
    } else if n < 0x4000 {
      SmallModeRoundTrip(n, 1, 2);
    } else if n < 0x4000_0000 {
      SmallModeRoundTrip(n, 2, 4);
    } else {
      BigModeRoundTrip(n);
    }
  }

  lemma SmallModeRoundTrip(n: nat, mode: nat, k: nat)
    requires || (mode == 0 && k == 1 && n < 0x40)
             || (mode == 1 && k == 2 && n < 0x4000)
             || (mode == 2 && k == 4 && n < 0x4000_0000)
    ensures var bytes := LittleEndian(n * 4 + mode, k);
            bytes != [] && |bytes| == CompactLength(bytes[0]) && CompactDec(bytes) == n
  {
    var v := n * 4 + mode;
    var bytes := LittleEndian(v, k);
    hide FromLittleEndian, Pow256;
    PowerValues();
    ModOfMultiple(n, mode);
    assert bytes[0] == (v % 256) as byte;
    LittleEndianRoundTrip(v, k);
    SmallMod(v, Pow256(k));
  }

  lemma BigModeRoundTrip(n: nat)
    requires 0x4000_0000 <= n < COMPACT_LIMIT
    ensures var bytes := CompactEnc(n);
            bytes != [] && |bytes| == CompactLength(bytes[0]) && CompactDec(bytes) == n
  {
    hide FromLittleEndian, Pow256, LittleEndian;
    var k := BigLength(n);
    var bytes := CompactEnc(n);
    assert bytes[1..] == LittleEndian(n, k);
    assert bytes[0] as nat == (k - 4) * 4 + 3;
    LittleEndianRoundTrip(n, k);
    SmallMod(n, Pow256(k));
  }

  // ---- the layout on the wire --------------------------------------------------------------------

  /** The least significant byte comes first. */
  lemma {:induction false} ByteAt(n: nat, k: nat, i: nat)
    requires i < k
    ensures LittleEndian(n, k)[i] as nat == n / Pow256(i) % 256
    decreases k
  {
    if i > 0 {
      ByteAt(n / 256, k - 1, i - 1);
      assert LittleEndian(n, k)[1..] == LittleEndian(n / 256, k - 1);
      DivDiv(n, Pow256(i - 1));
    }
  }

  lemma DivDiv(n: nat, m: nat)
    requires m > 0
    ensures n / 256 / m == n / (256 * m)
  {
    var q, r := n / 256 / m, n / 256 % m;
    assert n / 256 == q * m + r;
    assert n == q * (256 * m) + (256 * r + n % 256) by {
      assert 256 * (q * m + r) == q * (256 * m) + 256 * r;
    }
    assert 256 * r + n % 256 < 256 * m by { assert r <= m - 1; }
    Quotient(n, 256 * m, q, 256 * r + n % 256);
  }

  lemma Quotient(n: nat, m: nat, q: nat, r: nat)
    requires m > 0 && r < m && n == q * m + r
    ensures n / m == q
  {
    ModUnique(n, m, q, r);
    assert (n / m - q) * m == 0;
    MultipleBound(n / m - q, m);
  }

  /** The low two bits of the first byte are the mode: one, two or four bytes, or the number of bytes that follow. */
  lemma CompactLayout(n: nat)
    requires n < COMPACT_LIMIT
    ensures n < 64 ==> CompactEnc(n) == [(4 * n) as byte]
    ensures 64 <= n < 16384 ==> CompactEnc(n) == [((4 * n + 1) % 256) as byte, (n / 64) as byte]
    ensures 16384 <= n < 1073741824 ==>
              CompactEnc(n) == [((4 * n + 2) % 256) as byte, (n / 64 % 256) as byte, (n / 16384 % 256) as byte,
                                (n / 4194304) as byte]
    ensures n >= 1073741824 ==>
              && 5 <= |CompactEnc(n)| <= 68 && CompactEnc(n)[0] as nat == 4 * (|CompactEnc(n)| - 5) + 3
              && CompactEnc(n)[|CompactEnc(n)| - 1] > 0
              && forall i :: 1 <= i < |CompactEnc(n)| ==> CompactEnc(n)[i] as nat == n / Pow256(i - 1) % 256
  {
    hide BigLength;
    if n < 64 {
      SmallDigits(4 * n, 1);
    } else if n < 16384 {
      SmallDigits(4 * n + 1, 2);
      Digits(n);
    } else if n < 1073741824 {
      SmallDigits(4 * n + 2, 4);
      Digits(n);
    } else {
      BigDigits(n);
    }
  }

  lemma Digits(n: nat)
    ensures (4 * n + 1) / 256 == n / 64
    ensures (4 * n + 2) / 256 == n / 64 && (4 * n + 2) / 65536 == n / 16384 && (4 * n + 2) / 16777216 == n / 4194304
  {
  }

  lemma SmallDigits(v: nat, k: nat)
    requires (k == 1 && v < 256) || (k == 2 && v < 65536) || (k == 4 && v < 4294967296)
    ensures k == 1 ==> LittleEndian(v, k) == [v as byte]
    ensures k == 2 ==> LittleEndian(v, k) == [(v % 256) as byte, (v / 256) as byte]
    ensures k == 4 ==> LittleEndian(v, k) == [(v % 256) as byte, (v / 256 % 256) as byte, (v / 65536 % 256) as byte,
                                              (v / 16777216) as byte]
  {
    var none: Bytes := LittleEndian(v / 256 / 256 / 256 / 256, 0);
    if k == 1 {
      assert LittleEndian(v, 1) == [(v % 256) as byte] + LittleEndian(v / 256, 0);
    } else if k == 2 {
      assert LittleEndian(v / 256, 1) == [(v / 256 % 256) as byte] + LittleEndian(v / 256 / 256, 0);
    } else {
      assert LittleEndian(v / 256 / 256 / 256, 1) == [(v / 256 / 256 / 256 % 256) as byte] + none;
      assert LittleEndian(v / 256 / 256, 2)
          == [(v / 256 / 256 % 256) as byte] + LittleEndian(v / 256 / 256 / 256, 1);
      assert LittleEndian(v / 256, 3) == [(v / 256 % 256) as byte] + LittleEndian(v / 256 / 256, 2);
    }
  }

  lemma BigDigits(n: nat)
    requires 1073741824 <= n < COMPACT_LIMIT
    ensures 5 <= |CompactEnc(n)| <= 68 && CompactEnc(n)[0] as nat == 4 * (|CompactEnc(n)| - 5) + 3
    ensures CompactEnc(n)[|CompactEnc(n)| - 1] > 0
    ensures forall i :: 1 <= i < |CompactEnc(n)| ==> CompactEnc(n)[i] as nat == n / Pow256(i - 1) % 256
  {
    hide LittleEndian, Pow256, CompactEnc;
    var k := BigLength(n);
    BigBytes(n);
    forall i | 1 <= i < |CompactEnc(n)| ensures CompactEnc(n)[i] as nat == n / Pow256(i - 1) % 256 {
      ByteAt(n, k, i - 1);
    }
    TopDigit(n, k);
  }

  lemma BigBytes(n: nat)
    requires 1073741824 <= n < COMPACT_LIMIT
    ensures var (bytes, k) := (CompactEnc(n), BigLength(n));
            && |bytes| == k + 1 && bytes[0] as nat == 4 * (k - 4) + 3
            && forall i :: 1 <= i <= k ==> bytes[i] == LittleEndian(n, k)[i - 1]
  {
    hide LittleEndian, Pow256;
  }

  lemma TopDigit(n: nat, k: nat)
    requires k > 0 && Pow256(k - 1) <= n < Pow256(k)
    ensures 0 < n / Pow256(k - 1) % 256
  {
    PowerStep(k);
    hide Pow256;
    LeadingDigit(n, Pow256(k - 1));
  }

  lemma PowerStep(k: nat)
    requires k > 0
    ensures Pow256(k) == 256 * Pow256(k - 1)
  {
  }

  lemma LeadingDigit(n: nat, m: nat)
    requires 0 < m <= n < 256 * m
    ensures 0 < n / m < 256
  {
    var q := n / m;
    assert n == q * m + n % m;
    MultipleBound(q - 255, m);
    assert (q - 255) * m == q * m - 255 * m;
  }

  // ---- byte strings ------------------------------------------------------------------------------

  /** Strings and byte strings alike: a compact length and the bytes. */
  function StrEnc(s: Bytes): Bytes
    requires |s| < COMPACT_LIMIT
  {
    CompactEnc(|s|) + s
  }

  /** The number at the front of the bytes, and what follows it. */
  function CompactSplit(bytes: Bytes): Result<(nat, Bytes)> {
    if bytes == [] then Err("no length")
    else if |bytes| < CompactLength(bytes[0]) then Err("length is truncated")
    else
      var k := CompactLength(bytes[0]);
      Ok((CompactDec(bytes[..k]), bytes[k..]))
  }

  /** The string at the front of the bytes, and what follows it. */
  function StrDec(bytes: Bytes): Result<(Bytes, Bytes)> {
    var head := CompactSplit(bytes);
    if head.Err? then Err(head.error)
    else
      var (n, rest) := head.value;
      if |rest| < n then Err("string is truncated") else Ok((rest[..n], rest[n..]))
  }

  lemma CompactSplits(n: nat, rest: Bytes)
    requires n < COMPACT_LIMIT
    ensures CompactSplit(CompactEnc(n) + rest) == Ok((n, rest))
  {
    hide CompactEnc, CompactDec, CompactLength;
    CompactRoundTrip(n);
    var prefix := CompactEnc(n);
    assert (prefix + rest)[..|prefix|] == prefix;
    assert (prefix + rest)[|prefix|..] == rest;
  }

  lemma StrRoundTrip(s: Bytes, rest: Bytes)
    requires |s| < COMPACT_LIMIT
    ensures StrDec(StrEnc(s) + rest) == Ok((s, rest))
  {
    hide CompactEnc, CompactSplit;
    CompactSplits(|s|, s + rest);
    assert StrEnc(s) + rest == CompactEnc(|s|) + (s + rest);
    assert (s + rest)[..|s|] == s && (s + rest)[|s|..] == rest;
  }
}
