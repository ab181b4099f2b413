/** The wire frame and its protocol errors (packages/host-api/src/protocol/messageCodec.ts). */
module FrameCodec {
  import opened Common
  import opened Scale

  /** A request id stands for its UTF-8 bytes; the three header fields are whatever numbers the caller gives. */
  datatype Frame = Frame(requestId: Bytes, traitId: int, methodId: int, messageType: int, payload: Bytes)

  predicate IsByte(x: int) {
    0 <= x <= 255
  }

  predicate Encodable(f: Frame) {
    IsByte(f.traitId) && IsByte(f.methodId) && IsByte(f.messageType)
  }

  function Header(f: Frame): Bytes
    requires Encodable(f)
  {
    [f.traitId as byte, f.methodId as byte, f.messageType as byte]
  }

  function EncodeFrame(f: Frame): Result<Bytes>
    requires |f.requestId| < COMPACT_LIMIT
  {
    if !IsByte(f.traitId) then Err("Invalid wire trait id")
    else if !IsByte(f.methodId) then Err("Invalid wire method id")
    else if !IsByte(f.messageType) then Err("Invalid wire message type")
    else Ok(StrEnc(f.requestId) + Header(f) + f.payload)
  }

  function CompactPrefixLength(bytes: Bytes): Result<nat> {
    if bytes == [] then Err("frame is missing the request id") else Ok(CompactLength(bytes[0]))
  }

  function DecodeFrame(bytes: Bytes): Result<Frame> {
    var prefix := CompactPrefixLength(bytes);
    if prefix.Err? then Err(prefix.error)
    else if |bytes| < prefix.value then Err("frame request id is truncated")
    else
      var end := prefix.value + CompactDec(bytes[..prefix.value]);
      if |bytes| < end + 3 then Err("frame is missing its (trait, method, message type) header")
      else
        Ok(Frame(bytes[prefix.value..end], bytes[end] as int, bytes[end + 1] as int, bytes[end + 2] as int,
                 bytes[end + 3..]))
  }

  // ---- filling the buffer in place ---------------------------------------------------------------

  method SetBytes(target: array<byte>, source: Bytes, offset: nat)
    requires offset + |source| <= target.Length
    modifies target
    ensures target[..] == old(target[..offset]) + source + old(target[offset + |source|..])
  {
    for i := 0 to |source|
      invariant target[..offset] == old(target[..offset])
      invariant target[offset..offset + i] == source[..i]
      invariant target[offset + i..] == old(target[offset + i..])
    {
      target[offset + i] := source[i];
      assert target[offset..offset + i + 1] == target[offset..offset + i] + [source[i]];
      assert target[offset + i + 1..] == target[offset + i..][1..];
      assert old(target[offset + i + 1..]) == old(target[offset + i..])[1..];
    }
    assert target[..] == target[..offset] + target[offset..offset + |source|] + target[offset + |source|..];
  }

  method SetHeader(target: array<byte>, offset: nat, f: Frame)
    requires Encodable(f) && offset + 3 <= target.Length
    modifies target
    ensures target[..] == old(target[..offset]) + Header(f) + old(target[offset + 3..])
  {
    target[offset] := f.traitId as byte;
    target[offset + 1] := f.methodId as byte;
    target[offset + 2] := f.messageType as byte;
    assert target[..] == target[..offset] + target[offset..offset + 3] + target[offset + 3..];
  }

  method FillFrame(f: Frame) returns (r: Result<Bytes>)
    requires |f.requestId| < COMPACT_LIMIT
    ensures r == EncodeFrame(f)
  {
    if !IsByte(f.traitId) { return Err("Invalid wire trait id"); }
    if !IsByte(f.methodId) { return Err("Invalid wire method id"); }
    if !IsByte(f.messageType) { return Err("Invalid wire message type"); }
    var requestId := StrEnc(f.requestId);
    var bytes := Assemble(requestId, f);
    return Ok(bytes[..]);
  }

  method Assemble(requestId: Bytes, f: Frame) returns (bytes: array<byte>)
    requires Encodable(f)
    ensures bytes[..] == requestId + Header(f) + f.payload
  {
    var n := |requestId|;
    bytes := new byte[n + 3 + |f.payload|](_ => 0);
    SetBytes(bytes, requestId, 0);
    assert bytes[..n] == requestId;
    SetHeader(bytes, n, f);
    assert bytes[..n + 3] == requestId + Header(f);
    SetBytes(bytes, f.payload, n + 3);
  }

  // ---- round trips -------------------------------------------------------------------------------

  /** The prefix length read from the first byte is the length of the encoding, whatever follows it. */
  lemma PrefixLengthAgrees(n: nat, rest: Bytes)
    requires n < COMPACT_LIMIT
    ensures CompactPrefixLength(CompactEnc(n) + rest) == Ok(|CompactEnc(n)|)
  {
    CompactRoundTrip(n);
  }

  /** A frame encodes exactly when its header fields are bytes, and decodes to what it was. */
  lemma FrameRoundTrip(f: Frame)
    requires |f.requestId| < COMPACT_LIMIT
    ensures EncodeFrame(f).Ok? <==> IsByte(f.traitId) && IsByte(f.methodId) && IsByte(f.messageType)
    ensures EncodeFrame(f).Ok? ==> DecodeFrame(EncodeFrame(f).value) == Ok(f)
  {
    hide CompactEnc, CompactDec, CompactLength;
    if Encodable(f) {
      var n := |f.requestId|;
      var prefix := CompactEnc(n);
      CompactRoundTrip(n);
      var bytes := EncodeFrame(f).value;
      PrefixLengthAgrees(n, f.requestId + Header(f) + f.payload);
      assert bytes == prefix + (f.requestId + Header(f) + f.payload);
      assert bytes[..|prefix|] == prefix;
      var end := |prefix| + n;
      assert bytes[|prefix|..end] == f.requestId;
      assert bytes[end..end + 3] == Header(f);
      assert bytes[end] == Header(f)[0] && bytes[end + 1] == Header(f)[1] && bytes[end + 2] == Header(f)[2];
      assert bytes[end + 3..] == f.payload;
    }
  }

  /** The id behind its length, then the trait, the method and the message type, one byte each, then the payload. */
  lemma FrameLayout(f: Frame)
    requires |f.requestId| < COMPACT_LIMIT && EncodeFrame(f).Ok?
    ensures var (bytes, at) := (EncodeFrame(f).value, |CompactEnc(|f.requestId|)| + |f.requestId|);
            && |bytes| == at + 3 + |f.payload|
            && bytes[..at] == CompactEnc(|f.requestId|) + f.requestId
            && bytes[at] as int == f.traitId && bytes[at + 1] as int == f.methodId
            && bytes[at + 2] as int == f.messageType
            && bytes[at + 3..] == f.payload
  {
    hide CompactEnc;
    var bytes, id := EncodeFrame(f).value, StrEnc(f.requestId);
    assert bytes[|id|..|id| + 3] == Header(f);
    assert bytes[|id|] == Header(f)[0] && bytes[|id| + 1] == Header(f)[1] && bytes[|id| + 2] == Header(f)[2];
  }

  /** A prefix that a decoder reads as `n`. */
  predicate Denotes(prefix: Bytes, n: nat) {
    prefix != [] && |prefix| == CompactLength(prefix[0]) && CompactDec(prefix) == n
  }

  /** The frames on the wire, whatever way their id length was written. */
  ghost predicate Parses(bytes: Bytes, f: Frame) {
    && Encodable(f)
    && exists prefix: Bytes :: Denotes(prefix, |f.requestId|) && bytes == prefix + f.requestId + Header(f) + f.payload
  }

  lemma DecodedParses(bytes: Bytes)
    requires DecodeFrame(bytes).Ok?
    ensures Parses(bytes, DecodeFrame(bytes).value)
  {
    hide CompactDec, CompactLength;
    var f := DecodeFrame(bytes).value;
    var n := CompactLength(bytes[0]);
    var prefix := bytes[..n];
    assert Denotes(prefix, |f.requestId|);
    assert bytes == prefix + f.requestId + Header(f) + f.payload;
  }

  lemma ParsedDecodes(bytes: Bytes, f: Frame)
    requires Parses(bytes, f)
    ensures DecodeFrame(bytes) == Ok(f)
  {
    hide CompactDec, CompactLength;
    var prefix: Bytes :| Denotes(prefix, |f.requestId|) && bytes == prefix + f.requestId + Header(f) + f.payload;
    assert bytes[0] == prefix[0];
    assert bytes[..|prefix|] == prefix;
    var end := |prefix| + |f.requestId|;
    assert bytes[|prefix|..end] == f.requestId;
    assert bytes[end..end + 3] == Header(f);
    assert bytes[end] == Header(f)[0] && bytes[end + 1] == Header(f)[1] && bytes[end + 2] == Header(f)[2];
    assert bytes[end + 3..] == f.payload;
  }

  /** Decoding accepts the bytes of a frame and nothing else, and no bytes are those of two frames. */
  lemma DecodesIffParses(bytes: Bytes, f: Frame)
    ensures DecodeFrame(bytes) == Ok(f) <==> Parses(bytes, f)
  {
    if DecodeFrame(bytes) == Ok(f) { DecodedParses(bytes); }
    if Parses(bytes, f) { ParsedDecodes(bytes, f); }
  }

  /** What was decoded encodes to the same bytes exactly when its id length was written the canonical way. */
  lemma ReencodesIffCanonical(bytes: Bytes)
    requires DecodeFrame(bytes).Ok? && |bytes| < COMPACT_LIMIT
    ensures var f := DecodeFrame(bytes).value;
            EncodeFrame(f) == Ok(bytes) <==> bytes[..CompactLength(bytes[0])] == CompactEnc(|f.requestId|)
  {
    hide CompactDec, CompactLength, CompactEnc;
    DecodedParses(bytes);
    var f := DecodeFrame(bytes).value;
    var canonical := CompactEnc(|f.requestId|);
    var n := CompactLength(bytes[0]);
    assert bytes == bytes[..n] + (f.requestId + Header(f) + f.payload);
    if EncodeFrame(f) == Ok(bytes) {
      PrefixLengthAgrees(|f.requestId|, f.requestId + Header(f) + f.payload);
      assert bytes == canonical + (f.requestId + Header(f) + f.payload);
      assert |canonical| == n;
    }
    assert canonical + f.requestId + Header(f) + f.payload == canonical + (f.requestId + Header(f) + f.payload);
  }

  /** A two-byte zero length is accepted, and written back as one byte. */
  lemma NonCanonicalAccepted()
    ensures var bytes: Bytes := [1, 0, 7, 8, 9];
            && DecodeFrame(bytes) == Ok(Frame([], 7, 8, 9, []))
            && EncodeFrame(Frame([], 7, 8, 9, [])) == Ok([0, 7, 8, 9])
  {
    var bytes: Bytes := [1, 0, 7, 8, 9];
    assert bytes[..2] == [1, 0];
    assert FromLittleEndian([1, 0]) == 1 by {
      assert [1 as byte, 0][1..] == [0 as byte];
      assert FromLittleEndian([0]) == 0;
    }
    var f := Frame([], 7, 8, 9, []);
    assert CompactEnc(0) == [0] by { assert LittleEndian(0, 1) == [0] + LittleEndian(0, 0); }
    assert StrEnc(f.requestId) + Header(f) + f.payload == [0, 7, 8, 9];
    assert bytes[2..2] == [] && bytes[5..] == [];
    PowerValues();
  }

  // ---- protocol errors ---------------------------------------------------------------------------

  datatype Unsupported = Unsupported(traitId: byte, methodId: byte)

  function EncodeUnsupportedMessage(u: Unsupported): Bytes {
    [0, 0, u.traitId, u.methodId]
  }

  /** `None` is a protocol error of a later version or variant. */
  function DecodeProtocolError(payload: Bytes): Result<Option<Unsupported>> {
    if payload == [] then Err("protocol error payload is empty")
    else if payload[0] != 0 || (|payload| > 1 && payload[1] != 0) then Ok(None)
    else if |payload| != 4 then Err("malformed UnsupportedMessage protocol error")
    else Ok(Some(Unsupported(payload[2], payload[3])))
  }

  /** The decoder recognises exactly what the encoder writes; only a payload no later version could mean is an error. */
  lemma ProtocolErrorRoundTrip(payload: Bytes, u: Unsupported)
    ensures DecodeProtocolError(payload) == Ok(Some(u)) <==> payload == EncodeUnsupportedMessage(u)
    ensures DecodeProtocolError(payload).Err? <==>
            payload == [] || payload == [0] || (|payload| != 4 && [0, 0] <= payload)
  {
  }
}
