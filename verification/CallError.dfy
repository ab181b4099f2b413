/**
 * The error envelope of responses and interrupts
 * (packages/host-api/src/protocol/callError.ts, and `retagFailure` in transport.ts).
 */
module CallError {
  import opened Common
  import opened Scale

  type Tag = string

  /** A transport-level failure. A reason is given by its UTF-8 bytes. */
  datatype Failure =
    | Denied
    | Unsupported
    | MalformedFrame(reason: Bytes)
    | HostFailure(reason: Bytes)
    | Cancelled

  /** What handlers answer and callers see; business values are in the encoding of their own version. */
  datatype Body = Success(value: Bytes) | DomainError(value: Bytes) | Failed(failure: Failure)

  datatype Response = Response(tag: Tag, body: Body)

  /** A business value of an interrupt may be the JavaScript `undefined`, when its version carries none. */
  datatype Reason = Undefined | Plain(value: Bytes) | Marker(failure: Failure)

  datatype Interrupt = Interrupt(tag: Tag, reason: Reason)

  /** A versioned leg has at least one version, and a SCALE enum no more than 256. */
  predicate Versions(tags: seq<Tag>) {
    1 <= |tags| <= 256 && forall i, j :: 0 <= i < j < |tags| ==> tags[i] != tags[j]
  }

  predicate Writable(f: Failure) {
    (f.MalformedFrame? || f.HostFailure?) ==> |f.reason| < COMPACT_LIMIT
  }

  function IndexOf(tags: seq<Tag>, tag: Tag): (i: nat)
    ensures i <= |tags|
    ensures i < |tags| ==> tags[i] == tag
    ensures i == |tags| ==> tag !in tags
    ensures forall j :: 0 <= j < i ==> tags[j] != tag
  {
    if tags == [] then 0 else if tags[0] == tag then 0 else 1 + IndexOf(tags[1..], tag)
  }

  // ---- wire forms --------------------------------------------------------------------------------

  /** The wire's `CallError`, with its pinned discriminants. */
  datatype WireError = Domain(tag: Tag, value: Bytes) | Transport(failure: Failure)

  function VersionedEnc(tags: seq<Tag>, tag: Tag, value: Bytes): Result<Bytes>
    requires Versions(tags)
  {
    var i := IndexOf(tags, tag);
    if i == |tags| then Err("unknown version") else Ok([i as byte] + value)
  }

  function VersionedDec(tags: seq<Tag>, bytes: Bytes): Result<(Tag, Bytes)>
    requires Versions(tags)
  {
    if bytes == [] || bytes[0] as nat >= |tags| then Err("unknown version") else Ok((tags[bytes[0]], bytes[1..]))
  }

  function WireErrorEnc(tags: seq<Tag>, e: WireError): Result<Bytes>
    requires Versions(tags) && (e.Transport? ==> Writable(e.failure))
  {
    match e
    case Domain(tag, value) =>
      var v := VersionedEnc(tags, tag, value);
      if v.Ok? then Ok([0] + v.value) else v
    case Transport(failure) =>
      match failure
      case Denied => Ok([1])
      case Unsupported => Ok([2])
      case MalformedFrame(reason) => Ok([3] + StrEnc(reason))
      case HostFailure(reason) => Ok([4] + StrEnc(reason))
      case Cancelled => Ok([5])
  }

  function WireErrorDec(tags: seq<Tag>, bytes: Bytes): Result<WireError>
    requires Versions(tags)
  {
    if bytes == [] then Err("no discriminant")
    else if bytes[0] == 0 then
      var v := VersionedDec(tags, bytes[1..]);
      if v.Ok? then Ok(Domain(v.value.0, v.value.1)) else Err(v.error)
    else if bytes[0] == 1 then Ok(Transport(Denied))
    else if bytes[0] == 2 then Ok(Transport(Unsupported))
    else if bytes[0] == 3 || bytes[0] == 4 then
      var s := StrDec(bytes[1..]);
      if s.Err? then Err(s.error)
      else Ok(Transport(if bytes[0] == 3 then MalformedFrame(s.value.0) else HostFailure(s.value.0)))
    else if bytes[0] == 5 then Ok(Transport(Cancelled))
    else Err("unknown discriminant")
  }

  lemma VersionedRoundTrip(tags: seq<Tag>, tag: Tag, value: Bytes)
    requires Versions(tags)
    ensures VersionedEnc(tags, tag, value).Ok? <==> tag in tags
    ensures tag in tags ==> VersionedDec(tags, VersionedEnc(tags, tag, value).value) == Ok((tag, value))
  {
  }

  lemma WireErrorRoundTrip(tags: seq<Tag>, e: WireError)
    requires Versions(tags) && (e.Transport? ==> Writable(e.failure))
    ensures WireErrorEnc(tags, e).Ok? <==> e.Transport? || e.tag in tags
    ensures WireErrorEnc(tags, e).Ok? ==> WireErrorDec(tags, WireErrorEnc(tags, e).value) == Ok(e)
  {
    hide VersionedEnc, VersionedDec, StrEnc, StrDec;
    match e
    case Domain(tag, value) =>
      VersionedRoundTrip(tags, tag, value);
      if tag in tags {
        var v := VersionedEnc(tags, tag, value).value;
        assert ([0] + v)[1..] == v;
      }
    case Transport(failure) =>
      if failure.MalformedFrame? || failure.HostFailure? {
        var s := StrEnc(failure.reason);
        StrRoundTrip(failure.reason, []);
        assert s + [] == s;
        assert ([3] + s)[1..] == s && ([4] + s)[1..] == s;
      }
  }

  /** A transport failure on the wire, behind the byte that says error. */
  predicate FailureStands(bytes: Bytes, f: Failure)
    requires Writable(f)
  {
    match f
    case Denied => bytes == [1, 1]
    case Unsupported => bytes == [1, 2]
    case MalformedFrame(reason) => bytes == [1, 3] + CompactEnc(|reason|) + reason
    case HostFailure(reason) => bytes == [1, 4] + CompactEnc(|reason|) + reason
    case Cancelled => bytes == [1, 5]
  }

  /** The decoder takes a discriminant below six; behind a domain error a known version, behind a reason a string. */
  lemma DecodesIff(tags: seq<Tag>, bytes: Bytes, e: WireError)
    requires Versions(tags)
    ensures WireErrorDec(tags, bytes) == Ok(e) <==>
            bytes != [] && match e
                           case Domain(tag, value) =>
                             bytes[0] == 0 && |bytes| > 1 && bytes[1] as int < |tags| && tag == tags[bytes[1]]
                             && value == bytes[2..]
                           case Transport(Denied) => bytes[0] == 1
                           case Transport(Unsupported) => bytes[0] == 2
                           case Transport(MalformedFrame(reason)) =>
                             bytes[0] == 3 && StrDec(bytes[1..]).Ok? && StrDec(bytes[1..]).value.0 == reason
                           case Transport(HostFailure(reason)) =>
                             bytes[0] == 4 && StrDec(bytes[1..]).Ok? && StrDec(bytes[1..]).value.0 == reason
                           case Transport(Cancelled) => bytes[0] == 5
  {
    hide StrDec;
    if |bytes| > 1 { assert bytes[1..][1..] == bytes[2..]; }
  }

  // ---- the response leg --------------------------------------------------------------------------

  function ResponseEnc(okTags: seq<Tag>, errTags: seq<Tag>, r: Response): Result<Bytes>
    requires Versions(okTags) && Versions(errTags) && (r.body.Failed? ==> Writable(r.body.failure))
  {
    match r.body
    case Failed(failure) =>
      var e := WireErrorEnc(errTags, Transport(failure));
      if e.Ok? then Ok([1] + e.value) else e
    case Success(value) =>
      var v := VersionedEnc(okTags, r.tag, value);
      if v.Ok? then Ok([0] + v.value) else v
    case DomainError(value) =>
      var e := WireErrorEnc(errTags, Domain(r.tag, value));
      if e.Ok? then Ok([1] + e.value) else e
  }

  function ResponseDec(okTags: seq<Tag>, errTags: seq<Tag>, bytes: Bytes): Result<Response>
    requires Versions(okTags) && Versions(errTags)
  {
    if bytes == [] then Err("empty response")
    else if bytes[0] == 0 then
      var v := VersionedDec(okTags, bytes[1..]);
      if v.Ok? then Ok(Response(v.value.0, Success(v.value.1))) else Err(v.error)
    else if bytes[0] == 1 then
      var e := WireErrorDec(errTags, bytes[1..]);
      if e.Err? then Err(e.error)
      else if e.value.Domain? then Ok(Response(e.value.tag, DomainError(e.value.value)))
      else Ok(Response(okTags[0], Failed(e.value.failure)))
    else Err("unknown result variant")
  }

  function RetagFailure(r: Response, tag: Tag): Response {
    if r.body.Failed? then Response(tag, r.body) else r
  }

  /**
   * Every response that encodes is decoded to itself once a failure has been given the caller's version; without
   * that, exactly when it is no failure or the caller's version is the first.
   */
  lemma ResponseRoundTrip(okTags: seq<Tag>, errTags: seq<Tag>, r: Response)
    requires Versions(okTags) && Versions(errTags) && (r.body.Failed? ==> Writable(r.body.failure))
    ensures ResponseEnc(okTags, errTags, r).Ok? <==>
            r.body.Failed? || (r.body.Success? && r.tag in okTags) || (r.body.DomainError? && r.tag in errTags)
    ensures ResponseEnc(okTags, errTags, r).Ok? ==>
              var decoded := ResponseDec(okTags, errTags, ResponseEnc(okTags, errTags, r).value);
              && decoded.Ok?
              && RetagFailure(decoded.value, r.tag) == r
              && (decoded.value == r <==> !r.body.Failed? || r.tag == okTags[0])
  {
    hide VersionedEnc, VersionedDec, WireErrorEnc, WireErrorDec;
    match r.body
    case Failed(failure) =>
      WireErrorRoundTrip(errTags, Transport(failure));
      var e := WireErrorEnc(errTags, Transport(failure)).value;
      assert ([1] + e)[1..] == e;
    case Success(value) =>
      VersionedRoundTrip(okTags, r.tag, value);
      if r.tag in okTags {
        var v := VersionedEnc(okTags, r.tag, value).value;
        assert ([0] + v)[1..] == v;
      }
    case DomainError(value) =>
      WireErrorRoundTrip(errTags, Domain(r.tag, value));
      if r.tag in errTags {
        var e := WireErrorEnc(errTags, Domain(r.tag, value)).value;
        assert ([1] + e)[1..] == e;
      }
  }

  /** A success is a zero and its version; a domain error a one, a zero and its version; a failure a one and a kind. */
  lemma ResponseLayout(okTags: seq<Tag>, errTags: seq<Tag>, r: Response, i: nat)
    requires Versions(okTags) && Versions(errTags) && (r.body.Failed? ==> Writable(r.body.failure))
    requires r.body.Success? ==> i < |okTags| && okTags[i] == r.tag
    requires r.body.DomainError? ==> i < |errTags| && errTags[i] == r.tag
    ensures ResponseEnc(okTags, errTags, r).Ok?
    ensures var bytes := ResponseEnc(okTags, errTags, r).value;
            match r.body
            case Success(value) => bytes == [0, i as byte] + value
            case DomainError(value) => bytes == [1, 0, i as byte] + value
            case Failed(failure) => FailureStands(bytes, failure)
  {
    if r.body.Failed? { FailureLayout(errTags, r.body.failure); }
  }

  lemma FailureLayout(tags: seq<Tag>, failure: Failure)
    requires Versions(tags) && Writable(failure)
    ensures WireErrorEnc(tags, Transport(failure)).Ok?
    ensures FailureStands([1] + WireErrorEnc(tags, Transport(failure)).value, failure)
  {
    hide CompactEnc;
  }

  // ---- the interrupt leg -------------------------------------------------------------------------

  function InterruptEnc(errTags: seq<Tag>, i: Interrupt): Result<Bytes>
    requires Versions(errTags) && (i.reason.Marker? ==> Writable(i.reason.failure))
  {
    match i.reason
    case Undefined => Ok([0])
    case Marker(failure) =>
      var e := WireErrorEnc(errTags, Transport(failure));
      if e.Ok? then Ok([1] + e.value) else e
    case Plain(value) =>
      var e := WireErrorEnc(errTags, Domain(i.tag, value));
      if e.Ok? then Ok([1] + e.value) else e
  }

  function InterruptDec(errTags: seq<Tag>, bytes: Bytes): Result<Interrupt>
    requires Versions(errTags)
  {
    if bytes == [] then Err("empty interrupt")
    else if bytes[0] == 0 then Ok(Interrupt(errTags[0], Undefined))
    else if bytes[0] == 1 then
      var e := WireErrorDec(errTags, bytes[1..]);
      if e.Err? then Err(e.error)
      else if e.value.Domain? then Ok(Interrupt(e.value.tag, Plain(e.value.value)))
      else Ok(Interrupt(errTags[0], Marker(e.value.failure)))
    else Err("unknown result variant")
  }

  function RetagInterrupt(i: Interrupt, tag: Tag): Interrupt {
    if i.reason.Marker? then Interrupt(tag, i.reason) else i
  }

  /**
   * An interrupt keeps its reason. It keeps its version too, once a failure has been given the one the subscription
   * was made in, exactly when it carries a reason or is of the first version: a clean end always comes out as that.
   */
  lemma InterruptRoundTrip(errTags: seq<Tag>, i: Interrupt)
    requires Versions(errTags) && (i.reason.Marker? ==> Writable(i.reason.failure))
    ensures InterruptEnc(errTags, i).Ok? <==> !i.reason.Plain? || i.tag in errTags
    ensures InterruptEnc(errTags, i).Ok? ==>
              var decoded := InterruptDec(errTags, InterruptEnc(errTags, i).value);
              && decoded.Ok?
              && decoded.value.reason == i.reason
              && (RetagInterrupt(decoded.value, i.tag) == i <==> !i.reason.Undefined? || i.tag == errTags[0])
              && (decoded.value == i <==> i.reason.Plain? || i.tag == errTags[0])
  {
    hide WireErrorEnc, WireErrorDec;
    match i.reason
    case Undefined =>
    case Marker(failure) =>
      WireErrorRoundTrip(errTags, Transport(failure));
      var e := WireErrorEnc(errTags, Transport(failure)).value;
      assert ([1] + e)[1..] == e;
    case Plain(value) =>
      WireErrorRoundTrip(errTags, Domain(i.tag, value));
      if i.tag in errTags {
        var e := WireErrorEnc(errTags, Domain(i.tag, value)).value;
        assert ([1] + e)[1..] == e;
      }
  }

  /** A clean end is a zero; a reason is a one and then laid out as the error of a response. */
  lemma InterruptLayout(errTags: seq<Tag>, i: Interrupt, k: nat)
    requires Versions(errTags) && (i.reason.Marker? ==> Writable(i.reason.failure))
    requires i.reason.Plain? ==> k < |errTags| && errTags[k] == i.tag
    ensures InterruptEnc(errTags, i).Ok?
    ensures var bytes := InterruptEnc(errTags, i).value;
            match i.reason
            case Undefined => bytes == [0]
            case Plain(value) => bytes == [1, 0, k as byte] + value
            case Marker(failure) => FailureStands(bytes, failure)
  {
    if i.reason.Marker? { FailureLayout(errTags, i.reason.failure); }
  }

  /** What a handler means by an interrupt. */
  datatype Intent = CleanEnd | DomainReason(value: Reason)

  function Expressed(tag: Tag, intent: Intent): Interrupt {
    Interrupt(tag, if intent.CleanEnd? then Undefined else intent.value)
  }

  /** A reader can tell a domain reason from a clean end exactly when the reason carries a value. */
  lemma ReasonsTellApart(errTags: seq<Tag>, tag: Tag, value: Reason)
    requires Versions(errTags) && tag in errTags && !value.Marker?
    ensures InterruptEnc(errTags, Expressed(tag, DomainReason(value)))
            != InterruptEnc(errTags, Expressed(tag, CleanEnd))
            <==> value != Undefined
  {
  }
}
