/**
 * Chunked upload and download through a pool whose entries can be claimed once
 * (packages/handoff-service/src/fileLoader/fileLoader.ts, codec.ts and crypto/encryption.ts).
 */
module FileLoader {
  import opened Common
  import opened Scale

  type Hash = Bytes

  /** A typed array holds fewer than 2^53 bytes. */
  const MAX_ARRAY: nat := 0x20_0000_0000_0000

  /** `seal` takes a nonce and a plaintext; both ends derive the same key from the ticket. */
  datatype Crypto = Crypto(seal: (Bytes, Bytes) -> Bytes, unseal: Bytes -> Result<Bytes>, hash: Bytes -> Hash)

  ghost predicate Sound(c: Crypto) {
    && (forall nonce: Bytes, data: Bytes :: c.unseal(c.seal(nonce, data)) == Ok(data))
    && (forall data: Bytes :: |c.hash(data)| == 32)
  }

  /** What the pool holds, under its hash. */
  type Pool = map<Hash, Bytes>

  datatype UploadedFile = UploadedFile(totalSize: nat, chunks: seq<Hash>)

  // ---- splitting -----------------------------------------------------------------------------------

  function Chunks(data: Bytes, size: nat): (r: seq<Bytes>)
    requires size > 0
    decreases |data|
  {
    if data == [] then [] else if |data| <= size then [data] else [data[..size]] + Chunks(data[size..], size)
  }

  function Concat(parts: seq<Bytes>): Bytes {
    if parts == [] then [] else parts[0] + Concat(parts[1..])
  }

  lemma {:induction false} ChunksJoin(data: Bytes, size: nat)
    requires size > 0
    ensures Concat(Chunks(data, size)) == data
    ensures |Chunks(data, size)| == (|data| + size - 1) / size
    ensures forall i :: 0 <= i < |Chunks(data, size)| ==> 0 < |Chunks(data, size)[i]| <= size
    ensures forall i :: 0 <= i < |Chunks(data, size)| - 1 ==> |Chunks(data, size)[i]| == size
    decreases |data|
  {
    if |data| > size {
      var rest := Chunks(data[size..], size);
      ChunksJoin(data[size..], size);
      assert Chunks(data, size)[1..] == rest;
      assert data[..size] + data[size..] == data;
      OneMoreChunk(|data|, size);
    } else if data != [] {
      OneChunk(|data|, size);
      assert Concat([data]) == data + Concat([]);
    } else {
      OneChunk(0, size);
    }
  }

  lemma OneMoreChunk(n: nat, size: nat)
    requires n > size > 0
    ensures (n + size - 1) / size == 1 + (n - size + size - 1) / size
  {
    var m := n - 1;
    assert m == (m / size) * size + m % size;
    assert m + size == (m / size + 1) * size + m % size;
    DivUnique(m + size, size, m / size + 1, m % size);
  }

  lemma OneChunk(n: nat, size: nat)
    requires n <= size && size > 0
    ensures (n + size - 1) / size == if n == 0 then 0 else 1
  {
  }

  lemma DivUnique(n: nat, m: nat, q: nat, r: nat)
    requires m > 0 && r < m && n == q * m + r
    ensures n / m == q
  {
    ModUnique(n, m, q, r);
    assert (n / m - q) * m == 0;
    MultipleBound(n / m - q, m);
  }

  /** What is left of the data from an offset on. */
  function From(data: Bytes, offset: nat): Bytes {
    if offset <= |data| then data[offset..] else []
  }

  method SplitIntoChunks(data: Bytes, chunkSize: nat) returns (chunks: seq<Bytes>)
    requires chunkSize > 0
    ensures chunks == Chunks(data, chunkSize)
  {
    chunks := [];
    var offset := 0;
    while offset < |data|
      invariant 0 <= offset
      invariant chunks + Chunks(From(data, offset), chunkSize) == Chunks(data, chunkSize)
    {
      var end := if offset + chunkSize <= |data| then offset + chunkSize else |data|;
      ghost var rest := data[offset..];
      assert data[offset..end] + data[end..] == rest;
      FirstChunk(rest, chunkSize);
      assert rest[end - offset..] == data[end..];
      chunks := chunks + [data[offset..end]];
      offset := offset + chunkSize;
    }
  }

  lemma FirstChunk(data: Bytes, size: nat)
    requires size > 0 && data != []
    ensures var n := if size <= |data| then size else |data|;
            Chunks(data, size) == [data[..n]] + Chunks(data[n..], size)
  {
    if |data| <= size { assert data[..|data|] == data; }
  }

  // ---- the metadata --------------------------------------------------------------------------------

  function HashesEnc(hashes: seq<Hash>): Bytes
    requires forall h :: h in hashes ==> |h| < COMPACT_LIMIT
  {
    if hashes == [] then [] else StrEnc(hashes[0]) + HashesEnc(hashes[1..])
  }

  function HashesDec(n: nat, bytes: Bytes): Result<seq<Hash>> {
    if n == 0 then Ok([])
    else
      var first := StrDec(bytes);
      if first.Err? then Err(first.error)
      else
        var rest := HashesDec(n - 1, first.value.1);
        if rest.Err? then rest else Ok([first.value.0] + rest.value)
  }

  predicate Encodable(f: UploadedFile) {
    |f.chunks| < COMPACT_LIMIT && forall h :: h in f.chunks ==> |h| < COMPACT_LIMIT
  }

  /** The size is a 64-bit little-endian number. */
  function MetadataEnc(f: UploadedFile): Bytes
    requires Encodable(f)
  {
    LittleEndian(f.totalSize, 8) + CompactEnc(|f.chunks|) + HashesEnc(f.chunks)
  }

  function MetadataDec(bytes: Bytes): Result<UploadedFile> {
    if |bytes| < 8 then Err("no size")
    else
      var count := CompactSplit(bytes[8..]);
      if count.Err? then Err(count.error)
      else
        var hashes := HashesDec(count.value.0, count.value.1);
        if hashes.Err? then Err(hashes.error)
        else Ok(UploadedFile(FromLittleEndian(bytes[..8]), hashes.value))
  }

  lemma {:induction false} HashesRoundTrip(hashes: seq<Hash>)
    requires forall h :: h in hashes ==> |h| < COMPACT_LIMIT
    ensures HashesDec(|hashes|, HashesEnc(hashes)) == Ok(hashes)
  {
    hide StrEnc, StrDec;
    if hashes != [] {
      StrRoundTrip(hashes[0], HashesEnc(hashes[1..]));
      HashesRoundTrip(hashes[1..]);
      assert [hashes[0]] + hashes[1..] == hashes;
    }
  }

  lemma MetadataRoundTrip(f: UploadedFile)
    requires Encodable(f)
    ensures MetadataDec(MetadataEnc(f)) == Ok(f.(totalSize := f.totalSize % Pow256(8)))
  {
    hide HashesEnc, HashesDec, CompactEnc, CompactSplit, LittleEndian, FromLittleEndian, Pow256;
    var bytes := MetadataEnc(f);
    assert bytes[..8] == LittleEndian(f.totalSize, 8);
    assert bytes[8..] == CompactEnc(|f.chunks|) + HashesEnc(f.chunks);
    CompactSplits(|f.chunks|, HashesEnc(f.chunks));
    HashesRoundTrip(f.chunks);
    LittleEndianRoundTrip(f.totalSize, 8);
  }

  /** Eight bytes of size, the least significant first, the number of chunks, and each hash behind its length. */
  lemma MetadataLayout(f: UploadedFile)
    requires Encodable(f) && forall h :: h in f.chunks ==> |h| == 32
    ensures var (bytes, count) := (MetadataEnc(f), CompactEnc(|f.chunks|));
            && |bytes| == 8 + |count| + 33 * |f.chunks|
            && (forall i :: 0 <= i < 8 ==> bytes[i] as nat == f.totalSize / Pow256(i) % 256)
            && bytes[8..8 + |count|] == count
            && (forall k :: 0 <= k < |f.chunks| ==> HashStands(bytes, 8 + |count| + 33 * k, f.chunks[k]))
  {
    hide LittleEndian, Pow256, CompactEnc, HashesEnc;
    var bytes, count := MetadataEnc(f), CompactEnc(|f.chunks|);
    forall i | 0 <= i < 8 ensures bytes[i] as nat == f.totalSize / Pow256(i) % 256 {
      ByteAt(f.totalSize, 8, i);
    }
    assert 32 < COMPACT_LIMIT by { SmallIsEncodable(); }
    HashesLayout(f.chunks);
    forall k | 0 <= k < |f.chunks| ensures HashStands(bytes, 8 + |count| + 33 * k, f.chunks[k]) {
      StandsLater(LittleEndian(f.totalSize, 8) + count, HashesEnc(f.chunks), 33 * k, f.chunks[k]);
    }
  }

  predicate HashStands(bytes: Bytes, at: nat, hash: Hash) {
    at + 33 <= |bytes| && bytes[at] == 128 && bytes[at + 1..at + 33] == hash
  }

  lemma SmallIsEncodable()
    ensures 32 < COMPACT_LIMIT
  {
    PowMonotone(1, 67);
  }

  lemma HashEnc(hash: Hash)
    requires |hash| == 32 < COMPACT_LIMIT
    ensures StrEnc(hash) == [128] + hash
  {
    hide CompactEnc;
    CompactLayout(32);
  }

  lemma {:induction false} HashesLayout(hashes: seq<Hash>)
    requires 32 < COMPACT_LIMIT && forall h :: h in hashes ==> |h| == 32
    ensures |HashesEnc(hashes)| == 33 * |hashes|
    ensures forall k :: 0 <= k < |hashes| ==> HashStands(HashesEnc(hashes), 33 * k, hashes[k])
  {
    hide StrEnc;
    if hashes != [] {
      var rest := HashesEnc(hashes[1..]);
      HashEnc(hashes[0]);
      HashesLayout(hashes[1..]);
      assert HashesEnc(hashes) == [128] + hashes[0] + rest;
      forall k | 0 <= k < |hashes| ensures HashStands(HashesEnc(hashes), 33 * k, hashes[k]) {
        if k > 0 { StandsLater([128] + hashes[0], rest, 33 * (k - 1), hashes[1..][k - 1]); }
      }
    }
  }

  lemma StandsLater(front: Bytes, bytes: Bytes, at: nat, hash: Hash)
    requires HashStands(bytes, at, hash)
    ensures HashStands(front + bytes, |front| + at, hash)
  {
    assert (front + bytes)[|front| + at + 1..|front| + at + 33] == bytes[at + 1..at + 33];
  }

  // ---- upload and download as functions ----------------------------------------------------------

  /** Submitting one after the other: each is stored under its hash. */
  function Store(c: Crypto, pool: Pool, blobs: seq<Bytes>): Pool {
    if blobs == [] then pool else Store(c, pool, blobs[..|blobs| - 1])[c.hash(blobs[|blobs| - 1]) := blobs[|blobs| - 1]]
  }

  function Sealed(c: Crypto, nonces: seq<Bytes>, parts: seq<Bytes>): (r: seq<Bytes>)
    requires |nonces| >= |parts|
    ensures |r| == |parts|
  {
    seq(|parts|, i requires 0 <= i < |parts| => c.seal(nonces[i], parts[i]))
  }

  function Hashes(c: Crypto, blobs: seq<Bytes>): (r: seq<Hash>)
    ensures |r| == |blobs|
    ensures forall i :: 0 <= i < |r| ==> r[i] == c.hash(blobs[i])
  {
    seq(|blobs|, i requires 0 <= i < |blobs| => c.hash(blobs[i]))
  }

  /** Claiming evicts. A claim or a decryption that fails ends the download. */
  function ClaimAll(c: Crypto, pool: Pool, hashes: seq<Hash>): (Pool, Result<seq<Bytes>>) {
    if hashes == [] then (pool, Ok([]))
    else if hashes[0] !in pool then (pool, Err("Data not found"))
    else
      var part := c.unseal(pool[hashes[0]]);
      if part.Err? then (pool - {hashes[0]}, Err(part.error))
      else
        var rest := ClaimAll(c, pool - {hashes[0]}, hashes[1..]);
        (rest.0, if rest.1.Err? then rest.1 else Ok([part.value] + rest.1.value))
  }

  function Download(c: Crypto, pool: Pool, identifier: Hash): (Pool, Result<Bytes>) {
    if identifier !in pool then (pool, Err("Data not found"))
    else
      var pool1 := pool - {identifier};
      var metadata := c.unseal(pool[identifier]);
      if metadata.Err? then (pool1, Err("Failed to decrypt/decode metadata"))
      else
        var file := MetadataDec(metadata.value);
        if file.Err? then (pool1, Err("Failed to decrypt/decode metadata"))
        else
          var parts := ClaimAll(c, pool1, file.value.chunks);
          if parts.1.Err? then (parts.0, Err(parts.1.error))
          else if |Concat(parts.1.value)| != file.value.totalSize then (parts.0, Err("File size mismatch"))
          else (parts.0, Ok(Concat(parts.1.value)))
  }

  /** The blobs of an upload in the order they are submitted: the sealed chunks, then the sealed metadata. */
  function EncryptedFile(c: Crypto, nonces: seq<Bytes>, data: Bytes, size: nat): (r: seq<Bytes>)
    requires size > 0 && |nonces| > |Chunks(data, size)|
    requires Encodable(Metadata(c, nonces, data, size))
    ensures |r| == |Chunks(data, size)| + 1
  {
    var chunks := Sealed(c, nonces, Chunks(data, size));
    chunks + [c.seal(nonces[|chunks|], MetadataEnc(Metadata(c, nonces, data, size)))]
  }

  function Metadata(c: Crypto, nonces: seq<Bytes>, data: Bytes, size: nat): UploadedFile
    requires size > 0 && |nonces| >= |Chunks(data, size)|
  {
    UploadedFile(|data|, Hashes(c, Sealed(c, nonces, Chunks(data, size))))
  }

  /** `accepted` is how many submissions the pool takes before it refuses one, which ends the upload. */
  function Upload(c: Crypto, pool: Pool, nonces: seq<Bytes>, data: Bytes, size: nat, accepted: nat)
    : (Pool, Result<Hash>)
    requires size > 0 && |nonces| > |Chunks(data, size)|
    requires Encodable(Metadata(c, nonces, data, size))
  {
    var blobs := EncryptedFile(c, nonces, data, size);
    if accepted < |blobs| then (Store(c, pool, blobs[..accepted]), Err("submission refused"))
    else (Store(c, pool, blobs), Ok(c.hash(blobs[|blobs| - 1])))
  }

  // ---- upload and download as the loops they are -------------------------------------------------

  lemma StoreNext(c: Crypto, pool: Pool, blobs: seq<Bytes>, i: nat)
    requires i < |blobs|
    ensures Store(c, pool, blobs[..i + 1]) == Store(c, pool, blobs[..i])[c.hash(blobs[i]) := blobs[i]]
    ensures Hashes(c, blobs[..i + 1]) == Hashes(c, blobs[..i]) + [c.hash(blobs[i])]
  {
    assert blobs[..i + 1][..i] == blobs[..i];
  }

  lemma BlobsAre(c: Crypto, nonces: seq<Bytes>, data: Bytes, size: nat)
    requires size > 0 && |nonces| > |Chunks(data, size)|
    requires Encodable(Metadata(c, nonces, data, size))
    ensures var blobs, chunks := EncryptedFile(c, nonces, data, size), Chunks(data, size);
            var n := |chunks|;
            && (forall i :: 0 <= i < n ==> blobs[i] == c.seal(nonces[i], chunks[i]))
            && Metadata(c, nonces, data, size) == UploadedFile(|data|, Hashes(c, blobs[..n]))
            && blobs[n] == c.seal(nonces[n], MetadataEnc(Metadata(c, nonces, data, size)))
            && blobs[..n + 1] == blobs
  {
  }

  method UploadFile(c: Crypto, pool: Pool, nonces: seq<Bytes>, data: Bytes, chunkSize: nat, accepted: nat)
    returns (pool': Pool, identifier: Result<Hash>)
    requires chunkSize > 0 && |nonces| > |Chunks(data, chunkSize)|
    requires Encodable(Metadata(c, nonces, data, chunkSize))
    ensures (pool', identifier) == Upload(c, pool, nonces, data, chunkSize, accepted)
  {
    hide EncryptedFile, Metadata, MetadataEnc, Chunks, Encodable;
    var chunks := SplitIntoChunks(data, chunkSize);
    ghost var blobs := EncryptedFile(c, nonces, data, chunkSize);
    BlobsAre(c, nonces, data, chunkSize);
    var hashes: seq<Hash> := [];
    pool' := pool;
    for i := 0 to |chunks|
      invariant i <= accepted
      invariant pool' == Store(c, pool, blobs[..i])
      invariant hashes == Hashes(c, blobs[..i])
    {
      if i == accepted { return pool', Err("submission refused"); }
      var encrypted := c.seal(nonces[i], chunks[i]);
      StoreNext(c, pool, blobs, i);
      pool' := pool'[c.hash(encrypted) := encrypted];
      hashes := hashes + [c.hash(encrypted)];
    }
    if accepted == |chunks| { return pool', Err("submission refused"); }
    var encryptedMetadata := c.seal(nonces[|chunks|], MetadataEnc(UploadedFile(|data|, hashes)));
    StoreNext(c, pool, blobs, |chunks|);
    pool' := pool'[c.hash(encryptedMetadata) := encryptedMetadata];
    identifier := Ok(c.hash(encryptedMetadata));
  }

  method ClaimChunks(c: Crypto, pool: Pool, hashes: seq<Hash>) returns (pool': Pool, parts: Result<seq<Bytes>>)
    ensures (pool', parts) == ClaimAll(c, pool, hashes)
  {
    pool' := pool;
    var got: seq<Bytes> := [];
    assert hashes[0..] == hashes;
    AfterNothing(ClaimAll(c, pool, hashes));
    for i := 0 to |hashes|
      invariant ClaimAll(c, pool, hashes) == After(got, ClaimAll(c, pool', hashes[i..]))
    {
      assert hashes[i..][0] == hashes[i] && hashes[i..][1..] == hashes[i + 1..];
      if hashes[i] !in pool' { return pool', Err("Data not found"); }
      var part := c.unseal(pool'[hashes[i]]);
      if part.Err? { return pool' - {hashes[i]}, Err(part.error); }
      ClaimStep(c, pool', hashes[i..], got);
      pool' := pool' - {hashes[i]};
      got := got + [part.value];
    }
    assert got + [] == got;
    parts := Ok(got);
  }

  lemma AfterNothing(r: (Pool, Result<seq<Bytes>>))
    ensures After([], r) == r
  {
    if r.1.Ok? { assert [] + r.1.value == r.1.value; }
  }

  lemma ClaimStep(c: Crypto, pool: Pool, hashes: seq<Hash>, got: seq<Bytes>)
    requires hashes != [] && hashes[0] in pool && c.unseal(pool[hashes[0]]).Ok?
    ensures After(got, ClaimAll(c, pool, hashes))
            == After(got + [c.unseal(pool[hashes[0]]).value], ClaimAll(c, pool - {hashes[0]}, hashes[1..]))
  {
    var part, rest := c.unseal(pool[hashes[0]]).value, ClaimAll(c, pool - {hashes[0]}, hashes[1..]);
    if rest.1.Ok? { assert got + ([part] + rest.1.value) == (got + [part]) + rest.1.value; }
  }

  /** The parts claimed so far, followed by the outcome of the rest. */
  function After(got: seq<Bytes>, rest: (Pool, Result<seq<Bytes>>)): (Pool, Result<seq<Bytes>>) {
    (rest.0, if rest.1.Err? then rest.1 else Ok(got + rest.1.value))
  }

  method DownloadFile(c: Crypto, pool: Pool, identifier: Hash) returns (pool': Pool, data: Result<Bytes>)
    ensures (pool', data) == Download(c, pool, identifier)
  {
    pool' := pool;
    if identifier !in pool { return pool', Err("Data not found"); }
    pool' := pool - {identifier};
    var metadata := c.unseal(pool[identifier]);
    if metadata.Err? { return pool', Err("Failed to decrypt/decode metadata"); }
    var file := MetadataDec(metadata.value);
    if file.Err? { return pool', Err("Failed to decrypt/decode metadata"); }
    var parts: Result<seq<Bytes>>;
    pool', parts := ClaimChunks(c, pool', file.value.chunks);
    if parts.Err? { return pool', Err(parts.error); }
    var reassembled := Concat(parts.value);
    if |reassembled| != file.value.totalSize { return pool', Err("File size mismatch"); }
    data := Ok(reassembled);
  }

  // ---- what a download of an upload gives --------------------------------------------------------

  ghost predicate Distinct(s: seq<Hash>) {
    forall i, j :: 0 <= i < j < |s| ==> s[i] != s[j]
  }

  function Set(s: seq<Hash>): set<Hash> {
    set h | h in s
  }

  /** The last blob stored under a hash is the one found there. */
  lemma {:induction false} StoredLast(c: Crypto, pool: Pool, blobs: seq<Bytes>, i: nat)
    requires i < |blobs| && forall j :: i < j < |blobs| ==> c.hash(blobs[j]) != c.hash(blobs[i])
    ensures c.hash(blobs[i]) in Store(c, pool, blobs) && Store(c, pool, blobs)[c.hash(blobs[i])] == blobs[i]
  {
    if i < |blobs| - 1 {
      var init := blobs[..|blobs| - 1];
      assert init[i] == blobs[i];
      StoredLast(c, pool, init, i);
    }
  }

  lemma {:induction false} StoredOnly(c: Crypto, pool: Pool, blobs: seq<Bytes>, gone: set<Hash>)
    requires forall h :: h in Hashes(c, blobs) ==> h in gone
    ensures Store(c, pool, blobs) - gone == pool - gone
  {
    if blobs != [] {
      var last := |blobs| - 1;
      assert Hashes(c, blobs)[last] == c.hash(blobs[last]);
      forall h | h in Hashes(c, blobs[..last]) ensures h in gone {
        var i :| 0 <= i < last && Hashes(c, blobs[..last])[i] == h;
        assert Hashes(c, blobs)[i] == h;
      }
      StoredOnly(c, pool, blobs[..last], gone);
    }
  }

  lemma {:induction false} ClaimsSucceed(c: Crypto, pool: Pool, hashes: seq<Hash>, parts: seq<Bytes>)
    requires Distinct(hashes) && |parts| == |hashes|
    requires forall i :: 0 <= i < |hashes| ==> hashes[i] in pool && c.unseal(pool[hashes[i]]) == Ok(parts[i])
    ensures ClaimAll(c, pool, hashes) == (pool - Set(hashes), Ok(parts))
  {
    if hashes == [] {
      assert Set(hashes) == {} && pool - Set(hashes) == pool && parts == [];
    } else {
      assert forall i :: 0 <= i < |hashes[1..]| ==> hashes[1..][i] == hashes[i + 1];
      ClaimsSucceed(c, pool - {hashes[0]}, hashes[1..], parts[1..]);
      assert [parts[0]] + parts[1..] == parts;
      assert Set(hashes) == {hashes[0]} + Set(hashes[1..]) by { assert hashes == [hashes[0]] + hashes[1..]; }
      assert pool - {hashes[0]} - Set(hashes[1..]) == pool - Set(hashes);
    }
  }

  lemma {:induction false} ClaimedOnce(c: Crypto, pool: Pool, hashes: seq<Hash>)
    requires ClaimAll(c, pool, hashes).1.Ok?
    ensures Distinct(hashes) && forall h :: h in hashes ==> h in pool
  {
    if hashes != [] {
      ClaimedOnce(c, pool - {hashes[0]}, hashes[1..]);
      assert hashes == [hashes[0]] + hashes[1..];
      assert forall i :: 0 <= i < |hashes[1..]| ==> hashes[1..][i] in hashes[1..];
    }
  }

  /** A claim finds its hash, not claimed before, and opens what it gets. */
  predicate Claims(c: Crypto, pool: Pool, hashes: seq<Hash>, k: nat)
    requires k < |hashes|
  {
    hashes[k] in pool && hashes[k] !in hashes[..k] && c.unseal(pool[hashes[k]]).Ok?
  }

  /** The claims end at the first that fails, with what came before it, and it if it was found, evicted. */
  lemma {:induction false} ClaimsStopAt(c: Crypto, pool: Pool, hashes: seq<Hash>, k: nat)
    requires k < |hashes| && !Claims(c, pool, hashes, k)
    requires forall i :: 0 <= i < k ==> Claims(c, pool, hashes, i)
    ensures var r := ClaimAll(c, pool, hashes);
            if hashes[k] in pool && hashes[k] !in hashes[..k]
            then r == (pool - Set(hashes[..k + 1]), Err(c.unseal(pool[hashes[k]]).error))
            else r == (pool - Set(hashes[..k]), Err("Data not found"))
  {
    if k == 0 {
      assert Set(hashes[..0]) == {} && Set(hashes[..1]) == {hashes[0]};
      assert pool - {} == pool;
    } else {
      assert Claims(c, pool, hashes, 0);
      var pool', rest := pool - {hashes[0]}, hashes[1..];
      ClaimsAfterFirst(c, pool, hashes, k);
      ClaimsStopAt(c, pool', rest, k - 1);
      forall n: nat | 0 < n <= |hashes| ensures pool' - Set(rest[..n - 1]) == pool - Set(hashes[..n]) {
        assert hashes[..n] == [hashes[0]] + rest[..n - 1];
        assert Set(hashes[..n]) == {hashes[0]} + Set(rest[..n - 1]);
      }
      assert hashes[..k] == [hashes[0]] + rest[..k - 1];
    }
  }

  lemma ClaimsAfterFirst(c: Crypto, pool: Pool, hashes: seq<Hash>, k: nat)
    requires 0 < k < |hashes|
    ensures forall i :: 0 <= i < k ==>
              (Claims(c, pool - {hashes[0]}, hashes[1..], i) <==> Claims(c, pool, hashes, i + 1))
  {
    forall i | 0 <= i < k
      ensures Claims(c, pool - {hashes[0]}, hashes[1..], i) <==> Claims(c, pool, hashes, i + 1)
    {
      assert hashes[..i + 1] == [hashes[0]] + hashes[1..][..i];
    }
  }

  lemma {:induction false} ClaimsAllIff(c: Crypto, pool: Pool, hashes: seq<Hash>, parts: seq<Bytes>)
    ensures ClaimAll(c, pool, hashes).1 == Ok(parts) <==>
            && Distinct(hashes) && |parts| == |hashes|
            && forall i :: 0 <= i < |hashes| ==> hashes[i] in pool && c.unseal(pool[hashes[i]]) == Ok(parts[i])
  {
    if ClaimAll(c, pool, hashes).1 == Ok(parts) {
      ClaimedOnce(c, pool, hashes);
      ClaimedParts(c, pool, hashes);
    } else if Distinct(hashes) && |parts| == |hashes|
              && forall i :: 0 <= i < |hashes| ==> hashes[i] in pool && c.unseal(pool[hashes[i]]) == Ok(parts[i]) {
      ClaimsSucceed(c, pool, hashes, parts);
    }
  }

  lemma {:induction false} ClaimedParts(c: Crypto, pool: Pool, hashes: seq<Hash>)
    requires ClaimAll(c, pool, hashes).1.Ok?
    ensures var parts := ClaimAll(c, pool, hashes).1.value;
            && |parts| == |hashes|
            && forall i :: 0 <= i < |hashes| ==> hashes[i] in pool && c.unseal(pool[hashes[i]]) == Ok(parts[i])
  {
    if hashes != [] {
      ClaimedParts(c, pool - {hashes[0]}, hashes[1..]);
      var parts, rest := ClaimAll(c, pool, hashes).1.value, ClaimAll(c, pool - {hashes[0]}, hashes[1..]).1.value;
      forall i | 0 <= i < |hashes| ensures hashes[i] in pool && c.unseal(pool[hashes[i]]) == Ok(parts[i]) {
        if i > 0 { assert hashes[1..][i - 1] == hashes[i] && rest[i - 1] == parts[i]; }
      }
    }
  }

  /**
   * Whatever is in the pool, a download gives data exactly if the metadata found under the identifier opens and
   * decodes, each of the chunks it names is found and opens, none twice and none the metadata, and what they contain
   * is as long as the metadata says.
   */
  lemma DownloadOkIff(c: Crypto, pool: Pool, identifier: Hash, data: Bytes)
    ensures Download(c, pool, identifier).1 == Ok(data) <==>
            && identifier in pool && c.unseal(pool[identifier]).Ok?
            && MetadataDec(c.unseal(pool[identifier]).value).Ok?
            && var file := MetadataDec(c.unseal(pool[identifier]).value).value;
               && identifier !in file.chunks && Distinct(file.chunks)
               && (forall h :: h in file.chunks ==> h in pool && c.unseal(pool[h]).Ok?)
               && data == Concat(Opened(c, pool, file.chunks)) && |data| == file.totalSize
  {
    hide MetadataDec, Concat, ClaimAll;
    if identifier in pool && c.unseal(pool[identifier]).Ok? {
      var file := MetadataDec(c.unseal(pool[identifier]).value);
      if file.Ok? {
        var hashes := file.value.chunks;
        var parts := Opened(c, pool, hashes);
        assert forall i :: 0 <= i < |hashes| ==> hashes[i] in hashes;
        ClaimsAllIff(c, pool - {identifier}, hashes, parts);
        var got := ClaimAll(c, pool - {identifier}, hashes).1;
        if got.Ok? {
          ClaimsAllIff(c, pool - {identifier}, hashes, got.value);
          assert got.value == parts;
        }
      }
    }
  }

  /** What the chunks of a file contain. */
  function Opened(c: Crypto, pool: Pool, hashes: seq<Hash>): (r: seq<Bytes>)
    ensures |r| == |hashes|
  {
    seq(|hashes|, i requires 0 <= i < |hashes| =>
          if hashes[i] in pool && c.unseal(pool[hashes[i]]).Ok? then c.unseal(pool[hashes[i]]).value else [])
  }

  lemma ClaimedMeansDistinct(c: Crypto, pool: Pool, hashes: seq<Hash>)
    requires hashes != [] && ClaimAll(c, pool - {hashes[|hashes| - 1]}, hashes[..|hashes| - 1]).1.Ok?
    ensures Distinct(hashes)
  {
    var init := hashes[..|hashes| - 1];
    ClaimedOnce(c, pool - {hashes[|hashes| - 1]}, init);
    assert forall i :: 0 <= i < |init| ==> init[i] in init && init[i] == hashes[i];
  }

  lemma {:induction false} PowersBig(k: nat)
    requires 7 <= k
    ensures MAX_ARRAY < Pow256(k)
  {
    if k == 7 {
      PowerValues();
      assert Pow256(7) == 256 * 256 * 256 * Pow256(4);
    } else {
      PowersBig(k - 1);
    }
  }

  /** Any file that fits a typed array can be described by its metadata. */
  lemma FileIsEncodable(c: Crypto, nonces: seq<Bytes>, data: Bytes, size: nat)
    requires Sound(c) && size > 0 && |nonces| >= |Chunks(data, size)| && |data| < MAX_ARRAY
    ensures Encodable(Metadata(c, nonces, data, size))
  {
    PowersBig(67);
    FewChunks(data, size);
  }

  lemma {:induction false} FewChunks(data: Bytes, size: nat)
    requires size > 0
    ensures |Chunks(data, size)| <= |data|
    decreases |data|
  {
    if |data| > size { FewChunks(data[size..], size); }
  }

  /** The pool after an upload gives back the metadata first. */
  lemma MetadataComesBack(c: Crypto, pool: Pool, nonces: seq<Bytes>, data: Bytes, size: nat)
    requires Sound(c) && size > 0 && |nonces| > |Chunks(data, size)| && |data| < MAX_ARRAY
    requires Encodable(Metadata(c, nonces, data, size))
    ensures var blobs := EncryptedFile(c, nonces, data, size);
            var id, p := c.hash(blobs[|blobs| - 1]), Store(c, pool, blobs);
            && id in p && c.unseal(p[id]).Ok?
            && MetadataDec(c.unseal(p[id]).value) == Ok(Metadata(c, nonces, data, size))
  {
    hide MetadataEnc, MetadataDec, Pow256, Chunks, Store;
    var blobs := EncryptedFile(c, nonces, data, size);
    StoredLast(c, pool, blobs, |blobs| - 1);
    MetadataRoundTrip(Metadata(c, nonces, data, size));
    PowersBig(8);
    SmallMod(|data|, Pow256(8));
  }

  lemma ChunksComeBack(c: Crypto, pool: Pool, nonces: seq<Bytes>, data: Bytes, size: nat)
    requires Sound(c) && size > 0 && |nonces| > |Chunks(data, size)|
    requires Encodable(Metadata(c, nonces, data, size))
    requires Distinct(Hashes(c, EncryptedFile(c, nonces, data, size)))
    ensures var blobs := EncryptedFile(c, nonces, data, size);
            var hashes := Hashes(c, blobs);
            var n := |blobs| - 1;
            && hashes[..n] == Metadata(c, nonces, data, size).chunks
            && ClaimAll(c, Store(c, pool, blobs) - {hashes[n]}, hashes[..n])
               == (Store(c, pool, blobs) - {hashes[n]} - Set(hashes[..n]), Ok(Chunks(data, size)))
  {
    hide MetadataEnc, Chunks, Store, ClaimAll, Set;
    var blobs := EncryptedFile(c, nonces, data, size);
    var hashes := Hashes(c, blobs);
    var n, chunks := |blobs| - 1, Chunks(data, size);
    var p := Store(c, pool, blobs) - {hashes[n]};
    forall i | 0 <= i < n ensures hashes[..n][i] in p && c.unseal(p[hashes[..n][i]]) == Ok(chunks[i]) {
      StoredLast(c, pool, blobs, i);
      assert blobs[i] == c.seal(nonces[i], chunks[i]);
    }
    ClaimsSucceed(c, p, hashes[..n], chunks);
  }

  /**
   * Downloading what was uploaded returns the file exactly when no two of its blobs have the same hash; otherwise the
   * download fails, and never returns other data. A download that succeeds leaves none of the file in the pool.
   */
  lemma DownloadReturnsUpload(c: Crypto, pool: Pool, nonces: seq<Bytes>, data: Bytes, size: nat)
    requires Sound(c) && size > 0 && |nonces| > |Chunks(data, size)| && |data| < MAX_ARRAY
    ensures Encodable(Metadata(c, nonces, data, size))
    ensures var blobs := EncryptedFile(c, nonces, data, size);
            var hashes := Hashes(c, blobs);
            var r := Download(c, Store(c, pool, blobs), hashes[|blobs| - 1]);
            && (r.1 == Ok(data) <==> Distinct(hashes))
            && (r.1.Err? <==> !Distinct(hashes))
            && (r.1.Ok? ==> r.0 == pool - Set(hashes))
  {
    hide MetadataEnc, MetadataDec, Chunks, Store, ClaimAll, Concat, Sound, Encodable;
    FileIsEncodable(c, nonces, data, size);
    var blobs := EncryptedFile(c, nonces, data, size);
    var hashes := Hashes(c, blobs);
    var n := |blobs| - 1;
    MetadataComesBack(c, pool, nonces, data, size);
    assert hashes[..n] == Metadata(c, nonces, data, size).chunks;
    var p := Store(c, pool, blobs) - {hashes[n]};
    if Distinct(hashes) {
      ChunksComeBack(c, pool, nonces, data, size);
      ChunksJoin(data, size);
      StoredOnly(c, pool, blobs, Set(hashes));
      assert {hashes[n]} + Set(hashes[..n]) == Set(hashes) by { assert hashes == hashes[..n] + [hashes[n]]; }
    }
    if ClaimAll(c, p, hashes[..n]).1.Ok? { ClaimedMeansDistinct(c, Store(c, pool, blobs), hashes); }
  }

  /** The whole trip: what the uploader returns is the ticket to the file. */
  lemma UploadThenDownload(c: Crypto, pool: Pool, nonces: seq<Bytes>, data: Bytes, size: nat, accepted: nat)
    requires Sound(c) && size > 0 && |nonces| > |Chunks(data, size)| && |data| < MAX_ARRAY
    ensures Encodable(Metadata(c, nonces, data, size))
    ensures var up := Upload(c, pool, nonces, data, size, accepted);
            && (up.1.Ok? <==> accepted > |Chunks(data, size)|)
            && (up.1.Ok? ==>
                  var down := Download(c, up.0, up.1.value);
                  && (down.1 == Ok(data) <==> Distinct(Hashes(c, EncryptedFile(c, nonces, data, size))))
                  && (down.1.Ok? ==> Download(c, down.0, up.1.value).1 == Err("Data not found")))
  {
    DownloadReturnsUpload(c, pool, nonces, data, size);
    var blobs := EncryptedFile(c, nonces, data, size);
    hide EncryptedFile, Chunks, Sound, Encodable, Store, ClaimAll, MetadataDec, Concat;
    assert Hashes(c, blobs)[|blobs| - 1] in Hashes(c, blobs);
  }

  /** An upload that is refused leaves what was accepted before, and nothing else, in the pool. */
  lemma RefusedUploadLeaves(c: Crypto, pool: Pool, nonces: seq<Bytes>, data: Bytes, size: nat, accepted: nat)
    requires Sound(c) && size > 0 && |nonces| > |Chunks(data, size)| && |data| < MAX_ARRAY
    requires accepted <= |Chunks(data, size)|
    ensures Encodable(Metadata(c, nonces, data, size))
    ensures var (up, blobs) := (Upload(c, pool, nonces, data, size, accepted), EncryptedFile(c, nonces, data, size));
            && up.1 == Err("submission refused")
            && (forall i :: 0 <= i < accepted ==> c.hash(blobs[i]) in up.0)
            && (forall h :: h in up.0 ==>
                  (h in pool && up.0[h] == pool[h]) || (up.0[h] in blobs[..accepted] && h == c.hash(up.0[h])))
  {
    FileIsEncodable(c, nonces, data, size);
    var blobs := EncryptedFile(c, nonces, data, size);
    hide EncryptedFile, Chunks, Sound, Encodable, Store;
    StoredUnder(c, pool, blobs[..accepted]);
    var kept := Store(c, pool, blobs[..accepted]);
    assert forall i :: 0 <= i < accepted ==> blobs[..accepted][i] == blobs[i];
  }

  lemma {:induction false} StoredUnder(c: Crypto, pool: Pool, blobs: seq<Bytes>)
    ensures var kept := Store(c, pool, blobs);
            && (forall i :: 0 <= i < |blobs| ==> c.hash(blobs[i]) in kept)
            && (forall h :: h in kept ==>
                  (h in pool && kept[h] == pool[h]) || (kept[h] in blobs && h == c.hash(kept[h])))
  {
    if blobs != [] {
      var init, last := blobs[..|blobs| - 1], |blobs| - 1;
      StoredUnder(c, pool, init);
      forall i | 0 <= i < |blobs| ensures c.hash(blobs[i]) in Store(c, pool, blobs) {
        if i < last { assert init[i] == blobs[i]; }
      }
    }
  }
}
