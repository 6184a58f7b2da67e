/** Round trip, truncation and the exact language of accepted archives. */
module ArchiveProofs {
  import opened Prelude
  import opened Archive

  // ---------- one frame ----------

  /** A frame within bounds in front of anything is read back as its token and what follows. */
  lemma FrameReads(token: Bytes, tail: Bytes)
    requires 0 < |token| <= 2 * CHUNK_SIZE
    ensures var rest := Frame(token) + tail;
            && |rest| >= 4 + |token| && Value(rest[..4]) == |token|
            && rest[4..4 + |token|] == token && rest[4 + |token|..] == tail
  {
    var rest := Frame(token) + tail;
    Powers();
    ValueOfBigEndian(4, |token|);
    assert rest[..4] == BigEndian(4, |token|);
  }

  /** The converse: bytes read as a frame are that frame. */
  lemma ReadsFrame(rest: Bytes, length: nat)
    requires |rest| >= 4 && length == Value(rest[..4]) && 0 < length && |rest| >= 4 + length
    ensures rest == Frame(rest[4..4 + length]) + rest[4 + length..]
  {
    BigEndianOfValue(rest[..4]);
  }

  lemma {:induction false} DataRecordReads(fileId: Bytes, index: nat, chunk: Bytes)
    requires |fileId| == 16
    ensures var p := DataRecord(fileId, index, chunk);
            && IsData(p, fileId) && |p| == 25 + |chunk| && p[17..25] == BigEndian(8, index) && p[25..] == chunk
  {
  }

  lemma {:induction false} ReadsDataRecord(payload: Bytes, fileId: Bytes, index: nat)
    requires |fileId| == 16 && IsData(payload, fileId) && |payload| > 25 && payload[17..25] == BigEndian(8, index)
    ensures payload == DataRecord(fileId, index, payload[25..])
  {
  }

  lemma EndIsNotData(fileId: Bytes, count: nat, data: Bytes, digest: Bytes -> Bytes)
    ensures !IsData(EndRecord(fileId, count, data, digest), fileId)
  {
    var p := EndRecord(fileId, count, data, digest);
    assert |p| >= 17 ==> p[..17][0] == END_TAG;
    assert ([DATA_TAG] + fileId)[0] == DATA_TAG;
  }

  // ---------- reading one frame ----------

  lemma {:induction false} DecodeData(
    c: Cipher, digest: Bytes -> Bytes, token: Bytes, tail: Bytes, fileId: Bytes, count: nat, done: Bytes, chunk: Bytes)
    requires |fileId| == 16 && 0 < |token| <= 2 * CHUNK_SIZE && count < WORD && chunk != []
    requires c.unseal(token) == Some(DataRecord(fileId, count, chunk))
    ensures DecodeFrames(c, digest, Frame(token) + tail, fileId, count, done)
         == DecodeFrames(c, digest, tail, fileId, count + 1, done + chunk)
  {
    FrameReads(token, tail);
    DataRecordReads(fileId, count, chunk);
  }

  lemma {:induction false} DecodeEnd(c: Cipher, digest: Bytes -> Bytes, token: Bytes, fileId: Bytes, count: nat, done: Bytes)
    requires 0 < |token| <= 2 * CHUNK_SIZE && |done| < WORD
    requires c.unseal(token) == Some(EndRecord(fileId, count, done, digest))
    ensures DecodeFrames(c, digest, Frame(token), fileId, count, done) == Ok(done)
  {
    FrameReads(token, []);
    assert Frame(token) + [] == Frame(token);
    EndIsNotData(fileId, count, done, digest);
  }

  // ---------- round trip ----------

  /** A sealed chunk in front of the other frames is read back. */
  lemma {:induction false} SealedData(
    c: Cipher, digest: Bytes -> Bytes, chunk: Bytes, tail: Bytes, fileId: Bytes, count: nat, done: Bytes)
    requires Sound(c) && |fileId| == 16 && count < WORD && 0 < |chunk| <= CHUNK_SIZE
    ensures DecodeFrames(c, digest, Frame(c.seal(count, DataRecord(fileId, count, chunk))) + tail, fileId, count, done)
         == DecodeFrames(c, digest, tail, fileId, count + 1, done + chunk)
  {
    var record := DataRecord(fileId, count, chunk);
    var token := c.seal(count, record);
    DataRecordReads(fileId, count, chunk);
    assert c.unseal(token) == Some(record) && 0 < |token| <= 2 * CHUNK_SIZE;
    DecodeData(c, digest, token, tail, fileId, count, done, chunk);
  }

  lemma {:induction false} SealedEnd(c: Cipher, digest: Bytes -> Bytes, fileId: Bytes, count: nat, done: Bytes)
    requires Sound(c) && DigestLength(digest) && |fileId| == 16 && |done| < WORD
    ensures DecodeFrames(c, digest, Frame(c.seal(count, EndRecord(fileId, count, done, digest))), fileId, count, done)
         == Ok(done)
  {
    var record := EndRecord(fileId, count, done, digest);
    var token := c.seal(count, record);
    assert |record| == 65;
    assert c.unseal(token) == Some(record) && 0 < |token| <= 2 * CHUNK_SIZE;
    DecodeEnd(c, digest, token, fileId, count, done);
  }

  lemma Regroup(done: Bytes, chunk: Bytes, left: Bytes, data: Bytes)
    requires data == chunk + left
    ensures done + chunk + left == done + data
  {
  }

  /** The writer's frames for `data` are read back behind `done`. */
  ghost predicate ReadBack(c: Cipher, digest: Bytes -> Bytes, data: Bytes, fileId: Bytes, count: nat, done: Bytes) {
    DecodeFrames(c, digest, EncodeFrames(c, digest, data, fileId, count, done), fileId, count, done) == Ok(done + data)
  }

  lemma NothingReadBack(c: Cipher, digest: Bytes -> Bytes, fileId: Bytes, count: nat, done: Bytes)
    requires Sound(c) && DigestLength(digest) && |fileId| == 16 && |done| < WORD
    ensures ReadBack(c, digest, [], fileId, count, done)
  {
    SealedEnd(c, digest, fileId, count, done);
    assert done + [] == done;
  }

  lemma ChunkReadBack(
    c: Cipher, digest: Bytes -> Bytes, data: Bytes, chunk: Bytes, left: Bytes, fileId: Bytes, count: nat, done: Bytes)
    requires Sound(c) && |fileId| == 16 && count < WORD && data != [] && chunk == FirstChunk(data) && left == data[|chunk|..]
    requires ReadBack(c, digest, left, fileId, count + 1, done + chunk)
    ensures ReadBack(c, digest, data, fileId, count, done)
  {
    var tail := EncodeFrames(c, digest, left, fileId, count + 1, done + chunk);
    SealedData(c, digest, chunk, tail, fileId, count, done);
    Regroup(done, chunk, left, data);
  }

  lemma {:induction false} FramesRoundTrip(
    c: Cipher, digest: Bytes -> Bytes, data: Bytes, fileId: Bytes, count: nat, done: Bytes)
    requires Sound(c) && DigestLength(digest) && |fileId| == 16 && count <= |done| && |done| + |data| < WORD
    ensures ReadBack(c, digest, data, fileId, count, done)
    decreases |data|
  {
    if data == [] {
      NothingReadBack(c, digest, fileId, count, done);
    } else {
      var chunk := FirstChunk(data);
      var left := data[|chunk|..];
      FramesRoundTrip(c, digest, left, fileId, count + 1, done + chunk);
      ChunkReadBack(c, digest, data, chunk, left, fileId, count, done);
    }
  }

  lemma HeaderReads(fileId: Bytes, body: Bytes)
    requires |fileId| == 16
    ensures var s := MAGIC + fileId + body;
            |s| >= 24 && s[..8] == MAGIC && s[8..24] == fileId && s[24..] == body
  {
  }

  /** Decrypting an encrypted archive gives back every byte string whose length fits in 64 bits. */
  lemma RoundTrip(c: Cipher, digest: Bytes -> Bytes, data: Bytes, fileId: Bytes)
    requires Sound(c) && DigestLength(digest) && |fileId| == 16
    ensures match Encrypted(c, digest, data, fileId)
            case Some(archive) => Decrypted(c, digest, archive) == Ok(data)
            case None => |data| >= WORD
  {
    if |data| < WORD {
      var frames := EncodeFrames(c, digest, data, fileId, 0, []);
      FramesRoundTrip(c, digest, data, fileId, 0, []);
      assert [] + data == data;
      HeaderReads(fileId, frames);
    }
  }

  // ---------- truncation ----------

  lemma SamePrefix(a: Bytes, b: Bytes, n: nat)
    requires a <= b && 4 <= n <= |a|
    ensures a[..4] == b[..4] && a[4..n] == b[4..n] && a[n..] <= b[n..] && (a[n..] == b[n..] ==> a == b)
  {
    assert a == a[..n] + a[n..] && b == b[..n] + b[n..];
  }

  /** Two accepted frame streams, one a prefix of the other, are the same. */
  lemma {:induction false} FramesPrefixFree(
    c: Cipher, digest: Bytes -> Bytes, a: Bytes, b: Bytes, fileId: Bytes, count: nat, done: Bytes)
    requires a <= b
    requires DecodeFrames(c, digest, a, fileId, count, done).Ok? && DecodeFrames(c, digest, b, fileId, count, done).Ok?
    ensures a == b
    decreases |a|
  {
    var n := 4 + Value(a[..4]);
    SamePrefix(a, b, n);
    var payload := c.unseal(a[4..n]).value;
    if IsData(payload, fileId) {
      FramesPrefixFree(c, digest, a[n..], b[n..], fileId, count + 1, done + payload[25..]);
    }
  }

  lemma PrefixFree(c: Cipher, digest: Bytes -> Bytes, a: Bytes, b: Bytes)
    requires a <= b && Decrypted(c, digest, a).Ok? && Decrypted(c, digest, b).Ok?
    ensures a == b
  {
    assert a[..24] == b[..24] && a[8..24] == b[8..24] && a[24..] <= b[24..];
    FramesPrefixFree(c, digest, a[24..], b[24..], a[8..24], 0, []);
    assert a == a[..24] + a[24..] && b == b[..24] + b[24..];
  }

  /** Every strict prefix of an accepted archive is rejected. */
  lemma TruncationRejected(c: Cipher, digest: Bytes -> Bytes, archive: Bytes, prefix: Bytes)
    requires Decrypted(c, digest, archive).Ok? && prefix <= archive && prefix != archive
    ensures Decrypted(c, digest, prefix).Err?
  {
    if Decrypted(c, digest, prefix).Ok? {
      PrefixFree(c, digest, prefix, archive);
    }
  }

  // ---------- the accepted language ----------

  function Joined(chunks: seq<Bytes>): Bytes {
    if chunks == [] then [] else chunks[0] + Joined(chunks[1..])
  }

  function Body(tokens: seq<Bytes>): Bytes {
    if tokens == [] then [] else Frame(tokens[0]) + Body(tokens[1..])
  }

  /** Tokens within bounds, one more than the chunks. */
  ghost predicate Framed(tokens: seq<Bytes>, chunks: seq<Bytes>) {
    |tokens| == |chunks| + 1 && forall i :: 0 <= i < |tokens| ==> 0 < |tokens[i]| <= 2 * CHUNK_SIZE
  }

  /** Token `i` opens to the nonempty chunk `count + i` of this file. */
  ghost predicate DataOpens(c: Cipher, fileId: Bytes, tokens: seq<Bytes>, chunks: seq<Bytes>, count: nat)
    requires |tokens| == |chunks| + 1
  {
    forall i :: 0 <= i < |chunks| ==>
      chunks[i] != [] && c.unseal(tokens[i]) == Some(DataRecord(fileId, count + i, chunks[i]))
  }

  /** The tokens open to the chunks in order, and the last one to the matching end record. */
  ghost predicate Opens(
    c: Cipher, digest: Bytes -> Bytes, fileId: Bytes, tokens: seq<Bytes>, chunks: seq<Bytes>, count: nat, done: Bytes) {
    && Framed(tokens, chunks) && DataOpens(c, fileId, tokens, chunks, count)
    && c.unseal(tokens[|chunks|]) == Some(EndRecord(fileId, count + |chunks|, done + Joined(chunks), digest))
    && |done + Joined(chunks)| < WORD
  }

  /** The tokens' frames are read as the chunks behind `done`. */
  ghost predicate ReadAs(
    c: Cipher, digest: Bytes -> Bytes, fileId: Bytes, tokens: seq<Bytes>, chunks: seq<Bytes>, count: nat, done: Bytes) {
    DecodeFrames(c, digest, Body(tokens), fileId, count, done) == Ok(done + Joined(chunks))
  }

  lemma EndReadAs(c: Cipher, digest: Bytes -> Bytes, fileId: Bytes, tokens: seq<Bytes>, count: nat, done: Bytes)
    requires Opens(c, digest, fileId, tokens, [], count, done)
    ensures ReadAs(c, digest, fileId, tokens, [], count, done)
  {
    assert done + Joined([]) == done;
    assert tokens[1..] == [] && Body(tokens) == Frame(tokens[0]) + [] == Frame(tokens[0]);
    DecodeEnd(c, digest, tokens[0], fileId, count, done);
  }

  lemma ChunkReadAs(
    c: Cipher, digest: Bytes -> Bytes, fileId: Bytes, tokens: seq<Bytes>, chunks: seq<Bytes>, count: nat, done: Bytes)
    requires |fileId| == 16 && count <= |done| && chunks != [] && Opens(c, digest, fileId, tokens, chunks, count, done)
    requires ReadAs(c, digest, fileId, tokens[1..], chunks[1..], count + 1, done + chunks[0])
    ensures ReadAs(c, digest, fileId, tokens, chunks, count, done)
  {
    assert c.unseal(tokens[0]) == Some(DataRecord(fileId, count + 0, chunks[0]));
    DecodeData(c, digest, tokens[0], Body(tokens[1..]), fileId, count, done, chunks[0]);
    Regroup(done, chunks[0], Joined(chunks[1..]), Joined(chunks));
  }

  lemma {:induction false} OpensDecodes(
    c: Cipher, digest: Bytes -> Bytes, fileId: Bytes, tokens: seq<Bytes>, chunks: seq<Bytes>, count: nat, done: Bytes)
    requires |fileId| == 16 && count <= |done| && Opens(c, digest, fileId, tokens, chunks, count, done)
    ensures ReadAs(c, digest, fileId, tokens, chunks, count, done)
    decreases |chunks|
  {
    if chunks == [] {
      EndReadAs(c, digest, fileId, tokens, count, done);
    } else {
      OpensTail(c, digest, fileId, tokens, chunks, count, done);
      OpensDecodes(c, digest, fileId, tokens[1..], chunks[1..], count + 1, done + chunks[0]);
      ChunkReadAs(c, digest, fileId, tokens, chunks, count, done);
    }
  }

  lemma OpensTail(
    c: Cipher, digest: Bytes -> Bytes, fileId: Bytes, tokens: seq<Bytes>, chunks: seq<Bytes>, count: nat, done: Bytes)
    requires chunks != [] && Opens(c, digest, fileId, tokens, chunks, count, done)
    ensures Opens(c, digest, fileId, tokens[1..], chunks[1..], count + 1, done + chunks[0])
  {
    assert done + chunks[0] + Joined(chunks[1..]) == done + Joined(chunks);
    forall i | 0 <= i < |chunks[1..]|
      ensures chunks[1..][i] != []
      ensures c.unseal(tokens[1..][i]) == Some(DataRecord(fileId, count + 1 + i, chunks[1..][i]))
    {
      assert c.unseal(tokens[i + 1]) == Some(DataRecord(fileId, count + (i + 1), chunks[i + 1]));
    }
  }

  lemma {:induction false} JoinedCons(chunk: Bytes, chunks: seq<Bytes>, done: Bytes)
    ensures done + Joined([chunk] + chunks) == done + chunk + Joined(chunks)
  {
  }

  lemma RecordsCons(
    c: Cipher, fileId: Bytes, token: Bytes, chunk: Bytes, tokens: seq<Bytes>, chunks: seq<Bytes>, count: nat, i: nat)
    requires |tokens| == |chunks| + 1 && i <= |chunks|
    requires chunk != [] && c.unseal(token) == Some(DataRecord(fileId, count, chunk))
    requires i > 0 ==>
               chunks[i - 1] != [] && c.unseal(tokens[i - 1]) == Some(DataRecord(fileId, count + 1 + (i - 1), chunks[i - 1]))
    ensures ([chunk] + chunks)[i] != []
    ensures c.unseal(([token] + tokens)[i]) == Some(DataRecord(fileId, count + i, ([chunk] + chunks)[i]))
  {
  }

  lemma DataOpensCons(
    c: Cipher, fileId: Bytes, token: Bytes, chunk: Bytes, tokens: seq<Bytes>, chunks: seq<Bytes>, count: nat)
    requires |tokens| == |chunks| + 1 && DataOpens(c, fileId, tokens, chunks, count + 1)
    requires chunk != [] && c.unseal(token) == Some(DataRecord(fileId, count, chunk))
    ensures DataOpens(c, fileId, [token] + tokens, [chunk] + chunks, count)
  {
    var ts, cs := [token] + tokens, [chunk] + chunks;
    forall i | 0 <= i < |cs| ensures cs[i] != [] && c.unseal(ts[i]) == Some(DataRecord(fileId, count + i, cs[i])) {
      RecordsCons(c, fileId, token, chunk, tokens, chunks, count, i);
    }
  }

  lemma OpensCons(
    c: Cipher, digest: Bytes -> Bytes, fileId: Bytes, token: Bytes, chunk: Bytes, tokens: seq<Bytes>, chunks: seq<Bytes>,
    count: nat, done: Bytes)
    requires Opens(c, digest, fileId, tokens, chunks, count + 1, done + chunk)
    requires 0 < |token| <= 2 * CHUNK_SIZE && chunk != [] && c.unseal(token) == Some(DataRecord(fileId, count, chunk))
    ensures Opens(c, digest, fileId, [token] + tokens, [chunk] + chunks, count, done)
  {
    JoinedCons(chunk, chunks, done);
    DataOpensCons(c, fileId, token, chunk, tokens, chunks, count);
    assert ([token] + tokens)[|chunks| + 1] == tokens[|chunks|] && count + (|chunks| + 1) == count + 1 + |chunks|;
  }

  lemma {:induction false} DecodesOpens(c: Cipher, digest: Bytes -> Bytes, rest: Bytes, fileId: Bytes, count: nat, done: Bytes)
    returns (tokens: seq<Bytes>, chunks: seq<Bytes>)
    requires |fileId| == 16 && DecodeFrames(c, digest, rest, fileId, count, done).Ok?
    ensures Opens(c, digest, fileId, tokens, chunks, count, done) && rest == Body(tokens)
    ensures DecodeFrames(c, digest, rest, fileId, count, done) == Ok(done + Joined(chunks))
    decreases |rest|
  {
    var length := Value(rest[..4]);
    var token, tail := rest[4..4 + length], rest[4 + length..];
    var payload := c.unseal(token).value;
    ReadsFrame(rest, length);
    if IsData(payload, fileId) {
      ReadsDataRecord(payload, fileId, count);
      var ts, cs := DecodesOpens(c, digest, tail, fileId, count + 1, done + payload[25..]);
      OpensCons(c, digest, fileId, token, payload[25..], ts, cs, count, done);
      JoinedCons(payload[25..], cs, done);
      tokens, chunks := [token] + ts, [payload[25..]] + cs;
      assert tokens[1..] == ts;
    } else {
      tokens, chunks := [token], [];
      assert tokens[1..] == [];
      assert done + Joined(chunks) == done;
    }
  }

  /** The archive is the header, then frames whose tokens open to the chunks in order and the end record. */
  ghost predicate IsArchive(
    c: Cipher, digest: Bytes -> Bytes, source: Bytes, fileId: Bytes, tokens: seq<Bytes>, chunks: seq<Bytes>) {
    |fileId| == 16 && source == MAGIC + fileId + Body(tokens) && Opens(c, digest, fileId, tokens, chunks, 0, [])
  }

  /** Accepted bytes are exactly the chunks 0 to n - 1 of one file id, then the matching end record, and
      nothing else; the plaintext is those chunks joined. */
  lemma AcceptedIffArchive(c: Cipher, digest: Bytes -> Bytes, source: Bytes, data: Bytes)
    ensures Decrypted(c, digest, source) == Ok(data)
       <==> exists fileId, tokens, chunks :: IsArchive(c, digest, source, fileId, tokens, chunks) && data == Joined(chunks)
  {
    if Decrypted(c, digest, source) == Ok(data) {
      var fileId, tokens, chunks := AcceptedIsArchive(c, digest, source, data);
    }
    forall fileId, tokens, chunks | IsArchive(c, digest, source, fileId, tokens, chunks) && data == Joined(chunks)
      ensures Decrypted(c, digest, source) == Ok(data)
    {
      ArchiveIsAccepted(c, digest, source, fileId, tokens, chunks);
    }
  }

  lemma AcceptedIsArchive(c: Cipher, digest: Bytes -> Bytes, source: Bytes, data: Bytes)
    returns (fileId: Bytes, tokens: seq<Bytes>, chunks: seq<Bytes>)
    requires Decrypted(c, digest, source) == Ok(data)
    ensures IsArchive(c, digest, source, fileId, tokens, chunks) && data == Joined(chunks)
  {
    fileId := source[8..24];
    tokens, chunks := DecodesOpens(c, digest, source[24..], fileId, 0, []);
    assert source == source[..8] + source[8..24] + source[24..];
    assert [] + Joined(chunks) == Joined(chunks);
  }

  lemma {:induction false} ArchiveIsAccepted(
    c: Cipher, digest: Bytes -> Bytes, source: Bytes, fileId: Bytes, tokens: seq<Bytes>, chunks: seq<Bytes>)
    requires IsArchive(c, digest, source, fileId, tokens, chunks)
    ensures Decrypted(c, digest, source) == Ok(Joined(chunks))
  {
    HeaderReads(fileId, Body(tokens));
    assert [] + Joined(chunks) == Joined(chunks);
    OpensDecodes(c, digest, fileId, tokens, chunks, 0, []);
  }

  // ---------- the bytes of the records ----------

  /** Of a stored integer the first byte is the heaviest. */
  lemma {:induction false} FirstIsHeaviest(b: Byte, rest: Bytes)
    ensures Value([b] + rest) == b * Power(|rest|) + Value(rest)
  {
    var all := [b] + rest;
    if rest == [] {
      assert all[..0] == [];
    } else {
      var init := rest[..|rest| - 1];
      FirstIsHeaviest(b, init);
      assert all[..|all| - 1] == [b] + init;
      assert b * (256 * Power(|init|)) == 256 * (b * Power(|init|));
    }
  }

  /** The bytes of a record: a data record carries its tag, its file, its number and the chunk; the end record its
      tag, the file, the number of chunks, the size and the digest. */
  ghost predicate DataBytes(payload: Bytes, fileId: Bytes, index: nat, chunk: Bytes) {
    && |payload| >= 25 && payload[0] == DATA_TAG && payload[1..17] == fileId
    && Value(payload[17..25]) == index && payload[25..] == chunk
  }

  ghost predicate EndBytes(payload: Bytes, fileId: Bytes, count: nat, size: nat, digest: Bytes) {
    && |payload| >= 33 && payload[0] == END_TAG && payload[1..17] == fileId
    && Value(payload[17..25]) == count && Value(payload[25..33]) == size && payload[33..] == digest
  }

  lemma DataRecordBytes(fileId: Bytes, index: nat, chunk: Bytes)
    requires |fileId| == 16 && index < WORD
    ensures DataBytes(DataRecord(fileId, index, chunk), fileId, index, chunk)
  {
    var payload := DataRecord(fileId, index, chunk);
    Powers();
    ValueOfBigEndian(8, index);
    assert payload[1..17] == fileId && payload[17..25] == BigEndian(8, index) && payload[25..] == chunk;
  }

  lemma EndRecordBytes(fileId: Bytes, count: nat, data: Bytes, digest: Bytes -> Bytes)
    requires |fileId| == 16 && count < WORD && |data| < WORD
    ensures EndBytes(EndRecord(fileId, count, data, digest), fileId, count, |data|, digest(data))
  {
    var payload := EndRecord(fileId, count, data, digest);
    Powers();
    ValueOfBigEndian(8, count);
    ValueOfBigEndian(8, |data|);
    assert payload[1..17] == fileId && payload[17..25] == BigEndian(8, count);
    assert payload[25..33] == BigEndian(8, |data|) && payload[33..] == digest(data);
  }

  lemma {:induction false} ChunksBound(chunks: seq<Bytes>)
    requires forall i :: 0 <= i < |chunks| ==> chunks[i] != []
    ensures |chunks| <= |Joined(chunks)|
  {
    if chunks == [] {
    } else {
      ChunksBound(chunks[1..]);
    }
  }

  /** Byte by byte: the plaintext of an accepted archive is its chunks joined, record k carries number k and
      chunk k, and the last record counts the chunks, gives the size and ends with the digest of the plaintext. */
  lemma AcceptedBytes(c: Cipher, digest: Bytes -> Bytes, source: Bytes, data: Bytes)
    returns (fileId: Bytes, tokens: seq<Bytes>, chunks: seq<Bytes>)
    requires Decrypted(c, digest, source) == Ok(data)
    ensures source == MAGIC + fileId + Body(tokens) && |tokens| == |chunks| + 1 && data == Joined(chunks)
    ensures forall k :: 0 <= k < |chunks| ==>
              c.unseal(tokens[k]).Some? && DataBytes(c.unseal(tokens[k]).value, fileId, k, chunks[k])
    ensures c.unseal(tokens[|chunks|]).Some?
    ensures EndBytes(c.unseal(tokens[|chunks|]).value, fileId, |chunks|, |data|, digest(data))
  {
    fileId, tokens, chunks := AcceptedIsArchive(c, digest, source, data);
    assert [] + Joined(chunks) == data;
    ChunksBound(chunks);
    forall k | 0 <= k < |chunks|
      ensures c.unseal(tokens[k]).Some? && DataBytes(c.unseal(tokens[k]).value, fileId, k, chunks[k])
    {
      DataRecordBytes(fileId, k, chunks[k]);
      assert c.unseal(tokens[k]) == Some(DataRecord(fileId, 0 + k, chunks[k]));
    }
    EndRecordBytes(fileId, |chunks|, data, digest);
  }
}
