/** The framed backup format, over an abstract cipher and digest (scripts/backup_database.py). */
module Archive {
  import opened Prelude

  type Byte = b: int | 0 <= b < 256

  type Bytes = seq<Byte>

  /** `CSMSBK02`. */
  const MAGIC: Bytes := [67, 83, 77, 83, 66, 75, 48, 50]
  const CHUNK_SIZE: nat := 1024 * 1024
  const WORD: nat := 0x1_0000_0000_0000_0000
  const DATA_TAG: Byte := 68
  const END_TAG: Byte := 69

  /** Sealing is randomized: the first argument stands for the randomness of one call. */
  datatype Cipher = Cipher(seal: (nat, Bytes) -> Bytes, unseal: Bytes -> Option<Bytes>)

  /** The key opens what it sealed, and tokens of archive records respect the frame bound. */
  ghost predicate Sound(c: Cipher) {
    forall n: nat, p: Bytes ::
      && c.unseal(c.seal(n, p)) == Some(p)
      && (|p| <= CHUNK_SIZE + 25 ==> 0 < |c.seal(n, p)| <= 2 * CHUNK_SIZE)
  }

  ghost predicate DigestLength(digest: Bytes -> Bytes) {
    forall p: Bytes :: |digest(p)| == 32
  }

  // ---------- integers ----------

  function Power(width: nat): nat { if width == 0 then 1 else 256 * Power(width - 1) }

  function BigEndian(width: nat, n: nat): (bytes: Bytes)
    ensures |bytes| == width
  {
    if width == 0 then [] else BigEndian(width - 1, n / 256) + [n % 256]
  }

  function Value(bytes: Bytes): nat {
    if bytes == [] then 0 else 256 * Value(bytes[..|bytes| - 1]) + bytes[|bytes| - 1]
  }

  lemma {:induction false} ValueOfBigEndian(width: nat, n: nat)
    requires n < Power(width)
    ensures Value(BigEndian(width, n)) == n
  {
    if width == 0 {
    } else {
      ValueOfBigEndian(width - 1, n / 256);
      var bytes := BigEndian(width, n);
      assert bytes[..|bytes| - 1] == BigEndian(width - 1, n / 256);
    }
  }

  lemma {:induction false} BigEndianOfValue(bytes: Bytes)
    ensures BigEndian(|bytes|, Value(bytes)) == bytes
  {
    if bytes == [] {
    } else {
      var init, last := bytes[..|bytes| - 1], bytes[|bytes| - 1];
      BigEndianOfValue(init);
      assert Value(bytes) / 256 == Value(init) && Value(bytes) % 256 == last;
      assert bytes == init + [last];
    }
  }

  lemma Powers()
    ensures Power(4) == 0x1_0000_0000 && Power(8) == WORD
  {
  }

  // ---------- records and frames ----------

  function Frame(token: Bytes): Bytes { BigEndian(4, |token|) + token }

  function DataRecord(fileId: Bytes, index: nat, chunk: Bytes): Bytes {
    [DATA_TAG] + fileId + BigEndian(8, index) + chunk
  }

  function EndRecord(fileId: Bytes, count: nat, data: Bytes, digest: Bytes -> Bytes): Bytes {
    [END_TAG] + fileId + (BigEndian(8, count) + BigEndian(8, |data|)) + digest(data)
  }

  // ---------- writing ----------

  function FirstChunk(data: Bytes): Bytes { if |data| <= CHUNK_SIZE then data else data[..CHUNK_SIZE] }

  /** The frames for what is left to write, after `count` chunks holding `done`. */
  function EncodeFrames(c: Cipher, digest: Bytes -> Bytes, data: Bytes, fileId: Bytes, count: nat, done: Bytes): Bytes
    decreases |data|
  {
    if data == [] then Frame(c.seal(count, EndRecord(fileId, count, done, digest)))
    else
      var chunk := FirstChunk(data);
      Frame(c.seal(count, DataRecord(fileId, count, chunk)))
      + EncodeFrames(c, digest, data[|chunk|..], fileId, count + 1, done + chunk)
  }

  /** `encrypt_backup`; a size that does not fit its 64-bit field is an error. */
  function Encrypted(c: Cipher, digest: Bytes -> Bytes, data: Bytes, fileId: Bytes): Option<Bytes> {
    if |data| >= WORD then None else Some(MAGIC + fileId + EncodeFrames(c, digest, data, fileId, 0, []))
  }

  // ---------- reading ----------

  datatype Failure =
    | UnsupportedFormat | TruncatedHeader | MissingEnd | BadLength | TruncatedChunk | BadToken | BadManifest | BadOrder

  predicate IsData(payload: Bytes, fileId: Bytes) { |payload| >= 17 && payload[..17] == [DATA_TAG] + fileId }

  /** The read loop, from a given position with `count` chunks holding `done` behind it. */
  function DecodeFrames(c: Cipher, digest: Bytes -> Bytes, rest: Bytes, fileId: Bytes, count: nat, done: Bytes)
    : Result<Bytes, Failure>
    decreases |rest|
  {
    if |rest| < 4 then Err(MissingEnd)
    else
      var length := Value(rest[..4]);
      if !(0 < length <= 2 * CHUNK_SIZE) then Err(BadLength)
      else if |rest| < 4 + length then Err(TruncatedChunk)
      else
        var tail := rest[4 + length..];
        match c.unseal(rest[4..4 + length])
        case None => Err(BadToken)
        case Some(payload) =>
          if !IsData(payload, fileId) then
            if |done| >= WORD || payload != EndRecord(fileId, count, done, digest) || tail != [] then Err(BadManifest)
            else Ok(done)
          else if |payload| <= 25 || count >= WORD || payload[17..25] != BigEndian(8, count) then Err(BadOrder)
          else DecodeFrames(c, digest, tail, fileId, count + 1, done + payload[25..])
  }

  /** `decrypt_backup`. */
  function Decrypted(c: Cipher, digest: Bytes -> Bytes, source: Bytes): Result<Bytes, Failure> {
    if |source| < 8 || source[..8] != MAGIC then Err(UnsupportedFormat)
    else if |source| < 24 then Err(TruncatedHeader)
    else DecodeFrames(c, digest, source[24..], source[8..24], 0, [])
  }

  // ---------- the streaming loops ----------

  /** One chunk written: what is out and what is left still make the same archive. */
  method WriteChunk(c: Cipher, ghost digest: Bytes -> Bytes, inp: Bytes, fileId: Bytes, count: nat, ghost done: Bytes,
                    out0: Bytes)
    returns (chunk: Bytes, out: Bytes)
    requires inp != []
    ensures chunk == FirstChunk(inp) && 0 < |chunk| <= |inp|
    ensures out + EncodeFrames(c, digest, inp[|chunk|..], fileId, count + 1, done + chunk)
         == out0 + EncodeFrames(c, digest, inp, fileId, count, done)
  {
    chunk := FirstChunk(inp);
    out := out0 + Frame(c.seal(count, DataRecord(fileId, count, chunk)));
  }

  method EncryptBackup(c: Cipher, digest: Bytes -> Bytes, data: Bytes, fileId: Bytes) returns (r: Option<Bytes>)
    ensures r == Encrypted(c, digest, data, fileId)
  {
    var out := MAGIC + fileId;
    var inp, hashed, count := data, [], 0;
    ghost var whole := out + EncodeFrames(c, digest, data, fileId, 0, []);
    while inp != []
      invariant out + EncodeFrames(c, digest, inp, fileId, count, hashed) == whole
      invariant |hashed| + |inp| == |data|
      decreases |inp|
    {
      var chunk, written := WriteChunk(c, digest, inp, fileId, count, hashed, out);
      inp, hashed, count, out := inp[|chunk|..], hashed + chunk, count + 1, written;
    }
    if |hashed| >= WORD {
      return None;
    }
    out := out + Frame(c.seal(count, EndRecord(fileId, count, hashed, digest)));
    assert out == whole;
    return Some(out);
  }

  method DecryptBackup(c: Cipher, digest: Bytes -> Bytes, source: Bytes) returns (r: Result<Bytes, Failure>)
    ensures r == Decrypted(c, digest, source)
  {
    if |source| < 8 || source[..8] != MAGIC {
      return Err(UnsupportedFormat);
    }
    if |source| < 24 {
      return Err(TruncatedHeader);
    }
    var fileId, rest, out, count := source[8..24], source[24..], [], 0;
    while true
      invariant DecodeFrames(c, digest, rest, fileId, count, out) == Decrypted(c, digest, source)
      decreases |rest|
    {
      if |rest| < 4 {
        return Err(MissingEnd);
      }
      var length := Value(rest[..4]);
      if !(0 < length <= 2 * CHUNK_SIZE) {
        return Err(BadLength);
      }
      if |rest| < 4 + length {
        return Err(TruncatedChunk);
      }
      var token, tail := rest[4..4 + length], rest[4 + length..];
      var payload := c.unseal(token);
      if payload.None? {
        return Err(BadToken);
      }
      if !IsData(payload.value, fileId) {
        if |out| >= WORD || payload.value != EndRecord(fileId, count, out, digest) || tail != [] {
          return Err(BadManifest);
        }
        return Ok(out);
      }
      if |payload.value| <= 25 || count >= WORD || payload.value[17..25] != BigEndian(8, count) {
        return Err(BadOrder);
      }
      rest, out, count := tail, out + payload.value[25..], count + 1;
    }
  }
}
