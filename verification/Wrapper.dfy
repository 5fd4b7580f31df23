/** The encrypted container around a coin file. */
module Wrapper {
  import opened Bytes
  import opened Results
  import opened Coins
  import CoinFile

  const MAGIC: Bytes := [0x4F, 0x42, 0x45, 0x31]
  const VERSION := 1
  const FIXED := 23
  const NONCE_SIZE := 12
  const TAG_SIZE := 16

  /** AES-256-GCM over a fixed additional text, as functions of key, nonce and data; decryption may reject. */
  datatype Cipher = Cipher(
    seal: (Bytes, Bytes, Bytes) -> (Bytes, Bytes),
    open: (Bytes, Bytes, Bytes, Bytes) -> Option<Bytes>)

  /** Decryption undoes encryption under the same 32-byte key and nonce. */
  ghost predicate Honest(cipher: Cipher) {
    forall key: Bytes32, nonce, plain :: |cipher.seal(key, nonce, plain).1| == TAG_SIZE
      && cipher.open(key, nonce, cipher.seal(key, nonce, plain).0, cipher.seal(key, nonce, plain).1) == Some(plain)
  }

  datatype EncryptedFile = EncryptedFile(keyHint: int, nonce: Bytes, ciphertext: Bytes, tag: Bytes)

  ghost predicate WellSized(e: EncryptedFile) {
    0 <= e.keyHint < 0x100 && |e.nonce| == NONCE_SIZE && |e.tag| == TAG_SIZE && |e.ciphertext| < 0x1_0000_0000
  }

  function FileBytes(e: EncryptedFile): Bytes
    requires 0 <= e.keyHint < 0x100
  {
    MAGIC + LE(2, VERSION) + [e.keyHint] + e.nonce + LE(4, |e.ciphertext|) + e.ciphertext + e.tag
  }

  /** encryptCoinFile; the nonce is drawn at random by the caller's platform. */
  function EncryptCoinFile(cipher: Cipher, plain: Bytes, key: Bytes, keyHint: int,
                           nonce: Bytes): Result<EncryptedFile> {
    var _ :- Need(|key| == 32, WrongSize);
    var (ciphertext, tag) := cipher.seal(key, nonce, plain);
    var _ :- Need(0 <= keyHint < 0x100 && |ciphertext| < 0x1_0000_0000, OutOfRange);
    Ok(EncryptedFile(keyHint, nonce, ciphertext, tag))
  }

  /** Everything the serialiser writes, in order. */
  function FileWrites(e: EncryptedFile): seq<Write>
    requires 0 <= e.keyHint < 0x100
  {
    var size := |e.ciphertext|;
    [Write(0, MAGIC + LE(2, VERSION) + [e.keyHint]), Write(7, e.nonce), Write(19, LE(4, size)),
     Write(FIXED, e.ciphertext), Write(FIXED + size, e.tag)]
  }

  /** serializeEncrypted: throws when a number does not fit its field, never on the other sizes. A nonce that is too
      long is partly overwritten, a tag that is too long is cut off, and what is too short leaves zeros. */
  method SerializeEncrypted(e: EncryptedFile) returns (r: Result<array<byte>>)
    ensures r.Ok? <==> 0 <= e.keyHint < 0x100 && |e.ciphertext| < 0x1_0000_0000
    ensures r.Ok? ==> r.value.Length == FIXED + |e.ciphertext| + TAG_SIZE && Written(r.value[..], FileWrites(e))
    ensures r.Ok? && WellSized(e) ==> r.value[..] == FileBytes(e)
  {
    hide Written;
    var size := |e.ciphertext|;
    var out := new byte[FIXED + size + TAG_SIZE](_ => 0);
    if !(0 <= e.keyHint < 0x100) || size >= 0x1_0000_0000 { return Err(OutOfRange); }
    WriteStart(out, e);
    ghost var writes := [Write(0, MAGIC + LE(2, VERSION) + [e.keyHint])];
    Copy(out, 7, e.nonce, writes);
    writes := writes + [Write(7, e.nonce)];
    Copy(out, 19, LE(4, size), writes);
    writes := writes + [Write(19, LE(4, size))];
    Copy(out, FIXED, e.ciphertext, writes);
    writes := writes + [Write(FIXED, e.ciphertext)];
    Copy(out, FIXED + size, e.tag, writes);
    assert writes + [Write(FIXED + size, e.tag)] == FileWrites(e);
    if WellSized(e) { WrittenFile(out[..], e); }
    return Ok(out);
  }

  /** Magic, version and key hint into the zeroed buffer. */
  method WriteStart(out: array<byte>, e: EncryptedFile)
    requires 0 <= e.keyHint < 0x100 && FIXED <= out.Length && forall p :: 0 <= p < out.Length ==> out[p] == 0
    modifies out
    ensures Written(out[..], [Write(0, MAGIC + LE(2, VERSION) + [e.keyHint])])
  {
    ghost var rest := out[7..];
    CopyInto(out, 0, MAGIC);
    assert out[4..][3..] == out[7..] == rest;
    CopyInto(out, 4, LE(2, VERSION));
    assert out[6..][1..] == out[7..] == rest;
    CopyInto(out, 6, [e.keyHint]);
    assert out[..] == MAGIC + LE(2, VERSION) + [e.keyHint] + rest;
    WriteFirst(MAGIC + LE(2, VERSION) + [e.keyHint], rest);
  }

  /** With parts of their proper sizes nothing is overwritten. */
  lemma WrittenFile(b: Bytes, e: EncryptedFile)
    requires WellSized(e) && |b| == FIXED + |e.ciphertext| + TAG_SIZE && Written(b, FileWrites(e))
    ensures b == FileBytes(e)
  {
    hide Written, LE;
    var start, size := Write(0, MAGIC + LE(2, VERSION) + [e.keyHint]), Write(19, LE(4, |e.ciphertext|));
    hide Abut, InOrder;
    AbutFirst(start.bytes);
    var nonced := [start] + [Write(7, e.nonce)];
    var sized := nonced + [size];
    var filled := sized + [Write(FIXED, e.ciphertext)];
    AbutNext([start], Write(7, e.nonce));
    AbutNext(nonced, size);
    AbutNext(sized, Write(FIXED, e.ciphertext));
    AbutNext(filled, Write(FIXED + |e.ciphertext|, e.tag));
    assert filled + [Write(FIXED + |e.ciphertext|, e.tag)] == FileWrites(e);
    WrittenInOrder(b, FileWrites(e));
  }

  function ParseEncrypted(b: Bytes): Result<EncryptedFile> {
    var _ :- Need(|b| >= 4 && b[..4] == MAGIC, WrongMagic);
    var _ :- Need(|b| >= 6, OutOfRange);
    var _ :- Need(FromLE(b[4..6]) == VERSION, UnknownVersion);
    var _ :- Need(|b| >= FIXED, OutOfRange);
    var size := FromLE(b[19..23]);
    var _ :- Need(|b| == FIXED + size + TAG_SIZE, WrongSize);
    Ok(EncryptedFile(b[6], b[7..19], b[FIXED..FIXED + size], b[FIXED + size..]))
  }

  function DecryptCoinFile(cipher: Cipher, b: Bytes, key: Bytes, keyHint: int): Result<Bytes> {
    var e :- ParseEncrypted(b);
    var _ :- Need(e.keyHint == keyHint, WrongKeyHint);
    var plain := cipher.open(key, e.nonce, e.ciphertext, e.tag);
    var _ :- Need(plain.Some?, NotAuthentic);
    Ok(plain.value)
  }

  /** The container byte by byte: "OBE1", version 1, key hint, nonce, length, ciphertext, tag. */
  lemma ContainerOffsets(e: EncryptedFile)
    requires WellSized(e)
    ensures var b, n := FileBytes(e), |e.ciphertext|;
            && |b| == 23 + n + 16 && b[0..4] == [0x4F, 0x42, 0x45, 0x31] && b[4..6] == [1, 0] && b[6] == e.keyHint
            && b[7..19] == e.nonce && b[19..23] == LE(4, n) && b[23..23 + n] == e.ciphertext && b[23 + n..] == e.tag
  {
    assert LE(2, 1) == [1, 0];
    hide LE;
    var versioned, hinted := MAGIC + LE(2, VERSION), MAGIC + LE(2, VERSION) + [e.keyHint];
    var nonced, sized := hinted + e.nonce, hinted + e.nonce + LE(4, |e.ciphertext|);
    Appended(MAGIC, LE(2, VERSION));
    Appended(versioned, [e.keyHint]);
    Appended(hinted, e.nonce);
    Appended(nonced, LE(4, |e.ciphertext|));
    Appended(sized, e.ciphertext);
    Appended(sized + e.ciphertext, e.tag);
    assert FileBytes(e)[6..7] == [e.keyHint];
  }

  /** Parsing what was serialised gives the parts back. */
  lemma ParseOfSerialize(e: EncryptedFile)
    requires WellSized(e)
    ensures ParseEncrypted(FileBytes(e)) == Ok(e)
  {
    Widths();
    FromLEOfLE(2, VERSION);
    FromLEOfLE(4, |e.ciphertext|);
    hide LE, FromLE;
    var versioned, hinted := MAGIC + LE(2, VERSION), MAGIC + LE(2, VERSION) + [e.keyHint];
    var nonced, sized := hinted + e.nonce, hinted + e.nonce + LE(4, |e.ciphertext|);
    Appended(MAGIC, LE(2, VERSION));
    Appended(versioned, [e.keyHint]);
    Appended(hinted, e.nonce);
    Appended(nonced, LE(4, |e.ciphertext|));
    Appended(sized, e.ciphertext);
    Appended(sized + e.ciphertext, e.tag);
    var b := FileBytes(e);
    assert b[6..7] == [e.keyHint] && b[0..4] == MAGIC;
  }

  /** Serialising what was parsed gives every accepted container back. */
  lemma SerializeOfParse(b: Bytes)
    requires ParseEncrypted(b).Ok?
    ensures WellSized(ParseEncrypted(b).value) && FileBytes(ParseEncrypted(b).value) == b
  {
    LEOfFromLE(b[4..6]);
    LEOfFromLE(b[19..23]);
    Widths();
    hide LE, FromLE;
    var n := |b| - TAG_SIZE;
    assert b[..4] + b[4..6] + [b[6]] + b[7..19] + b[19..23] == b[..FIXED];
    Rejoined(b, FIXED, n, |b|);
  }

  /** Encode, encrypt, serialise; then parse, decrypt, decode: the coin comes back. */
  lemma ContainerRoundTrip(cipher: Cipher, hash: Bytes -> Bytes32, c: CoinCore, key: Bytes, keyHint: int, nonce: Bytes)
    requires Honest(cipher) && CoinFile.Encodable(c) && CoinFile.WellSized(c) && |nonce| == NONCE_SIZE
    requires EncryptCoinFile(cipher, CoinFile.CoreBytes(hash, c), key, keyHint, nonce).Ok?
    ensures var e := EncryptCoinFile(cipher, CoinFile.CoreBytes(hash, c), key, keyHint, nonce).value;
            && WellSized(e)
            && DecryptCoinFile(cipher, FileBytes(e), key, keyHint) == Ok(CoinFile.CoreBytes(hash, c))
            && CoinFile.Decoded(hash, CoinFile.CoreBytes(hash, c)) == Ok(c)
  {
    hide ParseEncrypted, FileBytes, CoinFile.CoreBytes, CoinFile.Decoded;
    ParseOfSerialize(EncryptCoinFile(cipher, CoinFile.CoreBytes(hash, c), key, keyHint, nonce).value);
    CoinFile.DecodeOfEncode(hash, c);
  }

  /** What opening throws, in its order: magic, version, size, key hint, tag. */
  lemma OpenFault(cipher: Cipher, b: Bytes, key: Bytes, keyHint: int)
    requires DecryptCoinFile(cipher, b, key, keyHint).Err?
    ensures DecryptCoinFile(cipher, b, key, keyHint).error ==
            if |b| < 4 || b[0..4] != [0x4F, 0x42, 0x45, 0x31] then WrongMagic
            else if |b| < 6 then OutOfRange
            else if FromLE(b[4..6]) != 1 then UnknownVersion
            else if |b| < 23 then OutOfRange
            else if |b| != 23 + FromLE(b[19..23]) + 16 then WrongSize
            else if b[6] != keyHint then WrongKeyHint
            else NotAuthentic
  {
    hide FromLE;
  }

  /** A container opens under a key hint exactly when it parses, carries that hint, and its tag is authentic. */
  lemma OpensIff(cipher: Cipher, b: Bytes, key: Bytes, keyHint: int)
    ensures DecryptCoinFile(cipher, b, key, keyHint).Ok? <==>
            exists e :: WellSized(e) && b == FileBytes(e) && e.keyHint == keyHint
                        && cipher.open(key, e.nonce, e.ciphertext, e.tag).Some?
  {
    if ParseEncrypted(b).Ok? { SerializeOfParse(b); }
    forall e | WellSized(e) && b == FileBytes(e) ensures ParseEncrypted(b) == Ok(e) { ParseOfSerialize(e); }
    hide FileBytes, ParseEncrypted;
  }
}
