/** The coin file: one coin as a checksummed byte string, and back. */
module CoinFile {
  import opened Bytes
  import opened Results
  import opened StateOps
  import opened Coins

  const HDR := 49
  const SIG_SIZE := 64
  const MAGIC: Bytes := [0x4F, 0x42, 0x43, 0x31]
  const VERSION := 1

  /** Size of a file with `n` states; for no states at all the formula still gives 17. */
  function CoinCoreSize(n: nat): (size: nat)
    ensures size >= HDR <==> n >= 1
  {
    HDR + n * STATE_SIZE + (n - 1) * SIG_SIZE + 32
  }

  /** What encodeCoinCore insists on; the sizes of states and signatures are not among it. */
  predicate Encodable(c: CoinCore) {
    && 1 <= |c.states| <= U16_MAX && |c.sigs| == |c.states| - 1 && |c.serial| == 32
    && 0 <= c.scheme < 0x100 && 0 <= c.value <= U64_MAX
  }

  ghost predicate WellSized(c: CoinCore) {
    && (forall i :: 0 <= i < |c.states| ==> |c.states[i]| == STATE_SIZE)
    && (forall i :: 0 <= i < |c.sigs| ==> |c.sigs[i]| == SIG_SIZE)
  }

  function Concat(parts: seq<Bytes>): Bytes {
    if parts == [] then [] else Concat(parts[..|parts| - 1]) + parts[|parts| - 1]
  }

  function Header(c: CoinCore): (h: Bytes)
    requires Encodable(c)
    ensures |h| == HDR
  {
    MAGIC + LE(2, VERSION) + [c.scheme] + LE(2, |c.states|) + c.serial + LE(8, c.value)
  }

  function Payload(c: CoinCore): Bytes
    requires Encodable(c)
  {
    Header(c) + Concat(c.states) + Concat(c.sigs)
  }

  function CoreBytes(hash: Bytes -> Bytes32, c: CoinCore): Bytes
    requires Encodable(c)
  {
    Payload(c) + hash(Payload(c))
  }

  /** Length of `n` parts of size `k`. */
  function Span(k: nat, n: nat): nat { k * n }

  lemma SpanNext(k: nat, n: nat)
    ensures Span(k, 0) == 0 && Span(k, n + 1) == Span(k, n) + k
  {}

  lemma SpanWithin(k: nat, i: nat, n: nat)
    requires i < n
    ensures Span(k, i) + k == Span(k, i + 1) <= Span(k, n)
  {
    assert k * (i + 1) <= k * n;
  }

  lemma {:induction false} ConcatSize(parts: seq<Bytes>, k: nat)
    requires forall i :: 0 <= i < |parts| ==> |parts[i]| == k
    ensures |Concat(parts)| == Span(k, |parts|)
  {
    hide Span;
    SpanNext(k, if parts == [] then 0 else |parts| - 1);
    if parts != [] {
      ConcatSize(parts[..|parts| - 1], k);
    }
  }

  // ---- encoding

  /** One write per part, equally spaced whatever the parts' sizes. */
  function PartWrites(start: nat, parts: seq<Bytes>, k: nat): seq<Write> {
    if parts == [] then [] else
    var n := |parts| - 1;
    PartWrites(start, parts[..n], k) + [Write(start + Span(k, n), parts[n])]
  }

  /** Everything the encoder writes before the checksum. */
  function CoreWrites(c: CoinCore): seq<Write>
    requires Encodable(c)
  {
    [Write(0, Header(c))] + PartWrites(HDR, c.states, STATE_SIZE)
    + PartWrites(HDR + Span(STATE_SIZE, |c.states|), c.sigs, SIG_SIZE)
  }

  /** Writes equally spaced parts one after another. */
  method CopyAll(buf: array<byte>, start: nat, parts: seq<Bytes>, k: nat, ghost writes: seq<Write>) returns (o: nat)
    requires start + Span(k, |parts|) <= buf.Length && Written(buf[..], writes)
    modifies buf
    ensures o == start + Span(k, |parts|) && Written(buf[..], writes + PartWrites(start, parts, k))
  {
    hide Span, Written;
    SpanNext(k, 0);
    o := start;
    assert writes + PartWrites(start, [], k) == writes;
    for i := 0 to |parts|
      invariant o == start + Span(k, i) && start <= o <= buf.Length
      invariant Written(buf[..], writes + PartWrites(start, parts[..i], k))
    {
      SpanWithin(k, i, |parts|);
      assert parts[..i + 1][..i] == parts[..i];
      Copy(buf, o, parts[i], writes + PartWrites(start, parts[..i], k));
      assert writes + PartWrites(start, parts[..i + 1], k) ==
        writes + PartWrites(start, parts[..i], k) + [Write(o, parts[i])];
      o := o + k;
    }
    assert parts[..|parts|] == parts;
  }

  /** Parts of size `k` abut. */
  lemma {:induction false} PartsAbut(writes: seq<Write>, start: nat, parts: seq<Bytes>, k: nat)
    requires Abut(writes, start) && forall i :: 0 <= i < |parts| ==> |parts[i]| == k
    ensures Abut(writes + PartWrites(start, parts, k), start + Span(k, |parts|))
    ensures InOrder(writes + PartWrites(start, parts, k)) == InOrder(writes) + Concat(parts)
    decreases |parts|
  {
    hide Span, Abut, InOrder;
    if parts == [] {
      SpanNext(k, 0);
      assert writes + PartWrites(start, parts, k) == writes;
    } else {
      var n := |parts| - 1;
      SpanNext(k, n);
      PartsAbut(writes, start, parts[..n], k);
      var before, last := writes + PartWrites(start, parts[..n], k), Write(start + Span(k, n), parts[n]);
      assert writes + PartWrites(start, parts, k) == before + [last];
      AbutNext(before, last);
    }
  }

  /** Well-sized states and signatures are written one after another. */
  lemma WrittenPayload(b: Bytes, c: CoinCore)
    requires Encodable(c) && WellSized(c) && |b| == CoinCoreSize(|c.states|) - 32 && Written(b, CoreWrites(c))
    ensures b == Payload(c)
  {
    hide Span, Header, PartWrites, Concat;
    var n, first := |c.states|, [Write(0, Header(c))];
    hide Abut, InOrder;
    AbutFirst(Header(c));
    PartsAbut(first, HDR, c.states, STATE_SIZE);
    PartsAbut(first + PartWrites(HDR, c.states, STATE_SIZE), HDR + Span(STATE_SIZE, n), c.sigs, SIG_SIZE);
    SpansFill(n);
    WrittenInOrder(b, CoreWrites(c));
  }

  lemma SpansFill(n: nat)
    requires n >= 1
    ensures HDR + Span(STATE_SIZE, n) + Span(SIG_SIZE, n - 1) == CoinCoreSize(n) - 32
  {}

  /** encodeCoinCore: throws on what it insists on. Well-sized states and signatures give the file layout; of others,
      later ones overwrite what earlier ones have left in their place. The checksum always fits what is before it. */
  method EncodeCoinCore(hash: Bytes -> Bytes32, c: CoinCore) returns (r: Result<array<byte>>)
    ensures r.Ok? <==> Encodable(c)
    ensures r.Ok? ==> r.value.Length == CoinCoreSize(|c.states|)
    ensures r.Ok? ==> var n := r.value.Length - 32;
      n >= 0 && Written(r.value[..n], CoreWrites(c)) && r.value[n..] == hash(r.value[..n])
    ensures r.Ok? && WellSized(c) ==> r.value[..] == CoreBytes(hash, c)
  {
    hide Written, Header, PartWrites, Concat;
    var n := |c.states|;
    if n < 1 { return Err(NoStates); }
    if |c.sigs| != n - 1 { return Err(SigCount); }
    if |c.serial| != 32 { return Err(WrongSize); }
    var buf := new byte[CoinCoreSize(n)](_ => 0);
    if !(0 <= c.scheme < 0x100 && n <= U16_MAX && 0 <= c.value <= U64_MAX) { return Err(OutOfRange); }
    WriteHeader(buf, c);
    ghost var writes := [Write(0, Header(c))];
    var o := CopyAll(buf, HDR, c.states, STATE_SIZE, writes);
    writes := writes + PartWrites(HDR, c.states, STATE_SIZE);
    o := CopyAll(buf, o, c.sigs, SIG_SIZE, writes);
    Seal(buf, o, hash, CoreWrites(c));
    assert buf[..] == buf[..o] + buf[o..];
    if WellSized(c) { WrittenPayload(buf[..o], c); }
    return Ok(buf);
  }

  method WriteHeader(buf: array<byte>, c: CoinCore)
    requires Encodable(c) && HDR <= buf.Length && forall p :: 0 <= p < buf.Length ==> buf[p] == 0
    modifies buf
    ensures buf[..HDR] == Header(c) && Written(buf[..], [Write(0, Header(c))])
  {
    ghost var rest := buf[HDR..];
    CopyInto(buf, 0, MAGIC);
    assert buf[4..][45..] == buf[HDR..] == rest;
    CopyInto(buf, 4, LE(2, VERSION));
    assert buf[6..][43..] == buf[HDR..] == rest;
    CopyInto(buf, 6, [c.scheme]);
    assert buf[7..][42..] == buf[HDR..] == rest;
    CopyInto(buf, 7, LE(2, |c.states|));
    assert buf[9..][40..] == buf[HDR..] == rest;
    CopyInto(buf, 9, c.serial);
    assert buf[41..][8..] == buf[HDR..] == rest;
    CopyInto(buf, 41, LE(8, c.value));
    assert buf[..] == Header(c) + rest;
    WriteFirst(Header(c), rest);
  }

  /** The checksum goes behind the payload. */
  method Seal(buf: array<byte>, o: nat, hash: Bytes -> Bytes32, ghost writes: seq<Write>)
    requires o + 32 == buf.Length && Written(buf[..], writes)
    modifies buf
    ensures buf[..o] == old(buf[..o]) && buf[o..] == hash(buf[..o]) && Written(buf[..o], writes)
  {
    ghost var payload := buf[..o];
    CopyInto(buf, o, hash(buf[..o]));
    assert buf[..] == buf[..o + 32] == payload + hash(payload);
  }

  // ---- decoding

  function Chunks(b: Bytes, o: nat, k: nat, n: nat): (parts: seq<Bytes>)
    requires o + Span(k, n) <= |b|
    ensures |parts| == n
  {
    if n == 0 then [] else
    SpanWithin(k, n - 1, n);
    Chunks(b, o, k, n - 1) + [b[o + Span(k, n - 1)..o + Span(k, n)]]
  }

  /** What decodeCoinCore returns or throws; it never looks at the number of states itself. */
  function Decoded(hash: Bytes -> Bytes32, b: Bytes): Result<CoinCore> {
    var _ :- Need(|b| >= HDR, TooShort);
    var _ :- Need(b[..4] == MAGIC, WrongMagic);
    var _ :- Need(FromLE(b[4..6]) == VERSION, UnknownVersion);
    var n := FromLE(b[7..9]);
    var _ :- Need(|b| == CoinCoreSize(n), WrongSize);
    var o := HDR + STATE_SIZE * n + SIG_SIZE * (n - 1);
    var _ :- Need(hash(b[..o]) == b[o..o + 32], WrongChecksum);
    Ok(CoinCore(b[9..41], FromLE(b[41..49]), Chunks(b, HDR, STATE_SIZE, n),
                Chunks(b, HDR + STATE_SIZE * n, SIG_SIZE, n - 1), b[6]))
  }

  /** What it throws, in its order: size, magic, version, size for the number of states, checksum. */
  lemma DecodeFault(hash: Bytes -> Bytes32, b: Bytes)
    requires Decoded(hash, b).Err?
    ensures Decoded(hash, b).error ==
            if |b| < 49 then TooShort
            else if b[0..4] != [0x4F, 0x42, 0x43, 0x31] then WrongMagic
            else if FromLE(b[4..6]) != 1 then UnknownVersion
            else if |b| != 49 + 104 * FromLE(b[7..9]) + 64 * (FromLE(b[7..9]) - 1) + 32 then WrongSize
            else WrongChecksum
  {
    hide FromLE, Chunks;
  }

  /** decodeCoinCore: reads the fields, then walks through states and signatures. */
  method DecodeCoinCore(hash: Bytes -> Bytes32, b: Bytes) returns (r: Result<CoinCore>)
    ensures r == Decoded(hash, b)
  {
    if |b| < HDR { return Err(TooShort); }
    if b[..4] != MAGIC { return Err(WrongMagic); }
    if FromLE(b[4..6]) != VERSION { return Err(UnknownVersion); }
    var n := FromLE(b[7..9]);
    if |b| != CoinCoreSize(n) { return Err(WrongSize); }
    var o := HDR;
    var states, sigs := [], [];
    for i := 0 to n
      invariant o == HDR + STATE_SIZE * i && states == Chunks(b, HDR, STATE_SIZE, i)
    {
      states := states + [b[o..o + STATE_SIZE]];
      o := o + STATE_SIZE;
    }
    for i := 0 to n - 1
      invariant o == HDR + STATE_SIZE * n + SIG_SIZE * i && sigs == Chunks(b, HDR + STATE_SIZE * n, SIG_SIZE, i)
    {
      sigs := sigs + [b[o..o + SIG_SIZE]];
      o := o + SIG_SIZE;
    }
    if hash(b[..o]) != b[o..o + 32] { return Err(WrongChecksum); }
    return Ok(CoinCore(b[9..41], FromLE(b[41..49]), states, sigs, b[6]));
  }

  // ---- the two are inverse

  lemma {:induction false} ChunksAt(b: Bytes, o: nat, k: nat, n: nat, i: nat)
    requires o + Span(k, n) <= |b| && i < n
    ensures |Chunks(b, o, k, n)[i]| == k
  {
    hide Span;
    SpanWithin(k, n - 1, n);
    if i < n - 1 {
      ChunksAt(b, o, k, n - 1, i);
    }
  }

  /** Cutting a concatenation of equal parts at its start gives the parts back. */
  lemma {:induction false} ChunksOfConcat(front: Bytes, parts: seq<Bytes>, back: Bytes, k: nat)
    requires forall i :: 0 <= i < |parts| ==> |parts[i]| == k
    ensures |Concat(parts)| == Span(k, |parts|)
    ensures Chunks(front + Concat(parts) + back, |front|, k, |parts|) == parts
    decreases |parts|
  {
    hide Span;
    ConcatSize(parts, k);
    if parts != [] {
      var n := |parts| - 1;
      var rest, last := parts[..n], parts[n];
      SpanWithin(k, n, n + 1);
      ConcatSize(rest, k);
      ChunksOfConcat(front, rest, last + back, k);
      assert front + Concat(parts) + back == front + Concat(rest) + (last + back);
      assert (front + Concat(rest) + (last + back))[|front| + Span(k, n)..|front| + Span(k, n) + k] == last;
      assert parts == rest + [last];
    }
  }

  /** Joining the cuts gives the slice back. */
  lemma {:induction false} ConcatOfChunks(b: Bytes, o: nat, k: nat, n: nat)
    requires o + Span(k, n) <= |b|
    ensures Concat(Chunks(b, o, k, n)) == b[o..o + Span(k, n)]
    decreases n
  {
    hide Span, Chunks, Concat;
    if n == 0 {
      NoChunks(b, o, k);
    } else {
      SpanWithin(k, n - 1, n);
      ConcatOfChunks(b, o, k, n - 1);
      ChunksLast(b, o, k, n);
      ConcatLast(Chunks(b, o, k, n - 1), b[o + Span(k, n - 1)..o + Span(k, n)]);
      Joined(b, o, o + Span(k, n - 1), o + Span(k, n));
    }
  }

  lemma NoChunks(b: Bytes, o: nat, k: nat)
    requires o <= |b|
    ensures Span(k, 0) == 0 && Concat(Chunks(b, o, k, 0)) == []
  {}

  lemma ChunksLast(b: Bytes, o: nat, k: nat, n: nat)
    requires n > 0 && o + Span(k, n) <= |b| && Span(k, n - 1) <= Span(k, n)
    ensures Chunks(b, o, k, n) == Chunks(b, o, k, n - 1) + [b[o + Span(k, n - 1)..o + Span(k, n)]]
  {
    hide Span;
  }

  lemma ConcatLast(parts: seq<Bytes>, last: Bytes)
    ensures Concat(parts + [last]) == Concat(parts) + last
  {
    assert (parts + [last])[..|parts|] == parts;
  }

  lemma Joined(b: Bytes, lo: nat, mid: nat, hi: nat)
    requires lo <= mid <= hi <= |b|
    ensures b[lo..mid] + b[mid..hi] == b[lo..hi]
  {}

  lemma HeaderFields(c: CoinCore, rest: Bytes)
    requires Encodable(c)
    ensures var b := Header(c) + rest;
            && |b| >= HDR && b[..4] == MAGIC && FromLE(b[4..6]) == VERSION && b[6] == c.scheme
            && FromLE(b[7..9]) == |c.states| && b[9..41] == c.serial && FromLE(b[41..49]) == c.value
  {
    Widths();
    FromLEOfLE(2, VERSION);
    FromLEOfLE(2, |c.states|);
    FromLEOfLE(8, c.value);
    hide LE, FromLE;
    var magic, versioned := MAGIC, MAGIC + LE(2, VERSION);
    var schemed, counted := versioned + [c.scheme], versioned + [c.scheme] + LE(2, |c.states|);
    Appended(magic, LE(2, VERSION));
    Appended(versioned, [c.scheme]);
    Appended(schemed, LE(2, |c.states|));
    Appended(counted, c.serial);
    Appended(counted + c.serial, LE(8, c.value));
    Appended(Header(c), rest);
    assert (Header(c) + rest)[6..7] == [c.scheme];
  }

  lemma PartsBack(hash: Bytes -> Bytes32, c: CoinCore)
    requires Encodable(c) && WellSized(c)
    ensures var b, n := CoreBytes(hash, c), |c.states|;
            && |b| == CoinCoreSize(n) && Chunks(b, HDR, STATE_SIZE, n) == c.states
            && Chunks(b, HDR + STATE_SIZE * n, SIG_SIZE, n - 1) == c.sigs
  {
    hide Header, Chunks, Concat;
    var header, sum := Header(c), hash(Payload(c));
    var states, sigs := Concat(c.states), Concat(c.sigs);
    ChunksOfConcat(header, c.states, sigs + sum, STATE_SIZE);
    ChunksOfConcat(header + states, c.sigs, sum, SIG_SIZE);
    Assoc(header + states, sigs, sum);
  }

  lemma {:induction false} ChunkIs(b: Bytes, o: nat, k: nat, n: nat, i: nat)
    requires o + Span(k, n) <= |b| && i < n
    ensures o + Span(k, i) + k <= |b| && Chunks(b, o, k, n)[i] == b[o + Span(k, i)..o + Span(k, i) + k]
  {
    hide Span;
    SpanWithin(k, i, n);
    SpanWithin(k, n - 1, n);
    if i < n - 1 {
      ChunkIs(b, o, k, n - 1, i);
    }
  }

  /** Decoding an encoded coin gives the coin back. */
  lemma DecodeOfEncode(hash: Bytes -> Bytes32, c: CoinCore)
    requires Encodable(c) && WellSized(c)
    ensures Decoded(hash, CoreBytes(hash, c)) == Ok(c)
  {
    hide Header, Concat, Chunks, FromLE;
    PartsBack(hash, c);
    var payload, sum := Payload(c), hash(Payload(c));
    Assoc(Header(c), Concat(c.states), Concat(c.sigs));
    Assoc(Header(c), Concat(c.states) + Concat(c.sigs), sum);
    HeaderFields(c, Concat(c.states) + Concat(c.sigs) + sum);
    Appended(payload, sum);
    hide Payload;
    assert (payload + sum)[0..|payload|] == payload[0..|payload|] == payload;
  }

  /** Re-encoding what an accepted file decodes to gives the file back; and there is always a state in it. */
  lemma EncodeOfDecode(hash: Bytes -> Bytes32, b: Bytes)
    requires Decoded(hash, b).Ok?
    ensures var c := Decoded(hash, b).value;
            Encodable(c) && WellSized(c) && |c.states| >= 1 && CoreBytes(hash, c) == b
  {
    hide Decoded, Header, Chunks, Concat, FromLE, WellSized;
    var c := Decoded(hash, b).value;
    DecodedSizes(hash, b);
    var n := |c.states|;
    var o, end := HDR + STATE_SIZE * n, HDR + STATE_SIZE * n + SIG_SIZE * (n - 1);
    DecodedParts(hash, b);
    ConcatOfChunks(b, HDR, STATE_SIZE, n);
    ConcatOfChunks(b, o, SIG_SIZE, n - 1);
    HeaderOfDecode(hash, b);
    Rejoined(b, HDR, o, end);
    assert Payload(c) == b[..end];
    Joined(b, 0, end, |b|);
  }

  lemma DecodedParts(hash: Bytes -> Bytes32, b: Bytes)
    requires Decoded(hash, b).Ok?
    ensures var c := Decoded(hash, b).value;
            var n := |c.states|;
            var end := HDR + STATE_SIZE * n + SIG_SIZE * (n - 1);
            && n >= 1 && |c.sigs| == n - 1 && |b| == end + 32 && b[end..] == hash(b[..end])
            && c.states == Chunks(b, HDR, STATE_SIZE, n) && c.sigs == Chunks(b, HDR + STATE_SIZE * n, SIG_SIZE, n - 1)
  {
    hide Chunks, FromLE;
  }

  lemma DecodedSizes(hash: Bytes -> Bytes32, b: Bytes)
    requires Decoded(hash, b).Ok?
    ensures Encodable(Decoded(hash, b).value) && WellSized(Decoded(hash, b).value)
  {
    var n := FromLE(b[7..9]);
    LEOfFromLE(b[7..9]);
    LEOfFromLE(b[41..49]);
    Widths();
    hide FromLE, LE, Radix;
    var c := Decoded(hash, b).value;
    forall i | 0 <= i < n ensures |c.states[i]| == STATE_SIZE { ChunksAt(b, HDR, STATE_SIZE, n, i); }
    forall i | 0 <= i < n - 1 ensures |c.sigs[i]| == SIG_SIZE { ChunksAt(b, HDR + STATE_SIZE * n, SIG_SIZE, n - 1, i); }
  }

  lemma HeaderOfDecode(hash: Bytes -> Bytes32, b: Bytes)
    requires Decoded(hash, b).Ok? && Encodable(Decoded(hash, b).value)
    ensures Header(Decoded(hash, b).value) == b[..HDR]
  {
    LEOfFromLE(b[4..6]);
    LEOfFromLE(b[7..9]);
    LEOfFromLE(b[41..49]);
    hide FromLE, LE, Chunks;
    assert b[..4] + b[4..6] + [b[6]] + b[7..9] + b[9..41] + b[41..49] == b[..HDR];
  }

  lemma HeaderBytes(c: CoinCore, rest: Bytes)
    requires Encodable(c)
    ensures var b := Header(c) + rest;
            && |b| >= 49 && b[0..4] == [0x4F, 0x42, 0x43, 0x31] && b[4..6] == [1, 0] && b[6] == c.scheme
            && b[7..9] == LE(2, |c.states|) && b[9..41] == c.serial && b[41..49] == LE(8, c.value)
  {
    assert LE(2, 1) == [1, 0];
    hide LE;
    var versioned := MAGIC + LE(2, VERSION);
    var schemed, counted := versioned + [c.scheme], versioned + [c.scheme] + LE(2, |c.states|);
    Appended(MAGIC, LE(2, VERSION));
    Appended(versioned, [c.scheme]);
    Appended(schemed, LE(2, |c.states|));
    Appended(counted, c.serial);
    Appended(counted + c.serial, LE(8, c.value));
    Appended(Header(c), rest);
    assert (Header(c) + rest)[6..7] == [c.scheme];
  }

  /** The file byte by byte: "OBC1", version 1, scheme, number of states, serial, value, then states of 104 and
      signatures of 64 bytes, and the hash of all that. */
  lemma FileOffsets(hash: Bytes -> Bytes32, c: CoinCore)
    requires Encodable(c) && WellSized(c)
    ensures var b, n := CoreBytes(hash, c), |c.states|;
            && |b| == 49 + 104 * n + 64 * (n - 1) + 32
            && b[0..4] == [0x4F, 0x42, 0x43, 0x31] && b[4..6] == [1, 0] && b[6] == c.scheme
            && b[7..9] == LE(2, n) && b[9..41] == c.serial && b[41..49] == LE(8, c.value)
            && (forall i :: 0 <= i < n ==> b[49 + 104 * i..49 + 104 * i + 104] == c.states[i])
            && (forall i :: 0 <= i < n - 1 ==> b[49 + 104 * n + 64 * i..49 + 104 * n + 64 * i + 64] == c.sigs[i])
            && b[49 + 104 * n + 64 * (n - 1)..] == hash(b[..49 + 104 * n + 64 * (n - 1)])
  {
    hide Decoded, Chunks, Concat, Header, CoreBytes, LE, Span;
    var b, n := CoreBytes(hash, c), |c.states|;
    DecodeOfEncode(hash, c);
    DecodedParts(hash, b);
    HeaderOfDecode(hash, b);
    HeaderBytes(c, b[HDR..]);
    assert b == b[..HDR] + b[HDR..];
    forall i | 0 <= i < n ensures b[49 + 104 * i..49 + 104 * i + 104] == c.states[i] { PartIs(b, HDR, 104, n, i); }
    forall i | 0 <= i < n - 1 ensures b[49 + 104 * n + 64 * i..49 + 104 * n + 64 * i + 64] == c.sigs[i] {
      PartIs(b, HDR + 104 * n, 64, n - 1, i);
    }
  }

  lemma PartIs(b: Bytes, o: nat, k: nat, n: nat, i: nat)
    requires o + k * n <= |b| && i < n
    ensures o + k * i + k <= |b| && o + Span(k, n) <= |b| && Chunks(b, o, k, n)[i] == b[o + k * i..o + k * i + k]
  {
    hide Chunks;
    assert Span(k, n) == k * n && Span(k, i) == k * i;
    ChunkIs(b, o, k, n, i);
  }

  /** Among all coins the encoder takes, exactly the well-sized ones can be what a file decodes to. */
  lemma OnlyWellSizedReturn(hash: Bytes -> Bytes32, c: CoinCore)
    requires Encodable(c)
    ensures (exists b :: Decoded(hash, b) == Ok(c)) <==> WellSized(c)
  {
    forall b | Decoded(hash, b) == Ok(c) ensures WellSized(c) { DecodedSizes(hash, b); }
    if WellSized(c) {
      DecodeOfEncode(hash, c);
    }
  }
}
