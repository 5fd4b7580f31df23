/** The Ed25519 instruction: offset records as the client writes them and as the precompile reads them. */
module Precompile {
  import opened Bytes
  import opened Results
  import opened Coins

  const RECORD := 14
  const MAX_RECORDS := 12

  /** Where signature, public key and message lie: an offset in the data of the instruction with the given index. */
  datatype OffsetRecord = OffsetRecord(
    sigOff: int, sigIx: int, pubOff: int, pubIx: int, msgOff: int, msgSize: int, msgIx: int)

  predicate InU16(v: int) { 0 <= v <= U16_MAX }

  predicate Writable(r: OffsetRecord) {
    && InU16(r.sigOff) && InU16(r.sigIx) && InU16(r.pubOff) && InU16(r.pubIx)
    && InU16(r.msgOff) && InU16(r.msgSize) && InU16(r.msgIx)
  }

  /** The k-th 16-bit word of `data`, little endian. */
  function Word(data: Bytes, k: nat): int
    requires 2 * k + 2 <= |data|
  {
    var low: int, high: int := data[2 * k], data[2 * k + 1];
    low + 0x100 * high
  }

  /** Record `i` as the precompile reads it: seven words, after the count and the records before it. */
  function ReadRecord(data: Bytes, i: nat): OffsetRecord
    requires 2 + RECORD * (i + 1) <= |data|
  {
    var k := 1 + 7 * i;
    OffsetRecord(Word(data, k), Word(data, k + 1), Word(data, k + 2), Word(data, k + 3), Word(data, k + 4),
                 Word(data, k + 5), Word(data, k + 6))
  }

  /** One to 12 records, and no field beyond 16 bits. */
  lemma WritableIff(records: seq<OffsetRecord>)
    ensures AllWritable(records)
       <==> 1 <= |records| <= 12
            && forall r :: r in records ==>
                 && 0 <= r.sigOff < 0x1_0000 && 0 <= r.sigIx < 0x1_0000 && 0 <= r.pubOff < 0x1_0000
                 && 0 <= r.pubIx < 0x1_0000 && 0 <= r.msgOff < 0x1_0000 && 0 <= r.msgSize < 0x1_0000
                 && 0 <= r.msgIx < 0x1_0000
  {}

  /** The client writes at least one and at most 12 records, and only 16-bit fields. */
  ghost predicate AllWritable(records: seq<OffsetRecord>) {
    1 <= |records| <= MAX_RECORDS && forall r :: r in records ==> Writable(r)
  }

  /** `data` holds the count and then exactly `records`. */
  ghost predicate Encodes(data: Bytes, records: seq<OffsetRecord>) {
    && |data| == 2 + RECORD * |records| && Word(data, 0) == |records|
    && forall i :: 0 <= i < |records| ==> ReadRecord(data, i) == records[i]
  }

  /** A 16-bit number at byte `o`, low byte first. */
  function U16At(data: Bytes, o: nat): int
    requires o + 2 <= |data|
  {
    var low: int, high: int := data[o], data[o + 1];
    low + 0x100 * high
  }

  /** The written instruction byte by byte: the count, then 14 bytes for every record, its fields two bytes apart. */
  lemma WrittenOffsets(data: Bytes, records: seq<OffsetRecord>, i: nat)
    requires Encodes(data, records) && i < |records|
    ensures |data| == 2 + 14 * |records| && U16At(data, 0) == |records|
    ensures var o, r := 2 + 14 * i, records[i];
            && U16At(data, o) == r.sigOff && U16At(data, o + 2) == r.sigIx && U16At(data, o + 4) == r.pubOff
            && U16At(data, o + 6) == r.pubIx && U16At(data, o + 8) == r.msgOff && U16At(data, o + 10) == r.msgSize
            && U16At(data, o + 12) == r.msgIx
  {
    assert ReadRecord(data, i) == records[i];
  }

  /** ed25519VerifyIx: throws without records, beyond 12 of them, and on a field beyond 16 bits. */
  method Ed25519VerifyIx(records: seq<OffsetRecord>) returns (r: Result<array<byte>>)
    ensures r.Ok? <==> AllWritable(records)
    ensures r.Err? ==> r.error == if records == [] then NoLinks
                                  else if |records| > 12 then TooManyRecords else OutOfRange
    ensures r.Ok? ==> Encodes(r.value[..], records)
  {
    hide Writable, Encodes, WrittenUpTo, ReadRecord;
    if |records| == 0 { return Err(NoLinks); }
    if |records| > MAX_RECORDS { return Err(TooManyRecords); }
    var data := new byte[2 + |records| * RECORD](_ => 0);
    WriteU16(data, 0, |records|);
    NoneYet(data[..], records);
    hide Word;
    for i := 0 to |records|
      invariant forall r :: r in records[..i] ==> Writable(r)
      invariant WrittenUpTo(data[..], records, i)
    {
      if !Writable(records[i]) { return Err(OutOfRange); }
      assert records[..i + 1] == records[..i] + [records[i]];
      ghost var before := data[..];
      WriteRecord(data, i, records[i]);
      OneMore(before, data[..], records, i);
    }
    assert records[..|records|] == records;
    AllWritten(data[..], records);
    return Ok(data);
  }

  ghost predicate WrittenUpTo(data: Bytes, records: seq<OffsetRecord>, n: nat) {
    && n <= |records| && |data| == 2 + RECORD * |records| && Word(data, 0) == |records|
    && forall j :: 0 <= j < n ==> ReadRecord(data, j) == records[j]
  }

  lemma NoneYet(data: Bytes, records: seq<OffsetRecord>)
    requires |data| == 2 + RECORD * |records| && Word(data, 0) == |records|
    ensures WrittenUpTo(data, records, 0)
  {}

  lemma AllWritten(data: Bytes, records: seq<OffsetRecord>)
    requires WrittenUpTo(data, records, |records|)
    ensures Encodes(data, records)
  {}

  lemma OneMore(before: Bytes, after: Bytes, records: seq<OffsetRecord>, i: nat)
    requires i < |records| && WrittenUpTo(before, records, i) && |after| == |before|
    requires after[..2 + RECORD * i] == before[..2 + RECORD * i] && ReadRecord(after, i) == records[i]
    ensures WrittenUpTo(after, records, i + 1)
  {
    hide ReadRecord, Word;
    forall j | 0 <= j < i ensures ReadRecord(after, j) == records[j] {
      SameRecord(before, after, j, 2 + RECORD * i);
    }
    SamePrefix(before, after, 0, 2 + RECORD * i);
  }

  lemma SamePrefix(a: Bytes, b: Bytes, k: nat, n: nat)
    requires 2 * k + 2 <= n <= |a| && n <= |b| && a[..n] == b[..n]
    ensures Word(a, k) == Word(b, k)
  {
    assert a[2 * k] == a[..n][2 * k] && a[2 * k + 1] == a[..n][2 * k + 1];
  }

  lemma SameRecord(a: Bytes, b: Bytes, i: nat, n: nat)
    requires 2 + RECORD * (i + 1) <= n <= |a| && n <= |b| && a[..n] == b[..n]
    ensures ReadRecord(a, i) == ReadRecord(b, i)
  {
    hide Word;
    forall k: nat | 2 * k + 2 <= n ensures Word(a, k) == Word(b, k) { SamePrefix(a, b, k, n); }
  }

  method WriteU16(data: array<byte>, o: nat, v: u16)
    requires o + 2 <= data.Length
    modifies data
    ensures data[..] == old(data[..])[o := v % 0x100][o + 1 := v / 0x100]
  {
    data[o] := v % 0x100;
    data[o + 1] := v / 0x100;
  }

  /** One record: seven 16-bit fields, each at its own offset. */
  method WriteRecord(data: array<byte>, i: nat, r: OffsetRecord)
    requires Writable(r) && 2 + RECORD * (i + 1) <= data.Length
    modifies data
    ensures ReadRecord(data[..], i) == r && data[..2 + RECORD * i] == old(data[..2 + RECORD * i])
  {
    var o := 2 + i * RECORD;
    WriteU16(data, o, r.sigOff);
    WriteU16(data, o + 2, r.sigIx);
    WriteU16(data, o + 4, r.pubOff);
    WriteU16(data, o + 6, r.pubIx);
    WriteU16(data, o + 8, r.msgOff);
    WriteU16(data, o + 10, r.msgSize);
    WriteU16(data, o + 12, r.msgIx);
  }

  // ---- the precompile's side

  function Slice(ixs: seq<Bytes>, ix: int, off: int, size: int): Option<Bytes> {
    if 0 <= ix < |ixs| && 0 <= off && 0 <= size && off + size <= |ixs[ix]| then Some(ixs[ix][off..off + size]) else None
  }

  /** A record passes when its three slices exist and the signature verifies. */
  predicate RecordPasses(verify: Verifier, ixs: seq<Bytes>, r: OffsetRecord) {
    var sig, pub := Slice(ixs, r.sigIx, r.sigOff, 64), Slice(ixs, r.pubIx, r.pubOff, 32);
    var msg := Slice(ixs, r.msgIx, r.msgOff, r.msgSize);
    sig.Some? && pub.Some? && msg.Some? && verify(sig.value, msg.value, pub.value)
  }

  /** The count is the first byte; every record must pass. */
  ghost predicate Accepts(verify: Verifier, ixs: seq<Bytes>, data: Bytes) {
    && |data| >= 2 && |data| >= 2 + RECORD * data[0]
    && forall i :: 0 <= i < data[0] ==> RecordPasses(verify, ixs, ReadRecord(data, i))
  }

  /** The instruction built from `records` is accepted exactly when every record passes. */
  lemma AcceptsIff(verify: Verifier, ixs: seq<Bytes>, data: Bytes, records: seq<OffsetRecord>)
    requires AllWritable(records) && Encodes(data, records)
    ensures data[0] == |records|
    ensures Accepts(verify, ixs, data) <==> forall i :: 0 <= i < |records| ==> RecordPasses(verify, ixs, records[i])
  {
    assert Word(data, 0) == data[0] + 0x100 * data[1];
    hide RecordPasses, ReadRecord, Word;
    forall i | 0 <= i < |records| && Accepts(verify, ixs, data) ensures RecordPasses(verify, ixs, records[i]) {
      assert RecordPasses(verify, ixs, ReadRecord(data, i));
    }
  }
}
