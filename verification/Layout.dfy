/** The client's state layout: the same bytes as the program's, with sizes and ranges checked at run time. */
module Layout {
  import opened Bytes
  import opened Results
  import opened StateOps

  datatype CoinState = CoinState(serial: Bytes32, value: u64, owner: Bytes32, prevHash: Bytes32)

  predicate InU64(value: int) { 0 <= value <= U64_MAX }

  /** What encodeState returns or throws. */
  function Encoded(serial: Bytes, value: int, owner: Bytes, prev: Bytes): Result<State> {
    var _ :- Need(|serial| == 32 && |owner| == 32 && |prev| == 32, WrongSize);
    var _ :- Need(InU64(value), OutOfRange);
    Ok(Fields(serial, value, owner, prev))
  }

  /** encodeState: copies the four fields into a fresh buffer at their offsets. */
  method EncodeState(serial: Bytes, value: int, owner: Bytes, prev: Bytes) returns (r: Result<array<byte>>)
    ensures r.Ok? <==> Encoded(serial, value, owner, prev).Ok?
    ensures r.Ok? <==> |serial| == 32 && |owner| == 32 && |prev| == 32 && 0 <= value < 0x1_0000_0000_0000_0000
    ensures r.Err? ==> r.error == if |serial| != 32 || |owner| != 32 || |prev| != 32 then WrongSize else OutOfRange
    ensures r.Err? ==> r.error == Encoded(serial, value, owner, prev).error
    ensures r.Ok? ==> r.value[..] == Encoded(serial, value, owner, prev).value
  {
    if |serial| != 32 || |owner| != 32 || |prev| != 32 {
      return Err(WrongSize);
    }
    var s := new byte[STATE_SIZE](_ => 0);
    CopyInto(s, 0, serial);
    if !InU64(value) {
      return Err(OutOfRange);
    }
    CopyInto(s, 32, LE(8, value));
    CopyInto(s, 40, owner);
    CopyInto(s, 72, prev);
    assert s[..] == s[..104];
    return Ok(s);
  }

  function DecodeState(s: Bytes): Result<CoinState> {
    var _ :- Need(|s| == STATE_SIZE, WrongSize);
    Ok(CoinState(ParseSerial(s), ParseValue(s), ParseOwner(s), ParsePrevHash(s)))
  }

  function StateHash(hash: Bytes -> Bytes32, s: Bytes): Result<Bytes32> {
    var _ :- Need(|s| == STATE_SIZE, WrongSize);
    Ok(hash(s))
  }

  function GenesisState(serial: Bytes, value: int, owner: Bytes): Result<State> {
    Encoded(serial, value, owner, Zeros(32))
  }

  function NextState(hash: Bytes -> Bytes32, prev: Bytes, newOwner: Bytes): Result<State> {
    var p :- DecodeState(prev);
    var h :- StateHash(hash, prev);
    Encoded(p.serial, p.value, newOwner, h)
  }

  /** Decoding inverts encoding, on every input either side accepts. */
  lemma DecodeOfEncoded(serial: Bytes, value: int, owner: Bytes, prev: Bytes)
    requires Encoded(serial, value, owner, prev).Ok?
    ensures DecodeState(Encoded(serial, value, owner, prev).value) == Ok(CoinState(serial, value, owner, prev))
  {
    ParseFields(serial, value, owner, prev);
  }

  lemma EncodedOfDecode(s: Bytes)
    requires DecodeState(s).Ok?
    ensures var d := DecodeState(s).value; Encoded(d.serial, d.value, d.owner, d.prevHash) == Ok(s)
  {
    FieldsOfParse(s);
  }

  /** The client's genesisState and nextState produce the bytes of the program's genesis_state and next_state. */
  lemma SameBytesAsProgram(hash: Bytes -> Bytes32, serial: Bytes32, value: u64, owner: Bytes32, prev: State)
    ensures GenesisState(serial, value, owner) == Ok(Genesis(serial, value, owner))
    ensures NextState(hash, prev, owner) == Ok(Next(prev, owner, hash))
  {
    LEOfFromLE(prev[32..40]);
    assert prev[..40] == prev[..32] + prev[32..40];
  }
}
