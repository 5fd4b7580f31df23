/** The 104-byte coin state: serial(32) value(8, little endian) owner(32) previous hash(32). */
module StateOps {
  import opened Bytes

  const STATE_SIZE := 104

  type State = s: Bytes | |s| == STATE_SIZE witness Zeros(104)

  function ParseSerial(s: State): Bytes32 { s[..32] }
  function ParseValue(s: State): (v: u64) { LEOfFromLE(s[32..40]); Widths(); FromLE(s[32..40]) }
  function ParseOwner(s: State): Bytes32 { s[40..72] }
  function ParsePrevHash(s: State): Bytes32 { s[72..] }

  /** The state with the four given fields. */
  function Fields(serial: Bytes32, value: u64, owner: Bytes32, prev: Bytes32): State {
    serial + LE(8, value) + owner + prev
  }

  function Genesis(serial: Bytes32, value: u64, owner: Bytes32): State {
    Fields(serial, value, owner, Zeros(32))
  }

  /** The link after `prev`: its first 40 bytes, serial and value, then the new owner and the hash of `prev`. */
  function Next(prev: State, owner: Bytes32, hash: Bytes -> Bytes32): State {
    prev[..40] + owner + hash(prev)
  }

  /** Among the listed states the hash neither collides nor hits the genesis marker. */
  ghost predicate CollisionFree(hash: Bytes -> Bytes32, states: seq<State>) {
    && (forall x, y :: x in states && y in states && hash(x) == hash(y) ==> x == y)
    && (forall x :: x in states ==> hash(x) != Zeros(32))
  }

  lemma ParseFields(serial: Bytes32, value: u64, owner: Bytes32, prev: Bytes32)
    ensures var s := Fields(serial, value, owner, prev);
            ParseSerial(s) == serial && ParseValue(s) == value && ParseOwner(s) == owner && ParsePrevHash(s) == prev
  {
    var s := Fields(serial, value, owner, prev);
    assert s[32..40] == LE(8, value);
    Widths();
    FromLEOfLE(8, value);
  }

  lemma FieldsOfParse(s: State)
    ensures Fields(ParseSerial(s), ParseValue(s), ParseOwner(s), ParsePrevHash(s)) == s
  {
    LEOfFromLE(s[32..40]);
  }

  /** The layout byte by byte: serial at 0, value at 32 with its low byte first, owner at 40, previous hash at 72. */
  lemma StateBytes(serial: Bytes32, value: u64, owner: Bytes32, prev: Bytes32)
    ensures var s := Fields(serial, value, owner, prev);
            && s[0..32] == serial && s[40..72] == owner && s[72..104] == prev
            && forall i: nat :: i < 8 ==> s[32 + i] == value / Radix(i) % 0x100
  {
    var s := Fields(serial, value, owner, prev);
    forall i: nat | i < 8 ensures s[32 + i] == value / Radix(i) % 0x100 { LEAt(8, value, i); }
  }

  /** The parsers read at these offsets. */
  lemma ParsedBytes(s: State)
    ensures ParseSerial(s) == s[0..32] && ParseOwner(s) == s[40..72] && ParsePrevHash(s) == s[72..104]
    ensures forall i: nat :: i < 8 ==> s[32 + i] == ParseValue(s) / Radix(i) % 0x100
  {
    LEOfFromLE(s[32..40]);
    forall i: nat | i < 8 ensures s[32 + i] == ParseValue(s) / Radix(i) % 0x100 {
      LEAt(8, ParseValue(s), i);
      assert s[32 + i] == s[32..40][i];
    }
  }

  /** genesis_state of the program: fills a zeroed buffer field by field. */
  method GenesisState(serial: Bytes32, value: u64, owner: Bytes32) returns (s: array<byte>)
    ensures fresh(s) && s[..] == Genesis(serial, value, owner)
  {
    s := new byte[STATE_SIZE](_ => 0);
    CopyInto(s, 0, serial);
    assert s[32..] == Zeros(72);
    CopyInto(s, 32, LE(8, value));
    assert s[40..] == Zeros(64);
    CopyInto(s, 40, owner);
    assert s[72..] == Zeros(32) && s[..] == s[..72] + s[72..];
  }

  /** next_state of the program: copies the previous state, then replaces owner and previous hash. */
  method NextState(prev: State, owner: Bytes32, hash: Bytes -> Bytes32) returns (s: array<byte>)
    ensures fresh(s) && s[..] == Next(prev, owner, hash)
  {
    s := new byte[STATE_SIZE](i requires 0 <= i < STATE_SIZE => prev[i]);
    assert s[..] == prev;
    CopyInto(s, 40, owner);
    assert s[..40] == prev[..40];
    CopyInto(s, 72, hash(prev));
    assert s[..] == s[..104];
  }
}
