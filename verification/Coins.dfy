/** Building a coin offline: a first state, then one signed link per transfer. */
module Coins {
  import opened Bytes
  import opened Results
  import opened StateOps
  import Layout

  /** A coin as the client holds it. Buffers of any size can occur; value is an unbounded integer. */
  datatype CoinCore = CoinCore(serial: Bytes, value: int, states: seq<Bytes>, sigs: seq<Bytes>, scheme: int)

  const ED25519 := 0

  /** Signature, message, public key. */
  type Verifier = (Bytes, Bytes, Bytes) -> bool

  type Signer = Bytes -> Bytes

  function NewCoin(serial: Bytes, value: int, recipient: Bytes): Result<CoinCore> {
    var state0 :- Layout.GenesisState(serial, value, recipient);
    Ok(CoinCore(serial, value, [state0], [], ED25519))
  }

  function AppendLink(hash: Bytes -> Bytes32, coin: CoinCore, signer: Signer, newOwner: Bytes): Result<CoinCore> {
    var _ :- Need(coin.states != [], NoStates);
    var next :- Layout.NextState(hash, coin.states[|coin.states| - 1], newOwner);
    var h :- Layout.StateHash(hash, next);
    Ok(coin.(states := coin.states + [next], sigs := coin.sigs + [signer(h)]))
  }

  function CurrentOwner(coin: CoinCore): Result<Bytes32> {
    var _ :- Need(coin.states != [], NoStates);
    var last :- Layout.DecodeState(coin.states[|coin.states| - 1]);
    Ok(last.owner)
  }

  // ---- what a valid coin is

  /** A signature is 64 bytes and verifies. */
  predicate SigOk(verify: Verifier, sig: Bytes, msg: Bytes, owner: Bytes) { |sig| == 64 && verify(sig, msg, owner) }

  ghost predicate Sized(states: seq<Bytes>) { forall i :: 0 <= i < |states| ==> |states[i]| == STATE_SIZE }

  /** State `j` follows state `i`: it hashes back to it and the owner of `i` signed it. */
  predicate Follows(hash: Bytes -> Bytes32, verify: Verifier, prev: Bytes, state: Bytes, sig: Bytes) {
    && |prev| == STATE_SIZE && |state| == STATE_SIZE
    && ParsePrevHash(state) == hash(prev) && SigOk(verify, sig, hash(state), ParseOwner(prev))
  }

  predicate Carries(c: CoinCore, state: Bytes) {
    |state| == STATE_SIZE && ParseSerial(state) == c.serial && ParseValue(state) == c.value
  }

  /** Serial and value are constant, the first state has no predecessor, every link is hashed back and signed. */
  ghost predicate ValidCoin(hash: Bytes -> Bytes32, verify: Verifier, c: CoinCore) {
    && c.states != [] && |c.sigs| >= |c.states| - 1
    && (forall i :: 0 <= i < |c.states| ==> Carries(c, c.states[i]))
    && ParsePrevHash(c.states[0]) == Zeros(32)
    && (|c.states| > 1 ==> c.scheme == ED25519)
    && (forall i, j :: 0 <= i < j < |c.states| && j == i + 1 ==>
        Follows(hash, verify, c.states[i], c.states[j], c.sigs[i]))
  }

  // ---- building soundly

  datatype Transfer = Transfer(signer: Signer, newOwner: Bytes32)

  /** The signer's signatures verify under `owner`. */
  ghost predicate SignsFor(verify: Verifier, signer: Signer, owner: Bytes32) {
    forall msg: Bytes :: SigOk(verify, signer(msg), msg, owner)
  }

  function Hand(hash: Bytes -> Bytes32, coin: CoinCore, transfers: seq<Transfer>): Result<CoinCore>
    decreases |transfers|
  {
    if transfers == [] then Ok(coin) else
    var next :- AppendLink(hash, coin, transfers[0].signer, transfers[0].newOwner);
    Hand(hash, next, transfers[1..])
  }

  /** Each transfer is signed by whoever owns the coin at that moment. */
  ghost predicate SignedByOwners(verify: Verifier, owner: Bytes32, transfers: seq<Transfer>)
    decreases |transfers|
  {
    transfers == [] || (SignsFor(verify, transfers[0].signer, owner)
                        && SignedByOwners(verify, transfers[0].newOwner, transfers[1..]))
  }

  lemma NewCoinValid(hash: Bytes -> Bytes32, verify: Verifier, serial: Bytes32, value: u64, recipient: Bytes32)
    ensures NewCoin(serial, value, recipient).Ok?
    ensures var c := NewCoin(serial, value, recipient).value;
            && ValidCoin(hash, verify, c) && CurrentOwner(c) == Ok(recipient) && |c.sigs| == |c.states| - 1
            && c.states == [Genesis(serial, value, recipient)]
  {
    ParseFields(serial, value, recipient, Zeros(32));
  }

  lemma AppendLinkValid(hash: Bytes -> Bytes32, verify: Verifier, c: CoinCore, t: Transfer)
    requires ValidCoin(hash, verify, c) && |c.sigs| == |c.states| - 1 && c.scheme == ED25519
    requires SignsFor(verify, t.signer, ParseOwner(c.states[|c.states| - 1]))
    ensures var r := AppendLink(hash, c, t.signer, t.newOwner);
            && r.Ok? && ValidCoin(hash, verify, r.value) && |r.value.sigs| == |r.value.states| - 1
            && r.value == c.(states := r.value.states, sigs := r.value.sigs) && c.states <= r.value.states
            && CurrentOwner(r.value) == Ok(t.newOwner)
  {
    var last := c.states[|c.states| - 1];
    assert Carries(c, last);
    ParseFields(ParseSerial(last), ParseValue(last), t.newOwner, hash(last));
    hide Fields, ParseSerial, ParseValue, ParseOwner, ParsePrevHash;
    var next := Layout.NextState(hash, last, t.newOwner).value;
    assert SigOk(verify, t.signer(hash(next)), hash(next), ParseOwner(last));
    var d := AppendLink(hash, c, t.signer, t.newOwner).value;
    forall i, j | 0 <= i < j < |d.states| && j == i + 1
      ensures Follows(hash, verify, d.states[i], d.states[j], d.sigs[i])
    {
      assert j == |c.states| || Follows(hash, verify, c.states[i], c.states[j], c.sigs[i]);
    }
  }

  lemma {:induction false} HandValid(hash: Bytes -> Bytes32, verify: Verifier, c: CoinCore, transfers: seq<Transfer>)
    requires ValidCoin(hash, verify, c) && |c.sigs| == |c.states| - 1 && c.scheme == ED25519
    requires SignedByOwners(verify, ParseOwner(c.states[|c.states| - 1]), transfers)
    ensures var r := Hand(hash, c, transfers);
            && r.Ok? && ValidCoin(hash, verify, r.value) && |r.value.states| == |c.states| + |transfers|
            && c.states <= r.value.states
            && (transfers != [] ==> CurrentOwner(r.value) == Ok(transfers[|transfers| - 1].newOwner))
    decreases |transfers|
  {
    hide ValidCoin, AppendLink, SignsFor, ParseOwner;
    if transfers != [] {
      AppendLinkValid(hash, verify, c, transfers[0]);
      HandedOwner(hash, verify, c, transfers[0]);
      HandValid(hash, verify, AppendLink(hash, c, transfers[0].signer, transfers[0].newOwner).value, transfers[1..]);
    }
  }

  lemma HandedOwner(hash: Bytes -> Bytes32, verify: Verifier, c: CoinCore, t: Transfer)
    requires ValidCoin(hash, verify, c) && AppendLink(hash, c, t.signer, t.newOwner).Ok?
    ensures var d := AppendLink(hash, c, t.signer, t.newOwner).value;
            |d.states| == |c.states| + 1 && |d.states[|c.states|]| == STATE_SIZE
            && ParseOwner(d.states[|c.states|]) == t.newOwner
  {
    var last := c.states[|c.states| - 1];
    ParseFields(ParseSerial(last), ParseValue(last), t.newOwner, hash(last));
  }

  /** Minting a coin and handing it on, each time signed by its owner, always gives a valid coin of the last owner. */
  lemma BuiltCoinsAreValid(hash: Bytes -> Bytes32, verify: Verifier, serial: Bytes32, value: u64, recipient: Bytes32,
                           transfers: seq<Transfer>)
    requires SignedByOwners(verify, recipient, transfers)
    ensures NewCoin(serial, value, recipient).Ok? && Hand(hash, NewCoin(serial, value, recipient).value, transfers).Ok?
    ensures var c := Hand(hash, NewCoin(serial, value, recipient).value, transfers).value;
            && ValidCoin(hash, verify, c) && |c.states| == |transfers| + 1
            && c.states[0] == Genesis(serial, value, recipient)
            && CurrentOwner(c) == Ok(if transfers == [] then recipient else transfers[|transfers| - 1].newOwner)
  {
    hide ValidCoin, AppendLink;
    NewCoinValid(hash, verify, serial, value, recipient);
    ParseFields(serial, value, recipient, Zeros(32));
    hide Genesis, ParseOwner;
    HandValid(hash, verify, NewCoin(serial, value, recipient).value, transfers);
  }
}
