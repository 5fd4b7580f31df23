/** The client's chain verifier: reports exactly the broken rules, and accepts exactly the valid coins. */
module ChainVerify {
  import opened Bytes
  import opened Results
  import opened StateOps
  import opened Coins

  datatype ChainError =
    | Empty
    | SerialDiffers(at: nat)
    | ValueDiffers(at: nat)
    | NotGenesis
    | LinkBroken(at: nat)
    | NotAnchored
    | BadSig(at: nat)

  datatype Verdict = Verdict(ok: bool, errors: seq<ChainError>, headHash: Bytes32)

  predicate IsState(c: CoinCore, i: int) { 0 <= i < |c.states| && |c.states[i]| == STATE_SIZE }

  predicate SignedAt(hash: Bytes -> Bytes32, verify: Verifier, c: CoinCore, i: nat)
    requires IsState(c, i) && IsState(c, i + 1)
  {
    c.scheme == ED25519 && i < |c.sigs| && SigOk(verify, c.sigs[i], hash(c.states[i + 1]), ParseOwner(c.states[i]))
  }

  /** Error `e` describes a rule that `c` breaks. */
  predicate Broken(hash: Bytes -> Bytes32, verify: Verifier, c: CoinCore, genesis: Option<Bytes>, e: ChainError) {
    match e
    case Empty => c.states == []
    case SerialDiffers(i) => IsState(c, i) && ParseSerial(c.states[i]) != c.serial
    case ValueDiffers(i) => IsState(c, i) && ParseValue(c.states[i]) != c.value
    case NotGenesis => IsState(c, 0) && ParsePrevHash(c.states[0]) != Zeros(32)
    case LinkBroken(i) => IsState(c, i - 1) && IsState(c, i) && ParsePrevHash(c.states[i]) != hash(c.states[i - 1])
    case NotAnchored => IsState(c, 0) && genesis.Some? && hash(c.states[0]) != genesis.value
    case BadSig(i) => IsState(c, i) && IsState(c, i + 1) && !SignedAt(hash, verify, c, i)
  }

  predicate FieldError(e: ChainError, n: nat) { (e.SerialDiffers? || e.ValueDiffers?) && e.at < n }

  /** verifyStructure: throws on a state of the wrong size, or on an anchor without a state; else lists the broken
      rules. */
  method VerifyStructure(hash: Bytes -> Bytes32, verify: Verifier, c: CoinCore, genesis: Option<Bytes>)
    returns (r: Result<seq<ChainError>>)
    ensures r == Err(WrongSize) <==> !Sized(c.states)
    ensures r == Err(NoStates) <==> c.states == [] && genesis.Some?
    ensures r.Err? ==> r.error == WrongSize || r.error == NoStates
    ensures r.Ok? ==> forall e :: e in r.value <==> !e.BadSig? && Broken(hash, verify, c, genesis, e)
  {
    hide ParseSerial, ParseValue, ParsePrevHash;
    var errors: seq<ChainError> := [];
    var n := |c.states|;
    if n < 1 { errors := errors + [Empty]; }
    for i := 0 to n
      invariant forall j :: 0 <= j < i ==> |c.states[j]| == STATE_SIZE
      invariant forall e :: e in errors <==> (e.Empty? || FieldError(e, i)) && Broken(hash, verify, c, genesis, e)
    {
      if |c.states[i]| != STATE_SIZE { return Err(WrongSize); }
      if ParseSerial(c.states[i]) != c.serial { errors := errors + [SerialDiffers(i)]; }
      if ParseValue(c.states[i]) != c.value { errors := errors + [ValueDiffers(i)]; }
    }
    if n >= 1 && ParsePrevHash(c.states[0]) != Zeros(32) { errors := errors + [NotGenesis]; }
    var i := 1;
    while i < n
      invariant i >= 1
      invariant forall e :: e in errors <==>
        (e.Empty? || FieldError(e, n) || e.NotGenesis? || (e.LinkBroken? && e.at < i))
        && Broken(hash, verify, c, genesis, e)
    {
      if ParsePrevHash(c.states[i]) != hash(c.states[i - 1]) { errors := errors + [LinkBroken(i)]; }
      i := i + 1;
    }
    if genesis.Some? {
      if n == 0 { return Err(NoStates); }
      if hash(c.states[0]) != genesis.value { errors := errors + [NotAnchored]; }
    }
    return Ok(errors);
  }

  /** verifyCoinChain: throws without states, else accepts exactly the valid coins with the given anchor. */
  method VerifyCoinChain(hash: Bytes -> Bytes32, verify: Verifier, c: CoinCore, genesis: Option<Bytes>)
    returns (r: Result<Verdict>)
    ensures r.Err? <==> c.states == [] || !Sized(c.states)
    ensures r.Err? ==> r.error == if c.states == [] then NoStates else WrongSize
    ensures r.Ok? ==>
      && (r.value.ok <==> ValidCoin(hash, verify, c) && Anchored(hash, c, genesis))
      && (forall e :: e in r.value.errors <==> Broken(hash, verify, c, genesis, e))
      && r.value.headHash == hash(c.states[|c.states| - 1])
  {
    hide ParseSerial, ParseValue, ParsePrevHash, ParseOwner, SigOk, ValidCoin;
    var errors :- VerifyStructure(hash, verify, c, genesis);
    var n := |c.states|;
    var i := 1;
    while i < n
      invariant i >= 1
      invariant forall e :: e in errors <==> (e.BadSig? ==> e.at + 1 < i) && Broken(hash, verify, c, genesis, e)
    {
      var curH := hash(c.states[i]);
      var valid := c.scheme == ED25519 && i - 1 < |c.sigs|
                   && SigOk(verify, c.sigs[i - 1], curH, ParseOwner(c.states[i - 1]));
      if !valid { errors := errors + [BadSig(i - 1)]; }
      i := i + 1;
    }
    if n == 0 { return Err(NoStates); }
    AcceptsValid(hash, verify, c, genesis);
    assert errors == [] <==> forall e :: !Broken(hash, verify, c, genesis, e) by {
      if errors != [] { assert errors[0] in errors; }
    }
    return Ok(Verdict(errors == [], errors, hash(c.states[n - 1])));
  }

  /** What a valid coin is, byte by byte: serial and value in every state, no previous hash in the first one, and each
      later one with the hash of the one before it and a 64-byte signature over its own hash by the owner of the one
      before it. */
  lemma ValidBytes(hash: Bytes -> Bytes32, verify: Verifier, c: CoinCore)
    ensures ValidCoin(hash, verify, c)
       <==> && c.states != [] && |c.sigs| >= |c.states| - 1 && (|c.states| > 1 ==> c.scheme == 0)
            && (forall i :: 0 <= i < |c.states| ==>
                  |c.states[i]| == 104 && c.states[i][0..32] == c.serial && FromLE(c.states[i][32..40]) == c.value)
            && c.states[0][72..104] == Zeros(32)
            && forall i, j :: 0 <= i < j < |c.states| && j == i + 1 ==>
                 && c.states[j][72..104] == hash(c.states[i]) && |c.sigs[i]| == 64
                 && verify(c.sigs[i], hash(c.states[j]), c.states[i][40..72])
  {
    hide FromLE;
    forall i | 0 <= i < |c.states| && |c.states[i]| == 104
      ensures ParseSerial(c.states[i]) == c.states[i][0..32] && ParseOwner(c.states[i]) == c.states[i][40..72]
      ensures ParsePrevHash(c.states[i]) == c.states[i][72..104]
    {
      ParsedBytes(c.states[i]);
    }
    if ValidCoin(hash, verify, c) {
      forall i | 0 <= i < |c.states| ensures Carries(c, c.states[i]) {}
    }
  }

  ghost predicate Anchored(hash: Bytes -> Bytes32, c: CoinCore, genesis: Option<Bytes>) {
    genesis.Some? ==> c.states != [] && hash(c.states[0]) == genesis.value
  }

  /** Nothing is broken exactly when the coin is valid and anchored. */
  lemma AcceptsValid(hash: Bytes -> Bytes32, verify: Verifier, c: CoinCore, genesis: Option<Bytes>)
    requires Sized(c.states) && c.states != []
    ensures (forall e :: !Broken(hash, verify, c, genesis, e))
       <==> ValidCoin(hash, verify, c) && Anchored(hash, c, genesis)
  {
    hide Broken, ValidCoin, Anchored;
    if forall e :: !Broken(hash, verify, c, genesis, e) {
      UnbrokenIsValid(hash, verify, c, genesis);
    }
    forall e | ValidCoin(hash, verify, c) && Anchored(hash, c, genesis) ensures !Broken(hash, verify, c, genesis, e) {
      ValidIsUnbroken(hash, verify, c, genesis, e);
    }
  }

  lemma UnbrokenIsValid(hash: Bytes -> Bytes32, verify: Verifier, c: CoinCore, genesis: Option<Bytes>)
    requires Sized(c.states) && c.states != [] && forall e :: !Broken(hash, verify, c, genesis, e)
    ensures ValidCoin(hash, verify, c) && Anchored(hash, c, genesis)
  {
    hide ParseSerial, ParseValue, ParsePrevHash, ParseOwner, SigOk;
    assert !Broken(hash, verify, c, genesis, NotGenesis) && !Broken(hash, verify, c, genesis, NotAnchored);
    forall i | 0 <= i < |c.states| ensures Carries(c, c.states[i]) {
      assert !Broken(hash, verify, c, genesis, SerialDiffers(i)) && !Broken(hash, verify, c, genesis, ValueDiffers(i));
    }
    forall i, j | 0 <= i < j < |c.states| && j == i + 1
      ensures c.scheme == ED25519 && i < |c.sigs| && Follows(hash, verify, c.states[i], c.states[j], c.sigs[i])
    {
      assert !Broken(hash, verify, c, genesis, LinkBroken(j)) && !Broken(hash, verify, c, genesis, BadSig(i));
    }
    if |c.states| > 1 {
      assert !Broken(hash, verify, c, genesis, BadSig(|c.states| - 2));
    }
  }

  lemma ValidIsUnbroken(hash: Bytes -> Bytes32, verify: Verifier, c: CoinCore, genesis: Option<Bytes>, e: ChainError)
    requires ValidCoin(hash, verify, c) && Anchored(hash, c, genesis)
    ensures !Broken(hash, verify, c, genesis, e)
  {
    hide ParseSerial, ParseValue, ParsePrevHash, ParseOwner, SigOk;
    if (e.SerialDiffers? || e.ValueDiffers?) && IsState(c, e.at) {
      assert Carries(c, c.states[e.at]);
    }
    if e.LinkBroken? && IsState(c, e.at - 1) && IsState(c, e.at) {
      assert Follows(hash, verify, c.states[e.at - 1], c.states[e.at], c.sigs[e.at - 1]);
    }
    if e.BadSig? && IsState(c, e.at) && IsState(c, e.at + 1) {
      assert Follows(hash, verify, c.states[e.at], c.states[e.at + 1], c.sigs[e.at]);
    }
  }
}
