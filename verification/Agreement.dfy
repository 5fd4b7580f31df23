/** The client's verifier and the program accept the same chains. */
module Agreement {
  import opened Bytes
  import opened Results
  import opened StateOps
  import opened Ledgers
  import opened Accounts
  import opened Machine
  import opened Invariant
  import opened Reachable
  import opened Batches
  import opened Coins
  import opened ChainVerify
  import I = Instructions

  ghost predicate HasLinks(c: CoinCore) {
    && c.states != [] && Sized(c.states) && |c.sigs| >= |c.states| - 1
    && forall i :: 0 <= i < |c.states| - 1 ==> |c.sigs[i]| == 64
  }

  /** The coin's links as append_links takes them: link `i` is state i+1 with the signature of the owner of state i. */
  ghost function LinksOf(c: CoinCore): (links: seq<Link>)
    requires HasLinks(c)
    ensures |links| == |c.states| - 1
  {
    seq(|c.states| - 1, i requires 0 <= i < |c.states| - 1 => Link(c.states[i + 1], c.sigs[i]))
  }

  function StateAt(c: CoinCore, i: int): State
    requires IsState(c, i)
  {
    c.states[i]
  }

  ghost function StatesIn(c: CoinCore): (states: seq<State>)
    requires Sized(c.states)
    ensures |states| == |c.states| && forall i :: 0 <= i < |states| ==> states[i] == c.states[i]
  {
    seq(|c.states|, i requires IsState(c, i) => StateAt(c, i))
  }

  /** The registry of a minted coin is anchored at its first state. */
  ghost predicate Minted(hash: Bytes -> Bytes32, reg: Registry) {
    reg.genesis == hash(Genesis(reg.serial, reg.value, reg.recipient))
  }

  lemma ValidHasLinks(hash: Bytes -> Bytes32, verify: Verifier, c: CoinCore)
    requires ValidCoin(hash, verify, c)
    ensures HasLinks(c)
  {
    hide ParsePrevHash, ParseSerial, ParseValue, ParseOwner;
    forall i | 0 <= i < |c.states| ensures |c.states[i]| == STATE_SIZE { assert Carries(c, c.states[i]); }
    forall i | 0 <= i < |c.states| - 1 ensures |c.sigs[i]| == 64 {
      assert Follows(hash, verify, c.states[i], c.states[i + 1], c.sigs[i]);
    }
  }

  /** An anchored valid coin starts at the minted state, so it carries the registry's serial and value. */
  lemma AnchoredStart(hash: Bytes -> Bytes32, verify: Verifier, c: CoinCore, reg: Registry)
    requires ValidCoin(hash, verify, c) && Anchored(hash, c, Some(reg.genesis)) && Minted(hash, reg)
    requires |c.states[0]| == STATE_SIZE
    requires CollisionFree(hash, [c.states[0], Genesis(reg.serial, reg.value, reg.recipient)])
    ensures c.states[0] == Genesis(reg.serial, reg.value, reg.recipient)
    ensures c.serial == reg.serial && c.value == reg.value && ParseOwner(c.states[0]) == reg.recipient
  {
    var both := [c.states[0], Genesis(reg.serial, reg.value, reg.recipient)];
    assert both[0] in both && both[1] in both;
    assert Carries(c, c.states[0]);
    ParseFields(reg.serial, reg.value, reg.recipient, Zeros(32));
  }

  /** start_check_in never refuses the first state of an anchored valid coin for its content. */
  lemma ClientPassesStart(env: Env, verify: Verifier, c: CoinCore, cfg: Config, reg: Registry, inUse: bool,
                          ledger: Ledger, slot: u64, attempt: byte, checker: Bytes32, held: u64)
    requires ValidCoin(env.hash, verify, c) && Anchored(env.hash, c, Some(reg.genesis)) && Minted(env.hash, reg)
    requires |c.states[0]| == STATE_SIZE
    requires CollisionFree(env.hash, [c.states[0], Genesis(reg.serial, reg.value, reg.recipient)])
    ensures var first := c.states[0];
            var r := I.StartCheckIn(env, cfg, reg, inUse, ledger, slot, reg.serial, attempt, first, checker, held);
            r.Err? ==> r.error != SerialMismatch && r.error != ValueMismatch && r.error != GenesisMismatch
  {
    AnchoredStart(env.hash, verify, c, reg);
    ParseFields(reg.serial, reg.value, reg.recipient, Zeros(32));
    hide Genesis, ParseSerial, ParseValue, ParseOwner;
  }

  /** Any window of a valid coin's chain is linked in the program's sense. */
  lemma ValidIsLinked(hash: Bytes -> Bytes32, verify: Verifier, c: CoinCore, reg: Registry, k: nat, m: nat)
    requires ValidCoin(hash, verify, c) && HasLinks(c) && c.serial == reg.serial && c.value == reg.value
    requires 1 <= k <= m <= |c.states|
    ensures LinksOk(hash, reg, [StatesIn(c)[k - 1]] + I.StatesOf(LinksOf(c)[k - 1..m - 1]))
  {
    hide ParseSerial, ParseValue, ParsePrevHash, ParseOwner, SigOk;
    var chain := [StatesIn(c)[k - 1]] + I.StatesOf(LinksOf(c)[k - 1..m - 1]);
    assert chain == StatesIn(c)[k - 1..m];
    hide HasLinks, ValidCoin;
    ValidLinks(hash, verify, c);
    forall i, j | 0 <= i < j < |chain| && j == i + 1 ensures LinkOk(hash, reg, chain[i], chain[j]) {
      assert Continues(hash, c, k - 1 + i);
    }
  }

  /** State i+1 carries the coin's serial and value and hashes back to state i. */
  predicate Continues(hash: Bytes -> Bytes32, c: CoinCore, i: nat) {
    && IsState(c, i) && IsState(c, i + 1)
    && Carries(c, c.states[i + 1]) && ParsePrevHash(c.states[i + 1]) == hash(c.states[i])
  }

  lemma ValidLinks(hash: Bytes -> Bytes32, verify: Verifier, c: CoinCore)
    requires ValidCoin(hash, verify, c)
    ensures forall i: nat :: i + 1 < |c.states| ==> Continues(hash, c, i)
  {
    hide ParseSerial, ParseValue, ParsePrevHash, ParseOwner, SigOk;
    forall i: nat | i + 1 < |c.states| ensures Continues(hash, c, i) {
      assert Carries(c, c.states[i + 1]);
      assert Follows(hash, verify, c.states[i], c.states[i + 1], c.sigs[i]);
    }
  }

  /** From any stored prefix of a valid coin, its next links are accepted in any split into allowed batches,
      and what is stored is the longer prefix. */
  lemma ClientPassesAppend(env: Env, verify: Verifier, c: CoinCore, cfg: Config, reg: Registry, sub: Submission, k: nat,
                           m: nat, batches: seq<seq<Link>>)
    requires ValidCoin(env.hash, verify, c) && HasLinks(c) && c.serial == reg.serial && c.value == reg.value
    requires 1 <= k <= m <= |c.states| <= env.maxStates
    requires Ready(cfg, sub, reg.serial) && cfg.sigScheme == 0 && sub.states == StatesIn(c)[..k] && sub.links == k - 1
    requires AllowedBatches(cfg, batches) && Flatten(batches) == LinksOf(c)[k - 1..m - 1]
    requires sub.finalOwner == ParseOwner(Last(sub.states))
    ensures var r := AppendAll(env, cfg, reg, sub, reg.serial, batches);
            && r.Ok? && r.value.states == StatesIn(c)[..m] && r.value.links == m - 1 && r.value.status.Receiving?
            && r.value.finalOwner == ParseOwner(StatesIn(c)[m - 1])
  {
    hide ParseOwner, ValidCoin, LinksOk, I.AppendLinks;
    var links := LinksOf(c)[k - 1..m - 1];
    BatchingInvisible(env, cfg, reg, sub, reg.serial, batches);
    ValidIsLinked(env.hash, verify, c, reg, k, m);
    assert StatesIn(c)[..k] + I.StatesOf(links) == StatesIn(c)[..m];
    if links != [] { assert links[|links| - 1].state == StatesIn(c)[m - 1]; }
  }

  /** A stored chain, seen as a coin of the client. */
  ghost function AsCoin(reg: Registry, states: seq<State>, sigs: seq<Bytes>): CoinCore {
    CoinCore(reg.serial, reg.value, states, sigs, ED25519)
  }

  /** Every chain stored on-chain passes the client's structure check with the registry's anchor. */
  lemma ProgramPassesClient(env: Env, verify: Verifier, w: World, s: Bytes32, a: byte, sigs: seq<Bytes>, e: ChainError)
    requires Inv(env, w) && HasAttempt(w, s, a) && !e.BadSig?
    requires var reg, states := w.coins[s].registry, w.coins[s].subs[a].states;
             states != [] ==> CollisionFree(env.hash, [states[0], Genesis(reg.serial, reg.value, reg.recipient)])
    ensures var reg, sub := w.coins[s].registry, w.coins[s].subs[a];
            !Broken(env.hash, verify, AsCoin(reg, sub.states, sigs), Some(reg.genesis), e)
  {
    hide Inv, I.BondAmount, Shaped;
    CoinAt(env, w, s);
    SubAt(env, w, s, a);
    ChainUnbroken(env.hash, verify, w.coins[s].registry, w.coins[s].subs[a].states, sigs, e);
  }

  lemma ChainUnbroken(hash: Bytes -> Bytes32, verify: Verifier, reg: Registry, states: seq<State>, sigs: seq<Bytes>,
                      e: ChainError)
    requires WellChained(hash, reg, states) && Minted(hash, reg) && !e.BadSig?
    requires CollisionFree(hash, [states[0], Genesis(reg.serial, reg.value, reg.recipient)])
    ensures !Broken(hash, verify, AsCoin(reg, states, sigs), Some(reg.genesis), e)
  {
    var both := [states[0], Genesis(reg.serial, reg.value, reg.recipient)];
    assert both[0] in both && both[1] in both;
    ParseFields(reg.serial, reg.value, reg.recipient, Zeros(32));
    hide ParseSerial, ParseValue, ParsePrevHash, ParseOwner, Genesis;
    if (e.SerialDiffers? || e.ValueDiffers? || e.LinkBroken?) && 1 <= e.at < |states| {
      assert LinkOk(hash, reg, states[e.at - 1], states[e.at]);
    }
  }
}
