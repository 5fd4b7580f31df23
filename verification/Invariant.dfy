/** What every reachable world satisfies. */
module Invariant {
  import opened Bytes
  import opened StateOps
  import opened Ledgers
  import opened Accounts
  import opened Machine
  import opened Sums
  import I = Instructions

  // ---- stored chains

  predicate LinkOk(hash: Bytes -> Bytes32, reg: Registry, prev: State, state: State) {
    ParseSerial(state) == reg.serial && ParseValue(state) == reg.value && ParsePrevHash(state) == hash(prev)
  }

  ghost predicate LinksOk(hash: Bytes -> Bytes32, reg: Registry, states: seq<State>) {
    forall i, j :: 0 <= i < j < |states| && j == i + 1 ==> LinkOk(hash, reg, states[i], states[j])
  }

  predicate SigsOk(scheme: byte, links: seq<Link>) {
    forall i :: 0 <= i < |links| ==> I.SigFormatOk(scheme, links[i].sig)
  }

  ghost predicate WellChained(hash: Bytes -> Bytes32, reg: Registry, states: seq<State>) {
    && |states| >= 1
    && hash(states[0]) == reg.genesis
    && ParseSerial(states[0]) == reg.serial && ParseValue(states[0]) == reg.value
    && LinksOk(hash, reg, states)
  }

  lemma {:induction false} CheckFromIff(hash: Bytes -> Bytes32, reg: Registry, states: seq<State>, i: nat)
    requires 1 <= i <= |states|
    ensures I.CheckFrom(hash, reg, states, i).Ok?
       <==> LinksOk(hash, reg, states[i - 1..])
    decreases |states| - i
  {
    if i < |states| {
      CheckFromIff(hash, reg, states, i + 1);
      LinksOkTail(hash, reg, states[i - 1..]);
    }
  }

  /** verify_full_chain accepts what is anchored and linked; it leaves the first state's fields to its hash. */
  lemma VerifyFullChainIff(hash: Bytes -> Bytes32, reg: Registry, states: seq<State>)
    ensures I.VerifyFullChain(hash, reg, states).Ok?
       <==> states != [] && hash(states[0]) == reg.genesis && LinksOk(hash, reg, states)
  {
    if states != [] {
      CheckFromIff(hash, reg, states, 1);
    }
  }

  lemma LinksOkTail(hash: Bytes -> Bytes32, reg: Registry, states: seq<State>)
    requires |states| >= 2
    ensures LinksOk(hash, reg, states) <==> LinkOk(hash, reg, states[0], states[1]) && LinksOk(hash, reg, states[1..])
  {
    var rest := states[1..];
    forall i, j | 0 <= i < j < |rest| && j == i + 1 && LinksOk(hash, reg, states)
      ensures LinkOk(hash, reg, rest[i], rest[j])
    {
      assert LinkOk(hash, reg, states[i + 1], states[j + 1]);
    }
    forall i, j | 0 <= i < j < |states| && j == i + 1
                  && LinkOk(hash, reg, states[0], states[1]) && LinksOk(hash, reg, rest)
      ensures LinkOk(hash, reg, states[i], states[j])
    {
      assert i == 0 || LinkOk(hash, reg, rest[i - 1], rest[j - 1]);
    }
  }

  lemma {:induction false} CheckLinksIff(hash: Bytes -> Bytes32, scheme: byte, reg: Registry, prev: State,
                                         links: seq<Link>)
    ensures I.CheckLinks(hash, scheme, reg, prev, links).Ok?
       <==> LinksOk(hash, reg, [prev] + I.StatesOf(links)) && SigsOk(scheme, links)
    decreases |links|
  {
    if links != [] {
      hide LinksOk, SigsOk, I.SigFormatOk, ParseSerial, ParseValue, ParsePrevHash;
      var state, rest := links[0].state, links[1..];
      var all := [prev] + I.StatesOf(links);
      CheckLinksIff(hash, scheme, reg, state, rest);
      LinksOkTail(hash, reg, all);
      assert all[1..] == [state] + I.StatesOf(rest);
      SigsOkTail(scheme, links);
    }
  }

  lemma SigsOkTail(scheme: byte, links: seq<Link>)
    requires links != []
    ensures SigsOk(scheme, links) <==> I.SigFormatOk(scheme, links[0].sig) && SigsOk(scheme, links[1..])
  {
    hide I.SigFormatOk;
    forall i | 0 <= i < |links| && I.SigFormatOk(scheme, links[0].sig) && SigsOk(scheme, links[1..])
      ensures I.SigFormatOk(scheme, links[i].sig)
    {
      assert i == 0 || links[i] == links[1..][i - 1];
    }
  }

  // ---- one coin

  ghost predicate SubInv(env: Env, bps: u32, reg: Registry, attempt: byte, sub: Submission) {
    && sub.serial == reg.serial && sub.attempt == attempt
    && env.who(sub.checker).Wallet?
    && WellChained(env.hash, reg, sub.states) && |sub.states| <= env.maxStates
    && sub.links == |sub.states| - 1 && |sub.commits| == |sub.states|
    && sub.finalOwner == ParseOwner(Last(sub.states))
    && I.BondAmount(reg.value, bps).Ok?
  }

  ghost predicate HeadIs(coin: Coin, status: SubmissionStatus) {
    && coin.head.isSet && coin.head.attempt in coin.subs
    && var sub := coin.subs[coin.head.attempt];
       sub.status == status && sub.states != [] && coin.head.state == Last(sub.states) && coin.head.len == |sub.states|
  }

  /** The attempt that is not the head is open, lost or, where that may be, rejected. */
  ghost predicate OtherIn(coin: Coin, rejectedToo: bool) {
    var other := 1 - coin.head.attempt;
    other in coin.subs ==>
      var status := coin.subs[other].status;
      status.Receiving? || status.Lost? || (rejectedToo && status.Rejected?)
  }

  /** No head yet: everybody is still sending links. */
  ghost predicate Unheaded(coin: Coin) {
    coin.registry.status.Active? && !coin.head.isSet && forall a :: a in coin.subs ==> coin.subs[a].status.Receiving?
  }

  /** A head stands and its window runs. */
  ghost predicate Headed(coin: Coin) {
    coin.registry.status.Active? && HeadIs(coin, Pending) && OtherIn(coin, false)
  }

  /** The value has been paid to the owner of the head. */
  ghost predicate Paid(coin: Coin) {
    coin.registry.status.Spent? && HeadIs(coin, Won) && OtherIn(coin, true)
  }

  ghost predicate CoinInv(env: Env, bps: u32, serial: Bytes32, coin: Coin) {
    var reg := coin.registry;
    && reg.serial == serial && reg.value > 0
    && reg.genesis == env.hash(Genesis(serial, reg.value, reg.recipient))
    && coin.subs.Keys <= {0, 1} && reg.count == |coin.subs|
    && (forall a :: a in coin.subs ==> SubInv(env, bps, reg, a, coin.subs[a]))
    && Shaped(coin)
  }

  ghost predicate Shaped(coin: Coin) { Unheaded(coin) || Headed(coin) || Paid(coin) }

  // ---- totals over coins

  ghost function SumOf(coins: map<Bytes32, Coin>, f: Coin -> int): int {
    Sum(Weights(coins, f))
  }

  function Weights(coins: map<Bytes32, Coin>, f: Coin -> int): map<Bytes32, int> {
    map s | s in coins :: f(coins[s])
  }

  lemma SumOfUpdate(coins: map<Bytes32, Coin>, s: Bytes32, c: Coin, f: Coin -> int)
    ensures SumOf(coins[s := c], f) == SumOf(coins, f) + f(c) - (if s in coins then f(coins[s]) else 0)
  {
    SumUpdate(Weights(coins, f), s, f(c));
    assert Weights(coins[s := c], f) == Weights(coins, f)[s := f(c)];
  }

  /** Value that is still out as this coin. */
  function Unspent(): Coin -> int { (c: Coin) => if c.registry.status.Active? then c.registry.value else 0 }

  /** Value that is still out and was minted to `k`. */
  function UnspentOf(k: Bytes32): Coin -> int {
    (c: Coin) => if c.registry.status.Active? && c.registry.recipient == k then c.registry.value else 0
  }

  // ---- the invariant

  predicate ConfigInv(c: Config) { c.bps >= 10_000 && c.window >= 1 && c.maxLinks >= 1 && c.sigScheme <= 1 }

  ghost predicate CoinsInv(env: Env, w: World) {
    forall s {:trigger CoinInv(env, w.config.bps, s, w.coins[s])} :: s in w.coins ==>
      CoinInv(env, w.config.bps, s, w.coins[s])
  }

  /** The bond of every live submission is in its escrow. */
  ghost predicate Escrowed(w: World) {
    forall s, a :: s in w.coins && a in w.coins[s].subs && Live(w.coins[s].subs[a].status)
                   ==> Bal(w.ledger, Escrow(s, a)) >= I.BondOf(w.coins[s].registry.value, w.config.bps)
  }

  /** What coin `s` counts for under `f`; nothing before it is minted. */
  ghost function Counted(w: World, s: Bytes32, f: Coin -> int): int {
    if s in w.coins then f(w.coins[s]) else 0
  }

  /** Unspent supply is what is out, and the vault holds at least that. */
  ghost predicate Backed(w: World) {
    w.config.supply == SumOf(w.coins, Unspent()) && Bal(w.ledger, Vault) >= w.config.supply
  }

  /** What is out to `k` stays within its commitment, and that within its cap. */
  ghost predicate AllowedFor(w: World, k: Bytes32) {
    SumOf(w.coins, UnspentOf(k)) <= AllowanceOf(w, k).committed <= AllowanceOf(w, k).cap
  }

  ghost predicate Allowed(w: World) {
    && (forall k: Bytes32 :: AllowedFor(w, k))
    && (forall k :: k in w.allowances ==> w.allowances[k].initialized)
    && (forall s :: s in w.coins ==> w.coins[s].registry.recipient in w.allowances)
  }

  ghost predicate Inv(env: Env, w: World) {
    ConfigInv(w.config) && Total(w.ledger) == w.minted && CoinsInv(env, w) && Escrowed(w) && Backed(w) && Allowed(w)
  }

  lemma InitialInv(env: Env, w: World)
    requires Initial(w)
    ensures Inv(env, w)
  {
    forall f: Coin -> int ensures SumOf(w.coins, f) == 0 {
      assert Weights(w.coins, f) == map[];
    }
  }
}
