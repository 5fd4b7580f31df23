/** What holds in every world the program can reach from init, spelled out. */
module Guarantees {
  import opened Bytes
  import opened Results
  import opened StateOps
  import opened Ledgers
  import opened Accounts
  import opened Machine
  import opened Invariant
  import opened Reachable
  import opened Progress
  import opened Spending
  import opened Dispute
  import CheckInGates
  import Payouts
  import I = Instructions

  /** total_unspent_supply is the value of all active coins, and the vault holds at least that much. */
  lemma SupplyBacked(env: Env, w: World)
    requires ReachableWorld(env, w)
    ensures w.config.supply == SumOf(w.coins, Unspent()) && Bal(w.ledger, Vault) >= w.config.supply
    ensures Total(w.ledger) == w.minted
  {
    hide SumOf, ReachableWorld, CoinsInv, Escrowed, Allowed;
    ReachableInv(env, w);
  }

  /** What is out to a wallet is within its commitment, and that within its cap. */
  lemma AllowanceBounds(env: Env, w: World, k: Bytes32)
    requires ReachableWorld(env, w)
    ensures SumOf(w.coins, UnspentOf(k)) <= AllowanceOf(w, k).committed <= AllowanceOf(w, k).cap
  {
    hide SumOf, ReachableWorld, CoinsInv, Escrowed, Backed;
    ReachableInv(env, w);
    assert AllowedFor(w, k);
  }

  /** A coin is in exactly one of three shapes; it counts its attempts; it is spent exactly when one attempt has won. */
  lemma JointShapes(env: Env, w: World, s: Bytes32)
    requires ReachableWorld(env, w) && s in w.coins
    ensures var coin := w.coins[s];
            && (Unheaded(coin) || Headed(coin) || Paid(coin))
            && !(Unheaded(coin) && Headed(coin)) && !(Headed(coin) && Paid(coin)) && !(Unheaded(coin) && Paid(coin))
            && coin.registry.count == |coin.subs| && coin.subs.Keys <= {0, 1}
            && (coin.registry.status.Spent? <==> exists a :: a in coin.subs && coin.subs[a].status.Won?)
            && forall a, b ::
                 a in coin.subs && b in coin.subs && coin.subs[a].status.Won? && coin.subs[b].status.Won? ==> a == b
  {
    hide Inv, ReachableWorld, SubInv, Genesis;
    ReachableInv(env, w);
    CoinAt(env, w, s);
    SpentIffWon(env, w, s);
  }

  /** Every stored chain is anchored at the minted state and linked; its length, owner and commitments are kept in step.
      */
  lemma StoredChains(env: Env, w: World, s: Bytes32, a: byte)
    requires ReachableWorld(env, w) && HasAttempt(w, s, a)
    ensures var reg, sub := w.coins[s].registry, w.coins[s].subs[a];
            && sub.states != [] && |sub.states| <= env.maxStates && env.hash(sub.states[0]) == reg.genesis
            && LinksOk(env.hash, reg, sub.states)
            && sub.links == |sub.states| - 1 == |sub.commits| - 1 && sub.finalOwner == ParseOwner(Last(sub.states))
  {
    hide Inv, ReachableWorld, LinksOk, I.BondAmount;
    ReachableInv(env, w);
    SubAt(env, w, s, a);
  }

  /** The escrow of a live attempt covers its bond, and the bond covers the coin. */
  lemma BondsCover(env: Env, w: World, s: Bytes32, a: byte)
    requires ReachableWorld(env, w) && HasAttempt(w, s, a) && Live(w.coins[s].subs[a].status)
    ensures var reg := w.coins[s].registry;
            && I.BondAmount(reg.value, w.config.bps).Ok?
            && Bal(w.ledger, Escrow(s, a)) >= I.BondAmount(reg.value, w.config.bps).value >= reg.value
  {
    hide Inv, ReachableWorld, WellChained;
    ReachableInv(env, w);
    SubAt(env, w, s, a);
    BondAt(env, w, s, a);
  }

  /** The vault cannot be drained by its authority: withdraw_vault never succeeds, since the vault's tokens are not
      owned by the key that signs. Past its own guards that is what it fails with. */
  lemma WithdrawRefused(env: Env, w: World, authority: Bytes32, amount: u64)
    requires env.who(authority).Wallet? && authority == w.config.authority
    ensures Step(env, w, Withdraw(authority, amount)).Err?
    ensures w.config.supply + amount <= U64_MAX && w.config.supply + amount <= Bal(w.ledger, Vault)
        <==> Step(env, w, Withdraw(authority, amount)) == Err(OwnerMismatch)
  {}

  /** The window of a pending attempt has passed and the accounts of the call are in order. */
  predicate Due(w: World, s: Bytes32, a: byte, x: I.Extras)
    requires HasAttempt(w, s, a)
  {
    && w.coins[s].subs[a].status.Pending? && RightExtras(Load(w, s, a), x)
    && (w.slot == U64_MAX || w.slot >= w.coins[s].head.since + w.config.window)
  }

  /** With the right coin, recipient and counterparty named, an open attempt can be finalized exactly when the accounts
      it needs are supplied, and a pending one settled exactly when besides its window is over. */
  lemma NeverStuck(env: Env, w: World, s: Bytes32, a: byte, x: I.Extras)
    requires ReachableWorld(env, w) && HasAttempt(w, s, a)
    ensures a <= 1
    ensures var c, k := w.coins[s], w.coins[s].registry.recipient;
            && (c.subs[a].status.Receiving? ==>
                  (DoFinalize(env, w, s, a, 1 - a, k, x).Ok? <==> FinalizeExtras(Load(w, s, a), x)))
            && (c.subs[a].status.Pending? ==>
                  (DoSettle(env, w, s, a, 1 - a, k, x).Ok?
                   <==> RightExtras(Load(w, s, a), x)
                        && (w.slot == U64_MAX || w.slot >= c.head.since + w.config.window)))
  {
    hide Inv, ReachableWorld, SubInv, DoFinalize, DoSettle, CheckInGates.Finalized, CheckInGates.Settled,
         I.ContenderWins;
    ReachableInv(env, w);
    SubAt(env, w, s, a);
    OpenAt(env, w, s, a);
    CheckInGates.FinalizeIff(env, w, s, a, 1 - a, w.coins[s].registry.recipient, x);
    CheckInGates.SettleIff(env, w, s, a, 1 - a, w.coins[s].registry.recipient, x);
  }

  /** Who settles without minding the counterparty. */
  const ALONE := I.Extras(I.Skipped, I.Skipped, I.Skipped, I.Given)

  function Later(w: World, slot: u64): u64 { if slot < w.slot then w.slot else slot }

  /** Finalize attempt `a` unless some head stands, wait for the window, settle the head. */
  function PayOutRun(w: World, s: Bytes32, a: byte): seq<Event>
    requires HasAttempt(w, s, a) && a <= 1
  {
    var coin := w.coins[s];
    if coin.head.isSet && coin.head.attempt <= 1 then
      [Tick(Later(w, I.SaturatingAdd(coin.head.since, w.config.window))),
       Settle(s, coin.head.attempt, 1 - coin.head.attempt, coin.registry.recipient, ALONE)]
    else
      [Finalize(s, a, 1 - a, coin.registry.recipient, ALL), Tick(I.SaturatingAdd(w.slot, w.config.window)),
       Settle(s, a, 1 - a, coin.registry.recipient, ALONE)]
  }

  /** An active coin that somebody has started to check in can always be paid out. Whether one can be started at all is
      another matter: see module Spendable. */
  lemma AlwaysSpendable(env: Env, w: World, s: Bytes32, a: byte)
    requires ReachableWorld(env, w) && HasAttempt(w, s, a) && w.coins[s].registry.status.Active?
    ensures a <= 1 && SpentIn(Run(env, w, PayOutRun(w, s, a)), s)
  {
    hide Inv, ReachableWorld, SubInv, Unheaded, Run, PayOutRun, SpentIn;
    ReachableInv(env, w);
    SubAt(env, w, s, a);
    ActiveShape(env, w, s, a);
    if w.coins[s].head.isSet { PaysWithHead(env, w, s, a); } else { PaysFromStart(env, w, s, a); }
  }

  lemma PaysWithHead(env: Env, w: World, s: Bytes32, a: byte)
    requires Inv(env, w) && HasAttempt(w, s, a) && a <= 1 && w.coins[s].head.isSet && w.coins[s].head.attempt <= 1
    requires HasAttempt(w, s, w.coins[s].head.attempt) && w.coins[s].subs[w.coins[s].head.attempt].status.Pending?
    ensures SpentIn(Run(env, w, PayOutRun(w, s, a)), s)
  {
    hide Inv, Run, Exec, SpentIn;
    var coin, slot := w.coins[s], Later(w, I.SaturatingAdd(w.coins[s].head.since, w.config.window));
    HeadPays(env, w, s, coin.head.attempt, slot);
    RunTwo(env, w, Tick(slot), Settle(s, coin.head.attempt, 1 - coin.head.attempt, coin.registry.recipient, ALONE));
  }

  lemma PaysFromStart(env: Env, w: World, s: Bytes32, a: byte)
    requires Inv(env, w) && HasAttempt(w, s, a) && a <= 1 && !w.coins[s].head.isSet && Unheaded(w.coins[s])
    ensures SpentIn(Run(env, w, PayOutRun(w, s, a)), s)
  {
    hide Inv, Run, SpentIn, DoFinalize, Unheaded, HeadSet;
    var slot, recipient := I.SaturatingAdd(w.slot, w.config.window), w.coins[s].registry.recipient;
    var first := Finalize(s, a, 1 - a, recipient, ALL);
    Headless(env, w, s, a);
    StepKeeps(env, w, first);
    HeadSetPending(env, w, s, a);
    assert Exec(env, w, first) == HeadSet(w, s, a);
    hide Exec, Step;
    HeadPays(env, HeadSet(w, s, a), s, a, slot);
    RunThree(env, w, first, Tick(slot), Settle(s, a, 1 - a, recipient, ALONE));
  }

  lemma ActiveShape(env: Env, w: World, s: Bytes32, a: byte)
    requires Inv(env, w) && HasAttempt(w, s, a) && w.coins[s].registry.status.Active?
    ensures var coin := w.coins[s];
            if coin.head.isSet then HasAttempt(w, s, coin.head.attempt) && coin.subs[coin.head.attempt].status.Pending?
                                    && coin.head.attempt <= 1
            else Unheaded(coin)
  {
    hide Inv, SubInv, Genesis;
    CoinAt(env, w, s);
  }

  lemma HeadSetPending(env: Env, w: World, s: Bytes32, a: byte)
    requires Inv(env, w) && a <= 1 && HasAttempt(w, s, a) && w.coins[s].subs[a].states != []
    ensures var after := HeadSet(w, s, a);
            && HasAttempt(after, s, a) && after.coins[s].subs[a].status.Pending? && after.coins[s].head.since == w.slot
            && after.coins[s].registry == w.coins[s].registry && after.config == w.config && after.slot == w.slot
  {
    hide Inv;
  }

  lemma HeadPays(env: Env, w: World, s: Bytes32, h: byte, slot: u64)
    requires Inv(env, w) && HasAttempt(w, s, h) && w.coins[s].subs[h].status.Pending? && h <= 1
    requires slot >= w.slot && slot >= I.SaturatingAdd(w.coins[s].head.since, w.config.window)
    ensures var settle := Settle(s, h, 1 - h, w.coins[s].registry.recipient, ALONE);
            SpentIn(Exec(env, Exec(env, w, Tick(slot)), settle), s)
  {
    hide Inv, DoSettle;
    StepKeeps(env, w, Tick(slot));
    var next := w.(slot := slot);
    assert Exec(env, w, Tick(slot)) == next;
    SettlePasses(env, next, s, h, ALONE);
    SettleSpends(env, next, s, h, 1 - h, w.coins[s].registry.recipient, ALONE);
  }

  lemma SettleSpends(env: Env, w: World, s: Bytes32, a: byte, other: byte, recipient: Bytes32, x: I.Extras)
    requires DoSettle(env, w, s, a, other, recipient, x).Ok?
    ensures SpentIn(DoSettle(env, w, s, a, other, recipient, x).value, s)
  {
    hide I.SettlePayOut, Payouts.SettleMoves, Payouts.Moves;
    Payouts.SettleEffect(env, Load(w, s, a), x);
  }

  lemma RunTwo(env: Env, w: World, a: Event, b: Event)
    ensures Run(env, w, [a, b]) == Exec(env, Exec(env, w, a), b)
  {
    hide Exec;
    var w1 := Exec(env, w, a);
    assert [a, b][1..] == [b] && [b][1..] == [];
    assert Run(env, w1, [b]) == Run(env, Exec(env, w1, b), []);
  }

  lemma RunThree(env: Env, w: World, a: Event, b: Event, c: Event)
    ensures Run(env, w, [a, b, c]) == Exec(env, Exec(env, Exec(env, w, a), b), c)
  {
    hide Exec;
    assert [a, b, c][1..] == [b, c];
    RunTwo(env, Exec(env, w, a), b, c);
  }

  /** Against a standing head a contender wins exactly with a longer chain, whatever the two forks look like. */
  lemma LongerChainWins(env: Env, w: World, s: Bytes32, a: byte)
    requires ReachableWorld(env, w) && HasAttempt(w, s, a) && Headed(w.coins[s]) && a != w.coins[s].head.attempt
    requires var coin := w.coins[s];
             CollisionFree(env.hash, Disputed(coin.registry, coin.subs[a].states, coin.subs[coin.head.attempt].states))
    ensures var coin := w.coins[s];
            I.ContenderWins(coin.subs[a].states, coin.head) <==>
              |coin.subs[a].states| > |coin.subs[coin.head.attempt].states|
  {
    hide Inv, ReachableWorld, I.ContenderWins, CollisionFree;
    ReachableInv(env, w);
    DisputeRule(env, w, s, a);
  }

  /** Settling with nothing but the mandatory accounts. */
  const BARE := I.Extras(I.Skipped, I.Skipped, I.Skipped, I.Skipped)

  /** A settle that skips the allowance is accepted and leaves the whole commitment behind: it then exceeds what is out
      to the wallet by the coin's value more than before. */
  lemma SkippedAllowanceStays(env: Env, w: World, s: Bytes32, a: byte)
    requires ReachableWorld(env, w) && HasAttempt(w, s, a) && Due(w, s, a, BARE)
    ensures a <= 1 && DoSettle(env, w, s, a, 1 - a, w.coins[s].registry.recipient, BARE).Ok?
    ensures var k := w.coins[s].registry.recipient;
            var after := Exec(env, w, Settle(s, a, 1 - a, k, BARE));
            Slack(after, k) == Slack(w, k) + w.coins[s].registry.value && w.coins[s].registry.value > 0
  {
    hide Inv, ReachableWorld, DoSettle, SubInv, Slack, Shaped, Genesis;
    ReachableInv(env, w);
    CoinAt(env, w, s);
    SubAt(env, w, s, a);
    SettlePasses(env, w, s, a, BARE);
    StepSlack(env, w, Settle(s, a, 1 - a, w.coins[s].registry.recipient, BARE), w.coins[s].registry.recipient);
  }

  /** A settle that skips an open counterparty leaves it open on a spent coin, its bond in escrow; finalizing it later
      rejects it, and the bond goes to the fee sink. */
  lemma SkippedCounterpartyStays(env: Env, w: World, s: Bytes32, a: byte)
    requires ReachableWorld(env, w) && HasAttempt(w, s, a) && Due(w, s, a, ALONE)
    requires 1 - a in w.coins[s].subs && w.coins[s].subs[1 - a].status.Receiving?
    ensures a <= 1
    ensures var settled := Exec(env, w, Settle(s, a, 1 - a, w.coins[s].registry.recipient, ALONE));
            var bond := I.BondOf(w.coins[s].registry.value, w.config.bps);
            && SpentIn(settled, s) && HasAttempt(settled, s, 1 - a) && settled.coins[s].subs[1 - a].status.Receiving?
            && Bal(settled.ledger, Escrow(s, 1 - a)) >= bond
            && var r := DoFinalize(env, settled, s, 1 - a, a, w.coins[s].registry.recipient, ALL);
               r.Ok? && Bal(r.value.ledger, Fees) == Bal(settled.ledger, Fees) + bond
  {
    hide Inv, ReachableWorld, DoSettle, DoFinalize, SubInv, SpentIn, I.BondOf;
    ReachableInv(env, w);
    SubAt(env, w, s, a);
    var e := Settle(s, a, 1 - a, w.coins[s].registry.recipient, ALONE);
    SettlePasses(env, w, s, a, ALONE);
    SettleSpends(env, w, s, a, 1 - a, w.coins[s].registry.recipient, ALONE);
    OtherLeft(env, w, s, a);
    StepKeeps(env, w, e);
    var settled := Exec(env, w, e);
    BondAt(env, settled, s, 1 - a);
    FinalizePasses(env, settled, s, 1 - a);
    RejectedPays(env, settled, s, 1 - a);
  }

  lemma OtherLeft(env: Env, w: World, s: Bytes32, a: byte)
    requires a <= 1 && HasAttempt(w, s, a) && 1 - a in w.coins[s].subs
    requires DoSettle(env, w, s, a, 1 - a, w.coins[s].registry.recipient, ALONE).Ok?
    ensures var after := DoSettle(env, w, s, a, 1 - a, w.coins[s].registry.recipient, ALONE).value;
            && HasAttempt(after, s, 1 - a) && after.coins[s].subs[1 - a] == w.coins[s].subs[1 - a]
            && after.coins[s].registry == w.coins[s].registry.(status := Spent) && after.config.bps == w.config.bps
  {
    hide I.SettlePayOut, Payouts.SettleMoves, Payouts.Moves;
    Payouts.SettleEffect(env, Load(w, s, a), ALONE);
  }

  lemma RejectedPays(env: Env, w: World, s: Bytes32, a: byte)
    requires Inv(env, w) && a <= 1 && HasAttempt(w, s, a) && w.coins[s].registry.status.Spent?
    requires DoFinalize(env, w, s, a, 1 - a, w.coins[s].registry.recipient, ALL).Ok?
    ensures Bal(DoFinalize(env, w, s, a, 1 - a, w.coins[s].registry.recipient, ALL).value.ledger, Fees)
         == Bal(w.ledger, Fees) + I.BondOf(w.coins[s].registry.value, w.config.bps)
  {
    hide Inv, I.VerifyFullChain, I.RejectSpent, I.BondOf;
    Payouts.RejectEffect(env, Load(w, s, a), w.slot);
  }
}
