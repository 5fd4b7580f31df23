/** Payouts never get stuck: with the right accounts, finalize and settle always go through. */
module Progress {
  import opened Bytes
  import opened StateOps
  import opened Ledgers
  import opened Accounts
  import opened Machine
  import opened Invariant
  import opened Reachable
  import opened Payouts
  import opened Sums
  import I = Instructions

  const ALL := I.Extras(I.Given, I.Given, I.Given, I.Given)

  /** The accounts a settle call needs: the counterparty skipped or present, its escrow only while it is open, the
      allowance skipped or present. */
  predicate RightExtras(c: I.Ctx, x: I.Extras) {
    && (x.other.Skipped?
        || (x.other.Given? && c.other.Some? && (c.other.value.status.Receiving? ==> x.otherEscrow.Given?)))
    && (x.allowance.Skipped? || x.allowance.Given?)
  }

  /** The accounts a finalize call needs: none, unless a head stands; then the counterparty, and for a win its escrow
      and the allowance, for a loss the token account of its checker. */
  predicate FinalizeExtras(c: I.Ctx, x: I.Extras) {
    c.registry.status.Active? && c.head.isSet ==>
      && x.other.Given?
      && if I.ContenderWins(c.mine.states, c.head) then x.otherEscrow.Given? && x.allowance.Given?
         else x.otherChecker.Given?
  }

  /** What is still out as an active coin is covered by the supply and by its recipient's commitment. */
  lemma ActiveCovered(env: Env, w: World, s: Bytes32)
    requires Inv(env, w) && s in w.coins && w.coins[s].registry.status.Active?
    ensures var reg := w.coins[s].registry;
            reg.value <= w.config.supply && reg.value <= w.allowances[reg.recipient].committed
  {
    hide CoinInv;
    var reg := w.coins[s].registry;
    assert AllowedFor(w, reg.recipient);
    SumBounds(Weights(w.coins, Unspent()));
    SumBounds(Weights(w.coins, UnspentOf(reg.recipient)));
    assert Weights(w.coins, Unspent())[s] == reg.value && Weights(w.coins, UnspentOf(reg.recipient))[s] == reg.value;
  }

  lemma WinPasses(env: Env, c: I.Ctx, x: I.Extras, slot: u64)
    requires x.otherEscrow.Given? && x.allowance.Given?
    requires c.other.Some? && c.mine.states != [] && c.allowance.Some? && Total(c.ledger) <= U64_MAX
    requires I.BondAmount(c.registry.value, c.config.bps).Ok?
    requires c.mine.attempt != c.other.value.attempt
    requires var bond := I.BondOf(c.registry.value, c.config.bps);
             && bond <= Bal(c.ledger, Escrow(c.mine.serial, c.mine.attempt))
             && bond <= Bal(c.ledger, Escrow(c.mine.serial, c.other.value.attempt))
    requires c.registry.value <= Bal(c.ledger, Vault) && c.registry.value <= c.config.supply
    requires c.registry.value <= c.allowance.value.committed
    ensures I.ResolveWin(env, c, x, slot).Ok?
  {
    hide I.BondOf;
    var serial, checker := c.mine.serial, env.who(c.mine.checker);
    var bond := I.BondAmount(c.registry.value, c.config.bps).value;
    TransferWithinSupply(c.ledger, Escrow(serial, c.mine.attempt), checker, bond);
    var l1 := Transfer(c.ledger, Escrow(serial, c.mine.attempt), checker, bond).value;
    TransferWithinSupply(l1, Escrow(serial, c.other.value.attempt), checker, bond);
    var l2 := Transfer(l1, Escrow(serial, c.other.value.attempt), checker, bond).value;
    TransferWithinSupply(l2, Vault, env.who(c.mine.finalOwner), c.registry.value);
  }

  lemma PayOutPasses(env: Env, c: I.Ctx, x: I.Extras)
    requires RightExtras(c, x) && c.allowance.Some? && Total(c.ledger) <= U64_MAX
    requires I.BondAmount(c.registry.value, c.config.bps).Ok?
    requires c.other.Some? ==> c.mine.attempt != c.other.value.attempt
    requires c.other.Some? ==> !c.other.value.status.Pending? && !c.other.value.status.Won?
    requires var bond := I.BondOf(c.registry.value, c.config.bps);
             && bond <= Bal(c.ledger, Escrow(c.mine.serial, c.mine.attempt))
             && (Abandons(c, x) ==> bond <= Bal(c.ledger, Escrow(c.mine.serial, c.other.value.attempt)))
    requires c.registry.value <= Bal(c.ledger, Vault) && c.registry.value <= c.config.supply
    requires c.registry.value <= c.allowance.value.committed
    ensures I.SettlePayOut(env, c, x).Ok?
  {
    hide I.BondOf;
    var serial, bond := c.mine.serial, I.BondAmount(c.registry.value, c.config.bps).value;
    if Abandons(c, x) {
      TransferWithinSupply(c.ledger, Escrow(serial, c.other.value.attempt), Fees, bond);
    }
    var l1 := I.Abandon(c, x, bond).value.ledger;
    TransferWithinSupply(l1, Vault, env.who(c.mine.finalOwner), c.registry.value);
    var l2 := Transfer(l1, Vault, env.who(c.mine.finalOwner), c.registry.value).value;
    TransferWithinSupply(l2, Escrow(serial, c.mine.attempt), env.who(c.mine.checker), bond);
  }

  /** Where an attempt stands when it is still open, or when it owns the running window. */
  lemma OpenAt(env: Env, w: World, s: Bytes32, a: byte)
    requires Inv(env, w) && HasAttempt(w, s, a)
    ensures var coin := w.coins[s];
            && (coin.subs[a].status.Pending? ==> Headed(coin) && a == coin.head.attempt)
            && (coin.subs[a].status.Receiving? ==>
                  coin.registry.status.Active? && coin.head.isSet ==> Headed(coin) && 1 - a == coin.head.attempt)
  {
    hide Inv, SubInv, Genesis;
    CoinAt(env, w, s);
  }

  lemma FinalizePasses(env: Env, w: World, s: Bytes32, a: byte)
    requires Inv(env, w) && HasAttempt(w, s, a) && w.coins[s].subs[a].status.Receiving?
    ensures a <= 1 && DoFinalize(env, w, s, a, 1 - a, w.coins[s].registry.recipient, ALL).Ok?
  {
    hide Inv, I.ContenderWins, DoFinalize;
    FinalizePassesWith(env, w, s, a, ALL);
  }

  lemma FinalizePassesWith(env: Env, w: World, s: Bytes32, a: byte, x: I.Extras)
    requires Inv(env, w) && HasAttempt(w, s, a) && w.coins[s].subs[a].status.Receiving?
    requires FinalizeExtras(Load(w, s, a), x)
    ensures a <= 1 && DoFinalize(env, w, s, a, 1 - a, w.coins[s].registry.recipient, x).Ok?
  {
    hide Inv, CoinInv, WellChained, LinksOk, I.VerifyFullChain, I.ContenderWins, I.ResolveWin, I.BondAmount, I.BondOf,
         ParseOwner, AllowedFor;
    CoinAt(env, w, s);
    SubAt(env, w, s, a);
    BondAt(env, w, s, a);
    OpenAt(env, w, s, a);
    var coin, c := w.coins[s], Load(w, s, a);
    ChainPasses(env, coin.registry, c.mine.states);
    var bond := I.BondOf(coin.registry.value, w.config.bps);
    if coin.registry.status.Spent? {
      TransferWithinSupply(w.ledger, Escrow(s, a), Fees, bond);
    } else if coin.head.isSet {
      SubAt(env, w, s, 1 - a);
      if I.ContenderWins(c.mine.states, c.head) {
        BondAt(env, w, s, 1 - a);
        ActiveCovered(env, w, s);
        WinPasses(env, c, x, w.slot);
      } else {
        TransferWithinSupply(w.ledger, Escrow(s, a), env.who(c.other.value.checker), bond);
      }
    }
  }

  lemma ChainPasses(env: Env, reg: Registry, states: seq<State>)
    requires WellChained(env.hash, reg, states)
    ensures I.VerifyFullChain(env.hash, reg, states).Ok?
  {
    VerifyFullChainIff(env.hash, reg, states);
  }

  lemma SettlePasses(env: Env, w: World, s: Bytes32, a: byte, x: I.Extras)
    requires Inv(env, w) && HasAttempt(w, s, a) && w.coins[s].subs[a].status.Pending?
    requires w.slot >= I.SaturatingAdd(w.coins[s].head.since, w.config.window)
    requires RightExtras(Load(w, s, a), x)
    ensures a <= 1 && DoSettle(env, w, s, a, 1 - a, w.coins[s].registry.recipient, x).Ok?
  {
    hide Inv, CoinInv, WellChained, I.SettlePayOut, I.BondAmount, I.BondOf, ParseOwner, AllowedFor;
    CoinAt(env, w, s);
    SubAt(env, w, s, a);
    BondAt(env, w, s, a);
    OpenAt(env, w, s, a);
    ActiveCovered(env, w, s);
    var c := Load(w, s, a);
    if c.other.Some? {
      SubAt(env, w, s, 1 - a);
      if c.other.value.status.Receiving? { BondAt(env, w, s, 1 - a); }
    }
    PayOutPasses(env, c, x);
  }
}
