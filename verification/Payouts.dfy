/** Where the money goes: the exact balance changes of every paying instruction. */
module Payouts {
  import opened Bytes
  import opened Results
  import opened Ledgers
  import opened Accounts
  import I = Instructions

  ghost predicate Moves(before: Ledger, after: Ledger, delta: Owner -> int) {
    Total(after) == Total(before) && forall o :: Bal(after, o) == Bal(before, o) + delta(o)
  }

  function WinMoves(env: Env, c: I.Ctx): Owner -> int
    requires c.other.Some?
  {
    var bond := I.BondOf(c.registry.value, c.config.bps);
    var checker := env.who(c.mine.checker);
    (o: Owner) =>
      Delta(o, Escrow(c.mine.serial, c.mine.attempt), checker, bond)
      + Delta(o, Escrow(c.mine.serial, c.other.value.attempt), checker, bond)
      + Delta(o, Vault, env.who(c.mine.finalOwner), c.registry.value)
  }

  /** A winning contender takes both bonds and the value; the head's attempt is lost. */
  lemma WinEffect(env: Env, c: I.Ctx, x: I.Extras, slot: u64)
    requires c.other.Some? && c.mine.states != [] && I.ResolveWin(env, c, x, slot).Ok?
    ensures var value, d := c.registry.value, I.ResolveWin(env, c, x, slot).value;
            && Moves(c.ledger, d.ledger, WinMoves(env, c))
            && value <= c.config.supply && c.allowance.Some? && value <= c.allowance.value.committed
            && d == c.(ledger := d.ledger, head := I.HeadOf(c.mine, slot),
                       registry := c.registry.(status := Spent),
                       config := c.config.(supply := c.config.supply - value),
                       allowance := Some(c.allowance.value.(committed := c.allowance.value.committed - value)),
                       mine := c.mine.(status := Won, finalized := slot),
                       other := Some(c.other.value.(status := Lost)))
  {
    hide I.BondAmount, I.BondOf, Transfer, Delta, Total;
  }

  /** Settle abandons the counterparty exactly when it is supplied and still open. */
  predicate Abandons(c: I.Ctx, x: I.Extras) {
    x.other.Given? && c.other.Some? && c.other.value.status.Receiving?
  }

  function SettleMoves(env: Env, c: I.Ctx, x: I.Extras): Owner -> int {
    var bond := I.BondOf(c.registry.value, c.config.bps);
    (o: Owner) =>
      (if Abandons(c, x) then Delta(o, Escrow(c.mine.serial, c.other.value.attempt), Fees, bond) else 0)
      + Delta(o, Vault, env.who(c.mine.finalOwner), c.registry.value)
      + Delta(o, Escrow(c.mine.serial, c.mine.attempt), env.who(c.mine.checker), bond)
  }

  lemma AbandonEffect(c: I.Ctx, x: I.Extras, bond: u64)
    requires I.Abandon(c, x, bond).Ok?
    ensures var d := I.Abandon(c, x, bond).value;
            && Total(d.ledger) == Total(c.ledger)
            && (forall o :: Bal(d.ledger, o) == Bal(c.ledger, o)
                  + if Abandons(c, x) then Delta(o, Escrow(c.mine.serial, c.other.value.attempt), Fees, bond) else 0)
            && d == c.(ledger := d.ledger,
                       other := if Abandons(c, x) then Some(c.other.value.(status := Rejected)) else c.other)
  {
    hide Transfer, Delta, Total;
  }

  lemma ReleaseEffect(a: Option<Allowance>, e: I.Extra, value: u64)
    requires I.Release(a, e, value).Ok?
    ensures !e.Missing? && (e.Given? ==> a.Some? && value <= a.value.committed)
    ensures I.Release(a, e, value).value
         == if e.Skipped? then a else Some(a.value.(committed := a.value.committed - value))
  {}

  /** Settle pays the value, refunds the bond and sends an abandoned bond to the fee sink. */
  lemma SettleEffect(env: Env, c: I.Ctx, x: I.Extras)
    requires I.SettlePayOut(env, c, x).Ok?
    ensures var value, d := c.registry.value, I.SettlePayOut(env, c, x).value;
            && Moves(c.ledger, d.ledger, SettleMoves(env, c, x))
            && value <= c.config.supply
            && !x.allowance.Missing?
            && (x.allowance.Given? ==> c.allowance.Some? && value <= c.allowance.value.committed)
            && d == c.(ledger := d.ledger,
                       registry := c.registry.(status := Spent),
                       config := c.config.(supply := c.config.supply - value),
                       allowance := if x.allowance.Skipped? then c.allowance
                                    else Some(c.allowance.value.(committed := c.allowance.value.committed - value)),
                       mine := c.mine.(status := Won),
                       other := if Abandons(c, x) then Some(c.other.value.(status := Rejected)) else c.other)
  {
    hide I.BondAmount, I.BondOf, Transfer, Delta, Total, I.Abandon, I.Release, Abandons;
    AbandonEffect(c, x, I.BondAmount(c.registry.value, c.config.bps).value);
    ReleaseEffect(c.allowance, x.allowance, c.registry.value);
  }

  lemma RejectEffect(env: Env, c: I.Ctx, slot: u64)
    requires I.RejectSpent(c, slot).Ok?
    ensures var d := I.RejectSpent(c, slot).value;
            && Moves(c.ledger, d.ledger, RejectMoves(c))
            && d == c.(ledger := d.ledger, mine := c.mine.(status := Rejected, finalized := slot))
  {
    hide I.BondAmount, I.BondOf;
  }

  function RejectMoves(c: I.Ctx): Owner -> int {
    (o: Owner) => Delta(o, Escrow(c.mine.serial, c.mine.attempt), Fees, I.BondOf(c.registry.value, c.config.bps))
  }

  lemma LoseEffect(env: Env, c: I.Ctx, x: I.Extras, slot: u64)
    requires c.other.Some? && I.ResolveLose(env, c, x, slot).Ok?
    ensures var d := I.ResolveLose(env, c, x, slot).value;
            && Moves(c.ledger, d.ledger, LoseMoves(env, c))
            && d == c.(ledger := d.ledger, mine := c.mine.(status := Lost, finalized := slot))
  {
    hide I.BondAmount, I.BondOf;
  }

  function LoseMoves(env: Env, c: I.Ctx): Owner -> int
    requires c.other.Some?
  {
    (o: Owner) => Delta(o, Escrow(c.mine.serial, c.mine.attempt), env.who(c.other.value.checker),
                        I.BondOf(c.registry.value, c.config.bps))
  }
}
