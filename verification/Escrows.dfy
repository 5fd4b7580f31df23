/** What happens to tokens that lie in escrows without belonging to a live attempt. */
module Escrows {
  import opened Bytes
  import opened Results
  import opened StateOps
  import opened Ledgers
  import opened Accounts
  import opened Machine
  import opened Invariant
  import opened Reachable
  import opened Payouts
  import opened Evolution
  import opened Accounting
  import I = Instructions

  // ---- which call pays a coin out

  /** If this call succeeds, it pays its coin out to the attempt it names: any settle, and a finalize that beats the
      head of an active coin. */
  predicate PaysOut(w: World, e: Event) {
    e.Settle?
    || (e.Finalize? && HasAttempt(w, e.serial, e.attempt)
        && var c := w.coins[e.serial];
           c.registry.status.Active? && c.head.isSet && I.ContenderWins(c.subs[e.attempt].states, c.head))
  }

  predicate OnCoin(e: Event) { e.Start? || e.Append? || e.Finalize? || e.Settle? }

  /** Whom a spent coin was paid to. */
  function PaidOwner(c: Coin): Option<Bytes32> {
    if c.head.attempt in c.subs && c.subs[c.head.attempt].status.Won? then Some(c.subs[c.head.attempt].finalOwner)
    else None
  }

  /** Coin `d` is `c` after a call that pays it out to attempt `a`, or after one that does not. */
  ghost predicate PaidOrNot(c: Coin, d: Coin, a: byte, pays: bool) {
    && d.registry == c.registry.(status := d.registry.status, count := d.registry.count)
    && if pays then c.registry.status.Active? && d.registry.status.Spent? && a in c.subs
                    && PaidOwner(d) == Some(c.subs[a].finalOwner)
       else d.registry.status == c.registry.status && (c.registry.status.Spent? ==> PaidOwner(d) == PaidOwner(c))
  }

  /** A successful call turns its coin from active to spent exactly when it is one that pays out. */
  lemma PaidByCall(env: Env, w: World, e: Event)
    requires Inv(env, w) && OnCoin(e) && Step(env, w, e).Ok?
    ensures e.serial in w.coins && e.serial in Exec(env, w, e).coins
    ensures Exec(env, w, e).coins == w.coins[e.serial := Exec(env, w, e).coins[e.serial]]
    ensures PaidOrNot(w.coins[e.serial], Exec(env, w, e).coins[e.serial], e.attempt, PaysOut(w, e))
  {
    hide Inv, DoStart, DoAppend, DoFinalize, DoSettle, PaidOrNot;
    match e
    case Start(s, a, state0, checker, held) => StartPaysNot(env, w, s, a, state0, checker, held);
    case Append(s, a, owner, newLinks, lastHash) => AppendPaysNot(env, w, s, a, owner, newLinks, lastHash);
    case Finalize(s, a, other, recipient, x) => FinalizePays(env, w, s, a, other, recipient, x);
    case Settle(s, a, other, recipient, x) => SettlePays(env, w, s, a, other, recipient, x);
  }

  lemma StartPaysNot(env: Env, w: World, s: Bytes32, a: byte, state0: State, checker: Bytes32, held: u64)
    requires DoStart(env, w, s, a, state0, checker, held).Ok?
    ensures var after := DoStart(env, w, s, a, state0, checker, held).value;
            s in w.coins && s in after.coins && after.coins == w.coins[s := after.coins[s]]
            && PaidOrNot(w.coins[s], after.coins[s], a, false)
  {
    hide I.BondAmount, ParseOwner, ParseSerial, ParseValue, Ledgers.Transfer;
  }

  lemma AppendPaysNot(env: Env, w: World, s: Bytes32, a: byte, owner: Bytes32, links: seq<Link>, lastHash: Bytes32)
    requires DoAppend(env, w, s, a, owner, links, lastHash).Ok?
    ensures var after := DoAppend(env, w, s, a, owner, links, lastHash).value;
            s in w.coins && s in after.coins && after.coins == w.coins[s := after.coins[s]]
            && PaidOrNot(w.coins[s], after.coins[s], a, false)
  {
    hide I.CheckLinks, ParseOwner;
  }

  lemma FinalizePays(env: Env, w: World, s: Bytes32, a: byte, other: byte, recipient: Bytes32, x: I.Extras)
    requires Inv(env, w) && DoFinalize(env, w, s, a, other, recipient, x).Ok?
    ensures var after := DoFinalize(env, w, s, a, other, recipient, x).value;
            s in w.coins && s in after.coins && after.coins == w.coins[s := after.coins[s]]
            && PaidOrNot(w.coins[s], after.coins[s], a, PaysOut(w, Finalize(s, a, other, recipient, x)))
  {
    hide Inv, CoinInv, SubInv, I.VerifyFullChain, I.ContenderWins, I.RejectSpent, I.ResolveWin, I.ResolveLose, WinMoves,
         LoseMoves, RejectMoves, Moves;
    CoinAt(env, w, s);
    SubAt(env, w, s, a);
    var b := Load(w, s, a);
    if w.coins[s].registry.status.Spent? {
      RejectEffect(env, b, w.slot);
    } else if w.coins[s].head.isSet {
      if I.ContenderWins(b.mine.states, b.head) {
        WinEffect(env, b, x, w.slot);
      } else {
        LoseEffect(env, b, x, w.slot);
      }
    }
  }

  lemma SettlePays(env: Env, w: World, s: Bytes32, a: byte, other: byte, recipient: Bytes32, x: I.Extras)
    requires Inv(env, w) && DoSettle(env, w, s, a, other, recipient, x).Ok?
    ensures var after := DoSettle(env, w, s, a, other, recipient, x).value;
            s in w.coins && s in after.coins && after.coins == w.coins[s := after.coins[s]]
            && PaidOrNot(w.coins[s], after.coins[s], a, true)
  {
    hide Inv, CoinInv, SubInv, I.SettlePayOut, SettleMoves, Moves;
    CoinAt(env, w, s);
    SubAt(env, w, s, a);
    SettleEffect(env, Load(w, s, a), x);
  }

  // ---- value paid into an escrow

  /** The value a coin has put into an escrow is that of its spent head, if the head's final owner is that escrow. */
  lemma TrappedByHead(env: Env, bps: u32, t: Bytes32, c: Coin, s: Bytes32, a: byte)
    requires CoinInv(env, bps, t, c)
    ensures c.registry.status.Spent? ==> PaidOwner(c).Some?
    ensures Trapped(env, s, a)(c)
         == if c.registry.status.Spent? && env.who(PaidOwner(c).value) == Escrow(s, a) then c.registry.value else 0
  {
    hide CoinInv;
    HeadAlone(env, bps, t, c);
  }

  lemma CallTraps(env: Env, w: World, e: Event, s: Bytes32, a: byte)
    requires Inv(env, w) && OnCoin(e) && Step(env, w, e).Ok?
    ensures e.serial in w.coins && (PaysOut(w, e) ==> HasAttempt(w, e.serial, e.attempt))
    ensures SumOf(Exec(env, w, e).coins, Trapped(env, s, a)) ==
            SumOf(w.coins, Trapped(env, s, a)) + Trapping(env, w, e, s, a)
  {
    hide Inv, CoinInv, Step, Exec, SumOf, Trapped, PaysOut;
    var after := Exec(env, w, e);
    StepKeeps(env, w, e);
    PaidByCall(env, w, e);
    CoinAt(env, w, e.serial);
    CoinAt(env, after, e.serial);
    TrappedByHead(env, w.config.bps, e.serial, w.coins[e.serial], s, a);
    TrappedByHead(env, after.config.bps, e.serial, after.coins[e.serial], s, a);
    SumOfUpdate(w.coins, e.serial, after.coins[e.serial], Trapped(env, s, a));
  }

  /** What a call adds to the value that coins have put into an escrow, by what can be looked up before the call. */
  function Trapping(env: Env, w: World, e: Event, s: Bytes32, a: byte): int {
    if PaysOut(w, e) && HasAttempt(w, e.serial, e.attempt)
       && env.who(w.coins[e.serial].subs[e.attempt].finalOwner) == Escrow(s, a)
    then w.coins[e.serial].registry.value else 0
  }

  /** Every step adds exactly that to it, and nothing when it fails. */
  lemma StepTraps(env: Env, w: World, e: Event, s: Bytes32, a: byte)
    requires Inv(env, w)
    ensures SumOf(Exec(env, w, e).coins, Trapped(env, s, a)) ==
            SumOf(w.coins, Trapped(env, s, a)) + if Step(env, w, e).Ok? then Trapping(env, w, e, s, a) else 0
  {
    hide Inv, DoMint, DoStart, DoAppend, DoFinalize, DoSettle, SumOf, Trapped;
    if Step(env, w, e).Ok? {
      if e.Mint? {
        MintUntrapped(env, w, e, s, a);
      } else if OnCoin(e) {
        CallTraps(env, w, e, s, a);
      }
    }
  }

  lemma MintUntrapped(env: Env, w: World, e: Event, s: Bytes32, a: byte)
    requires e.Mint? && Step(env, w, e).Ok?
    ensures SumOf(Exec(env, w, e).coins, Trapped(env, s, a)) == SumOf(w.coins, Trapped(env, s, a))
  {
    hide Genesis, SumOf, I.MintCoin;
    SumOfUpdate(w.coins, e.serial, Exec(env, w, e).coins[e.serial], Trapped(env, s, a));
    MintNew(env, w, e.authority, e.serial, e.value, e.recipient, e.genesis);
  }

  /** A call that pays a coin out puts its value into an escrow exactly when the final owner of the attempt it pays is
      that escrow; this can be looked up before the call. */
  lemma TrapsIff(env: Env, w: World, e: Event, s: Bytes32, a: byte)
    requires Inv(env, w) && PaysOut(w, e) && Step(env, w, e).Ok?
    ensures HasAttempt(w, e.serial, e.attempt) && w.coins[e.serial].registry.value > 0
    ensures var before, after := SumOf(w.coins, Trapped(env, s, a)), SumOf(Exec(env, w, e).coins, Trapped(env, s, a));
            if env.who(w.coins[e.serial].subs[e.attempt].finalOwner) == Escrow(s, a)
            then after == before + w.coins[e.serial].registry.value else after == before
  {
    assert OnCoin(e);
    hide Inv, Step, Exec, SumOf, Trapped, PaysOut, CoinInv;
    CallTraps(env, w, e, s, a);
    CoinAt(env, w, e.serial);
    ValuePositive(env, w.config.bps, e.serial, w.coins[e.serial]);
  }

  lemma ValuePositive(env: Env, bps: u32, t: Bytes32, c: Coin)
    requires CoinInv(env, bps, t, c)
    ensures c.registry.value > 0
  {
    hide SubInv, Shaped, Genesis;
  }

  // ---- nothing takes it out again

  /** No signature of a wallet takes tokens out of an escrow. */
  lemma OutsideFills(env: Env, w: World, e: Event, s: Bytes32, a: byte)
    ensures OutsideFlow(env, w, e, Escrow(s, a)) >= 0
  {
    hide DoMint, DoStart, DoAppend, DoFinalize, DoSettle, DoSetCap, Ledgers.Transfer;
  }

  /** What lies in an escrow beside the bond of its own live attempt. */
  ghost function Beside(w: World, s: Bytes32, a: byte): int {
    Bal(w.ledger, Escrow(s, a)) - Counted(w, s, Held(w.config.bps, s, a))
  }

  lemma BesideStays(env: Env, w: World, e: Event, s: Bytes32, a: byte)
    requires Inv(env, w) && a <= 1
    ensures Beside(Exec(env, w, e), s, a) >=
            Beside(w, s, a) + if Step(env, w, e).Ok? then Trapping(env, w, e, s, a) else 0
  {
    hide Inv, Step, Exec, OutsideFlow, CoinFlows, SumOf, Trapped, Held, Counted, Trapping;
    StepKeeps(env, w, e);
    StepFlows(env, w, e, Escrow(s, a));
    OutsideFills(env, w, e, s, a);
    EscrowSum(env, w, s, a);
    EscrowSum(env, Exec(env, w, e), s, a);
    StepTraps(env, w, e, s, a);
  }

  /** Whatever lies in an escrow beside the bond of its own live attempt stays there for ever. */
  lemma {:induction false} BesideForever(env: Env, w: World, events: seq<Event>, s: Bytes32, a: byte)
    requires Inv(env, w) && a <= 1
    ensures Beside(Run(env, w, events), s, a) >= Beside(w, s, a)
    decreases |events|
  {
    hide Inv, Exec, Beside, Trapping;
    if events != [] {
      StepKeeps(env, w, events[0]);
      BesideStays(env, w, events[0], s, a);
      TrappingSign(env, w, events[0], s, a);
      BesideForever(env, Exec(env, w, events[0]), events[1..], s, a);
    }
  }

  lemma TrappingSign(env: Env, w: World, e: Event, s: Bytes32, a: byte)
    ensures Trapping(env, w, e, s, a) >= 0
  {
    hide PaysOut;
  }

  /** The escrow of an attempt that does not exist loses nothing. */
  lemma EscrowFills(env: Env, w: World, e: Event, s: Bytes32, a: byte)
    requires Inv(env, w) && a <= 1 && !HasAttempt(w, s, a)
    ensures Bal(Exec(env, w, e).ledger, Escrow(s, a)) >= Bal(w.ledger, Escrow(s, a))
  {
    hide Inv, Step, Exec, Held, Trapping, HasAttempt;
    BesideStays(env, w, e, s, a);
    TrappingSign(env, w, e, s, a);
    HeldAt(w, s, a);
    HeldAt(Exec(env, w, e), s, a);
  }

  lemma HeldAt(w: World, s: Bytes32, a: byte)
    ensures Counted(w, s, Held(w.config.bps, s, a)) >= 0
    ensures !HasAttempt(w, s, a) ==> Counted(w, s, Held(w.config.bps, s, a)) == 0
  {
    hide I.BondOf;
  }
}
