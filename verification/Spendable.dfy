/** Which coins can still be paid out at all. Minting does not look at the bond, so some coins never can. */
module Spendable {
  import opened Bytes
  import opened StateOps
  import opened Ledgers
  import opened Accounts
  import opened Machine
  import opened Invariant
  import opened Reachable
  import opened Evolution
  import opened Accounting
  import opened Spending
  import opened Guarantees
  import I = Instructions

  // ---- a coin nobody can start to check in

  /** A first check-in gets past the bond computation. */
  predicate Openable(w: World, s: Bytes32)
    requires s in w.coins
  {
    w.coins[s].registry.value * w.config.bps <= U64_MAX
  }

  /** Nobody has started to check the coin in, and nobody can. */
  ghost predicate Shut(w: World, s: Bytes32) {
    s in w.coins && w.coins[s].registry.status.Active? && w.coins[s].subs == map[] && !Openable(w, s)
  }

  lemma StartRefused(env: Env, w: World, s: Bytes32, a: byte, state0: State, checker: Bytes32, held: u64)
    requires Shut(w, s)
    ensures DoStart(env, w, s, a, state0, checker, held).Err?
  {
    hide ParseOwner, ParseSerial, ParseValue, Ledgers.Transfer;
  }

  lemma ShutStep(env: Env, w: World, e: Event, s: Bytes32)
    requires Inv(env, w) && Shut(w, s)
    ensures s in Exec(env, w, e).coins && Exec(env, w, e).coins[s] == w.coins[s]
  {
    hide Inv, DoMint, DoStart, DoFinalize, DoSettle, DoOutside, Openable, Advances;
    if ActsOn(e, s) && Step(env, w, e).Ok? {
      if e.Start? { StartRefused(env, w, s, e.attempt, e.state0, e.checker, e.held); }
      Untouchable(env, w, e, s);
    } else {
      StepEvolves(env, w, e, s);
    }
  }

  lemma Untouchable(env: Env, w: World, e: Event, s: Bytes32)
    requires s in w.coins && w.coins[s].subs == map[] && ActsOn(e, s) && !e.Start?
    ensures Step(env, w, e).Err?
  {
    hide I.AppendLinks, I.FinalizeCheckIn, I.Settle;
  }

  lemma SameBps(env: Env, w: World, e: Event)
    requires Inv(env, w)
    ensures Exec(env, w, e).config.bps == w.config.bps
  {
    hide Inv, CoinInv, SubInv, I.AppendLinks, I.VerifyFullChain, I.RejectSpent, I.ContenderWins, I.ResolveWin,
         I.ResolveLose, I.SettlePayOut, I.BondAmount;
    if Step(env, w, e).Ok? && e.Finalize? {
      FinalizeFlows(env, w, e.serial, e.attempt, e.otherAttempt, e.recipient, e.extras, Fees);
    }
    if Step(env, w, e).Ok? && e.Settle? {
      SettleFlows(env, w, e.serial, e.attempt, e.otherAttempt, e.recipient, e.extras, Fees);
    }
  }

  lemma ShutStays(env: Env, w: World, e: Event, s: Bytes32)
    requires Inv(env, w) && Shut(w, s)
    ensures Shut(Exec(env, w, e), s) && Exec(env, w, e).coins[s] == w.coins[s]
  {
    hide Inv, Step, Exec;
    ShutStep(env, w, e, s);
    SameBps(env, w, e);
  }

  /** Such a coin stays exactly as it is, whatever happens: its value is never paid out. */
  lemma {:induction false} ShutForever(env: Env, w: World, events: seq<Event>, s: Bytes32)
    requires Inv(env, w) && Shut(w, s)
    ensures Shut(Run(env, w, events), s) && Run(env, w, events).coins[s] == w.coins[s]
    decreases |events|
  {
    hide Inv, Exec, Shut;
    if events != [] {
      StepKeeps(env, w, events[0]);
      ShutStays(env, w, events[0], s);
      ShutForever(env, Exec(env, w, events[0]), events[1..], s);
    }
  }

  // ---- a coin somebody can start to check in

  /** A free attempt can be opened, at any first state the registry admits, by any wallet that has the bond. What its
      escrow address holds already does not matter: the bond goes into an empty account of that address. */
  lemma StartOpens(env: Env, w: World, s: Bytes32, a: byte, first: State, payer: Bytes32)
    requires Inv(env, w) && s in w.coins && w.coins[s].registry.status.Active? && a !in w.coins[s].subs && a <= 1
    requires WellChained(env.hash, w.coins[s].registry, [first]) && Openable(w, s)
    requires CanPay(env, w, s, payer)
    ensures DoStart(env, w, s, a, first, payer, 0).Ok?
    ensures var after := DoStart(env, w, s, a, first, payer, 0).value;
            && HasAttempt(after, s, a) && after.coins[s].subs[a].status.Receiving?
            && after.coins[s].subs[a].checker == payer
            && after.coins[s].subs[a].states == [first] && after.coins[s].head == w.coins[s].head
            && after.coins[s].subs == w.coins[s].subs[a := after.coins[s].subs[a]]
            && after.coins[s].registry == w.coins[s].registry.(count := w.coins[s].registry.count + 1)
            && after.config == w.config && after.slot == w.slot && after.minted == w.minted
            && after.coins == w.coins[s := after.coins[s]]
            && forall o :: Bal(after.ledger, o) == Bal(w.ledger, o)
                 + Delta(o, env.who(payer), Escrow(s, a), I.BondOf(w.coins[s].registry.value, w.config.bps))
  {
    hide Inv, SubInv, Shaped, LinksOk, I.BondOf, ParseSerial, ParseValue, ParseOwner, Genesis, Delta, Ledgers.Transfer;
    CoinAt(env, w, s);
    var coin := w.coins[s];
    RoomFor(coin, a);
    TransferWithinSupply(w.ledger, env.who(payer), Escrow(s, a), I.BondOf(coin.registry.value, w.config.bps));
  }

  /** A wallet with the bond of coin `s`. */
  predicate CanPay(env: Env, w: World, s: Bytes32, payer: Bytes32)
    requires s in w.coins
  {
    && env.who(payer).Wallet?
    && Bal(w.ledger, env.who(payer)) >= I.BondOf(w.coins[s].registry.value, w.config.bps)
  }

  /** The state the coin was minted at. */
  function FirstOf(w: World, s: Bytes32): State
    requires s in w.coins
  {
    Genesis(w.coins[s].registry.serial, w.coins[s].registry.value, w.coins[s].registry.recipient)
  }

  lemma FirstAdmitted(env: Env, w: World, s: Bytes32)
    requires Inv(env, w) && s in w.coins
    ensures WellChained(env.hash, w.coins[s].registry, [FirstOf(w, s)])
  {
    hide Inv, SubInv, Shaped, ParseSerial, ParseValue;
    CoinAt(env, w, s);
    ParseFields(s, w.coins[s].registry.value, w.coins[s].registry.recipient, Zeros(32));
  }

  lemma ReachNext(env: Env, w: World, e: Event)
    requires ReachableWorld(env, w)
    ensures ReachableWorld(env, Exec(env, w, e))
  {
    hide Exec, Initial;
    var start, events :| Initial(start) && w == Run(env, start, events);
    RunConcat(env, start, events, [e]);
    assert Run(env, w, [e]) == Run(env, Exec(env, w, e), []);
    assert Initial(start) && Exec(env, w, e) == Run(env, start, events + [e]);
  }

  /** Some run from here pays the coin out. */
  ghost predicate CanSpend(env: Env, w: World, s: Bytes32) {
    exists events :: SpentIn(Run(env, w, events), s)
  }

  lemma SpendsAfter(env: Env, w: World, e: Event, s: Bytes32)
    requires CanSpend(env, Exec(env, w, e), s)
    ensures CanSpend(env, w, s)
  {
    hide Exec, SpentIn;
    var events :| SpentIn(Run(env, Exec(env, w, e), events), s);
    RunConcat(env, w, [e], events);
    assert Run(env, w, [e]) == Run(env, Exec(env, w, e), []);
    assert SpentIn(Run(env, w, [e] + events), s);
  }

  lemma Opens(env: Env, w: World, s: Bytes32, a: byte, payer: Bytes32)
    requires ReachableWorld(env, w) && s in w.coins && w.coins[s].registry.status.Active? && w.coins[s].subs == map[]
    requires a <= 1 && Openable(w, s) && CanPay(env, w, s, payer)
    ensures CanSpend(env, w, s)
  {
    hide Inv, ReachableWorld, SpentIn, DoStart, Run, I.BondOf, PayOutRun;
    ReachableInv(env, w);
    FirstAdmitted(env, w, s);
    StartOpens(env, w, s, a, FirstOf(w, s), payer);
    var e := Start(s, a, FirstOf(w, s), payer, 0);
    assert Exec(env, w, e) == DoStart(env, w, s, a, FirstOf(w, s), payer, 0).value;
    hide Exec, Step;
    ReachNext(env, w, e);
    AlwaysSpendable(env, Exec(env, w, e), s, a);
    assert CanSpend(env, Exec(env, w, e), s);
    SpendsAfter(env, w, e, s);
  }

  /** An active coin can still be paid out by some run exactly when somebody has started to check it in, or when its
      bond fits 64 bits. Only in the latter case a wallet has to have the bond. */
  lemma SpendableIff(env: Env, w: World, s: Bytes32, payer: Bytes32)
    requires ReachableWorld(env, w) && s in w.coins && w.coins[s].registry.status.Active?
    requires w.coins[s].subs == map[] && Openable(w, s) ==> CanPay(env, w, s, payer)
    ensures CanSpend(env, w, s) <==> w.coins[s].subs != map[] || w.coins[s].registry.value * w.config.bps <= U64_MAX
  {
    hide Inv, ReachableWorld, SpentIn, Run, I.BondOf, PayOutRun;
    if w.coins[s].subs != map[] {
      var a :| a in w.coins[s].subs;
      AlwaysSpendable(env, w, s, a);
    } else if Openable(w, s) {
      Opens(env, w, s, 0, payer);
    } else {
      ShutCannotSpend(env, w, s);
    }
  }

  lemma ShutCannotSpend(env: Env, w: World, s: Bytes32)
    requires ReachableWorld(env, w) && Shut(w, s)
    ensures !CanSpend(env, w, s)
  {
    hide Inv, ReachableWorld, Run, Openable;
    ReachableInv(env, w);
    forall events ensures !SpentIn(Run(env, w, events), s) { ShutForever(env, w, events, s); }
  }

  /** What can be asked before minting: the new coin can ever be paid out exactly when value * bps fits 64 bits. */
  lemma MintSpendableIff(env: Env, w: World, authority: Bytes32, s: Bytes32, value: u64, recipient: Bytes32,
                         genesis: Bytes32, payer: Bytes32)
    requires ReachableWorld(env, w) && DoMint(env, w, authority, s, value, recipient, genesis).Ok?
    requires value * w.config.bps <= U64_MAX ==>
      env.who(payer).Wallet? && Bal(w.ledger, env.who(payer)) >= I.BondOf(value, w.config.bps)
    ensures CanSpend(env, DoMint(env, w, authority, s, value, recipient, genesis).value, s) <==>
      value * w.config.bps <= U64_MAX
  {
    hide ReachableWorld, CanSpend, I.BondOf, Genesis;
    var e := Mint(authority, s, value, recipient, genesis);
    ReachNext(env, w, e);
    SpendableIff(env, Exec(env, w, e), s, payer);
  }
}
