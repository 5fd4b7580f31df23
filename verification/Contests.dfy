/** Whether a chain can still win: what it takes to bring it in before its coin is paid out. */
module Contests {
  import opened Bytes
  import opened StateOps
  import opened Accounts
  import opened Machine
  import opened Invariant
  import opened Reachable
  import opened Payouts
  import opened Progress
  import opened Evolution
  import opened Batches
  import opened Dispute
  import opened Guarantees
  import opened Spendable
  import I = Instructions

  predicate WonWith(w: World, s: Bytes32, a: byte, chain: seq<State>) {
    HasAttempt(w, s, a) && w.coins[s].subs[a].status.Won? && w.coins[s].subs[a].states == chain
  }

  /** Some run from here ends with an attempt that has won with exactly this chain. */
  ghost predicate CanWin(env: Env, w: World, s: Bytes32, chain: seq<State>) {
    exists events, a :: WonWith(Run(env, w, events), s, a, chain)
  }

  /** An attempt that can carry the chain: free, with a bond that can be charged, or open at a beginning of the chain.
      */
  predicate Usable(w: World, s: Bytes32, a: byte, chain: seq<State>)
    requires s in w.coins
  {
    if a in w.coins[s].subs then w.coins[s].subs[a].status.Receiving? && w.coins[s].subs[a].states <= chain
    else Openable(w, s)
  }

  /** A chain the program would take for coin `s`. */
  ghost predicate Admissible(env: Env, w: World, s: Bytes32, chain: seq<State>)
    requires s in w.coins
  {
    WellChained(env.hash, w.coins[s].registry, chain) && |chain| <= env.maxStates
  }

  /** The chain is longer than that of the head, if there is one, and the two do not collide. */
  ghost predicate Longer(env: Env, w: World, s: Bytes32, chain: seq<State>)
    requires s in w.coins
  {
    var c := w.coins[s];
    c.head.isSet ==>
      && c.head.attempt in c.subs && |chain| > |c.subs[c.head.attempt].states|
      && CollisionFree(env.hash, Disputed(c.registry, chain, c.subs[c.head.attempt].states))
  }

  // ---- bringing a chain in

  /** Attempt `a` is on its way to carry the chain. */
  ghost predicate Carrying(env: Env, w: World, s: Bytes32, a: byte, chain: seq<State>) {
    && ReachableWorld(env, w) && HasAttempt(w, s, a) && a <= 1 && w.coins[s].registry.status.Active?
    && w.coins[s].subs[a].status.Receiving? && w.coins[s].subs[a].states <= chain
    && Admissible(env, w, s, chain) && Longer(env, w, s, chain)
  }

  lemma WinsAfter(env: Env, w: World, e: Event, s: Bytes32, chain: seq<State>)
    requires CanWin(env, Exec(env, w, e), s, chain)
    ensures CanWin(env, w, s, chain)
  {
    hide Exec, WonWith;
    var events, a :| WonWith(Run(env, Exec(env, w, e), events), s, a, chain);
    RunConcat(env, w, [e], events);
    assert Run(env, w, [e]) == Run(env, Exec(env, w, e), []);
    assert WonWith(Run(env, w, [e] + events), s, a, chain);
  }

  lemma WinsNow(env: Env, w: World, s: Bytes32, a: byte, chain: seq<State>)
    requires WonWith(w, s, a, chain)
    ensures CanWin(env, w, s, chain)
  {
    hide WonWith;
    assert WonWith(Run(env, w, []), s, a, chain);
  }

  /** The next link of the chain; nobody has to sign it. */
  function NextLink(env: Env, w: World, s: Bytes32, a: byte, chain: seq<State>): Event
    requires HasAttempt(w, s, a) && 1 <= |w.coins[s].subs[a].states| < |chain|
  {
    var k := |w.coins[s].subs[a].states|;
    Append(s, a, ParseOwner(chain[k - 1]), [Link(chain[k], Zeros(64))], env.hash(chain[k]))
  }

  lemma NextFits(env: Env, cfg: Config, reg: Registry, sub: Submission, chain: seq<State>)
    requires ConfigInv(cfg) && sub.status.Receiving? && sub.states != [] && sub.states < chain
    requires WellChained(env.hash, reg, chain) && |chain| <= env.maxStates && sub.links == |sub.states| - 1
    ensures var next := chain[|sub.states|];
            var r := I.AppendLinks(env, cfg, reg, sub, sub.serial, ParseOwner(chain[|sub.states| - 1]),
                                   [Link(next, Zeros(64))], env.hash(next));
            r.Ok? && r.value.states == chain[..|sub.states| + 1] && r.value.status.Receiving?
  {
    var k := |sub.states|;
    var links := [Link(chain[k], Zeros(64))];
    assert Zeros(64)[32..] == Zeros(32);
    assert sub.states == chain[..k] && [Last(sub.states)] + I.StatesOf(links) == [chain[k - 1], chain[k]];
    assert LinkOk(env.hash, reg, chain[k - 1], chain[k]);
    hide LinkOk, ParseOwner, ParseSerial, ParseValue, I.AppendLinks, I.CheckLinks;
    OneBatch(env, cfg, reg, sub, sub.serial, links);
    assert sub.states + I.StatesOf(links) == chain[..k + 1];
  }

  /** What the call with the next link changes. */
  lemma NextStored(env: Env, w: World, s: Bytes32, a: byte, chain: seq<State>)
    requires Inv(env, w) && HasAttempt(w, s, a) && w.coins[s].subs[a].status.Receiving?
    requires Admissible(env, w, s, chain) && w.coins[s].subs[a].states < chain
    ensures w.coins[s].subs[a].states != []
    ensures var after, k := Exec(env, w, NextLink(env, w, s, a, chain)), |w.coins[s].subs[a].states|;
            && HasAttempt(after, s, a) && after.coins[s].subs[a].status.Receiving?
            && after.coins[s].subs[a].states == chain[..k + 1]
            && after.coins[s] == w.coins[s].(subs := w.coins[s].subs[a := after.coins[s].subs[a]])
  {
    hide Inv, CoinInv, WellChained, I.AppendLinks, I.BondAmount, ParseOwner, DoMint, DoStart, DoFinalize, DoSettle,
         DoOutside, DoSetCap;
    CoinAt(env, w, s);
    SubAt(env, w, s, a);
    NextFits(env, w.config, w.coins[s].registry, w.coins[s].subs[a], chain);
  }

  lemma NextCarries(env: Env, w: World, s: Bytes32, a: byte, chain: seq<State>)
    requires Carrying(env, w, s, a, chain) && |w.coins[s].subs[a].states| < |chain|
    ensures 1 <= |w.coins[s].subs[a].states|
    ensures var after := Exec(env, w, NextLink(env, w, s, a, chain));
            Carrying(env, after, s, a, chain) && |after.coins[s].subs[a].states| == |w.coins[s].subs[a].states| + 1
  {
    hide Inv, ReachableWorld, WellChained, CollisionFree, Disputed, Exec, NextLink;
    ReachableInv(env, w);
    HeadElsewhere(env, w, s, a);
    NextStored(env, w, s, a, chain);
    ReachNext(env, w, NextLink(env, w, s, a, chain));
  }

  lemma HeadElsewhere(env: Env, w: World, s: Bytes32, a: byte)
    requires Inv(env, w) && HasAttempt(w, s, a) && w.coins[s].subs[a].status.Receiving?
    requires w.coins[s].registry.status.Active?
    ensures a <= 1
    ensures if w.coins[s].head.isSet then Headed(w.coins[s]) && w.coins[s].head.attempt == 1 - a
            else Unheaded(w.coins[s])
  {
    hide Inv, SubInv, Genesis;
    CoinAt(env, w, s);
  }

  /** With the whole chain stored and no head, the attempt becomes the head and is settled. */
  lemma SettledWins(env: Env, w: World, s: Bytes32, a: byte, chain: seq<State>)
    requires ReachableWorld(env, w) && HasAttempt(w, s, a) && Unheaded(w.coins[s]) && w.coins[s].subs[a].states == chain
    ensures CanWin(env, w, s, chain)
  {
    hide Inv, ReachableWorld, DoFinalize, DoSettle, CanWin, HeadSet, Unheaded;
    ReachableInv(env, w);
    Headless(env, w, s, a);
    var k, slot := w.coins[s].registry.recipient, I.SaturatingAdd(w.slot, w.config.window);
    var first, wait, last := Finalize(s, a, 1 - a, k, ALL), Tick(slot), Settle(s, a, 1 - a, k, ALONE);
    HeadSetPending(env, w, s, a);
    HeadSetChain(w, s, a);
    var headed := HeadSet(w, s, a);
    StepKeeps(env, w, first);
    StepKeeps(env, headed, wait);
    var due := headed.(slot := slot);
    SettlePasses(env, due, s, a, ALONE);
    SettleWins(env, due, s, a, 1 - a, k, ALONE);
    assert Exec(env, w, first) == headed && Exec(env, headed, wait) == due;
    WinsNow(env, Exec(env, due, last), s, a, chain);
    WinsAfter(env, due, last, s, chain);
    WinsAfter(env, headed, wait, s, chain);
    WinsAfter(env, w, first, s, chain);
  }

  lemma HeadSetChain(w: World, s: Bytes32, a: byte)
    requires a <= 1 && HasAttempt(w, s, a) && w.coins[s].subs[a].states != []
    ensures HasAttempt(HeadSet(w, s, a), s, a)
    ensures HeadSet(w, s, a).coins[s].subs[a].states == w.coins[s].subs[a].states
  {}

  lemma SettleWins(env: Env, w: World, s: Bytes32, a: byte, other: byte, recipient: Bytes32, x: I.Extras)
    requires DoSettle(env, w, s, a, other, recipient, x).Ok?
    ensures HasAttempt(w, s, a)
    ensures WonWith(DoSettle(env, w, s, a, other, recipient, x).value, s, a, w.coins[s].subs[a].states)
  {
    hide I.SettlePayOut, SettleMoves, Moves;
    SettleEffect(env, Load(w, s, a), x);
  }

  /** With the whole chain stored and a shorter head, finalize wins outright. */
  lemma ContenderWinsNow(env: Env, w: World, s: Bytes32, a: byte, chain: seq<State>)
    requires ReachableWorld(env, w) && HasAttempt(w, s, a) && Headed(w.coins[s]) && a == 1 - w.coins[s].head.attempt
    requires w.coins[s].subs[a].status.Receiving? && w.coins[s].subs[a].states == chain && Longer(env, w, s, chain)
    ensures CanWin(env, w, s, chain)
  {
    hide Inv, ReachableWorld, DoFinalize, CanWin, I.ContenderWins, CollisionFree, WinMoves;
    ReachableInv(env, w);
    SubAt(env, w, s, a);
    DisputeRule(env, w, s, a);
    WonOutright(env, w, s, a);
    var e := Finalize(s, a, 1 - a, w.coins[s].registry.recipient, ALL);
    WinsNow(env, Exec(env, w, e), s, a, chain);
    WinsAfter(env, w, e, s, chain);
  }

  /** An open attempt at a beginning of the chain gets it through, link by link. */
  lemma {:induction false} CarriedWins(env: Env, w: World, s: Bytes32, a: byte, chain: seq<State>)
    requires Carrying(env, w, s, a, chain)
    ensures CanWin(env, w, s, chain)
    decreases |chain| - |w.coins[s].subs[a].states|
  {
    hide Inv, ReachableWorld, Exec, CanWin, WellChained, CollisionFree, Disputed, NextLink;
    if |w.coins[s].subs[a].states| < |chain| {
      NextCarries(env, w, s, a, chain);
      var e := NextLink(env, w, s, a, chain);
      CarriedWins(env, Exec(env, w, e), s, a, chain);
      WinsAfter(env, w, e, s, chain);
    } else {
      assert w.coins[s].subs[a].states == chain;
      ReachableInv(env, w);
      HeadElsewhere(env, w, s, a);
      if w.coins[s].head.isSet { ContenderWinsNow(env, w, s, a, chain); } else { SettledWins(env, w, s, a, chain); }
    }
  }

  /** A free attempt can be started for the chain. */
  lemma StartedWins(env: Env, w: World, s: Bytes32, a: byte, chain: seq<State>, payer: Bytes32)
    requires ReachableWorld(env, w) && s in w.coins && w.coins[s].registry.status.Active? && a <= 1
    requires a !in w.coins[s].subs && Openable(w, s) && CanPay(env, w, s, payer)
    requires Admissible(env, w, s, chain) && Longer(env, w, s, chain)
    ensures CanWin(env, w, s, chain)
  {
    hide Inv, ReachableWorld, CanWin, CollisionFree, LinksOk, DoStart, CanPay, Openable, Genesis;
    ReachableInv(env, w);
    FirstOnly(env.hash, w.coins[s].registry, chain);
    StartOpens(env, w, s, a, chain[0], payer);
    var e := Start(s, a, chain[0], payer, 0);
    ReachNext(env, w, e);
    SameRules(env, w.coins[s].registry, Exec(env, w, e).coins[s].registry, chain);
    hide WellChained;
    assert [chain[0]] <= chain;
    CarriedWins(env, Exec(env, w, e), s, a, chain);
    WinsAfter(env, w, e, s, chain);
  }

  lemma FirstOnly(hash: Bytes -> Bytes32, reg: Registry, chain: seq<State>)
    requires WellChained(hash, reg, chain)
    ensures chain != [] && WellChained(hash, reg, [chain[0]])
  {
    hide ParseSerial, ParseValue;
  }

  /** The number of attempts plays no part in chains. */
  lemma SameRules(env: Env, reg: Registry, next: Registry, chain: seq<State>)
    requires next == reg.(count := next.count) && WellChained(env.hash, reg, chain)
    ensures WellChained(env.hash, next, chain)
  {
    forall i, j | 0 <= i < j < |chain| && j == i + 1 ensures LinkOk(env.hash, next, chain[i], chain[j]) {
      assert LinkOk(env.hash, reg, chain[i], chain[j]);
    }
  }

  // ---- keeping a chain out

  /** No attempt can carry the chain any more. */
  ghost predicate KeptOut(w: World, s: Bytes32, chain: seq<State>)
    requires s in w.coins
  {
    !Usable(w, s, 0, chain) && !Usable(w, s, 1, chain)
  }

  /** Only a free attempt can carry the chain. */
  ghost predicate NeedsStart(w: World, s: Bytes32, chain: seq<State>)
    requires s in w.coins
  {
    !KeptOut(w, s, chain) && forall a: byte :: a <= 1 && a in w.coins[s].subs ==> !Usable(w, s, a, chain)
  }

  lemma BondFits(env: Env, w: World, s: Bytes32, a: byte)
    requires Inv(env, w) && HasAttempt(w, s, a)
    ensures Openable(w, s)
  {
    hide Inv, WellChained;
    SubAt(env, w, s, a);
  }

  /** Then, unless it is the head's chain already, no run makes it win. */
  lemma KeptOutLoses(env: Env, w: World, s: Bytes32, chain: seq<State>)
    requires Inv(env, w) && s in w.coins && w.coins[s].registry.status.Active? && KeptOut(w, s, chain)
    requires w.coins[s].head.isSet && w.coins[s].head.attempt in w.coins[s].subs ==>
      w.coins[s].subs[w.coins[s].head.attempt].states != chain
    ensures !CanWin(env, w, s, chain)
  {
    hide Inv, Run, WonWith;
    forall events, a | WonWith(Run(env, w, events), s, a, chain) ensures false {
      WinnerWasUsable(env, w, events, s, a, chain);
    }
  }

  lemma WinnerWasUsable(env: Env, w: World, events: seq<Event>, s: Bytes32, a: byte, chain: seq<State>)
    requires Inv(env, w) && s in w.coins && w.coins[s].registry.status.Active?
    requires WonWith(Run(env, w, events), s, a, chain)
    ensures Usable(w, s, 0, chain) || Usable(w, s, 1, chain)
         || (w.coins[s].head.isSet && w.coins[s].head.attempt in w.coins[s].subs
             && w.coins[s].subs[w.coins[s].head.attempt].states == chain)
  {
    hide Inv, Run, Measure, CoinInv, SubInv;
    var c, end := w.coins[s], Run(env, w, events);
    RunKeeps(env, w, events);
    CoinAt(env, end, s);
    if c.subs == map[] {
      if !Openable(w, s) { ShutForever(env, w, events, s); }
    } else {
      var b :| b in c.subs;
      BondFits(env, w, s, b);
      if a in c.subs {
        RunEvolves(env, w, events, s);
        assert SubEvolves(c.subs[a], end.coins[s].subs[a]);
        ActiveAttempt(env, w, s, a);
      }
    }
  }

  /** An attempt at an active coin is open, lost or the head. */
  lemma ActiveAttempt(env: Env, w: World, s: Bytes32, a: byte)
    requires Inv(env, w) && HasAttempt(w, s, a) && w.coins[s].registry.status.Active?
    ensures var c := w.coins[s];
            c.subs[a].status.Receiving? || c.subs[a].status.Lost? || (c.head.isSet && c.head.attempt == a)
    ensures a <= 1
  {
    hide Inv, SubInv, Genesis;
    CoinAt(env, w, s);
  }

  /** A chain longer than the head can still be brought to win exactly when an attempt is left for it: a free one whose
      bond fits 64 bits, or an open one at a beginning of this very chain. A wallet with the bond is needed only for the
      former. */
  lemma CanWinIff(env: Env, w: World, s: Bytes32, chain: seq<State>, payer: Bytes32)
    requires ReachableWorld(env, w) && s in w.coins && w.coins[s].registry.status.Active?
    requires Admissible(env, w, s, chain) && Longer(env, w, s, chain)
    requires NeedsStart(w, s, chain) ==> CanPay(env, w, s, payer)
    ensures CanWin(env, w, s, chain) <==> Usable(w, s, 0, chain) || Usable(w, s, 1, chain)
  {
    hide ReachableWorld, CanWin, Admissible, Longer, CanPay, Inv, CollisionFree;
    if a: byte :| a <= 1 && a in w.coins[s].subs && Usable(w, s, a, chain) {
      CarriedWins(env, w, s, a, chain);
    } else if Usable(w, s, 0, chain) {
      StartedWins(env, w, s, 0, chain, payer);
    } else if Usable(w, s, 1, chain) {
      StartedWins(env, w, s, 1, chain, payer);
    } else {
      ReachableInv(env, w);
      LongerIsOther(env, w, s, chain);
      KeptOutLoses(env, w, s, chain);
    }
  }

  lemma LongerIsOther(env: Env, w: World, s: Bytes32, chain: seq<State>)
    requires s in w.coins && Longer(env, w, s, chain)
    ensures w.coins[s].head.isSet && w.coins[s].head.attempt in w.coins[s].subs ==>
      w.coins[s].subs[w.coins[s].head.attempt].states != chain
  {
    hide CollisionFree;
  }
}
