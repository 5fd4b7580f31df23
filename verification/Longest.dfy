/** The longest chain wins over whole runs, whatever happens in between. */
module Longest {
  import opened Bytes
  import opened StateOps
  import opened Accounts
  import opened Machine
  import opened Invariant
  import opened Reachable
  import opened Payouts
  import opened Evolution
  import opened Dispute
  import opened Spending
  import I = Instructions

  /** A lost attempt is no longer than the head it lost to, as far as their states do not collide. */
  ghost predicate Ranked(hash: Bytes -> Bytes32, c: Coin) {
    var h, o := c.head.attempt, 1 - c.head.attempt;
    c.head.isSet && h in c.subs && o in c.subs && c.subs[o].status.Lost?
    && CollisionFree(hash, Disputed(c.registry, c.subs[o].states, c.subs[h].states))
    ==> |c.subs[o].states| <= |c.subs[h].states|
  }

  /** The same head and the same lost attempt, with the chains they had. */
  lemma RankedStays(hash: Bytes -> Bytes32, c: Coin, d: Coin)
    requires Ranked(hash, c) && d.head == c.head
    requires d.registry == c.registry.(status := d.registry.status, count := d.registry.count)
    requires d.head.attempt in c.subs && d.head.attempt in d.subs
             && d.subs[d.head.attempt].states == c.subs[c.head.attempt].states
    requires var o := 1 - d.head.attempt;
             o in d.subs && d.subs[o].status.Lost? ==>
             o in c.subs && c.subs[o].status.Lost? && d.subs[o].states == c.subs[o].states
    ensures Ranked(hash, d)
  {
    hide CollisionFree;
  }

  /** In a coin under a head, the head's attempt is closed to new links. */
  lemma HeadClosed(env: Env, w: World, s: Bytes32)
    requires Inv(env, w) && s in w.coins && w.coins[s].head.isSet
    ensures var c := w.coins[s]; c.head.attempt in c.subs && !c.subs[c.head.attempt].status.Receiving?
    ensures w.coins[s].subs.Keys <= {0, 1}
  {
    hide Inv, SubInv, Genesis;
    CoinAt(env, w, s);
  }

  lemma StartAdds(env: Env, w: World, s: Bytes32, a: byte, state0: State, checker: Bytes32, held: u64)
    requires DoStart(env, w, s, a, state0, checker, held).Ok?
    ensures s in w.coins && s in DoStart(env, w, s, a, state0, checker, held).value.coins
    ensures var c, d := w.coins[s], DoStart(env, w, s, a, state0, checker, held).value.coins[s];
            && a !in c.subs && a in d.subs && d == c.(registry := d.registry, subs := c.subs[a := d.subs[a]])
            && d.registry == c.registry.(count := d.registry.count) && d.subs[a].status.Receiving?
  {
    hide I.BondAmount, ParseOwner, ParseSerial, ParseValue, Ledgers.Transfer;
  }

  lemma StartRanked(env: Env, w: World, s: Bytes32, a: byte, state0: State, checker: Bytes32, held: u64)
    requires Inv(env, w) && DoStart(env, w, s, a, state0, checker, held).Ok?
    requires s in w.coins && Ranked(env.hash, w.coins[s])
    ensures Ranked(env.hash, DoStart(env, w, s, a, state0, checker, held).value.coins[s])
  {
    hide Inv, DoStart, Ranked;
    StartAdds(env, w, s, a, state0, checker, held);
    var c, d := w.coins[s], DoStart(env, w, s, a, state0, checker, held).value.coins[s];
    if c.head.isSet {
      HeadClosed(env, w, s);
      RankedStays(env.hash, c, d);
    } else {
      HeadlessRanked(env.hash, d);
    }
  }

  lemma HeadlessRanked(hash: Bytes -> Bytes32, c: Coin)
    requires !c.head.isSet
    ensures Ranked(hash, c)
  {}

  lemma AppendRanked(env: Env, w: World, s: Bytes32, a: byte, headOwner: Bytes32, links: seq<Link>, lastHash: Bytes32)
    requires Inv(env, w) && DoAppend(env, w, s, a, headOwner, links, lastHash).Ok? && Ranked(env.hash, w.coins[s])
    ensures Ranked(env.hash, DoAppend(env, w, s, a, headOwner, links, lastHash).value.coins[s])
  {
    hide Inv, I.CheckLinks, ParseOwner, CollisionFree, Ranked;
    var c, d := w.coins[s], DoAppend(env, w, s, a, headOwner, links, lastHash).value.coins[s];
    if c.head.isSet {
      HeadClosed(env, w, s);
      RankedStays(env.hash, c, d);
    } else {
      HeadlessRanked(env.hash, d);
    }
  }

  lemma SettleRanked(env: Env, w: World, s: Bytes32, a: byte, other: byte, recipient: Bytes32, x: I.Extras)
    requires Inv(env, w) && DoSettle(env, w, s, a, other, recipient, x).Ok? && Ranked(env.hash, w.coins[s])
    ensures Ranked(env.hash, DoSettle(env, w, s, a, other, recipient, x).value.coins[s])
  {
    hide Inv, I.SettlePayOut, SettleMoves, Moves, CollisionFree, Ranked;
    HeadClosed(env, w, s);
    SubAt(env, w, s, a);
    SettleEffect(env, Load(w, s, a), x);
    RankedStays(env.hash, w.coins[s], DoSettle(env, w, s, a, other, recipient, x).value.coins[s]);
  }

  lemma RejectRanked(env: Env, w: World, s: Bytes32, a: byte)
    requires Inv(env, w) && HasAttempt(w, s, a) && a <= 1 && Ranked(env.hash, w.coins[s])
    requires w.coins[s].registry.status.Spent? && I.RejectSpent(Load(w, s, a), w.slot).Ok?
    ensures Ranked(env.hash, Store(w, s, a, I.RejectSpent(Load(w, s, a), w.slot).value).coins[s])
  {
    hide Inv, I.RejectSpent, RejectMoves, Moves, CollisionFree, Ranked;
    SpentHasHead(env, w, s);
    HeadClosed(env, w, s);
    RejectEffect(env, Load(w, s, a), w.slot);
    RankedStays(env.hash, w.coins[s], Store(w, s, a, I.RejectSpent(Load(w, s, a), w.slot).value).coins[s]);
  }

  lemma SpentHasHead(env: Env, w: World, s: Bytes32)
    requires Inv(env, w) && s in w.coins && w.coins[s].registry.status.Spent?
    ensures Paid(w.coins[s])
  {
    hide Inv, SubInv, Genesis;
    CoinAt(env, w, s);
  }

  lemma SetHeadRanked(env: Env, w: World, s: Bytes32, a: byte)
    requires Inv(env, w) && HasAttempt(w, s, a) && a <= 1 && Unheaded(w.coins[s]) && w.coins[s].subs[a].states != []
    ensures Ranked(env.hash, Store(w, s, a, I.SetHead(Load(w, s, a), w.slot)).coins[s])
  {
    hide Inv, CollisionFree;
    SubAt(env, w, s, a);
  }

  lemma LoseRanked(env: Env, w: World, s: Bytes32, a: byte, x: I.Extras)
    requires Inv(env, w) && HasAttempt(w, s, a) && a <= 1 && Headed(w.coins[s]) && w.coins[s].head.attempt == 1 - a
    requires !I.ContenderWins(w.coins[s].subs[a].states, w.coins[s].head) && Load(w, s, a).other.Some?
    requires I.ResolveLose(env, Load(w, s, a), x, w.slot).Ok?
    ensures Ranked(env.hash, Store(w, s, a, I.ResolveLose(env, Load(w, s, a), x, w.slot).value).coins[s])
  {
    hide Inv, I.ResolveLose, LoseMoves, Moves, CollisionFree, I.ContenderWins, Disputed;
    LoseEffect(env, Load(w, s, a), x, w.slot);
    var c := w.coins[s];
    SameDisputed(c.registry, Store(w, s, a, I.ResolveLose(env, Load(w, s, a), x, w.slot).value).coins[s].registry,
                 c.subs[a].states, c.subs[1 - a].states);
    if CollisionFree(env.hash, Disputed(c.registry, c.subs[a].states, c.subs[1 - a].states)) {
      DisputeRule(env, w, s, a);
    }
  }

  lemma SameDisputed(r: Registry, q: Registry, a: seq<State>, b: seq<State>)
    requires q == r.(status := q.status, count := q.count)
    ensures Disputed(q, a, b) == Disputed(r, a, b)
  {}

  lemma WinRanked(env: Env, w: World, s: Bytes32, a: byte, x: I.Extras)
    requires Inv(env, w) && HasAttempt(w, s, a) && a <= 1 && Headed(w.coins[s]) && w.coins[s].head.attempt == 1 - a
    requires I.ContenderWins(w.coins[s].subs[a].states, w.coins[s].head) && Load(w, s, a).other.Some?
    requires w.coins[s].subs[a].states != [] && I.ResolveWin(env, Load(w, s, a), x, w.slot).Ok?
    ensures Ranked(env.hash, Store(w, s, a, I.ResolveWin(env, Load(w, s, a), x, w.slot).value).coins[s])
  {
    hide Inv, I.ResolveWin, WinMoves, Moves, CollisionFree, I.ContenderWins, Disputed;
    WinEffect(env, Load(w, s, a), x, w.slot);
    SubAt(env, w, s, a);
    var c := w.coins[s];
    SameDisputed(c.registry, Store(w, s, a, I.ResolveWin(env, Load(w, s, a), x, w.slot).value).coins[s].registry,
                 c.subs[1 - a].states, c.subs[a].states);
    if CollisionFree(env.hash, Disputed(c.registry, c.subs[1 - a].states, c.subs[a].states)) {
      SwapDisputed(env.hash, c.registry, c.subs[1 - a].states, c.subs[a].states);
      DisputeRule(env, w, s, a);
    }
  }

  lemma FinalizeRanked(env: Env, w: World, s: Bytes32, a: byte, other: byte, recipient: Bytes32, x: I.Extras)
    requires Inv(env, w) && DoFinalize(env, w, s, a, other, recipient, x).Ok? && Ranked(env.hash, w.coins[s])
    ensures Ranked(env.hash, DoFinalize(env, w, s, a, other, recipient, x).value.coins[s])
  {
    hide Inv, SubInv, Ranked, Headed, Unheaded, I.VerifyFullChain, I.ContenderWins, I.RejectSpent, I.ResolveWin,
         I.ResolveLose;
    SubAt(env, w, s, a);
    if w.coins[s].registry.status.Active? { OpenShape(env, w, s, a); }
    if w.coins[s].registry.status.Spent? {
      RejectRanked(env, w, s, a);
    } else if !w.coins[s].head.isSet {
      SetHeadRanked(env, w, s, a);
    } else if I.ContenderWins(w.coins[s].subs[a].states, w.coins[s].head) {
      WinRanked(env, w, s, a, x);
    } else {
      LoseRanked(env, w, s, a, x);
    }
  }

  lemma OpenShape(env: Env, w: World, s: Bytes32, a: byte)
    requires Inv(env, w) && HasAttempt(w, s, a) && w.coins[s].subs[a].status.Receiving?
    requires w.coins[s].registry.status.Active?
    ensures if w.coins[s].head.isSet then Headed(w.coins[s]) && w.coins[s].head.attempt == 1 - a
            else Unheaded(w.coins[s])
  {
    hide Inv, SubInv, Genesis;
    CoinAt(env, w, s);
  }

  lemma StepRanked(env: Env, w: World, e: Event, s: Bytes32)
    requires Inv(env, w) && (s in w.coins ==> Ranked(env.hash, w.coins[s])) && s in Exec(env, w, e).coins
    ensures Ranked(env.hash, Exec(env, w, e).coins[s])
  {
    hide Inv, DoMint, DoStart, DoAppend, DoFinalize, DoSettle, DoOutside, Ranked, Advances;
    if s !in w.coins {
      if e.Mint? && Step(env, w, e).Ok? { MintRanked(env, w, e, s); } else { NoNewCoin(env, w, e, s); }
    } else if ActsOn(e, s) && Step(env, w, e).Ok? {
      match e
      case Start(_, a, state0, checker, held) => StartRanked(env, w, s, a, state0, checker, held);
      case Append(_, a, owner, newLinks, lastHash) => AppendRanked(env, w, s, a, owner, newLinks, lastHash);
      case Finalize(_, a, other, recipient, x) => FinalizeRanked(env, w, s, a, other, recipient, x);
      case Settle(_, a, other, recipient, x) => SettleRanked(env, w, s, a, other, recipient, x);
    } else {
      StepEvolves(env, w, e, s);
    }
  }

  lemma MintRanked(env: Env, w: World, e: Event, s: Bytes32)
    requires e.Mint? && Step(env, w, e).Ok? && s !in w.coins && s in Exec(env, w, e).coins
    ensures Ranked(env.hash, Exec(env, w, e).coins[s])
  {
    hide Genesis, I.MintCoin, CollisionFree;
  }

  lemma NoNewCoin(env: Env, w: World, e: Event, s: Bytes32)
    requires s !in w.coins && s in Exec(env, w, e).coins
    ensures e.Mint? && Step(env, w, e).Ok?
  {
    hide I.StartCheckIn, I.AppendLinks, I.FinalizeCheckIn, I.Settle, I.MintCoin;
  }

  lemma {:induction false} RunRanked(env: Env, w: World, events: seq<Event>, s: Bytes32)
    requires Inv(env, w) && (s in w.coins ==> Ranked(env.hash, w.coins[s]))
    ensures s in Run(env, w, events).coins ==> Ranked(env.hash, Run(env, w, events).coins[s])
    decreases |events|
  {
    hide Inv, Exec, Ranked;
    if events != [] {
      var next := Exec(env, w, events[0]);
      StepKeeps(env, w, events[0]);
      if s in next.coins { StepRanked(env, w, events[0], s); }
      RunRanked(env, next, events[1..], s);
    }
  }

  /** In every reachable coin, unless states collide, a lost attempt's chain is never longer than the head's. */
  lemma LostIsNotLonger(env: Env, w: World, s: Bytes32)
    requires ReachableWorld(env, w) && s in w.coins
    ensures Ranked(env.hash, w.coins[s])
  {
    hide Inv, Run, Ranked;
    var start, events :| Initial(start) && w == Run(env, start, events);
    InitialInv(env, start);
    RunRanked(env, start, events, s);
  }

  lemma FinalizedWhileActive(env: Env, w: World, s: Bytes32, a: byte, other: byte, recipient: Bytes32, x: I.Extras)
    requires Inv(env, w) && DoFinalize(env, w, s, a, other, recipient, x).Ok? && w.coins[s].registry.status.Active?
    ensures var after := DoFinalize(env, w, s, a, other, recipient, x).value;
            HasAttempt(after, s, a) && !after.coins[s].subs[a].status.Receiving?
            && !after.coins[s].subs[a].status.Rejected?
  {
    hide Inv, SubInv, I.VerifyFullChain, I.ContenderWins, I.ResolveWin, I.ResolveLose, WinMoves, LoseMoves, Moves;
    SubAt(env, w, s, a);
    if w.coins[s].head.isSet {
      if I.ContenderWins(w.coins[s].subs[a].states, w.coins[s].head) {
        WinEffect(env, Load(w, s, a), x, w.slot);
      } else {
        LoseEffect(env, Load(w, s, a), x, w.slot);
      }
    }
  }

  /** Attempt `a` of coin `s` is the only one, or strictly longer than the other, with nothing colliding. */
  ghost predicate StrictlyLongest(env: Env, w: World, s: Bytes32, a: byte) {
    && HasAttempt(w, s, a)
    && (1 - a in w.coins[s].subs ==>
          var c := w.coins[s];
          && |c.subs[1 - a].states| < |c.subs[a].states|
          && CollisionFree(env.hash, Disputed(c.registry, c.subs[a].states, c.subs[1 - a].states)))
  }

  /** An attempt finalized while the coin is active, and strictly longest in the end, is the one that has won at the end
      of any run that spends the coin: no order of instructions and no later contender changes that. */
  lemma LongestWins(env: Env, w: World, s: Bytes32, a: byte, other: byte, recipient: Bytes32, x: I.Extras,
                    rest: seq<Event>)
    requires ReachableWorld(env, w) && s in w.coins && w.coins[s].registry.status.Active?
    requires DoFinalize(env, w, s, a, other, recipient, x).Ok?
    requires var end := Run(env, DoFinalize(env, w, s, a, other, recipient, x).value, rest);
             SpentIn(end, s) && StrictlyLongest(env, end, s, a)
    ensures Run(env, DoFinalize(env, w, s, a, other, recipient, x).value, rest).coins[s].subs[a].status.Won?
  {
    hide Inv, ReachableWorld, DoFinalize, Run, CollisionFree, Disputed, Evolves;
    ReachableInv(env, w);
    LostIsNotLonger(env, w, s);
    var e := Finalize(s, a, other, recipient, x);
    var mid := DoFinalize(env, w, s, a, other, recipient, x).value;
    assert Exec(env, w, e) == mid;
    var end := Run(env, mid, rest);
    StepKeeps(env, w, e);
    FinalizedWhileActive(env, w, s, a, other, recipient, x);
    StepRanked(env, w, e, s);
    RunRanked(env, mid, rest, s);
    RunKeeps(env, mid, rest);
    RunEvolves(env, mid, rest, s);
    EvolvedStatus(env, mid.coins[s], end.coins[s], a);
    SpentHasHead(env, end, s);
    HeadClosed(env, end, s);
    hide Exec, Step;
    WinnerIsLongest(env, end, s, a);
  }

  lemma EvolvedStatus(env: Env, c: Coin, d: Coin, a: byte)
    requires Evolves(env, c, d) && a in c.subs && !c.subs[a].status.Receiving? && !c.subs[a].status.Rejected?
    ensures a in d.subs && !d.subs[a].status.Receiving? && !d.subs[a].status.Rejected?
  {
    assert SubEvolves(c.subs[a], d.subs[a]);
  }

  lemma WinnerIsLongest(env: Env, w: World, s: Bytes32, a: byte)
    requires s in w.coins && Paid(w.coins[s]) && Ranked(env.hash, w.coins[s]) && w.coins[s].subs.Keys <= {0, 1}
    requires StrictlyLongest(env, w, s, a)
    requires !w.coins[s].subs[a].status.Receiving? && !w.coins[s].subs[a].status.Rejected?
    ensures w.coins[s].subs[a].status.Won?
  {
    hide CollisionFree, Disputed;
    var head := w.coins[s].head.attempt;
    assert head == a || head == 1 - a;
  }
}
