/** How one coin moves through a run: only forward, and a standing head is never replaced while its window runs. */
module Evolution {
  import opened Bytes
  import opened StateOps
  import opened Accounts
  import opened Machine
  import opened Invariant
  import opened Reachable
  import opened Payouts
  import I = Instructions

  ghost predicate SubEvolves(x: Submission, y: Submission) {
    && y.serial == x.serial && y.attempt == x.attempt && y.checker == x.checker && y.started == x.started
    && x.states <= y.states && x.commits <= y.commits
    && (!x.status.Receiving? ==> !y.status.Receiving? && y.states == x.states && y.commits == x.commits)
    && (x.status.Pending? ==> !y.status.Rejected?) && (Terminal(x.status) ==> y.status == x.status)
  }

  /** How far an attempt still is from its end. */
  function Rank(env: Env, c: Coin, a: byte): int {
    if a !in c.subs then env.maxStates + 3
    else match c.subs[a].status
         case Receiving => env.maxStates - |c.subs[a].states| + 2
         case Pending => 1
         case _ => 0
  }

  function Measure(env: Env, c: Coin): int { Rank(env, c, 0) + Rank(env, c, 1) }

  ghost predicate Evolves(env: Env, c: Coin, d: Coin) {
    && d.registry == c.registry.(status := d.registry.status, count := d.registry.count)
    && (c.registry.status.Spent? ==> d.registry.status.Spent? && d.head == c.head)
    && (c.head.isSet && d.registry.status.Active? ==> d.head == c.head)
    && (forall a :: a in c.subs ==> a in d.subs && SubEvolves(c.subs[a], d.subs[a]))
    && 0 <= Measure(env, d) <= Measure(env, c)
  }

  lemma EvolvesTransitive(env: Env, c: Coin, d: Coin, e: Coin)
    requires Evolves(env, c, d) && Evolves(env, d, e)
    ensures Evolves(env, c, e)
  {
    hide Measure;
    forall a | a in c.subs ensures SubEvolves(c.subs[a], e.subs[a]) {
      assert SubEvolves(d.subs[a], e.subs[a]);
    }
  }

  /** Instructions that act on coin `s`. */
  predicate ActsOn(e: Event, s: Bytes32) {
    (e.Start? || e.Append? || e.Finalize? || e.Settle?) && e.serial == s
  }

  /** The coin after a step that acted on it: further on, and strictly nearer its end. */
  ghost predicate Advances(env: Env, w: World, after: World, s: Bytes32) {
    && s in w.coins && s in after.coins && after.coins == w.coins[s := after.coins[s]]
    && Evolves(env, w.coins[s], after.coins[s]) && Measure(env, after.coins[s]) < Measure(env, w.coins[s])
    && after.slot == w.slot && after.config.window == w.config.window
  }

  ghost predicate Fits(env: Env, c: Coin) {
    forall a :: a in c.subs ==> |c.subs[a].states| <= env.maxStates
  }

  lemma FitsAt(env: Env, w: World, s: Bytes32)
    requires Inv(env, w) && s in w.coins
    ensures Fits(env, w.coins[s])
  {
    hide Inv, Shaped, WellChained, Genesis, I.BondAmount, ParseOwner;
    CoinAt(env, w, s);
  }

  lemma OpenAdvances(env: Env, c: Coin, d: Coin, a: byte)
    requires Fits(env, c) && a !in c.subs && a <= 1 && a in d.subs && d.subs == c.subs[a := d.subs[a]]
    requires d.subs[a].status.Receiving? && |d.subs[a].states| == 1
    requires d.head == c.head && d.registry == c.registry.(count := d.registry.count)
    ensures Evolves(env, c, d) && Measure(env, d) < Measure(env, c)
  {}

  lemma GrowthAdvances(env: Env, c: Coin, d: Coin, a: byte)
    requires Fits(env, c) && a in c.subs && a in d.subs && a <= 1 && d == c.(subs := c.subs[a := d.subs[a]])
    requires SubEvolves(c.subs[a], d.subs[a]) && c.subs[a].status.Receiving? && d.subs[a].status.Receiving?
    requires |c.subs[a].states| < |d.subs[a].states| <= env.maxStates
    ensures Evolves(env, c, d) && Measure(env, d) < Measure(env, c)
  {}

  /** Restamping attempts to later statuses. */
  lemma RestampAdvances(env: Env, c: Coin, d: Coin, a: byte)
    requires Fits(env, c) && Restamped(c, d) && c.subs.Keys <= {0, 1} && a in c.subs && Live(c.subs[a].status)
    requires !d.subs[a].status.Receiving? && (d.subs[a].status.Pending? ==> c.subs[a].status.Receiving?)
    requires 1 - a in c.subs ==>
      d.subs[1 - a].status == c.subs[1 - a].status || (Live(c.subs[1 - a].status) && Terminal(d.subs[1 - a].status))
    requires c.subs[a].status.Pending? ==> !d.subs[a].status.Rejected?
    requires 1 - a in c.subs && c.subs[1 - a].status.Pending? ==> !d.subs[1 - a].status.Rejected?
    requires c.registry.status.Spent? ==> d.registry.status.Spent? && d.head == c.head
    requires c.head.isSet && d.registry.status.Active? ==> d.head == c.head
    ensures Evolves(env, c, d) && Measure(env, d) < Measure(env, c)
  {
    RankFalls(env, c, d, a);
    OtherRank(env, c, d, 1 - a);
    forall b | b in c.subs ensures SubEvolves(c.subs[b], d.subs[b]) {
      assert b == a || b == 1 - a;
    }
    hide Rank, SubEvolves;
  }

  lemma OtherRank(env: Env, c: Coin, d: Coin, b: int)
    requires 0 <= b <= 1 && Fits(env, c) && Restamped(c, d)
    requires b in c.subs ==>
      d.subs[b].status == c.subs[b].status || (Live(c.subs[b].status) && Terminal(d.subs[b].status))
    ensures 0 <= Rank(env, d, b) <= Rank(env, c, b)
  {}

  lemma RankFalls(env: Env, c: Coin, d: Coin, a: byte)
    requires Fits(env, c) && a in c.subs && a in d.subs && Live(c.subs[a].status)
    requires !d.subs[a].status.Receiving? && (d.subs[a].status.Pending? ==> c.subs[a].status.Receiving?)
    ensures 0 <= Rank(env, d, a) < Rank(env, c, a)
  {}

  lemma StartAdvances(env: Env, w: World, s: Bytes32, a: byte, state0: State, checker: Bytes32, held: u64)
    requires Inv(env, w) && DoStart(env, w, s, a, state0, checker, held).Ok?
    ensures Advances(env, w, DoStart(env, w, s, a, state0, checker, held).value, s)
  {
    hide Inv, Fits, Evolves, Measure, ParseOwner, ParseSerial, ParseValue, I.BondAmount, I.BondOf;
    FitsAt(env, w, s);
    OpenAdvances(env, w.coins[s], DoStart(env, w, s, a, state0, checker, held).value.coins[s], a);
  }

  lemma AppendAdvances(env: Env, w: World, s: Bytes32, a: byte, headOwner: Bytes32, links: seq<Link>, lastHash: Bytes32)
    requires Inv(env, w) && DoAppend(env, w, s, a, headOwner, links, lastHash).Ok?
    ensures Advances(env, w, DoAppend(env, w, s, a, headOwner, links, lastHash).value, s)
  {
    hide Inv, CoinInv, SubInv, Fits, Evolves, Measure, ParseOwner, I.CheckLinks;
    FitsAt(env, w, s);
    SubAt(env, w, s, a);
    GrowthAdvances(env, w.coins[s], DoAppend(env, w, s, a, headOwner, links, lastHash).value.coins[s], a);
  }

  lemma FinalizeAdvances(env: Env, w: World, s: Bytes32, a: byte, other: byte, recipient: Bytes32, x: I.Extras)
    requires Inv(env, w) && DoFinalize(env, w, s, a, other, recipient, x).Ok?
    ensures Advances(env, w, DoFinalize(env, w, s, a, other, recipient, x).value, s)
    ensures Restamped(w.coins[s], DoFinalize(env, w, s, a, other, recipient, x).value.coins[s])
  {
    hide Inv, CoinInv, SubInv, Fits, Evolves, Measure, Store, I.VerifyFullChain, I.ContenderWins, I.RejectSpent,
         I.ResolveWin, I.ResolveLose;
    CoinAt(env, w, s);
    FitsAt(env, w, s);
    SubAt(env, w, s, a);
    var b, c := Load(w, s, a), I.FinalizeCheckIn(env, Load(w, s, a), s, other, recipient, x, w.slot).value;
    if w.coins[s].registry.status.Spent? {
      RejectEffect(env, b, w.slot);
    } else if w.coins[s].head.isSet {
      if I.ContenderWins(b.mine.states, b.head) {
        WinEffect(env, b, x, w.slot);
      } else {
        LoseEffect(env, b, x, w.slot);
      }
    }
    StoredTurn(w, s, a, c);
    RestampAdvances(env, w.coins[s], Store(w, s, a, c).coins[s], a);
  }

  lemma SettleAdvances(env: Env, w: World, s: Bytes32, a: byte, other: byte, recipient: Bytes32, x: I.Extras)
    requires Inv(env, w) && DoSettle(env, w, s, a, other, recipient, x).Ok?
    ensures Advances(env, w, DoSettle(env, w, s, a, other, recipient, x).value, s)
    ensures Restamped(w.coins[s], DoSettle(env, w, s, a, other, recipient, x).value.coins[s])
  {
    hide Inv, CoinInv, SubInv, Fits, Evolves, Measure, Store, SettleMoves, I.SettlePayOut;
    CoinAt(env, w, s);
    FitsAt(env, w, s);
    SubAt(env, w, s, a);
    var b := Load(w, s, a);
    SettleEffect(env, b, x);
    var c := I.SettlePayOut(env, b, x).value;
    StoredTurn(w, s, a, c);
    RestampAdvances(env, w.coins[s], Store(w, s, a, c).coins[s], a);
  }

  // ---- steps and runs

  /** A step either acts on coin `s` and brings it strictly nearer its end, or leaves it exactly as it was. */
  lemma StepEvolves(env: Env, w: World, e: Event, s: Bytes32)
    requires Inv(env, w) && s in w.coins
    ensures s in Exec(env, w, e).coins && Exec(env, w, e).slot >= w.slot
    ensures Exec(env, w, e).config.window == w.config.window
    ensures if ActsOn(e, s) && Step(env, w, e).Ok? then Advances(env, w, Exec(env, w, e), s)
            else Exec(env, w, e).coins[s] == w.coins[s]
  {
    hide Inv, DoMint, DoStart, DoAppend, DoFinalize, DoSettle, Evolves, Measure;
    if Step(env, w, e).Ok? {
      match e
      case Mint(authority, t, value, recipient, genesis) => MintNew(env, w, authority, t, value, recipient, genesis);
      case Start(t, a, state0, checker, held) => StartAdvances(env, w, t, a, state0, checker, held);
      case Append(t, a, owner, newLinks, lastHash) => AppendAdvances(env, w, t, a, owner, newLinks, lastHash);
      case Finalize(t, a, other, recipient, x) => FinalizeAdvances(env, w, t, a, other, recipient, x);
      case Settle(t, a, other, recipient, x) => SettleAdvances(env, w, t, a, other, recipient, x);
      case _ =>
    }
  }

  lemma MintNew(env: Env, w: World, authority: Bytes32, s: Bytes32, value: u64, recipient: Bytes32, genesis: Bytes32)
    requires DoMint(env, w, authority, s, value, recipient, genesis).Ok?
    ensures var after := DoMint(env, w, authority, s, value, recipient, genesis).value;
            s !in w.coins && s in after.coins && after.coins == w.coins[s := after.coins[s]]
            && after.slot == w.slot && after.config.window == w.config.window
  {
    hide Genesis;
  }

  lemma FinalizeElsewhere(env: Env, w: World, t: Bytes32, a: byte, other: byte, recipient: Bytes32, x: I.Extras,
                          s: Bytes32)
    requires DoFinalize(env, w, t, a, other, recipient, x).Ok?
    ensures var after := DoFinalize(env, w, t, a, other, recipient, x).value;
            after.coins.Keys == w.coins.Keys && (s in w.coins && s != t ==> after.coins[s] == w.coins[s])
  {
    hide I.FinalizeCheckIn;
  }

  lemma SettleElsewhere(env: Env, w: World, t: Bytes32, a: byte, other: byte, recipient: Bytes32, x: I.Extras,
                        s: Bytes32)
    requires DoSettle(env, w, t, a, other, recipient, x).Ok?
    ensures var after := DoSettle(env, w, t, a, other, recipient, x).value;
            after.coins.Keys == w.coins.Keys && (s in w.coins && s != t ==> after.coins[s] == w.coins[s])
  {
    hide I.Settle;
  }

  lemma EvolvesReflexive(env: Env, c: Coin)
    requires Fits(env, c)
    ensures Evolves(env, c, c)
  {}

  /** How many instructions of a run act on coin `s` and succeed. */
  ghost function Successes(env: Env, w: World, events: seq<Event>, s: Bytes32): nat
    decreases |events|
  {
    if events == [] then 0
    else (if ActsOn(events[0], s) && Step(env, w, events[0]).Ok? then 1 else 0)
         + Successes(env, Exec(env, w, events[0]), events[1..], s)
  }

  /** Statuses only move forward, stored chains only grow, and every success uses up some of the measure. */
  lemma {:induction false} RunEvolves(env: Env, w: World, events: seq<Event>, s: Bytes32)
    requires Inv(env, w) && s in w.coins
    ensures var after := Run(env, w, events);
            && s in after.coins && after.slot >= w.slot && after.config.window == w.config.window
            && Evolves(env, w.coins[s], after.coins[s])
            && Successes(env, w, events, s) + Measure(env, after.coins[s]) <= Measure(env, w.coins[s])
    decreases |events|
  {
    hide Inv, Exec, Step, Evolves, Measure;
    if events == [] {
      FitsAt(env, w, s);
      EvolvesReflexive(env, w.coins[s]);
    } else {
      var next := Exec(env, w, events[0]);
      StepKeeps(env, w, events[0]);
      StepEvolves(env, w, events[0], s);
      RunEvolves(env, next, events[1..], s);
      if Advances(env, w, next, s) {
        EvolvesTransitive(env, w.coins[s], next.coins[s], Run(env, w, events).coins[s]);
      }
    }
  }

  /** No run can act on one coin successfully more than 2 * (capacity + 3) times. */
  lemma FewSuccesses(env: Env, w: World, events: seq<Event>, s: Bytes32)
    requires Inv(env, w) && s in w.coins
    ensures Successes(env, w, events, s) <= 2 * (env.maxStates + 3)
  {
    hide Inv, Run, Successes;
    RunEvolves(env, w, events, s);
  }
}
