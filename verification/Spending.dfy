/** A coin is paid out once, and a wallet's commitment follows what is out to it. */
module Spending {
  import opened Bytes
  import opened StateOps
  import opened Ledgers
  import opened Accounts
  import opened Machine
  import opened Invariant
  import opened Reachable
  import opened Evolution
  import opened Payouts
  import I = Instructions

  // ---- paid out once

  ghost predicate SpentIn(w: World, s: Bytes32) { s in w.coins && w.coins[s].registry.status.Spent? }

  /** SPENT holds exactly when some attempt is WON, and never are two attempts WON. */
  lemma SpentIffWon(env: Env, w: World, s: Bytes32)
    requires Inv(env, w) && s in w.coins
    ensures var coin := w.coins[s];
            && (coin.registry.status.Spent? <==> exists a :: a in coin.subs && coin.subs[a].status.Won?)
            && forall a, b ::
                 a in coin.subs && b in coin.subs && coin.subs[a].status.Won? && coin.subs[b].status.Won? ==> a == b
  {
    hide Inv, SubInv, Genesis;
    CoinAt(env, w, s);
  }

  /** How many steps of a run pay coin `s` out. */
  ghost function PayOuts(env: Env, w: World, events: seq<Event>, s: Bytes32): nat
    decreases |events|
  {
    if events == [] then 0
    else (if !SpentIn(w, s) && SpentIn(Exec(env, w, events[0]), s) then 1 else 0)
         + PayOuts(env, Exec(env, w, events[0]), events[1..], s)
  }

  lemma SpentStays(env: Env, w: World, e: Event, s: Bytes32)
    requires Inv(env, w) && SpentIn(w, s)
    ensures SpentIn(Exec(env, w, e), s)
  {
    hide Inv, Exec, Step, Measure;
    StepEvolves(env, w, e, s);
  }

  /** Over any run a coin is paid out at most once, and it ends spent exactly when it was spent or paid out. */
  lemma {:induction false} PaidOnce(env: Env, w: World, events: seq<Event>, s: Bytes32)
    requires Inv(env, w)
    ensures PayOuts(env, w, events, s) + (if SpentIn(w, s) then 1 else 0) ==
            if SpentIn(Run(env, w, events), s) then 1 else 0
    decreases |events|
  {
    hide Inv, Exec, SpentIn;
    if events != [] {
      StepKeeps(env, w, events[0]);
      if SpentIn(w, s) { SpentStays(env, w, events[0], s); }
      PaidOnce(env, Exec(env, w, events[0]), events[1..], s);
    }
  }

  // ---- commitments

  function Committed(w: World, k: Bytes32): u64 { AllowanceOf(w, k).committed }

  /** A successful settle of a coin minted to `k` that skips the allowance account. */
  predicate SkipsAllowance(env: Env, w: World, e: Event, k: Bytes32) {
    && e.Settle? && e.extras.allowance.Skipped? && Step(env, w, e).Ok?
    && e.serial in w.coins && w.coins[e.serial].registry.recipient == k
  }

  /** What a step spends of wallet `k`'s coins without releasing its commitment. */
  function Unreleased(env: Env, w: World, e: Event, k: Bytes32): int {
    if SkipsAllowance(env, w, e, k) then w.coins[e.serial].registry.value else 0
  }

  ghost function UnreleasedIn(env: Env, w: World, events: seq<Event>, k: Bytes32): int
    decreases |events|
  {
    if events == [] then 0
    else Unreleased(env, w, events[0], k) + UnreleasedIn(env, Exec(env, w, events[0]), events[1..], k)
  }

  /** The commitment of `k` beyond what is out to it. */
  ghost function Slack(w: World, k: Bytes32): int { Committed(w, k) - SumOf(w.coins, UnspentOf(k)) }

  lemma MintSlack(env: Env, w: World, authority: Bytes32, s: Bytes32, value: u64, recipient: Bytes32, genesis: Bytes32,
                  k: Bytes32)
    requires Inv(env, w) && DoMint(env, w, authority, s, value, recipient, genesis).Ok?
    ensures Slack(DoMint(env, w, authority, s, value, recipient, genesis).value, k) == Slack(w, k)
  {
    hide CoinsInv, Escrowed, Backed, AllowedFor, Genesis, SumOf;
    SumOfUpdate(w.coins, s, DoMint(env, w, authority, s, value, recipient, genesis).value.coins[s], UnspentOf(k));
  }

  /** A step on coin `s` that keeps its status and the allowances. */
  lemma QuietSlack(w: World, after: World, s: Bytes32, k: Bytes32)
    requires s in w.coins && s in after.coins && after.coins == w.coins[s := after.coins[s]]
    requires after.allowances == w.allowances
    requires after.coins[s].registry == w.coins[s].registry.(count := after.coins[s].registry.count)
    ensures Slack(after, k) == Slack(w, k)
  {
    hide SumOf;
    SumOfUpdate(w.coins, s, after.coins[s], UnspentOf(k));
  }

  /** A step that spends coin `s` and, unless `kept`, releases its value. */
  lemma SpendSlack(w: World, after: World, s: Bytes32, kept: bool, k: Bytes32)
    requires s in w.coins && s in after.coins && after.coins == w.coins[s := after.coins[s]]
    requires w.coins[s].registry.status.Active? && after.coins[s].registry == w.coins[s].registry.(status := Spent)
    requires var r := w.coins[s].registry.recipient;
             if kept then after.allowances == w.allowances
             else r in w.allowances && r in after.allowances
                  && after.allowances == w.allowances[r := after.allowances[r]]
                  && Committed(after, r) == Committed(w, r) - w.coins[s].registry.value
    ensures var reg := w.coins[s].registry;
            Slack(after, k) == Slack(w, k) + if kept && reg.recipient == k then reg.value else 0
  {
    hide SumOf;
    SumOfUpdate(w.coins, s, after.coins[s], UnspentOf(k));
  }

  lemma FinalizeSlack(env: Env, w: World, s: Bytes32, a: byte, other: byte, recipient: Bytes32, x: I.Extras, k: Bytes32)
    requires Inv(env, w) && DoFinalize(env, w, s, a, other, recipient, x).Ok?
    ensures Slack(DoFinalize(env, w, s, a, other, recipient, x).value, k) == Slack(w, k)
  {
    hide Inv, CoinInv, SubInv, Slack, AllowedFor, I.VerifyFullChain, I.ContenderWins, I.RejectSpent, I.ResolveWin,
         I.ResolveLose;
    CoinAt(env, w, s);
    SubAt(env, w, s, a);
    var b, after := Load(w, s, a), DoFinalize(env, w, s, a, other, recipient, x).value;
    if w.coins[s].registry.status.Spent? {
      RejectEffect(env, b, w.slot);
    } else if w.coins[s].head.isSet {
      if I.ContenderWins(b.mine.states, b.head) {
        WinEffect(env, b, x, w.slot);
      } else {
        LoseEffect(env, b, x, w.slot);
      }
    }
    if after.coins[s].registry.status == w.coins[s].registry.status {
      assert after.allowances == w.allowances;
      QuietSlack(w, after, s, k);
    } else {
      SpendSlack(w, after, s, false, k);
    }
  }

  lemma SettleSlack(env: Env, w: World, s: Bytes32, a: byte, other: byte, recipient: Bytes32, x: I.Extras, k: Bytes32)
    requires Inv(env, w) && DoSettle(env, w, s, a, other, recipient, x).Ok?
    ensures Slack(DoSettle(env, w, s, a, other, recipient, x).value, k)
         == Slack(w, k) + Unreleased(env, w, Settle(s, a, other, recipient, x), k)
  {
    hide Inv, CoinInv, SubInv, Slack, AllowedFor, SettleMoves, I.SettlePayOut;
    CoinAt(env, w, s);
    SubAt(env, w, s, a);
    var after := DoSettle(env, w, s, a, other, recipient, x).value;
    SettleEffect(env, Load(w, s, a), x);
    if x.allowance.Skipped? { assert after.allowances == w.allowances; }
    SpendSlack(w, after, s, x.allowance.Skipped?, k);
  }

  lemma StepSlack(env: Env, w: World, e: Event, k: Bytes32)
    requires Inv(env, w)
    ensures Slack(Exec(env, w, e), k) == Slack(w, k) + Unreleased(env, w, e, k)
  {
    hide Inv, DoMint, DoFinalize, DoSettle, Slack, I.StartCheckIn, I.AppendLinks;
    if Step(env, w, e).Ok? {
      var after := Step(env, w, e).value;
      match e
      case Mint(authority, s, value, recipient, genesis) =>
        MintSlack(env, w, authority, s, value, recipient, genesis, k);
      case Start(s, a, state0, checker, held) =>
        StartBooks(env, w, s, a, state0, checker, held);
        QuietSlack(w, after, s, k);
      case Append(s, a, owner, newLinks, lastHash) => QuietSlack(w, after, s, k);
      case Finalize(s, a, other, recipient, x) => FinalizeSlack(env, w, s, a, other, recipient, x, k);
      case Settle(s, a, other, recipient, x) => SettleSlack(env, w, s, a, other, recipient, x, k);
      case _ => SameSlack(env, w, e, k);
    }
  }

  lemma StartBooks(env: Env, w: World, s: Bytes32, a: byte, state0: State, checker: Bytes32, held: u64)
    requires DoStart(env, w, s, a, state0, checker, held).Ok?
    ensures var after := DoStart(env, w, s, a, state0, checker, held).value;
            s in w.coins && s in after.coins
            && after.coins[s].registry == w.coins[s].registry.(count := after.coins[s].registry.count)
  {
    hide I.BondAmount, ParseOwner, ParseSerial, ParseValue;
  }

  lemma SameSlack(env: Env, w: World, e: Event, k: Bytes32)
    requires e.SetCap? || e.Fund? || e.Withdraw? || e.Pay? || e.Issue? || e.Tick?
    ensures Slack(Exec(env, w, e), k) == Slack(w, k)
  {
    hide SumOf, Transfer;
  }

  lemma {:induction false} RunSlack(env: Env, w: World, events: seq<Event>, k: Bytes32)
    requires Inv(env, w)
    ensures Slack(Run(env, w, events), k) == Slack(w, k) + UnreleasedIn(env, w, events, k)
    decreases |events|
  {
    hide Inv, Exec, Slack, Unreleased;
    if events != [] {
      StepKeeps(env, w, events[0]);
      StepSlack(env, w, events[0], k);
      RunSlack(env, Exec(env, w, events[0]), events[1..], k);
    }
  }

  /** On every run the commitment of a wallet is what is out to it, plus what settles without its allowance left behind.
      */
  lemma ExactCommitment(env: Env, start: World, events: seq<Event>, k: Bytes32)
    requires Initial(start)
    ensures var w := Run(env, start, events);
            Committed(w, k) == SumOf(w.coins, UnspentOf(k)) + UnreleasedIn(env, start, events, k)
  {
    hide Run, UnreleasedIn;
    InitialInv(env, start);
    RunSlack(env, start, events, k);
    assert Weights(start.coins, UnspentOf(k)) == map[];
  }

  ghost predicate AllReleased(env: Env, w: World, events: seq<Event>, k: Bytes32)
    decreases |events|
  {
    events == [] || (!SkipsAllowance(env, w, events[0], k) && AllReleased(env, Exec(env, w, events[0]), events[1..], k))
  }

  lemma UnreleasedSign(env: Env, w: World, e: Event, k: Bytes32)
    requires Inv(env, w)
    ensures Unreleased(env, w, e, k) >= 0 && (Unreleased(env, w, e, k) == 0 <==> !SkipsAllowance(env, w, e, k))
  {
    hide Inv, Step, SubInv, Shaped, Genesis;
    if SkipsAllowance(env, w, e, k) { CoinAt(env, w, e.serial); }
  }

  lemma {:induction false} NothingUnreleased(env: Env, w: World, events: seq<Event>, k: Bytes32)
    requires Inv(env, w)
    ensures UnreleasedIn(env, w, events, k) >= 0
    ensures UnreleasedIn(env, w, events, k) == 0 <==> AllReleased(env, w, events, k)
    decreases |events|
  {
    hide Inv, Exec, Unreleased, SkipsAllowance;
    if events != [] {
      StepKeeps(env, w, events[0]);
      UnreleasedSign(env, w, events[0], k);
      NothingUnreleased(env, Exec(env, w, events[0]), events[1..], k);
    }
  }

  /** A wallet's commitment is exactly what is out to it if and only if every settle of its coins released its value. */
  lemma CommitmentExactIff(env: Env, start: World, events: seq<Event>, k: Bytes32)
    requires Initial(start)
    ensures var w := Run(env, start, events);
            Committed(w, k) == SumOf(w.coins, UnspentOf(k)) <==> AllReleased(env, start, events, k)
  {
    hide Run, UnreleasedIn, AllReleased, Committed, SumOf;
    InitialInv(env, start);
    ExactCommitment(env, start, events, k);
    NothingUnreleased(env, start, events, k);
  }
}
