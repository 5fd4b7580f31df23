/** The challenge window holds over whole runs. */
module Window {
  import opened Bytes
  import opened StateOps
  import opened Accounts
  import opened Machine
  import opened Invariant
  import opened Reachable
  import opened Progress
  import opened Evolution
  import opened Payouts
  import I = Instructions

  /** The world before the `i`-th instruction of a run. */
  function At(env: Env, start: World, events: seq<Event>, i: nat): World
    requires i <= |events|
  {
    Run(env, start, events[..i])
  }

  lemma AtNext(env: Env, start: World, events: seq<Event>, i: nat)
    requires i < |events|
    ensures At(env, start, events, i + 1) == Exec(env, At(env, start, events, i), events[i])
  {
    hide Exec;
    var w := At(env, start, events, i);
    assert events[..i + 1] == events[..i] + [events[i]];
    RunConcat(env, start, events[..i], [events[i]]);
    assert Run(env, w, [events[i]]) == Run(env, Exec(env, w, events[i]), []);
  }

  lemma AtInv(env: Env, start: World, events: seq<Event>, i: nat)
    requires Initial(start) && i <= |events|
    ensures Inv(env, At(env, start, events, i))
  {
    hide Inv;
    InitialInv(env, start);
    RunKeeps(env, start, events[..i]);
  }

  /** Instruction `i` gives coin `s` its head, stamped with that moment. */
  ghost predicate SetsHead(env: Env, start: World, events: seq<Event>, i: nat, s: Bytes32)
    requires i < |events|
  {
    var before, after := At(env, start, events, i), At(env, start, events, i + 1);
    && events[i].Finalize? && events[i].serial == s && s in before.coins && s in after.coins
    && !before.coins[s].head.isSet && Headed(after.coins[s])
    && after.coins[s].head.attempt == events[i].attempt && after.coins[s].head.since == before.slot
  }

  /** No instruction but finalize sets or moves a head. */
  lemma OthersKeepHeads(env: Env, w: World, e: Event, s: Bytes32)
    requires s in Exec(env, w, e).coins && !e.Finalize?
    ensures Exec(env, w, e).coins[s].head == if s in w.coins then w.coins[s].head else NO_HEAD
  {
    hide I.AppendLinks, I.StartCheckIn, I.MintCoin, I.SettlePayOut, DoMint, DoSettle;
    if e.Settle? && Step(env, w, e).Ok? {
      SettleKeepsHead(env, w, e.serial, e.attempt, e.otherAttempt, e.recipient, e.extras);
    }
    if e.Mint? && Step(env, w, e).Ok? {
      MintHeadless(env, w, e.authority, e.serial, e.value, e.recipient, e.genesis);
    }
  }

  lemma SettleKeepsHead(env: Env, w: World, s: Bytes32, a: byte, other: byte, recipient: Bytes32, x: I.Extras)
    requires DoSettle(env, w, s, a, other, recipient, x).Ok?
    ensures var after := DoSettle(env, w, s, a, other, recipient, x).value;
            s in w.coins && s in after.coins && after.coins == w.coins[s := after.coins[s]]
            && after.coins[s].head == w.coins[s].head
  {
    hide I.SettlePayOut, SettleMoves, Moves;
    SettleEffect(env, Load(w, s, a), x);
  }

  lemma MintHeadless(env: Env, w: World, authority: Bytes32, s: Bytes32, value: u64, recipient: Bytes32,
                     genesis: Bytes32)
    requires DoMint(env, w, authority, s, value, recipient, genesis).Ok?
    ensures var after := DoMint(env, w, authority, s, value, recipient, genesis).value;
            s !in w.coins && s in after.coins && after.coins == w.coins[s := after.coins[s]]
            && after.coins[s].head == NO_HEAD
  {
    hide Genesis;
  }

  /** A finalize that gives a coin its first head stamps the current slot and its own attempt. */
  lemma FinalizeStamps(env: Env, w: World, s: Bytes32, a: byte, other: byte, recipient: Bytes32, x: I.Extras)
    requires Inv(env, w) && DoFinalize(env, w, s, a, other, recipient, x).Ok? && !w.coins[s].head.isSet
    requires w.coins[s].registry.status.Active?
    ensures var after := DoFinalize(env, w, s, a, other, recipient, x).value;
            s in after.coins && after.coins == w.coins[s := after.coins[s]]
            && after.coins[s].head.attempt == a && after.coins[s].head.since == w.slot
  {
    hide Inv, CoinInv, SubInv, I.VerifyFullChain, I.Resolve, I.RejectSpent;
    SubAt(env, w, s, a);
  }

  /** Only a finalize sets a head, and it stamps the current slot. */
  lemma HeadAppears(env: Env, w: World, e: Event, s: Bytes32)
    requires Inv(env, w) && s in Exec(env, w, e).coins && Headed(Exec(env, w, e).coins[s])
    requires s in w.coins ==> !w.coins[s].head.isSet
    ensures s in w.coins && e.Finalize? && e.serial == s
    ensures var head := Exec(env, w, e).coins[s].head; head.attempt == e.attempt && head.since == w.slot
  {
    hide Inv, CoinInv, SubInv, DoFinalize, DoMint, DoStart, DoAppend, DoSettle, DoSetCap, DoOutside;
    if !e.Finalize? {
      OthersKeepHeads(env, w, e, s);
    } else if Step(env, w, e).Ok? {
      FinalizeElsewhere(env, w, e.serial, e.attempt, e.otherAttempt, e.recipient, e.extras, s);
      StepEvolves(env, w, e, s);
      if e.serial == s && w.coins[s].registry.status.Active? {
        FinalizeStamps(env, w, s, e.attempt, e.otherAttempt, e.recipient, e.extras);
      }
    }
  }

  /** While the coin stays active, a head that stands keeps its state, its slot and its chain. */
  lemma HeadStands(env: Env, w: World, s: Bytes32, next: Coin)
    requires Inv(env, w) && s in w.coins && w.coins[s].head.isSet
    requires next == w.coins[s] || Evolves(env, w.coins[s], next)
    requires next.registry.status.Active?
    ensures var c, a := w.coins[s], w.coins[s].head.attempt;
            Headed(c) && next.head == c.head && a in c.subs && a in next.subs && next.subs[a].states == c.subs[a].states
  {
    hide Inv, SubInv, Genesis, Measure;
    CoinAt(env, w, s);
  }

  lemma NothingYet(env: Env, start: World, events: seq<Event>, s: Bytes32)
    requires Initial(start)
    ensures s !in At(env, start, events, 0).coins
  {
    assert events[..0] == [];
  }

  /** Over any run that leaves the coin active, a head that was set stays, with its slot and its chain. */
  lemma HeadUntouched(env: Env, w: World, events: seq<Event>, s: Bytes32)
    requires Inv(env, w) && s in w.coins && w.coins[s].head.isSet
    ensures var after := Run(env, w, events);
            && s in after.coins
            && (after.coins[s].registry.status.Active? ==>
                  var a := w.coins[s].head.attempt;
                  after.coins[s].head == w.coins[s].head && a in w.coins[s].subs && a in after.coins[s].subs
                  && after.coins[s].subs[a].states == w.coins[s].subs[a].states)
  {
    hide Inv, Run, Evolves;
    RunEvolves(env, w, events, s);
    if Run(env, w, events).coins[s].registry.status.Active? {
      HeadStands(env, w, s, Run(env, w, events).coins[s]);
    }
  }

  /** A coin under a head got it at some earlier finalize, and has carried that very head and chain since. */
  lemma {:induction false} HeadOrigin(env: Env, start: World, events: seq<Event>, j: nat, s: Bytes32) returns (i: nat)
    requires Initial(start) && j <= |events|
    requires s in At(env, start, events, j).coins && Headed(At(env, start, events, j).coins[s])
    ensures i < j && SetsHead(env, start, events, i, s)
    ensures At(env, start, events, i).slot <= At(env, start, events, j).slot
    ensures var c, d := At(env, start, events, i + 1).coins[s], At(env, start, events, j).coins[s];
            d.head == c.head && d.head.attempt in d.subs && d.head.attempt in c.subs
            && d.subs[d.head.attempt].states == c.subs[c.head.attempt].states
    decreases j
  {
    hide Inv, Exec, Step, CoinInv, SubInv, Measure, Evolves;
    if j == 0 {
      NothingYet(env, start, events, s);
      assert false;
    } else {
      var before := At(env, start, events, j - 1);
      AtInv(env, start, events, j - 1);
      AtNext(env, start, events, j - 1);
      if s in before.coins {
        StepEvolves(env, before, events[j - 1], s);
        CoinAt(env, before, s);
      }
      if s in before.coins && before.coins[s].head.isSet {
        HeadStands(env, before, s, At(env, start, events, j).coins[s]);
        i := HeadOrigin(env, start, events, j - 1, s);
      } else {
        HeadAppears(env, before, events[j - 1], s);
        i := j - 1;
      }
    }
  }

  /** A settle never pays before the window of the finalize that set the paid head has passed,
      and pays the chain that was finalized there. */
  lemma WindowRespected(env: Env, start: World, events: seq<Event>, j: nat) returns (i: nat)
    requires Initial(start) && j < |events| && events[j].Settle?
    requires Step(env, At(env, start, events, j), events[j]).Ok?
    ensures i < j && SetsHead(env, start, events, i, events[j].serial)
    ensures At(env, start, events, j).slot == U64_MAX
         || At(env, start, events, j).slot >= At(env, start, events, i).slot + start.config.window
    ensures var s, a := events[j].serial, events[j].attempt;
            && s in At(env, start, events, j).coins && s in At(env, start, events, i + 1).coins
            && var c, d := At(env, start, events, i + 1).coins[s], At(env, start, events, j).coins[s];
               a == c.head.attempt && a in c.subs && a in d.subs && d.subs[a].states == c.subs[a].states
  {
    hide Inv, CoinInv, SubInv, Headed, Run, SetsHead, Initial, I.SettlePayOut;
    var w, s := At(env, start, events, j), events[j].serial;
    AtInv(env, start, events, j);
    OpenAt(env, w, s, events[j].attempt);
    i := HeadOrigin(env, start, events, j, s);
    InitialInv(env, start);
    WindowConstant(env, start, events[..j]);
    OriginSlot(env, start, events, i, s);
  }

  lemma OriginSlot(env: Env, start: World, events: seq<Event>, i: nat, s: Bytes32)
    requires i < |events| && SetsHead(env, start, events, i, s)
    ensures s in At(env, start, events, i + 1).coins
    ensures At(env, start, events, i + 1).coins[s].head.since == At(env, start, events, i).slot
  {
    hide Run, Headed;
  }

  lemma WindowKept(env: Env, w: World, e: Event)
    requires Inv(env, w)
    ensures Exec(env, w, e).config.window == w.config.window
  {
    hide Inv, DoMint, DoStart, DoAppend, DoFinalize, DoSettle, Advances;
    if Step(env, w, e).Ok? {
      match e
      case Mint(authority, s, value, recipient, genesis) => MintNew(env, w, authority, s, value, recipient, genesis);
      case Start(s, _, _, _, _) => Acted(env, w, e, s);
      case Append(s, _, _, _, _) => Acted(env, w, e, s);
      case Finalize(s, _, _, _, _) => Acted(env, w, e, s);
      case Settle(s, _, _, _, _) => Acted(env, w, e, s);
      case _ =>
    }
  }

  lemma Acted(env: Env, w: World, e: Event, s: Bytes32)
    requires Inv(env, w) && ActsOn(e, s) && Step(env, w, e).Ok?
    ensures s in w.coins && Exec(env, w, e).config.window == w.config.window
  {
    hide Inv, I.StartCheckIn, I.AppendLinks, I.FinalizeCheckIn, I.Settle, Advances;
    StepEvolves(env, w, e, s);
  }

  lemma {:induction false} WindowConstant(env: Env, w: World, events: seq<Event>)
    requires Inv(env, w)
    ensures Run(env, w, events).config.window == w.config.window
    decreases |events|
  {
    hide Inv, Exec;
    if events != [] {
      WindowKept(env, w, events[0]);
      StepKeeps(env, w, events[0]);
      WindowConstant(env, Exec(env, w, events[0]), events[1..]);
    }
  }
}
