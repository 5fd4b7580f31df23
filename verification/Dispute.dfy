/** The dispute rule is plain length comparison, and the order of two finalizes does not matter. */
module Dispute {
  import opened Bytes
  import opened Results
  import opened StateOps
  import opened Ledgers
  import opened Accounts
  import opened Machine
  import opened Invariant
  import opened Reachable
  import opened Payouts
  import opened Progress
  import I = Instructions

  /** The states whose hashes decide a dispute over one coin: both chains and the minted first state. */
  ghost function Disputed(reg: Registry, mine: seq<State>, head: seq<State>): seq<State> {
    mine + head + [Genesis(reg.serial, reg.value, reg.recipient)]
  }

  /** Only the first state of a chain carries the empty previous hash. */
  lemma OnlyFirstUnlinked(hash: Bytes -> Bytes32, reg: Registry, a: seq<State>, i: nat, all: seq<State>)
    requires WellChained(hash, reg, a) && i < |a| && (forall x :: x in a ==> x in all)
    requires reg.genesis == hash(Genesis(reg.serial, reg.value, reg.recipient))
    requires CollisionFree(hash, all) && Genesis(reg.serial, reg.value, reg.recipient) in all
    ensures ParsePrevHash(a[i]) == Zeros(32) <==> i == 0
  {
    assert a[0] in all;
    ParseFields(reg.serial, reg.value, reg.recipient, Zeros(32));
    hide Genesis, Fields, ParsePrevHash, ParseSerial, ParseValue;
    if i > 0 {
      assert LinkOk(hash, reg, a[i - 1], a[i]) && a[i - 1] in all;
    }
  }

  /** A state occurs at one position only, and fixes everything before it. */
  lemma {:induction false} SamePosition(hash: Bytes -> Bytes32, reg: Registry, a: seq<State>, b: seq<State>, i: nat,
                                        j: nat)
    requires WellChained(hash, reg, a) && WellChained(hash, reg, b)
    requires reg.genesis == hash(Genesis(reg.serial, reg.value, reg.recipient))
    requires CollisionFree(hash, Disputed(reg, a, b))
    requires i < |a| && j < |b| && a[i] == b[j]
    ensures i == j && a[..i + 1] == b[..i + 1]
  {
    var all := Disputed(reg, a, b);
    OnlyFirstUnlinked(hash, reg, a, i, all);
    OnlyFirstUnlinked(hash, reg, b, j, all);
    if i > 0 && j > 0 {
      assert LinkOk(hash, reg, a[i - 1], a[i]) && LinkOk(hash, reg, b[j - 1], b[j]);
      assert a[i - 1] in all && b[j - 1] in all;
      hide LinksOk, Genesis, ParsePrevHash, ParseSerial, ParseValue;
      SamePosition(hash, reg, a, b, i - 1, j - 1);
    }
  }

  /** Looking for the end of the head chain in another chain finds it exactly when that chain extends it. */
  lemma FindsPrefix(hash: Bytes -> Bytes32, reg: Registry, mine: seq<State>, head: seq<State>)
    requires WellChained(hash, reg, mine) && WellChained(hash, reg, head)
    requires reg.genesis == hash(Genesis(reg.serial, reg.value, reg.recipient))
    requires CollisionFree(hash, Disputed(reg, mine, head))
    ensures I.FindFrom(mine, Last(head), 0) == if head <= mine then Some(|head| - 1) else None
  {
    hide LinksOk, CollisionFree, Genesis;
    var found := I.FindFrom(mine, Last(head), 0);
    if found.Some? {
      SamePosition(hash, reg, mine, head, found.value, |head| - 1);
    }
    if head <= mine {
      assert mine[0..][|head| - 1] == Last(head);
    }
  }

  /** The two-branch rule of the program is "strictly longer wins, a tie goes to the head". */
  lemma LongerWins(hash: Bytes -> Bytes32, reg: Registry, mine: seq<State>, head: Head, chain: seq<State>)
    requires WellChained(hash, reg, mine) && WellChained(hash, reg, chain)
    requires reg.genesis == hash(Genesis(reg.serial, reg.value, reg.recipient))
    requires CollisionFree(hash, Disputed(reg, mine, chain))
    requires head.state == Last(chain) && head.len == |chain|
    ensures I.ContenderWins(mine, head) <==> |mine| > |chain|
  {
    FindsPrefix(hash, reg, mine, chain);
  }

  /** In every reachable world with a head, a contender wins its finalize exactly when its chain is longer. */
  lemma DisputeRule(env: Env, w: World, s: Bytes32, a: byte)
    requires Inv(env, w) && HasAttempt(w, s, a) && Headed(w.coins[s]) && a != w.coins[s].head.attempt
    requires var coin := w.coins[s];
             CollisionFree(env.hash, Disputed(coin.registry, coin.subs[a].states, coin.subs[coin.head.attempt].states))
    ensures var coin := w.coins[s];
            var mine, chain := coin.subs[a].states, coin.subs[coin.head.attempt].states;
            && (I.ContenderWins(mine, coin.head) <==> |mine| > |chain|)
            && I.FindFrom(mine, coin.head.state, 0) == if chain <= mine then Some(|chain| - 1) else None
  {
    hide Inv, I.BondAmount, ParseOwner;
    CoinAt(env, w, s);
    SubAt(env, w, s, a);
    var coin := w.coins[s];
    SubAt(env, w, s, coin.head.attempt);
    FindsPrefix(env.hash, coin.registry, coin.subs[a].states, coin.subs[coin.head.attempt].states);
    LongerWins(env.hash, coin.registry, coin.subs[a].states, coin.head, coin.subs[coin.head.attempt].states);
  }

  // ---- two finalizes in either order

  /** Equal up to the slots written into heads and submissions. */
  ghost predicate SameCoin(c: Coin, d: Coin) {
    && c.registry == d.registry && c.head == d.head.(since := c.head.since) && c.subs.Keys == d.subs.Keys
    && forall a :: a in c.subs ==> c.subs[a] == d.subs[a].(finalized := c.subs[a].finalized)
  }

  ghost predicate SameButSlots(v: World, w: World) {
    && v.config == w.config && v.allowances == w.allowances && v.minted == w.minted && v.slot == w.slot
    && (forall o :: Bal(v.ledger, o) == Bal(w.ledger, o))
    && v.coins.Keys == w.coins.Keys && forall s :: s in v.coins ==> SameCoin(v.coins[s], w.coins[s])
  }

  /** Both attempts finalize, `first` before the other; then the window passes and `longer` is settled. */
  function Race(w: World, s: Bytes32, first: byte, longer: byte, slot: u64): seq<Event>
    requires s in w.coins && first <= 1 && longer <= 1
  {
    var k := w.coins[s].registry.recipient;
    [Finalize(s, first, 1 - first, k, ALL), Finalize(s, 1 - first, first, k, ALL), Tick(slot),
     Settle(s, longer, 1 - longer, k, ALL)]
  }

  /** What the race does to every balance: both bonds to the longer chain's checker, the value to its owner. */
  function RaceDelta(env: Env, w: World, s: Bytes32, longer: byte, o: Owner): int
    requires HasAttempt(w, s, longer) && longer <= 1
  {
    var sub := w.coins[s].subs[longer];
    var bond := I.BondOf(w.coins[s].registry.value, w.config.bps);
    Delta(o, Escrow(s, longer), env.who(sub.checker), bond)
    + Delta(o, Escrow(s, 1 - longer), env.who(sub.checker), bond)
    + Delta(o, Vault, env.who(sub.finalOwner), w.coins[s].registry.value)
  }

  ghost predicate RaceWon(env: Env, w: World, s: Bytes32, longer: byte, slot: u64, after: World)
    requires longer <= 1 && HasAttempt(w, s, longer) && HasAttempt(w, s, 1 - longer)
    requires w.coins[s].registry.recipient in w.allowances
  {
    var coin, k := w.coins[s], w.coins[s].registry.recipient;
    var value, a := coin.registry.value, w.allowances[k];
    && after.minted == w.minted && after.slot == slot && value <= w.config.supply && value <= a.committed
    && after.config == w.config.(supply := w.config.supply - value)
    && after.allowances == w.allowances[k := a.(committed := a.committed - value)]
    && (forall o :: Bal(after.ledger, o) == Bal(w.ledger, o) + RaceDelta(env, w, s, longer, o))
    && s in after.coins && after.coins == w.coins[s := after.coins[s]]
    && var next := after.coins[s];
       && next.registry == coin.registry.(status := Spent)
       && coin.subs[longer].states != [] && next.head == I.HeadOf(coin.subs[longer], next.head.since)
       && next.subs.Keys == coin.subs.Keys
       && next.subs[longer] == coin.subs[longer].(status := Won, finalized := next.subs[longer].finalized)
       && next.subs[1 - longer] == coin.subs[1 - longer].(status := Lost, finalized := next.subs[1 - longer].finalized)
  }

  /** The race is open: two attempts, the second no longer than the first, no head yet, nothing colliding. */
  ghost predicate Racing(env: Env, w: World, s: Bytes32, longer: byte) {
    && longer <= 1 && HasAttempt(w, s, longer) && HasAttempt(w, s, 1 - longer) && Unheaded(w.coins[s])
    && var coin := w.coins[s];
       && |coin.subs[longer].states| >= |coin.subs[1 - longer].states|
       && CollisionFree(env.hash, Disputed(coin.registry, coin.subs[longer].states, coin.subs[1 - longer].states))
  }

  predicate Tied(w: World, s: Bytes32)
    requires HasAttempt(w, s, 0) && HasAttempt(w, s, 1)
  {
    |w.coins[s].subs[0].states| == |w.coins[s].subs[1].states|
  }

  /** The first finalize makes its attempt the head and moves no money. */
  function HeadSet(w: World, s: Bytes32, a: byte): World
    requires a <= 1 && HasAttempt(w, s, a) && w.coins[s].subs[a].states != []
  {
    Store(w, s, a, I.SetHead(Load(w, s, a), w.slot))
  }

  lemma Headless(env: Env, w: World, s: Bytes32, a: byte)
    requires Inv(env, w) && HasAttempt(w, s, a) && Unheaded(w.coins[s])
    ensures a <= 1 && w.coins[s].subs[a].states != []
    ensures DoFinalize(env, w, s, a, 1 - a, w.coins[s].registry.recipient, ALL) == Ok(HeadSet(w, s, a))
  {
    hide Inv, SubInv, I.VerifyFullChain, Store;
    SubAt(env, w, s, a);
    FinalizePasses(env, w, s, a);
  }

  lemma Contended(env: Env, w: World, s: Bytes32, a: byte)
    requires Inv(env, w) && HasAttempt(w, s, a) && Headed(w.coins[s]) && w.coins[s].subs[a].status.Receiving?
    ensures a <= 1 && w.coins[s].subs[a].states != [] && 1 - a == w.coins[s].head.attempt && Load(w, s, a).other.Some?
    ensures var c := Load(w, s, a);
            var r := if I.ContenderWins(c.mine.states, c.head) then I.ResolveWin(env, c, ALL, w.slot)
                     else I.ResolveLose(env, c, ALL, w.slot);
            r.Ok? && (r.value.other.Some? <==> c.other.Some?)
            && DoFinalize(env, w, s, a, 1 - a, w.coins[s].registry.recipient, ALL) == Ok(Store(w, s, a, r.value))
  {
    hide Inv, SubInv, I.VerifyFullChain, I.ContenderWins, Store;
    SubAt(env, w, s, a);
    FinalizePasses(env, w, s, a);
    OpenAt(env, w, s, a);
  }

  lemma RunFour(env: Env, w: World, a: Event, b: Event, c: Event, d: Event)
    ensures Run(env, w, [a, b, c, d]) == Exec(env, Exec(env, Exec(env, Exec(env, w, a), b), c), d)
  {
    hide Exec;
    var w1 := Exec(env, w, a);
    var w2 := Exec(env, w1, b);
    var w3 := Exec(env, w2, c);
    assert [a, b, c, d][1..] == [b, c, d] && [b, c, d][1..] == [c, d] && [c, d][1..] == [d] && [d][1..] == [];
    assert Run(env, w3, [d]) == Run(env, Exec(env, w3, d), []);
    assert Run(env, w2, [c, d]) == Run(env, w3, [d]);
    assert Run(env, w1, [b, c, d]) == Run(env, w2, [c, d]);
  }

  lemma HeadSetIs(env: Env, w: World, s: Bytes32, a: byte)
    requires Inv(env, w) && a <= 1 && HasAttempt(w, s, a) && w.coins[s].subs[a].states != [] && Unheaded(w.coins[s])
    requires 1 - a in w.coins[s].subs
    ensures Inv(env, HeadSet(w, s, a)) && s in HeadSet(w, s, a).coins
    ensures var coin, after := w.coins[s], HeadSet(w, s, a);
            && after == w.(coins := after.coins) && after.coins == w.coins[s := after.coins[s]]
            && after.coins[s].head == I.HeadOf(coin.subs[a], w.slot) && after.coins[s].registry == coin.registry
            && after.coins[s].subs == coin.subs[a := coin.subs[a].(status := Pending, finalized := w.slot)]
            && Headed(after.coins[s]) && after.coins[s].head.attempt == a
  {
    hide Inv, CoinInv, SubInv;
    CoinAt(env, w, s);
    SubAt(env, w, s, a);
    assert HeadSet(w, s, a).allowances == w.allowances;
    SetHeadKeeps(env, w, s, a);
  }

  /** The world after a coin is paid out of `w` to attempt `a`: money, books and coin. */
  ghost predicate PaidOut(env: Env, w: World, s: Bytes32, a: byte, after: World, delta: Owner -> int)
    requires HasAttempt(w, s, a) && w.coins[s].registry.recipient in w.allowances
  {
    var coin, k := w.coins[s], w.coins[s].registry.recipient;
    var value, al := coin.registry.value, w.allowances[k];
    && value <= w.config.supply && value <= al.committed
    && after == w.(config := w.config.(supply := w.config.supply - value), ledger := after.ledger, coins := after.coins,
                   allowances := w.allowances[k := al.(committed := al.committed - value)])
    && (forall o :: Bal(after.ledger, o) == Bal(w.ledger, o) + delta(o))
    && s in after.coins && after.coins == w.coins[s := after.coins[s]]
    && after.coins[s].registry == coin.registry.(status := Spent)
  }

  lemma WonOutright(env: Env, w: World, s: Bytes32, a: byte)
    requires Inv(env, w) && HasAttempt(w, s, a) && Headed(w.coins[s]) && w.coins[s].subs[a].status.Receiving?
    requires I.ContenderWins(w.coins[s].subs[a].states, w.coins[s].head)
    ensures a <= 1 && 1 - a in w.coins[s].subs && w.coins[s].subs[a].states != []
    ensures w.coins[s].registry.recipient in w.allowances
    ensures var coin, r := w.coins[s], DoFinalize(env, w, s, a, 1 - a, w.coins[s].registry.recipient, ALL);
            && r.Ok? && PaidOut(env, w, s, a, r.value, WinMoves(env, Load(w, s, a)))
            && r.value.coins[s].head == I.HeadOf(coin.subs[a], w.slot)
            && r.value.coins[s].subs == coin.subs[a := coin.subs[a].(status := Won, finalized := w.slot)]
                                                 [1 - a := coin.subs[1 - a].(status := Lost)]
  {
    hide Inv, CoinInv, SubInv, Headed, DoFinalize, I.ContenderWins, I.ResolveWin, WinMoves;
    CoinAt(env, w, s);
    Contended(env, w, s, a);
    WinEffect(env, Load(w, s, a), ALL, w.slot);
  }

  lemma LostToHead(env: Env, w: World, s: Bytes32, a: byte)
    requires Inv(env, w) && HasAttempt(w, s, a) && Headed(w.coins[s]) && w.coins[s].subs[a].status.Receiving?
    requires !I.ContenderWins(w.coins[s].subs[a].states, w.coins[s].head)
    ensures a <= 1 && 1 - a in w.coins[s].subs
    ensures var coin, r := w.coins[s], DoFinalize(env, w, s, a, 1 - a, w.coins[s].registry.recipient, ALL);
            && r.Ok? && s in r.value.coins
            && r.value == w.(ledger := r.value.ledger, coins := w.coins[s := r.value.coins[s]])
            && (forall o :: Bal(r.value.ledger, o) == Bal(w.ledger, o) + LoseMoves(env, Load(w, s, a))(o))
            && r.value.coins[s] == coin.(subs := coin.subs[a := coin.subs[a].(status := Lost, finalized := w.slot)])
  {
    hide Inv, CoinInv, SubInv, Headed, DoFinalize, I.ContenderWins, I.ResolveLose, LoseMoves;
    CoinAt(env, w, s);
    Contended(env, w, s, a);
    LoseEffect(env, Load(w, s, a), ALL, w.slot);
    var after := DoFinalize(env, w, s, a, 1 - a, w.coins[s].registry.recipient, ALL).value;
    assert after.allowances == w.allowances;
    assert after.coins[s].subs == w.coins[s].subs[a := w.coins[s].subs[a].(status := Lost, finalized := w.slot)];
  }

  lemma SettledHead(env: Env, w: World, s: Bytes32, a: byte)
    requires Inv(env, w) && HasAttempt(w, s, a) && w.coins[s].subs[a].status.Pending?
    requires w.slot >= I.SaturatingAdd(w.coins[s].head.since, w.config.window)
    requires 1 - a in w.coins[s].subs && w.coins[s].subs[1 - a].status.Lost?
    ensures a <= 1 && w.coins[s].registry.recipient in w.allowances
    ensures var coin, r := w.coins[s], DoSettle(env, w, s, a, 1 - a, w.coins[s].registry.recipient, ALL);
            && r.Ok? && PaidOut(env, w, s, a, r.value, SettleMoves(env, Load(w, s, a), ALL))
            && r.value.coins[s].head == coin.head
            && r.value.coins[s].subs == coin.subs[a := coin.subs[a].(status := Won)]
  {
    hide Inv, CoinInv, SubInv, I.SettlePayOut, SettleMoves;
    CoinAt(env, w, s);
    SubAt(env, w, s, a);
    SettlePasses(env, w, s, a, ALL);
    SettleEffect(env, Load(w, s, a), ALL);
    var after := DoSettle(env, w, s, a, 1 - a, w.coins[s].registry.recipient, ALL).value;
    assert after.coins[s].subs == w.coins[s].subs[a := w.coins[s].subs[a].(status := Won)];
  }

  lemma SwapDisputed(hash: Bytes -> Bytes32, reg: Registry, a: seq<State>, b: seq<State>)
    requires CollisionFree(hash, Disputed(reg, a, b))
    ensures CollisionFree(hash, Disputed(reg, b, a))
  {
    hide Genesis;
    assert forall x :: x in Disputed(reg, b, a) <==> x in Disputed(reg, a, b);
  }

  /** Paying out to the longer chain after the shorter one took the head gives the outcome of the race. */
  lemma WinIsOutcome(env: Env, w: World, w1: World, w2: World, s: Bytes32, longer: byte, slot: u64)
    requires longer <= 1 && HasAttempt(w, s, longer) && HasAttempt(w, s, 1 - longer) && HasAttempt(w1, s, longer)
    requires w.coins[s].registry.recipient in w.allowances
    requires var subs := w.coins[s].subs;
             subs[longer].serial == s && subs[longer].attempt == longer && subs[1 - longer].attempt == 1 - longer
    requires var coin, short := w.coins[s], w.coins[s].subs[1 - longer];
             && w1 == w.(coins := w1.coins) && w1.coins == w.coins[s := w1.coins[s]]
             && w1.coins[s].registry == coin.registry
             && w1.coins[s].subs == coin.subs[1 - longer := short.(status := Pending, finalized := w.slot)]
    requires PaidOut(env, w1, s, longer, w2, WinMoves(env, Load(w1, s, longer)))
    requires var subs := w1.coins[s].subs;
             && subs[longer].states != [] && w2.coins[s].head == I.HeadOf(subs[longer], w.slot)
             && w2.coins[s].subs == subs[longer := subs[longer].(status := Won, finalized := w.slot)]
                                        [1 - longer := subs[1 - longer].(status := Lost)]
    ensures RaceWon(env, w, s, longer, slot, w2.(slot := slot))
  {
    hide I.BondOf, Delta;
    var after := w2.(slot := slot);
    assert after.coins == w.coins[s := after.coins[s]];
    assert after.coins[s].subs.Keys == w.coins[s].subs.Keys;
  }

  /** Once spent, a coin's settle is refused. */
  lemma SettleRefused(env: Env, w: World, s: Bytes32, a: byte, b: byte, k: Bytes32)
    requires s in w.coins && w.coins[s].registry.status.Spent?
    ensures Exec(env, w, Settle(s, a, b, k, ALL)) == w
  {
    hide I.SettlePayOut;
  }

  /** The shorter chain is head first: the longer one wins its finalize, and settle has nothing left to do. */
  lemma ShorterFirst(env: Env, w: World, s: Bytes32, longer: byte, slot: u64)
    requires Inv(env, w) && Racing(env, w, s, longer) && slot >= w.slot && w.coins[s].registry.recipient in w.allowances
    requires |w.coins[s].subs[longer].states| > |w.coins[s].subs[1 - longer].states|
    ensures RaceWon(env, w, s, longer, slot, Run(env, w, Race(w, s, 1 - longer, longer, slot)))
  {
    hide Inv, CoinInv, SubInv, CollisionFree, Disputed, I.ContenderWins, DoFinalize, Headed, Run, HeadSet, RaceWon;
    var k, short := w.coins[s].registry.recipient, 1 - longer;
    SubAt(env, w, s, longer);
    SubAt(env, w, s, short);
    var w1 := HeadSet(w, s, short);
    Headless(env, w, s, short);
    HeadSetIs(env, w, s, short);
    DisputeRule(env, w1, s, longer);
    WonOutright(env, w1, s, longer);
    var w2 := DoFinalize(env, w1, s, longer, short, k, ALL).value;
    WinIsOutcome(env, w, w1, w2, s, longer, slot);
    SettleRefused(env, w2.(slot := slot), s, longer, short, k);
    RunFour(env, w, Finalize(s, short, longer, k, ALL), Finalize(s, longer, short, k, ALL), Tick(slot),
            Settle(s, longer, short, k, ALL));
  }

  /** Losing to the head and then settling it gives the same outcome. */
  lemma SettleIsOutcome(env: Env, w: World, w1: World, w2: World, after: World, s: Bytes32, longer: byte, slot: u64)
    requires longer <= 1 && HasAttempt(w, s, longer) && HasAttempt(w, s, 1 - longer)
    requires HasAttempt(w1, s, 1 - longer) && Load(w1, s, 1 - longer).other.Some? && HasAttempt(w2, s, longer)
    requires w.coins[s].registry.recipient in w.allowances && w2.coins[s].registry.recipient in w2.allowances
    requires var subs := w.coins[s].subs;
             && subs[longer].states != [] && subs[longer].serial == s && subs[longer].attempt == longer
             && subs[1 - longer].serial == s && subs[1 - longer].attempt == 1 - longer
    requires var coin := w.coins[s];
             && w1 == w.(coins := w1.coins) && w1.coins == w.coins[s := w1.coins[s]]
             && w1.coins[s].registry == coin.registry
             && w1.coins[s].head == I.HeadOf(coin.subs[longer], w.slot)
             && w1.coins[s].subs == coin.subs[longer := coin.subs[longer].(status := Pending, finalized := w.slot)]
    requires var c := w1.coins[s];
             && w2 == w1.(ledger := w2.ledger, coins := w1.coins[s := w2.coins[s]], slot := slot)
             && (forall o :: Bal(w2.ledger, o) == Bal(w1.ledger, o) + LoseMoves(env, Load(w1, s, 1 - longer))(o))
             && var short := 1 - longer;
                w2.coins[s] == c.(subs := c.subs[short := c.subs[short].(status := Lost, finalized := w.slot)])
    requires PaidOut(env, w2, s, longer, after, SettleMoves(env, Load(w2, s, longer), ALL))
    requires after.coins[s].head == w2.coins[s].head
    requires after.coins[s].subs == w2.coins[s].subs[longer := w2.coins[s].subs[longer].(status := Won)]
    ensures RaceWon(env, w, s, longer, slot, after)
  {
    hide I.BondOf, Delta;
    assert after.coins == w.coins[s := after.coins[s]];
    assert after.coins[s].subs.Keys == w.coins[s].subs.Keys;
  }

  /** A chain that is no shorter is head first: the other one loses, and settle pays the head after the window. */
  lemma LongerFirst(env: Env, w: World, s: Bytes32, longer: byte, slot: u64)
    requires Inv(env, w) && Racing(env, w, s, longer) && w.coins[s].registry.recipient in w.allowances
    requires slot >= w.slot && slot >= I.SaturatingAdd(w.slot, w.config.window)
    ensures RaceWon(env, w, s, longer, slot, Run(env, w, Race(w, s, longer, longer, slot)))
  {
    hide Inv, CoinInv, SubInv, CollisionFree, Disputed, I.ContenderWins, DoFinalize, DoSettle, Headed, Run, HeadSet,
         RaceWon;
    var k, short := w.coins[s].registry.recipient, 1 - longer;
    SubAt(env, w, s, longer);
    SubAt(env, w, s, short);
    var w1 := HeadSet(w, s, longer);
    Headless(env, w, s, longer);
    HeadSetIs(env, w, s, longer);
    SwapDisputed(env.hash, w.coins[s].registry, w.coins[s].subs[longer].states, w.coins[s].subs[short].states);
    DisputeRule(env, w1, s, short);
    LostToHead(env, w1, s, short);
    FinalizeKeeps(env, w1, s, short, longer, k, ALL);
    var w2 := DoFinalize(env, w1, s, short, longer, k, ALL).value;
    OutsideKeeps(env, w2, Tick(slot));
    var w3 := w2.(slot := slot);
    SettledHead(env, w3, s, longer);
    var after := DoSettle(env, w3, s, longer, short, k, ALL).value;
    SettleIsOutcome(env, w, w1, w3, after, s, longer, slot);
    RunFour(env, w, Finalize(s, longer, short, k, ALL), Finalize(s, short, longer, k, ALL), Tick(slot),
            Settle(s, longer, short, k, ALL));
  }

  lemma SameOutcome(env: Env, w: World, s: Bytes32, longer: byte, slot: u64, one: World, two: World)
    requires longer <= 1 && HasAttempt(w, s, longer) && HasAttempt(w, s, 1 - longer) && w.coins[s].subs.Keys <= {0, 1}
    requires w.coins[s].registry.recipient in w.allowances
    requires RaceWon(env, w, s, longer, slot, one) && RaceWon(env, w, s, longer, slot, two)
    ensures SameButSlots(one, two)
  {
    hide RaceDelta;
    assert SameCoin(one.coins[s], two.coins[s]);
  }

  /** Whoever finalizes first, the longer chain ends up paid, with the same books, balances and statuses. */
  lemma OrderIrrelevant(env: Env, w: World, s: Bytes32, longer: byte, slot: u64)
    requires Inv(env, w) && Racing(env, w, s, longer)
    requires |w.coins[s].subs[longer].states| > |w.coins[s].subs[1 - longer].states|
    requires slot >= w.slot && slot >= I.SaturatingAdd(w.slot, w.config.window)
    ensures w.coins[s].registry.recipient in w.allowances
    ensures var one := Run(env, w, Race(w, s, longer, longer, slot));
            var two := Run(env, w, Race(w, s, 1 - longer, longer, slot));
            SameButSlots(one, two) && RaceWon(env, w, s, longer, slot, one) && RaceWon(env, w, s, longer, slot, two)
  {
    hide Inv, CoinInv, CollisionFree, Run, RaceWon, SameButSlots;
    CoinAt(env, w, s);
    LongerFirst(env, w, s, longer, slot);
    ShorterFirst(env, w, s, longer, slot);
    var one := Run(env, w, Race(w, s, longer, longer, slot));
    var two := Run(env, w, Race(w, s, 1 - longer, longer, slot));
    SameOutcome(env, w, s, longer, slot, one, two);
  }

  /** Which attempt is paid when `first` finalizes first: the longer chain, or on a tie whoever came first. */
  function Winner(w: World, s: Bytes32, first: byte): (a: byte)
    requires HasAttempt(w, s, 0) && HasAttempt(w, s, 1) && first <= 1
    ensures a <= 1
  {
    if Tied(w, s) then first
    else if |w.coins[s].subs[0].states| > |w.coins[s].subs[1].states| then 0 else 1
  }

  /** `first` finalizes, then the other; the window passes, and the attempt that should be paid is settled. */
  function RaceFrom(w: World, s: Bytes32, first: byte, slot: u64): seq<Event>
    requires HasAttempt(w, s, 0) && HasAttempt(w, s, 1) && first <= 1
  {
    Race(w, s, first, Winner(w, s, first), slot)
  }

  /** On a tie each order pays a different attempt. */
  lemma TieGoesToFirst(env: Env, w: World, s: Bytes32, slot: u64)
    requires Inv(env, w) && Racing(env, w, s, 0) && Racing(env, w, s, 1) && Tied(w, s)
    requires slot >= w.slot && slot >= I.SaturatingAdd(w.slot, w.config.window)
    ensures w.coins[s].registry.recipient in w.allowances
    ensures RaceWon(env, w, s, 0, slot, Run(env, w, RaceFrom(w, s, 0, slot)))
    ensures RaceWon(env, w, s, 1, slot, Run(env, w, RaceFrom(w, s, 1, slot)))
  {
    hide Inv, CoinInv, CollisionFree, Run, RaceWon;
    CoinAt(env, w, s);
    LongerFirst(env, w, s, 0, slot);
    LongerFirst(env, w, s, 1, slot);
  }

  lemma DifferentWinners(env: Env, w: World, s: Bytes32, slot: u64, one: World, two: World)
    requires HasAttempt(w, s, 0) && HasAttempt(w, s, 1) && w.coins[s].registry.recipient in w.allowances
    requires RaceWon(env, w, s, 0, slot, one) && RaceWon(env, w, s, 1, slot, two)
    ensures !SameButSlots(one, two)
  {
    hide RaceDelta;
    var c, d := one.coins[s], two.coins[s];
    assert 0 in c.subs && 0 in d.subs && c.subs[0].status.Won? && d.subs[0].status.Lost?;
    assert c.subs[0] != d.subs[0].(finalized := c.subs[0].finalized);
    assert !SameCoin(c, d);
  }

  /** The order of the two finalizes is irrelevant exactly when the chains differ in length. */
  lemma OrderIrrelevantIff(env: Env, w: World, s: Bytes32, slot: u64)
    requires Inv(env, w) && HasAttempt(w, s, 0) && HasAttempt(w, s, 1) && Unheaded(w.coins[s])
    requires var coin := w.coins[s];
             CollisionFree(env.hash, Disputed(coin.registry, coin.subs[0].states, coin.subs[1].states))
    requires slot >= w.slot && slot >= I.SaturatingAdd(w.slot, w.config.window)
    ensures SameButSlots(Run(env, w, RaceFrom(w, s, 0, slot)), Run(env, w, RaceFrom(w, s, 1, slot))) <==> !Tied(w, s)
  {
    hide Inv, CoinInv, CollisionFree, Run, RaceWon, SameButSlots, Race, Unheaded, Disputed;
    var coin := w.coins[s];
    SwapDisputed(env.hash, coin.registry, coin.subs[0].states, coin.subs[1].states);
    if Tied(w, s) {
      TieGoesToFirst(env, w, s, slot);
      DifferentWinners(env, w, s, slot, Run(env, w, RaceFrom(w, s, 0, slot)), Run(env, w, RaceFrom(w, s, 1, slot)));
    } else {
      OrderIrrelevant(env, w, s, Winner(w, s, 0), slot);
      SameSwap(Run(env, w, RaceFrom(w, s, 0, slot)), Run(env, w, RaceFrom(w, s, 1, slot)));
    }
  }

  lemma SameSwap(v: World, w: World)
    ensures SameButSlots(v, w) <==> SameButSlots(w, v)
  {
    if SameButSlots(v, w) {
      forall s | s in w.coins ensures SameCoin(w.coins[s], v.coins[s]) { assert SameCoin(v.coins[s], w.coins[s]); }
    }
    if SameButSlots(w, v) {
      forall s | s in v.coins ensures SameCoin(v.coins[s], w.coins[s]) { assert SameCoin(w.coins[s], v.coins[s]); }
    }
  }
}
