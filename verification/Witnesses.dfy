/** Runs from init that reach the situations in which the program does less than its documentation promises. */
module Witnesses {
  import opened Bytes
  import opened Results
  import opened StateOps
  import opened Ledgers
  import opened Accounts
  import opened Machine
  import opened Invariant
  import opened Reachable
  import opened Progress
  import opened Dispute
  import opened Spending
  import opened Guarantees
  import opened Spendable
  import Agreement
  import ChainVerify
  import Coins
  import Contests
  import Escrows
  import Payouts
  import Plans
  import SignedRuns
  import I = Instructions

  const SERIAL: Bytes32 := Zeros(32)

  /** Right after init by `k`: a window of one slot, one link per call, no allowance below the largest. */
  function Begun(k: Bytes32, bps: u32): World {
    World(Config(k, bps, 1, 1, U64_MAX, 0, 0), map[], map[], map[], 0, 0)
  }

  lemma BegunInitial(k: Bytes32, bps: u32)
    requires bps >= 10_000
    ensures Initial(Begun(k, bps))
  {
    assert I.Init(k, bps, 1, 1, U64_MAX, 0) == Ok(Begun(k, bps).config);
  }

  /** The vault gets the value, the wallet `funds`; then `k` mints one coin to `r`. */
  function MintRun(env: Env, k: Bytes32, r: Bytes32, value: u64, funds: u64): seq<Event> {
    [Issue(Vault, value), Issue(env.who(k), funds), Mint(k, SERIAL, value, r, env.hash(Genesis(SERIAL, value, r)))]
  }

  function JustMinted(env: Env, k: Bytes32, r: Bytes32, bps: u32, value: u64, funds: u64): World {
    Run(env, Begun(k, bps), MintRun(env, k, r, value, funds))
  }

  lemma MintedWorld(env: Env, k: Bytes32, r: Bytes32, bps: u32, value: u64, funds: u64)
    requires env.who(k).Wallet? && bps >= 10_000 && 0 < value && value + funds <= U64_MAX
    ensures ReachableWorld(env, JustMinted(env, k, r, bps, value, funds))
    ensures JustMinted(env, k, r, bps, value, funds) ==
            World(Config(k, bps, 1, 1, U64_MAX, value, 0),
                  map[SERIAL := Coin(Registry(SERIAL, value, env.hash(Genesis(SERIAL, value, r)), r, Active, 0),
                                     NO_HEAD, map[])],
                  map[r := Allowance(U64_MAX, value, true)], map[Vault := value, env.who(k) := funds], value + funds, 0)
  {
    hide Genesis, Initial, Run;
    var run := MintRun(env, k, r, value, funds);
    BegunInitial(k, bps);
    RunThree(env, Begun(k, bps), run[0], run[1], run[2]);
    assert Initial(Begun(k, bps));
  }

  /** A coin can be minted that no run ever pays out: its bond does not fit 64 bits. */
  lemma LockedCoin(env: Env, k: Bytes32)
    requires env.who(k).Wallet?
    ensures var w := JustMinted(env, k, k, 10_000, 0x1000_0000_0000_0000, 0);
            && ReachableWorld(env, w) && SERIAL in w.coins && w.coins[SERIAL].registry.status.Active?
            && w.coins[SERIAL].registry.value == 0x1000_0000_0000_0000 && !CanSpend(env, w, SERIAL)
  {
    hide Genesis, Run, JustMinted, ReachableWorld, CanSpend;
    MintedWorld(env, k, k, 10_000, 0x1000_0000_0000_0000, 0);
    ShutCannotSpend(env, JustMinted(env, k, k, 10_000, 0x1000_0000_0000_0000, 0), SERIAL);
  }

  /** And one that some run does pay out. */
  lemma PayableCoin(env: Env, k: Bytes32)
    requires env.who(k).Wallet?
    ensures var w := JustMinted(env, k, k, 10_000, 1, 2);
            && ReachableWorld(env, w) && SERIAL in w.coins && w.coins[SERIAL].registry.status.Active?
            && w.coins[SERIAL].registry.value == 1 && CanSpend(env, w, SERIAL)
  {
    hide Genesis, Run, JustMinted, ReachableWorld, CanSpend;
    MintedWorld(env, k, k, 10_000, 1, 2);
    SpendableIff(env, JustMinted(env, k, k, 10_000, 1, 2), SERIAL, k);
  }

  // ---- two attempts at one coin

  /** The first state of a coin worth one base unit. */
  function FirstState(r: Bytes32): State { Genesis(SERIAL, 1, r) }

  /** `k` has minted a coin to `r` and opened its attempt 0. */
  function OneOpen(env: Env, k: Bytes32, r: Bytes32): World {
    Exec(env, JustMinted(env, k, r, 10_000, 1, 2), Start(SERIAL, 0, FirstState(r), k, 0))
  }

  function BothOpen(env: Env, k: Bytes32): World {
    Exec(env, OneOpen(env, k, k), Start(SERIAL, 1, FirstState(k), k, 0))
  }

  function OpenCount(attempts: set<byte>): byte { if 1 in attempts then 2 else 1 }

  /** Coin and books as minted, with the given attempts open at the first state. */
  predicate OpenWith(env: Env, k: Bytes32, r: Bytes32, w: World, attempts: set<byte>) {
    && w.coins.Keys == {SERIAL} && w.coins[SERIAL].subs.Keys == attempts && !w.coins[SERIAL].head.isSet
    && w.coins[SERIAL].registry == Registry(SERIAL, 1, env.hash(FirstState(r)), r, Active, OpenCount(attempts))
    && w.config == Config(k, 10_000, 1, 1, U64_MAX, 1, 0) && w.slot == 0
    && forall a :: a in attempts ==>
         var sub := w.coins[SERIAL].subs[a];
         sub.status.Receiving? && sub.states == [FirstState(r)] && sub.checker == k
  }

  /** What the two mints of tokens and one bond leave everybody with. */
  function OpenBalance(env: Env, k: Bytes32, o: Owner): int {
    (if o == Vault then 1 else 0) + (if o == env.who(k) then 2 else 0) + Delta(o, env.who(k), Escrow(SERIAL, 0), 1)
  }

  lemma OneOpens(env: Env, k: Bytes32, r: Bytes32)
    requires env.who(k).Wallet?
    ensures ReachableWorld(env, OneOpen(env, k, r)) && OpenWith(env, k, r, OneOpen(env, k, r), {0})
    ensures forall o :: Bal(OneOpen(env, k, r).ledger, o) == OpenBalance(env, k, o)
  {
    hide Inv, Genesis, Run, JustMinted, ReachableWorld, DoStart;
    MintedWorld(env, k, r, 10_000, 1, 2);
    var w := JustMinted(env, k, r, 10_000, 1, 2);
    ReachableInv(env, w);
    FirstAdmitted(env, w, SERIAL);
    StartOpens(env, w, SERIAL, 0, FirstState(r), k);
    ReachNext(env, w, Start(SERIAL, 0, FirstState(r), k, 0));
  }

  lemma BothOpens(env: Env, k: Bytes32)
    requires env.who(k).Wallet?
    ensures ReachableWorld(env, BothOpen(env, k)) && OpenWith(env, k, k, BothOpen(env, k), {0, 1})
    ensures Bal(BothOpen(env, k).ledger, env.who(k)) == 0
  {
    hide Inv, Genesis, Run, OneOpen, ReachableWorld, DoStart;
    OneOpens(env, k, k);
    var w := OneOpen(env, k, k);
    ReachableInv(env, w);
    FirstAdmitted(env, w, SERIAL);
    StartOpens(env, w, SERIAL, 1, FirstState(k), k);
    ReachNext(env, w, Start(SERIAL, 1, FirstState(k), k, 0));
  }

  /** Attempt 0 has become the head and its window has passed; attempt 1 is still open. */
  function Overdue(env: Env, k: Bytes32): World {
    Exec(env, Exec(env, BothOpen(env, k), Finalize(SERIAL, 0, 1, k, ALL)), Tick(1))
  }

  lemma OverdueDue(env: Env, k: Bytes32)
    requires env.who(k).Wallet?
    ensures var w := Overdue(env, k);
            && ReachableWorld(env, w) && HasAttempt(w, SERIAL, 0) && HasAttempt(w, SERIAL, 1)
            && Due(w, SERIAL, 0, BARE) && Due(w, SERIAL, 0, ALONE) && w.coins[SERIAL].registry.recipient == k
            && w.coins[SERIAL].subs[1].status.Receiving?
  {
    hide Inv, Genesis, BothOpen, ReachableWorld, DoFinalize;
    BothOpens(env, k);
    var w := BothOpen(env, k);
    ReachableInv(env, w);
    Headless(env, w, SERIAL, 0);
    HeadSetPending(env, w, SERIAL, 0);
    var e := Finalize(SERIAL, 0, 1, k, ALL);
    ReachNext(env, w, e);
    ReachNext(env, Exec(env, w, e), Tick(1));
  }

  /** A run after which a wallet's commitment exceeds all that is out to it. */
  lemma CommitmentLeft(env: Env, k: Bytes32)
    requires env.who(k).Wallet?
    ensures var end := Exec(env, Overdue(env, k), Settle(SERIAL, 0, 1, k, BARE));
            ReachableWorld(env, end) && SpentIn(end, SERIAL) && Committed(end, k) > SumOf(end.coins, UnspentOf(k))
  {
    hide Inv, Overdue, ReachableWorld, Due, SpentIn, SumOf, DoSettle;
    OverdueDue(env, k);
    var w, e := Overdue(env, k), Settle(SERIAL, 0, 1, k, BARE);
    AllowanceBounds(env, w, k);
    SkippedAllowanceStays(env, w, SERIAL, 0);
    SettleSpends(env, w, SERIAL, 0, 1, k, BARE);
    ReachNext(env, w, e);
  }

  /** A run after which a spent coin still has an open attempt with its bond in escrow. */
  lemma CounterpartyLeft(env: Env, k: Bytes32)
    requires env.who(k).Wallet?
    ensures var end := Exec(env, Overdue(env, k), Settle(SERIAL, 0, 1, k, ALONE));
            && ReachableWorld(env, end) && SpentIn(end, SERIAL) && HasAttempt(end, SERIAL, 1)
            && end.coins[SERIAL].subs[1].status.Receiving?
            && Bal(end.ledger, Escrow(SERIAL, 1)) >= I.BondOf(end.coins[SERIAL].registry.value, end.config.bps)
  {
    hide Overdue, ReachableWorld, Due, SpentIn, I.BondOf, Exec;
    OverdueDue(env, k);
    var w, e := Overdue(env, k), Settle(SERIAL, 0, 1, k, ALONE);
    SkippedCounterpartyStays(env, w, SERIAL, 0);
    ReachNext(env, w, e);
    BondsCover(env, Exec(env, w, e), SERIAL, 1);
  }

  /** A reachable tie: here the order of the two finalizes decides who is paid. */
  lemma TieReached(env: Env, k: Bytes32)
    requires env.who(k).Wallet? && env.hash(FirstState(k)) != Zeros(32)
    ensures var w := BothOpen(env, k);
            && ReachableWorld(env, w) && HasAttempt(w, SERIAL, 0) && HasAttempt(w, SERIAL, 1) && Tied(w, SERIAL)
            && !SameButSlots(Run(env, w, RaceFrom(w, SERIAL, 0, 1)), Run(env, w, RaceFrom(w, SERIAL, 1, 1)))
  {
    hide Inv, Genesis, BothOpen, ReachableWorld, Run, RaceFrom, SameButSlots;
    BothOpens(env, k);
    var w := BothOpen(env, k);
    ReachableInv(env, w);
    OrderIrrelevantIff(env, w, SERIAL, 1);
  }

  // ---- a coin paid into an escrow

  /** A coin minted to a key that stands for an escrow, with its attempt 0 the head and the window over. */
  function ReadyToPay(env: Env, k: Bytes32, r: Bytes32): World {
    Exec(env, Exec(env, OneOpen(env, k, r), Finalize(SERIAL, 0, 1, r, ALL)), Tick(1))
  }

  lemma Ready(env: Env, k: Bytes32, r: Bytes32)
    requires env.who(k).Wallet?
    ensures var w := ReadyToPay(env, k, r);
            && ReachableWorld(env, w) && HasAttempt(w, SERIAL, 0) && w.coins.Keys == {SERIAL}
            && w.coins[SERIAL].subs.Keys == {0} && w.coins[SERIAL].registry.value == 1 && w.config.bps == 10_000
            && w.coins[SERIAL].registry.recipient == r && Due(w, SERIAL, 0, ALONE)
            && w.coins[SERIAL].subs[0].checker == k && w.coins[SERIAL].subs[0].finalOwner == r
            && forall o :: Bal(w.ledger, o) == OpenBalance(env, k, o)
  {
    FirstParsed(r);
    hide Inv, FirstState, OneOpen, ReachableWorld, DoFinalize, OpenBalance, WellChained, ParseOwner, I.BondAmount;
    OneOpens(env, k, r);
    var w := OneOpen(env, k, r);
    ReachableInv(env, w);
    SubAt(env, w, SERIAL, 0);
    Headless(env, w, SERIAL, 0);
    HeadSetPending(env, w, SERIAL, 0);
    var e := Finalize(SERIAL, 0, 1, r, ALL);
    ReachNext(env, w, e);
    ReachNext(env, Exec(env, w, e), Tick(1));
  }

  /** A run after which an escrow without a live attempt holds a coin's value, and keeps it whatever happens then. */
  lemma EscrowPaid(env: Env, k: Bytes32, p: Bytes32, t: Bytes32, b: byte)
    requires env.who(k).Wallet? && env.who(p) == Escrow(t, b) && b <= 1
    ensures var end := Exec(env, ReadyToPay(env, k, p), Settle(SERIAL, 0, 1, p, ALONE));
            && ReachableWorld(env, end) && !(HasAttempt(end, t, b) && Live(end.coins[t].subs[b].status))
            && Bal(end.ledger, Escrow(t, b)) == 1
            && forall events :: Escrows.Beside(Run(env, end, events), t, b) >= 1
  {
    hide Inv, ReadyToPay, ReachableWorld, DoSettle, Run, Escrows.Beside, RightExtras;
    Ready(env, k, p);
    var w, e := ReadyToPay(env, k, p), Settle(SERIAL, 0, 1, p, ALONE);
    ReachableInv(env, w);
    SubNames(env, w, SERIAL, 0);
    NeverStuck(env, w, SERIAL, 0, ALONE);
    ReachNext(env, w, e);
    SettledAlone(env, w, SERIAL, p);
    var end := Exec(env, w, e);
    assert Escrows.Beside(end, t, b) == 1 by { BesideNow(end, t, b); }
    ReachableInv(env, end);
    forall events ensures Escrows.Beside(Run(env, end, events), t, b) >= 1 {
      Escrows.BesideForever(env, end, events, t, b);
    }
  }

  lemma SubNames(env: Env, w: World, s: Bytes32, a: byte)
    requires Inv(env, w) && HasAttempt(w, s, a)
    ensures w.coins[s].subs[a].serial == s && w.coins[s].subs[a].attempt == a
  {
    hide Inv, SubInv;
    SubAt(env, w, s, a);
  }

  lemma BesideNow(w: World, s: Bytes32, a: byte)
    requires !(HasAttempt(w, s, a) && Live(w.coins[s].subs[a].status))
    ensures Escrows.Beside(w, s, a) == Bal(w.ledger, Escrow(s, a))
  {
    hide I.BondOf;
  }

  lemma SettledAlone(env: Env, w: World, s: Bytes32, r: Bytes32)
    requires HasAttempt(w, s, 0) && DoSettle(env, w, s, 0, 1, r, ALONE).Ok? && w.coins[s].subs.Keys == {0}
    requires w.coins[s].subs[0].serial == s && w.coins[s].subs[0].attempt == 0
    ensures var c, after := w.coins[s], DoSettle(env, w, s, 0, 1, r, ALONE).value;
            && after.coins.Keys == w.coins.Keys && after.coins[s].subs.Keys == {0} && after.coins[s].subs[0].status.Won?
            && forall o :: Bal(after.ledger, o) == Bal(w.ledger, o)
                 + Delta(o, Vault, env.who(c.subs[0].finalOwner), c.registry.value)
                 + Delta(o, Escrow(s, 0), env.who(c.subs[0].checker), I.BondOf(c.registry.value, w.config.bps))
  {
    hide I.SettlePayOut, I.BondOf, Delta;
    Payouts.SettleEffect(env, Load(w, s, 0), ALONE);
  }

  // ---- a longer chain kept out

  /** Both attempts are used up at the first state: one is the head, the other has lost to it. */
  function UsedUp(env: Env, k: Bytes32): World {
    Exec(env, Exec(env, BothOpen(env, k), Finalize(SERIAL, 0, 1, k, ALL)), Finalize(SERIAL, 1, 0, k, ALL))
  }

  /** The coin handed on once. */
  function HandedOn(env: Env, k: Bytes32, owner: Bytes32): seq<State> {
    [FirstState(k), Next(FirstState(k), owner, env.hash)]
  }

  lemma UsedUpIs(env: Env, k: Bytes32)
    requires env.who(k).Wallet?
    ensures var w := UsedUp(env, k);
            && ReachableWorld(env, w) && w.coins.Keys == {SERIAL} && w.coins[SERIAL].registry.status.Active?
            && w.coins[SERIAL].registry == BothOpen(env, k).coins[SERIAL].registry
            && w.coins[SERIAL].subs.Keys == {0, 1} && w.coins[SERIAL].subs[1].status.Lost?
            && w.coins[SERIAL].subs[0].status.Pending? && w.coins[SERIAL].subs[0].states == [FirstState(k)]
            && w.coins[SERIAL].head.isSet && w.coins[SERIAL].head.attempt == 0 && w.coins[SERIAL].head.since == 0
            && w.slot == 0 && w.config.window == 1 && w.coins[SERIAL].registry.recipient == k
            && Bal(w.ledger, env.who(k)) == 1 && w.config.bps == 10_000
  {
    hide Inv, FirstState, BothOpen, ReachableWorld, DoFinalize, HeadSet, I.ContenderWins;
    BothOpens(env, k);
    var w, first, second := BothOpen(env, k), Finalize(SERIAL, 0, 1, k, ALL), Finalize(SERIAL, 1, 0, k, ALL);
    ReachableInv(env, w);
    Headless(env, w, SERIAL, 0);
    HeadSetIs(env, w, SERIAL, 0);
    var headed := HeadSet(w, SERIAL, 0);
    ReachNext(env, w, first);
    SameChainLoses(headed.coins[SERIAL].subs[1].states, headed.coins[SERIAL].head);
    SubNames(env, headed, SERIAL, 1);
    LostToHead(env, headed, SERIAL, 1);
    ReachNext(env, headed, second);
    assert UsedUp(env, k) == Exec(env, headed, second);
  }

  lemma SameChainLoses(states: seq<State>, head: Head)
    requires |states| == 1 && states[0] == head.state
    ensures !I.ContenderWins(states, head)
  {}

  lemma HandedOnAdmissible(env: Env, k: Bytes32, owner: Bytes32)
    requires env.who(k).Wallet? && env.maxStates >= 2
    ensures SERIAL in BothOpen(env, k).coins
    ensures Contests.Admissible(env, BothOpen(env, k), SERIAL, HandedOn(env, k, owner))
  {
    FirstParsed(k);
    NextLinks(env, k, owner);
    hide FirstState, Next, BothOpen, LinksOk, ParseSerial, ParseValue, ReachableWorld;
    BothOpens(env, k);
    var one := Registry(SERIAL, 1, env.hash(FirstState(k)), k, Active, 1);
    assert WellChained(env.hash, one, HandedOn(env, k, owner));
    Contests.SameRules(env, one, BothOpen(env, k).coins[SERIAL].registry, HandedOn(env, k, owner));
  }

  /** A longer chain could win, as long as an attempt was open; after two finalizes of the minted state alone nothing
      brings it in any more, although the coin is still active. The bond of the second attempt is back with the wallet
      that paid it. */
  lemma LongerKeptOut(env: Env, k: Bytes32, owner: Bytes32)
    requires env.who(k).Wallet? && env.maxStates >= 2
    ensures Contests.CanWin(env, BothOpen(env, k), SERIAL, HandedOn(env, k, owner))
    ensures var w := UsedUp(env, k);
            && ReachableWorld(env, w) && SERIAL in w.coins && w.coins[SERIAL].registry.status.Active?
            && w.coins[SERIAL].registry == BothOpen(env, k).coins[SERIAL].registry
            && !Contests.CanWin(env, w, SERIAL, HandedOn(env, k, owner))
            && Bal(w.ledger, env.who(k)) == 1 == I.BondOf(w.coins[SERIAL].registry.value, w.config.bps)
  {
    hide Inv, FirstState, Next, BothOpen, UsedUp, ReachableWorld, Contests.CanWin, WellChained;
    BothOpens(env, k);
    HandedOnAdmissible(env, k, owner);
    Contests.CarriedWins(env, BothOpen(env, k), SERIAL, 0, HandedOn(env, k, owner));
    UsedUpIs(env, k);
    ReachableInv(env, UsedUp(env, k));
    Contests.KeptOutLoses(env, UsedUp(env, k), SERIAL, HandedOn(env, k, owner));
  }

  /** Once the window is over the short chain is paid. */
  lemma ShortChainPaid(env: Env, k: Bytes32)
    requires env.who(k).Wallet?
    ensures var end := Exec(env, Exec(env, UsedUp(env, k), Tick(1)), Settle(SERIAL, 0, 1, k, ALL));
            ReachableWorld(env, end) && Contests.WonWith(end, SERIAL, 0, [FirstState(k)])
  {
    hide Inv, FirstState, UsedUp, ReachableWorld, DoSettle;
    UsedUpIs(env, k);
    var w := Exec(env, UsedUp(env, k), Tick(1));
    ReachNext(env, UsedUp(env, k), Tick(1));
    NeverStuck(env, w, SERIAL, 0, ALL);
    Contests.SettleWins(env, w, SERIAL, 0, 1, k, ALL);
    ReachNext(env, w, Settle(SERIAL, 0, 1, k, ALL));
  }

  // ---- append calls

  /** Any next state of an open attempt is accepted, signed or not; unless the owner of the state before signed it, what
      is then stored is no valid coin. */
  lemma UnsignedAppend(env: Env, verify: Coins.Verifier, k: Bytes32, owner: Bytes32, sig: Sig)
    requires env.who(k).Wallet? && env.maxStates >= 2
    requires var next := Next(FirstState(k), owner, env.hash); !Coins.SigOk(verify, sig, env.hash(next), k)
    ensures var next := Next(FirstState(k), owner, env.hash);
            var links, w := [Link(next, sig)], OneOpen(env, k, k);
            var r := Step(env, w, Append(SERIAL, 0, k, links, env.hash(next)));
            && r.Ok? && ReachableWorld(env, r.value) && HasAttempt(r.value, SERIAL, 0)
            && r.value.coins[SERIAL].subs[0].states == [FirstState(k), next]
            && !Coins.ValidCoin(env.hash, verify, SignedRuns.StoredCoin(r.value, SERIAL, 0, links))
  {
    var first, next, w := FirstState(k), Next(FirstState(k), owner, env.hash), OneOpen(env, k, k);
    var links := [Link(next, sig)];
    FirstParsed(k);
    NextLinks(env, k, owner);
    hide Inv, OneOpen, FirstState, Next, ReachableWorld, I.AppendLinks, Coins.ValidCoin, Coins.SigOk, WellChained,
         ParseOwner, I.BondAmount;
    OneOpens(env, k, k);
    ReachableInv(env, w);
    SubAt(env, w, SERIAL, 0);
    var sub, e := w.coins[SERIAL].subs[0], Append(SERIAL, 0, k, links, env.hash(next));
    assert [Last(sub.states)] + I.StatesOf(links) == [first, next];
    Plans.LastHashDecides(env, w.config, w.coins[SERIAL].registry, sub, links, env.hash(next));
    ReachNext(env, w, e);
    StoredUnsigned(env, verify, w.coins[SERIAL].registry, first, next, sig, k);
    AppendedStates(env, w.config, w.coins[SERIAL].registry, sub, SERIAL, k, links, env.hash(next));
    assert SignedRuns.SigsOf(links) == [sig];
  }

  lemma StoredUnsigned(env: Env, verify: Coins.Verifier, reg: Registry, first: State, next: State, sig: Sig, k: Bytes32)
    requires ParseOwner(first) == k && !Coins.SigOk(verify, sig, env.hash(next), k)
    ensures !Coins.ValidCoin(env.hash, verify, Agreement.AsCoin(reg, [first, next], [sig]))
  {
    hide Coins.SigOk, ParseOwner, ParseSerial, ParseValue, ParsePrevHash;
    var c := Agreement.AsCoin(reg, [first, next], [sig]);
    assert !Coins.Follows(env.hash, verify, c.states[0], c.states[1], c.sigs[0]);
  }

  /** What a successful append stores. */
  lemma AppendedStates(env: Env, cfg: Config, reg: Registry, sub: Submission, serial: Bytes32, headOwner: Bytes32,
                       links: seq<Link>, lastHash: Bytes32)
    requires I.AppendLinks(env, cfg, reg, sub, serial, headOwner, links, lastHash).Ok?
    ensures I.AppendLinks(env, cfg, reg, sub, serial, headOwner, links, lastHash).value.states ==
      sub.states + I.StatesOf(links)
  {
    hide I.CheckLinks, ParseOwner;
  }

  lemma FirstParsed(k: Bytes32)
    ensures var s := FirstState(k); ParseSerial(s) == SERIAL && ParseValue(s) == 1 && ParseOwner(s) == k
  {
    ParseFields(SERIAL, 1, k, Zeros(32));
  }

  lemma NextLinks(env: Env, k: Bytes32, owner: Bytes32)
    ensures LinksOk(env.hash, Registry(SERIAL, 1, env.hash(FirstState(k)), k, Active, 1),
                    [FirstState(k), Next(FirstState(k), owner, env.hash)])
  {
    FirstParsed(k);
    hide FirstState;
    ParseNext(FirstState(k), owner, env.hash);
  }

  lemma ParseNext(prev: State, owner: Bytes32, hash: Bytes -> Bytes32)
    ensures var s := Next(prev, owner, hash);
            && ParseSerial(s) == ParseSerial(prev) && ParseValue(s) == ParseValue(prev) && ParseOwner(s) == owner
            && ParsePrevHash(s) == hash(prev)
  {
    var s := Next(prev, owner, hash);
    assert s[32..40] == prev[32..40] && s[..32] == prev[..32];
  }

  // ---- a coin with more missing links than one call takes

  /** A hash that tells the states of different owners apart. */
  function OwnerHash(b: Bytes): Bytes32 { if |b| == STATE_SIZE then [1] + b[41..72] else Zeros(32) }

  function Key(i: byte): Bytes32 { seq(32, _ => i) }

  /** Every key is a wallet, and up to four states fit. */
  function Simple(): Env { Env(OwnerHash, (k: Bytes32) => Wallet(k), 4) }

  function Anything(): Coins.Verifier { (sig, msg, owner) => true }

  /** The coin's state after `n` transfers. */
  function StateNo(n: byte): State {
    if n == 0 then FirstState(Key(0)) else Next(StateNo(n - 1), Key(n), OwnerHash)
  }

  function TwoLinks(): Coins.CoinCore {
    Coins.CoinCore(SERIAL, 1, [StateNo(0), StateNo(1), StateNo(2)], [Zeros(64), Zeros(64)], Coins.ED25519)
  }

  lemma StateFields(n: byte)
    requires n <= 2
    ensures var s := StateNo(n);
            && ParseSerial(s) == SERIAL && ParseValue(s) == 1 && ParseOwner(s) == Key(n)
            && ParsePrevHash(s) == if n == 0 then Zeros(32) else OwnerHash(StateNo(n - 1))
  {
    ParseFields(SERIAL, 1, Key(0), Zeros(32));
    if n > 0 {
      hide FirstState;
      StateFields(n - 1);
      ParseNext(StateNo(n - 1), Key(n), OwnerHash);
    }
  }

  lemma HashOfState(n: byte)
    requires n <= 2
    ensures OwnerHash(StateNo(n))[0] == 1 && OwnerHash(StateNo(n))[1] == n
  {
    StateFields(n);
    assert StateNo(n)[40..72][1] == Key(n)[1];
  }

  lemma NoCollision(states: seq<State>)
    requires forall s :: s in states ==> s == StateNo(0) || s == StateNo(1) || s == StateNo(2)
    ensures CollisionFree(OwnerHash, states)
  {
    HashOfState(0);
    HashOfState(1);
    HashOfState(2);
    hide StateNo, OwnerHash;
    assert Zeros(32)[0] == 0;
  }

  /** The driver's first append call for it where a call takes one link: the hash is that of the very last state. */
  function FirstCall(): Event { Append(SERIAL, 0, Key(0), [Link(StateNo(1), Zeros(64))], OwnerHash(StateNo(2))) }

  lemma TwoLinksValid()
    ensures Coins.ValidCoin(OwnerHash, Anything(), TwoLinks()) && Agreement.HasLinks(TwoLinks())
    ensures Coins.CurrentOwner(TwoLinks()) == Results.Ok(Key(2))
  {
    TwoLinksSized();
    hide Coins.ValidCoin, Agreement.HasLinks, StateNo, OwnerHash, ParseOwner;
    StateFields(2);
    TwoLinksLinked();
  }

  lemma TwoLinksSized()
    ensures Agreement.HasLinks(TwoLinks())
  {
    hide StateNo;
  }

  lemma TwoLinksLinked()
    ensures Coins.ValidCoin(OwnerHash, Anything(), TwoLinks())
  {
    StateFields(0);
    StateFields(1);
    StateFields(2);
    hide StateNo, OwnerHash, ParseSerial, ParseValue, ParseOwner, ParsePrevHash, Key, Coins.ValidCoin;
    ThreeLinked(OwnerHash, Anything(), TwoLinks());
  }

  lemma ThreeLinked(hash: Bytes -> Bytes32, verify: Coins.Verifier, c: Coins.CoinCore)
    requires |c.states| == 3 && |c.sigs| == 2 && c.scheme == Coins.ED25519
    requires Coins.Carries(c, c.states[0]) && Coins.Carries(c, c.states[1]) && Coins.Carries(c, c.states[2])
    requires ParsePrevHash(c.states[0]) == Zeros(32)
    requires Coins.Follows(hash, verify, c.states[0], c.states[1], c.sigs[0])
    requires Coins.Follows(hash, verify, c.states[1], c.states[2], c.sigs[1])
    ensures Coins.ValidCoin(hash, verify, c)
  {
    hide Coins.Carries, Coins.Follows;
  }

  lemma FirstCallIs()
    requires Agreement.HasLinks(TwoLinks())
    ensures var e := FirstCall();
            e.Append? && e.serial == SERIAL && e.attempt == 0 && e.newLinks == Agreement.LinksOf(TwoLinks())[..1]
  {
    hide StateNo;
  }

  /** The registry of the coin. */
  function TwoLinksRegistry(): Registry { Registry(SERIAL, 1, OwnerHash(FirstState(Key(0))), Key(0), Active, 1) }

  lemma TwoLinksAnchored()
    ensures var c, reg := TwoLinks(), TwoLinksRegistry();
            && Agreement.Minted(OwnerHash, reg) && ChainVerify.Anchored(OwnerHash, c, Results.Some(reg.genesis))
            && Agreement.HasLinks(c)
            && CollisionFree(OwnerHash, Disputed(reg, Agreement.StatesIn(c), Agreement.StatesIn(c)))
  {
    var c := TwoLinks();
    assert StateNo(0) == FirstState(Key(0));
    hide OwnerHash, StateNo, Genesis, CollisionFree;
    NoCollision(Disputed(TwoLinksRegistry(), Agreement.StatesIn(c), Agreement.StatesIn(c)));
  }

  lemma FirstCallRefused(cfg: Config, sub: Submission)
    requires cfg.sigScheme == 0 && cfg.maxLinks == 1
    requires sub.status.Receiving? && sub.serial == SERIAL && sub.states == [StateNo(0)] && sub.links == 0
    ensures var e := FirstCall();
            I.AppendLinks(Simple(), cfg, TwoLinksRegistry(), sub, SERIAL, e.headOwner, e.newLinks, e.lastHash)
            == Results.Err(LastHashMismatch)
  {
    StateFields(0);
    TwoLinksValid();
    FirstCallIs();
    TwoLinksAnchored();
    hide Agreement.HasLinks, Agreement.Minted, ChainVerify.Anchored, CollisionFree, Coins.ValidCoin, StateNo, OwnerHash,
         FirstState, I.AppendLinks, ParseOwner, ParseSerial, ParseValue, ParsePrevHash, Disputed;
    var c := TwoLinks();
    assert sub.states == Agreement.StatesIn(c)[..1];
    Plans.DriverAppendIff(Simple(), Anything(), c, cfg, TwoLinksRegistry(), sub, 1);
  }

  lemma CallRefused(w: World)
    requires Inv(Simple(), w) && OpenWith(Simple(), Key(0), Key(0), w, {0})
    ensures Step(Simple(), w, FirstCall()) == Results.Err(LastHashMismatch)
  {
    assert StateNo(0) == FirstState(Key(0));
    TwoLinksValid();
    FirstCallIs();
    hide Inv, I.AppendLinks, WellChained, ParseOwner, FirstState, OwnerHash, StateNo, I.BondAmount, FirstCall, TwoLinks,
         Coins.ValidCoin, Agreement.LinksOf, Agreement.HasLinks, Key, Step;
    SubAt(Simple(), w, SERIAL, 0);
    FirstCallRefused(w.config, w.coins[SERIAL].subs[0]);
    RefusedStep(Simple(), w, FirstCall(), LastHashMismatch);
  }

  lemma RefusedStep(env: Env, w: World, e: Event, error: Results.Error)
    requires e.Append? && HasAttempt(w, e.serial, e.attempt)
    requires var coin := w.coins[e.serial];
             var sub := coin.subs[e.attempt];
             I.AppendLinks(env, w.config, coin.registry, sub, e.serial, e.headOwner, e.newLinks, e.lastHash)
             == Results.Err(error)
    ensures Step(env, w, e) == Results.Err(error)
  {
    hide I.AppendLinks;
  }

  /** A reachable world in which the driver's first call for this valid coin is refused. */
  lemma DriverRefused()
    ensures var w := OneOpen(Simple(), Key(0), Key(0));
            && ReachableWorld(Simple(), w) && OpenWith(Simple(), Key(0), Key(0), w, {0})
            && Step(Simple(), w, FirstCall()) == Results.Err(LastHashMismatch)
  {
    hide Inv, OneOpen, ReachableWorld, OpenWith, Step, FirstCall;
    OneOpens(Simple(), Key(0), Key(0));
    ReachableInv(Simple(), OneOpen(Simple(), Key(0), Key(0)));
    CallRefused(OneOpen(Simple(), Key(0), Key(0)));
  }
}
