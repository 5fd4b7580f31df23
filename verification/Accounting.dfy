/** Every balance of every run, explained coin by coin. */
module Accounting {
  import opened Bytes
  import opened StateOps
  import opened Ledgers
  import opened Accounts
  import opened Machine
  import opened Invariant
  import opened Reachable
  import opened Payouts
  import opened Sums
  import I = Instructions

  /** What check-in attempt `a` has moved in or out of the account of `o` so far, by its status alone. */
  function AttemptFlow(env: Env, bps: u32, c: Coin, a: byte, o: Owner): int {
    if a !in c.subs then 0 else
    var sub, bond := c.subs[a], I.BondOf(c.registry.value, bps);
    var checker := env.who(sub.checker);
    match sub.status
    case Receiving => Delta(o, checker, Escrow(c.registry.serial, a), bond)
    case Pending => Delta(o, checker, Escrow(c.registry.serial, a), bond)
    case Won => Delta(o, Vault, env.who(sub.finalOwner), c.registry.value)
    case Lost => if 1 - a in c.subs then Delta(o, checker, env.who(c.subs[1 - a].checker), bond) else 0
    case Rejected => Delta(o, checker, Fees, bond)
  }

  function Flow(env: Env, bps: u32, o: Owner): Coin -> int {
    (c: Coin) => AttemptFlow(env, bps, c, 0, o) + AttemptFlow(env, bps, c, 1, o)
  }

  /** Tokens moved around the program: vault funding, plain transfers, new tokens. */
  function OutsideFlow(env: Env, w: World, e: Event, o: Owner): int {
    if Step(env, w, e).Err? then 0 else
    match e
    case Fund(authority, amount) => Delta(o, env.who(authority), Vault, amount)
    case Withdraw(authority, amount) => Delta(o, Vault, env.who(authority), amount)
    case Pay(from, to, amount) => Delta(o, env.who(from), to, amount)
    case Issue(to, amount) => if o == to then amount else 0
    case _ => 0
  }

  ghost function OutsideFlows(env: Env, w: World, events: seq<Event>, o: Owner): int
    decreases |events|
  {
    if events == [] then 0
    else OutsideFlow(env, w, events[0], o) + OutsideFlows(env, Exec(env, w, events[0]), events[1..], o)
  }

  /** A step on coin `s` moves exactly what the coin's flow changes by. */
  ghost predicate Explained(env: Env, w: World, after: World, s: Bytes32, o: Owner) {
    var flow := Flow(env, w.config.bps, o);
    && s in w.coins && s in after.coins
    && after.coins == w.coins[s := after.coins[s]] && after.config.bps == w.config.bps
    && Bal(after.ledger, o) - Bal(w.ledger, o) == flow(after.coins[s]) - flow(w.coins[s])
  }

  /** A new open attempt has moved its bond from the checker to the escrow. */
  lemma OpenFlow(env: Env, bps: u32, coin: Coin, next: Coin, a: byte, o: Owner)
    requires a !in coin.subs && a <= 1 && a in next.subs && next.subs == coin.subs[a := next.subs[a]]
    requires next.subs[a].status.Receiving? && (1 - a in coin.subs ==> !coin.subs[1 - a].status.Lost?)
    requires next.registry == coin.registry.(count := next.registry.count)
    ensures Flow(env, bps, o)(next) - Flow(env, bps, o)(coin)
         == Delta(o, env.who(next.subs[a].checker), Escrow(coin.registry.serial, a), I.BondOf(coin.registry.value, bps))
  {
    hide I.BondOf, Delta;
  }

  lemma StartFlows(env: Env, w: World, s: Bytes32, a: byte, state0: State, checker: Bytes32, held: u64, o: Owner)
    requires Inv(env, w) && DoStart(env, w, s, a, state0, checker, held).Ok?
    ensures Explained(env, w, DoStart(env, w, s, a, state0, checker, held).value, s, o)
  {
    hide Inv, SubInv, Genesis, ParseOwner, ParseSerial, ParseValue, I.BondAmount, I.BondOf, Flow, Delta;
    CoinAt(env, w, s);
    OpenFlow(env, w.config.bps, w.coins[s], DoStart(env, w, s, a, state0, checker, held).value.coins[s], a, o);
  }

  lemma AppendFlows(env: Env, w: World, s: Bytes32, a: byte, headOwner: Bytes32, links: seq<Link>, lastHash: Bytes32,
                    o: Owner)
    requires Inv(env, w) && DoAppend(env, w, s, a, headOwner, links, lastHash).Ok?
    ensures Explained(env, w, DoAppend(env, w, s, a, headOwner, links, lastHash).value, s, o)
  {
    hide Inv, I.CheckLinks, I.BondOf, Flow;
    GrownFlow(env, w.config.bps, w.coins[s], DoAppend(env, w, s, a, headOwner, links, lastHash).value.coins[s], a, o);
  }

  /** More links in an open attempt move nothing. */
  lemma GrownFlow(env: Env, bps: u32, coin: Coin, next: Coin, a: byte, o: Owner)
    requires a in coin.subs && a in next.subs && next == coin.(subs := coin.subs[a := next.subs[a]])
    requires coin.subs[a].status.Receiving? && next.subs[a].status.Receiving?
    requires next.subs[a].checker == coin.subs[a].checker
    ensures Flow(env, bps, o)(next) == Flow(env, bps, o)(coin)
  {
    hide I.BondOf, Delta;
  }

  // ---- what a change of status moves

  lemma DeltaSelf(o: Owner, from: Owner, amount: int)
    ensures Delta(o, from, from, amount) == 0
  {}

  function FlowChange(env: Env, bps: u32, coin: Coin, next: Coin, o: Owner): int {
    Flow(env, bps, o)(next) - Flow(env, bps, o)(coin)
  }

  lemma RejectFlow(env: Env, bps: u32, coin: Coin, next: Coin, a: byte, o: Owner)
    requires a in coin.subs && coin.subs[a].status.Receiving?
    requires 1 - a in coin.subs ==> !coin.subs[1 - a].status.Lost?
    requires Turned(coin, next, a, Rejected, if 1 - a in coin.subs then coin.subs[1 - a].status else Lost)
    ensures FlowChange(env, bps, coin, next, o) ==
      Delta(o, Escrow(coin.registry.serial, a), Fees, I.BondOf(coin.registry.value, bps))
  {
    hide I.BondOf, Delta;
    var checker, bond := env.who(coin.subs[a].checker), I.BondOf(coin.registry.value, bps);
    DeltaVia(o, checker, Escrow(coin.registry.serial, a), Fees, bond);
  }

  lemma LoseFlow(env: Env, bps: u32, coin: Coin, next: Coin, a: byte, o: Owner)
    requires a in coin.subs && coin.subs[a].status.Receiving? && 1 - a in coin.subs
    requires Turned(coin, next, a, Lost, coin.subs[1 - a].status)
    ensures FlowChange(env, bps, coin, next, o)
         == Delta(o, Escrow(coin.registry.serial, a), env.who(coin.subs[1 - a].checker),
                  I.BondOf(coin.registry.value, bps))
  {
    hide I.BondOf, Delta;
    var checker, bond := env.who(coin.subs[a].checker), I.BondOf(coin.registry.value, bps);
    DeltaVia(o, checker, Escrow(coin.registry.serial, a), env.who(coin.subs[1 - a].checker), bond);
  }

  lemma WinFlow(env: Env, bps: u32, coin: Coin, next: Coin, a: byte, o: Owner)
    requires a in coin.subs && coin.subs[a].status.Receiving? && 1 - a in coin.subs && coin.subs[1 - a].status.Pending?
    requires Turned(coin, next, a, Won, Lost)
    ensures var checker, bond := env.who(coin.subs[a].checker), I.BondOf(coin.registry.value, bps);
            FlowChange(env, bps, coin, next, o) ==
              Delta(o, Escrow(coin.registry.serial, a), checker, bond)
              + Delta(o, Escrow(coin.registry.serial, 1 - a), checker, bond)
              + Delta(o, Vault, env.who(coin.subs[a].finalOwner), coin.registry.value)
  {
    hide I.BondOf, Delta;
    var checker, bond := env.who(coin.subs[a].checker), I.BondOf(coin.registry.value, bps);
    DeltaVia(o, checker, Escrow(coin.registry.serial, a), checker, bond);
    DeltaVia(o, env.who(coin.subs[1 - a].checker), Escrow(coin.registry.serial, 1 - a), checker, bond);
    DeltaSelf(o, checker, bond);
  }

  lemma SettleFlow(env: Env, bps: u32, coin: Coin, next: Coin, a: byte, abandoned: bool, o: Owner)
    requires a in coin.subs && coin.subs[a].status.Pending?
    requires abandoned ==> 1 - a in coin.subs && coin.subs[1 - a].status.Receiving?
    requires Turned(coin, next, a, Won,
                    if abandoned then Rejected else if 1 - a in coin.subs then coin.subs[1 - a].status else Lost)
    ensures var bond := I.BondOf(coin.registry.value, bps);
            FlowChange(env, bps, coin, next, o) ==
              (if abandoned then Delta(o, Escrow(coin.registry.serial, 1 - a), Fees, bond) else 0)
              + Delta(o, Vault, env.who(coin.subs[a].finalOwner), coin.registry.value)
              + Delta(o, Escrow(coin.registry.serial, a), env.who(coin.subs[a].checker), bond)
  {
    hide I.BondOf, Delta;
    var checker, bond := env.who(coin.subs[a].checker), I.BondOf(coin.registry.value, bps);
    DeltaVia(o, checker, Escrow(coin.registry.serial, a), checker, bond);
    DeltaSelf(o, checker, bond);
    if abandoned {
      DeltaVia(o, env.who(coin.subs[1 - a].checker), Escrow(coin.registry.serial, 1 - a), Fees, bond);
    }
  }

  lemma HeadFlow(env: Env, bps: u32, coin: Coin, next: Coin, a: byte, o: Owner)
    requires a in coin.subs && coin.subs[a].status.Receiving?
    requires Turned(coin, next, a, Pending, if 1 - a in coin.subs then coin.subs[1 - a].status else Lost)
    ensures FlowChange(env, bps, coin, next, o) == 0
  {
    hide I.BondOf, Delta;
  }

  // ---- every step

  lemma RejectExplained(env: Env, w: World, s: Bytes32, a: byte, o: Owner)
    requires Inv(env, w) && HasAttempt(w, s, a) && a <= 1 && I.RejectSpent(Load(w, s, a), w.slot).Ok?
    requires w.coins[s].registry.status.Spent? && w.coins[s].subs[a].status.Receiving?
    ensures Explained(env, w, Store(w, s, a, I.RejectSpent(Load(w, s, a), w.slot).value), s, o)
  {
    hide Inv, SubInv, Genesis, I.RejectSpent, I.BondOf, Flow, Delta, Store, Turned;
    SubAt(env, w, s, a);
    CoinAt(env, w, s);
    var c := I.RejectSpent(Load(w, s, a), w.slot).value;
    RejectEffect(env, Load(w, s, a), w.slot);
    StoredTurn(w, s, a, c);
    RejectFlow(env, w.config.bps, w.coins[s], Store(w, s, a, c).coins[s], a, o);
  }

  lemma HeadExplained(env: Env, w: World, s: Bytes32, a: byte, o: Owner)
    requires Inv(env, w) && HasAttempt(w, s, a) && a <= 1 && w.coins[s].subs[a].states != []
    requires w.coins[s].subs[a].status.Receiving?
    ensures Explained(env, w, Store(w, s, a, I.SetHead(Load(w, s, a), w.slot)), s, o)
  {
    hide Inv, SubInv, Shaped, Genesis, I.BondOf, Flow, Delta, Store, Turned;
    CoinAt(env, w, s);
    var c := I.SetHead(Load(w, s, a), w.slot);
    StoredTurn(w, s, a, c);
    HeadFlow(env, w.config.bps, w.coins[s], Store(w, s, a, c).coins[s], a, o);
  }

  lemma WinExplained(env: Env, w: World, s: Bytes32, a: byte, x: I.Extras, o: Owner)
    requires Inv(env, w) && HasAttempt(w, s, a) && a <= 1 && w.coins[s].subs[a].states != []
    requires w.coins[s].subs[a].status.Receiving?
    requires var c := Load(w, s, a);
             c.other.Some? && c.other.value.status.Pending? && I.ResolveWin(env, c, x, w.slot).Ok?
    ensures Explained(env, w, Store(w, s, a, I.ResolveWin(env, Load(w, s, a), x, w.slot).value), s, o)
  {
    hide Inv, SubInv, Shaped, Genesis, I.ResolveWin, I.BondOf, Flow, Delta, Store, Turned;
    SubAt(env, w, s, a);
    SubAt(env, w, s, 1 - a);
    CoinAt(env, w, s);
    var c := I.ResolveWin(env, Load(w, s, a), x, w.slot).value;
    WinEffect(env, Load(w, s, a), x, w.slot);
    StoredTurn(w, s, a, c);
    WinFlow(env, w.config.bps, w.coins[s], Store(w, s, a, c).coins[s], a, o);
  }

  lemma LoseExplained(env: Env, w: World, s: Bytes32, a: byte, x: I.Extras, o: Owner)
    requires Inv(env, w) && HasAttempt(w, s, a) && a <= 1 && w.coins[s].subs[a].status.Receiving?
    requires var c := Load(w, s, a); c.other.Some? && I.ResolveLose(env, c, x, w.slot).Ok?
    ensures Explained(env, w, Store(w, s, a, I.ResolveLose(env, Load(w, s, a), x, w.slot).value), s, o)
  {
    hide Inv, SubInv, Shaped, Genesis, I.ResolveLose, I.BondOf, Flow, Delta, Store, Turned;
    SubAt(env, w, s, a);
    CoinAt(env, w, s);
    var c := I.ResolveLose(env, Load(w, s, a), x, w.slot).value;
    LoseEffect(env, Load(w, s, a), x, w.slot);
    StoredTurn(w, s, a, c);
    LoseFlow(env, w.config.bps, w.coins[s], Store(w, s, a, c).coins[s], a, o);
  }

  lemma FinalizeFlows(env: Env, w: World, s: Bytes32, a: byte, other: byte, recipient: Bytes32, x: I.Extras, o: Owner)
    requires Inv(env, w) && DoFinalize(env, w, s, a, other, recipient, x).Ok?
    ensures Explained(env, w, DoFinalize(env, w, s, a, other, recipient, x).value, s, o)
  {
    hide Inv, SubInv, Explained, I.VerifyFullChain, I.ContenderWins, I.RejectSpent, I.ResolveWin, I.ResolveLose;
    SubAt(env, w, s, a);
    if w.coins[s].registry.status.Spent? {
      RejectExplained(env, w, s, a, o);
    } else if !w.coins[s].head.isSet {
      HeadExplained(env, w, s, a, o);
    } else if I.ContenderWins(w.coins[s].subs[a].states, w.coins[s].head) {
      WinExplained(env, w, s, a, x, o);
    } else {
      LoseExplained(env, w, s, a, x, o);
    }
  }

  lemma MovesExplain(env: Env, w: World, after: World, s: Bytes32, delta: Owner -> int, o: Owner)
    requires s in w.coins && s in after.coins && after.coins == w.coins[s := after.coins[s]]
    requires after.config.bps == w.config.bps && Moves(w.ledger, after.ledger, delta)
    requires FlowChange(env, w.config.bps, w.coins[s], after.coins[s], o) == delta(o)
    ensures Explained(env, w, after, s, o)
  {}

  lemma SettleExplained(env: Env, w: World, s: Bytes32, a: byte, x: I.Extras, o: Owner)
    requires Inv(env, w) && HasAttempt(w, s, a) && a <= 1 && w.coins[s].subs[a].status.Pending?
    requires var r := I.SettlePayOut(env, Load(w, s, a), x);
             r.Ok? && (r.value.other.Some? <==> Load(w, s, a).other.Some?)
    ensures Explained(env, w, Store(w, s, a, I.SettlePayOut(env, Load(w, s, a), x).value), s, o)
  {
    hide Inv, SubInv, Shaped, Genesis, I.SettlePayOut, I.BondOf, Flow, Delta, Moves, Explained, Store, Turned;
    SubAt(env, w, s, a);
    CoinAt(env, w, s);
    if 1 - a in w.coins[s].subs { SubAt(env, w, s, 1 - a); }
    var b := Load(w, s, a);
    SettleEffect(env, b, x);
    var c := I.SettlePayOut(env, b, x).value;
    StoredTurn(w, s, a, c);
    SettleFlow(env, w.config.bps, w.coins[s], Store(w, s, a, c).coins[s], a, Abandons(b, x), o);
    MovesExplain(env, w, Store(w, s, a, c), s, SettleMoves(env, b, x), o);
  }

  lemma SettleFlows(env: Env, w: World, s: Bytes32, a: byte, other: byte, recipient: Bytes32, x: I.Extras, o: Owner)
    requires Inv(env, w) && DoSettle(env, w, s, a, other, recipient, x).Ok?
    ensures Explained(env, w, DoSettle(env, w, s, a, other, recipient, x).value, s, o)
  {
    hide Inv, SubInv, Explained, I.SettlePayOut;
    SubAt(env, w, s, a);
    SettleExplained(env, w, s, a, x, o);
  }

  /** Sum over all coins of what they have moved for `o`. */
  ghost function CoinFlows(env: Env, w: World, o: Owner): int { SumOf(w.coins, Flow(env, w.config.bps, o)) }

  lemma MintFlows(env: Env, w: World, authority: Bytes32, s: Bytes32, value: u64, recipient: Bytes32, genesis: Bytes32,
                  o: Owner)
    requires DoMint(env, w, authority, s, value, recipient, genesis).Ok?
    ensures var after := DoMint(env, w, authority, s, value, recipient, genesis).value;
            after.ledger == w.ledger && CoinFlows(env, after, o) == CoinFlows(env, w, o)
  {
    hide SumOf, Genesis;
    var after := DoMint(env, w, authority, s, value, recipient, genesis).value;
    SumOfUpdate(w.coins, s, after.coins[s], Flow(env, w.config.bps, o));
  }

  lemma QuietFlows(env: Env, w: World, e: Event, o: Owner)
    requires e.SetCap? || e.Fund? || e.Withdraw? || e.Pay? || e.Issue? || e.Tick?
    ensures var after := Exec(env, w, e);
            CoinFlows(env, after, o) == CoinFlows(env, w, o)
            && Bal(after.ledger, o) - Bal(w.ledger, o) == OutsideFlow(env, w, e, o)
  {
    hide Delta, Flow, SumOf;
  }

  // ---- whole runs

  lemma CoinStep(env: Env, w: World, after: World, s: Bytes32, o: Owner)
    requires Explained(env, w, after, s, o)
    ensures Bal(after.ledger, o) - Bal(w.ledger, o) == CoinFlows(env, after, o) - CoinFlows(env, w, o)
  {
    hide Flow, SumOf;
    SumOfUpdate(w.coins, s, after.coins[s], Flow(env, w.config.bps, o));
  }

  lemma StepFlows(env: Env, w: World, e: Event, o: Owner)
    requires Inv(env, w)
    ensures var after := Exec(env, w, e);
            Bal(after.ledger, o) - Bal(w.ledger, o)
              == OutsideFlow(env, w, e, o) + CoinFlows(env, after, o) - CoinFlows(env, w, o)
  {
    hide Inv, DoMint, DoSetCap, DoStart, DoAppend, DoFinalize, DoSettle, DoOutside, Explained, CoinFlows;
    if Step(env, w, e).Ok? {
      var after := Step(env, w, e).value;
      match e
      case Mint(authority, s, value, recipient, genesis) =>
        MintFlows(env, w, authority, s, value, recipient, genesis, o);
      case SetCap(wallet, cap) => QuietFlows(env, w, e, o);
      case Start(s, a, state0, checker, held) =>
        StartFlows(env, w, s, a, state0, checker, held, o);
        CoinStep(env, w, after, s, o);
      case Append(s, a, owner, newLinks, lastHash) =>
        AppendFlows(env, w, s, a, owner, newLinks, lastHash, o);
        CoinStep(env, w, after, s, o);
      case Finalize(s, a, other, recipient, x) =>
        FinalizeFlows(env, w, s, a, other, recipient, x, o);
        CoinStep(env, w, after, s, o);
      case Settle(s, a, other, recipient, x) =>
        SettleFlows(env, w, s, a, other, recipient, x, o);
        CoinStep(env, w, after, s, o);
      case _ => QuietFlows(env, w, e, o);
    }
  }

  /** Run-level accounting: every balance is its initial value, plus outside flows, plus what the coins moved. */
  lemma {:induction false} RunFlows(env: Env, w: World, events: seq<Event>, o: Owner)
    requires Inv(env, w)
    ensures var after := Run(env, w, events);
            Bal(after.ledger, o) - Bal(w.ledger, o)
              == OutsideFlows(env, w, events, o) + CoinFlows(env, after, o) - CoinFlows(env, w, o)
    decreases |events|
  {
    hide Inv, Exec, OutsideFlow, CoinFlows;
    if events != [] {
      var next := Exec(env, w, events[0]);
      StepKeeps(env, w, events[0]);
      StepFlows(env, w, events[0], o);
      RunFlows(env, next, events[1..], o);
    }
  }

  /** From init on, the coins alone explain every balance beside the outside flows. */
  lemma RunAccounts(env: Env, start: World, events: seq<Event>, o: Owner)
    requires Initial(start)
    ensures var w := Run(env, start, events);
            Bal(w.ledger, o) == Bal(start.ledger, o) + OutsideFlows(env, start, events, o) + CoinFlows(env, w, o)
  {
    InitialInv(env, start);
    RunFlows(env, start, events, o);
    assert Weights(start.coins, Flow(env, start.config.bps, o)) == map[];
  }

  /** The bill of a coin that is spent with every attempt terminal: value to the owner of the winning chain,
      a lost bond to the winner's checker, a rejected bond to the fee sink, nothing left in escrow. */
  lemma ClosedCoinFlow(env: Env, bps: u32, serial: Bytes32, c: Coin, o: Owner)
    requires CoinInv(env, bps, serial, c) && c.registry.status.Spent?
    requires forall a :: a in c.subs ==> Terminal(c.subs[a].status)
    ensures c.head.attempt in c.subs
    ensures var winner, other := c.subs[c.head.attempt], 1 - c.head.attempt;
            var bond := I.BondOf(c.registry.value, bps);
            Flow(env, bps, o)(c) == Delta(o, Vault, env.who(winner.finalOwner), c.registry.value)
              + (if other !in c.subs then 0
                 else Delta(o, env.who(c.subs[other].checker),
                            if c.subs[other].status.Lost? then env.who(winner.checker) else Fees, bond))
  {
    hide I.BondOf, Delta, Genesis, SubInv;
  }

  // ---- exact escrows

  lemma {:induction false} SumSingle<K>(m: map<K, int>, k: K)
    requires forall j :: j in m && j != k ==> m[j] == 0
    ensures Sum(m) == if k in m then m[k] else 0
    decreases |m|
  {
    if m != map[] {
      var p := if k in m then k else Pick(m);
      SumSplit(m, p);
      SumSingle(m - {p}, k);
    }
  }

  /** The bond a coin keeps in the escrow of attempt `a` of coin `s`: its own, while that attempt is live. */
  function Held(bps: u32, s: Bytes32, a: byte): Coin -> int {
    (c: Coin) => if c.registry.serial == s && a in c.subs && Live(c.subs[a].status) then I.BondOf(c.registry.value, bps)
                 else 0
  }

  /** Attempt `b` has paid its coin's value into the escrow of attempt `a` of coin `s`. */
  predicate PaidInto(env: Env, c: Coin, b: byte, s: Bytes32, a: byte) {
    b in c.subs && c.subs[b].status.Won? && env.who(c.subs[b].finalOwner) == Escrow(s, a)
  }

  /** The value a coin has paid into that escrow. */
  function Trapped(env: Env, s: Bytes32, a: byte): Coin -> int {
    (c: Coin) => (if PaidInto(env, c, 0, s, a) then c.registry.value else 0)
                 + (if PaidInto(env, c, 1, s, a) then c.registry.value else 0)
  }

  /** Of what attempt `b` moves, an escrow sees its bond while it is live, if that escrow is its own, and the value paid
      out to it. */
  lemma AttemptInto(env: Env, bps: u32, serial: Bytes32, c: Coin, b: byte, s: Bytes32, a: byte)
    requires CoinInv(env, bps, serial, c) && a <= 1 && b <= 1
    ensures AttemptFlow(env, bps, c, b, Escrow(s, a))
         == (if c.registry.serial == s && a == b && b in c.subs && Live(c.subs[b].status)
             then I.BondOf(c.registry.value, bps) else 0)
            + (if PaidInto(env, c, b, s, a) then c.registry.value else 0)
  {
    hide I.BondOf, Shaped, Genesis, WellChained, ParseOwner, I.BondAmount;
  }

  /** Of all a coin moves, an escrow sees the bond of its own live attempt and the values paid out to it. */
  lemma EscrowFlow(env: Env, bps: u32, serial: Bytes32, c: Coin, s: Bytes32, a: byte)
    requires CoinInv(env, bps, serial, c) && a <= 1
    ensures Flow(env, bps, Escrow(s, a))(c) == Held(bps, s, a)(c) + Trapped(env, s, a)(c)
  {
    hide I.BondOf, CoinInv, AttemptFlow, PaidInto;
    AttemptInto(env, bps, serial, c, 0, s, a);
    AttemptInto(env, bps, serial, c, 1, s, a);
  }

  /** A live attempt's escrow holds one bond, any other escrow none, beside what outsiders put there and what coins were
      paid out to it. */
  lemma ExactEscrow(env: Env, start: World, events: seq<Event>, s: Bytes32, a: byte)
    requires Initial(start) && a <= 1
    ensures var w := Run(env, start, events);
            Bal(w.ledger, Escrow(s, a))
              == Bal(start.ledger, Escrow(s, a)) + OutsideFlows(env, start, events, Escrow(s, a))
                 + Counted(w, s, Held(w.config.bps, s, a)) + SumOf(w.coins, Trapped(env, s, a))
  {
    hide Inv, CoinInv, I.BondOf, Run, OutsideFlows, Flow, Initial, Held, Trapped;
    var w, o := Run(env, start, events), Escrow(s, a);
    RunAccounts(env, start, events, o);
    InitialInv(env, start);
    RunKeeps(env, start, events);
    EscrowSum(env, w, s, a);
  }

  /** What all coins together have moved in or out of an escrow. */
  lemma EscrowSum(env: Env, w: World, s: Bytes32, a: byte)
    requires Inv(env, w) && a <= 1
    ensures CoinFlows(env, w, Escrow(s, a)) ==
            Counted(w, s, Held(w.config.bps, s, a)) + SumOf(w.coins, Trapped(env, s, a))
  {
    hide Inv, CoinInv, I.BondOf, Flow, Trapped, Held;
    var flow, held, trapped := Flow(env, w.config.bps, Escrow(s, a)), Held(w.config.bps, s, a), Trapped(env, s, a);
    forall t | t in w.coins ensures flow(w.coins[t]) == held(w.coins[t]) + trapped(w.coins[t]) {
      CoinAt(env, w, t);
      EscrowFlow(env, w.config.bps, t, w.coins[t], s, a);
    }
    SumAdd(Weights(w.coins, flow), Weights(w.coins, held), Weights(w.coins, trapped));
    forall t | t in w.coins && t != s ensures held(w.coins[t]) == 0 {
      CoinAt(env, w, t);
      ForeignHeld(w.config.bps, w.coins[t], s, a);
    }
    SumSingle(Weights(w.coins, held), s);
  }

  lemma ForeignHeld(bps: u32, c: Coin, s: Bytes32, a: byte)
    requires c.registry.serial != s
    ensures Held(bps, s, a)(c) == 0
  {}

  /** An escrow holds exactly one bond or nothing, beside outside deposits, precisely when no coin was ever paid into
      it. */
  lemma ExactEscrowIff(env: Env, start: World, events: seq<Event>, s: Bytes32, a: byte)
    requires Initial(start) && a <= 1
    ensures var w := Run(env, start, events);
            Bal(w.ledger, Escrow(s, a))
              == Bal(start.ledger, Escrow(s, a)) + OutsideFlows(env, start, events, Escrow(s, a))
                 + (if HasAttempt(w, s, a) && Live(w.coins[s].subs[a].status)
                    then I.BondOf(w.coins[s].registry.value, w.config.bps) else 0)
            <==> forall t, b :: t in w.coins && b in w.coins[t].subs ==> !PaidInto(env, w.coins[t], b, s, a)
  {
    hide Inv, CoinInv, I.BondOf, Run, OutsideFlows, Initial;
    var w := Run(env, start, events);
    InitialInv(env, start);
    RunKeeps(env, start, events);
    ExactEscrow(env, start, events, s, a);
    if s in w.coins { CoinAt(env, w, s); }
    NothingTrapped(env, w, s, a);
  }

  lemma NothingTrapped(env: Env, w: World, s: Bytes32, a: byte)
    requires Inv(env, w)
    ensures SumOf(w.coins, Trapped(env, s, a)) >= 0
    ensures SumOf(w.coins, Trapped(env, s, a)) == 0
       <==> forall t, b :: t in w.coins && b in w.coins[t].subs ==> !PaidInto(env, w.coins[t], b, s, a)
  {
    hide Inv, CoinInv, PaidInto;
    var trapped := Weights(w.coins, Trapped(env, s, a));
    forall t | t in trapped
      ensures trapped[t] >= 0
      ensures trapped[t] == 0 <==> forall b :: b in w.coins[t].subs ==> !PaidInto(env, w.coins[t], b, s, a)
    {
      TrappedAt(env, w, t, s, a);
    }
    SumBounds(trapped);
    if forall t :: t in trapped ==> trapped[t] == 0 { SumZero(trapped); }
  }

  lemma TrappedAt(env: Env, w: World, t: Bytes32, s: Bytes32, a: byte)
    requires Inv(env, w) && t in w.coins
    ensures var c := w.coins[t];
            && Trapped(env, s, a)(c) >= 0
            && (Trapped(env, s, a)(c) == 0 <==> forall b :: b in c.subs ==> !PaidInto(env, c, b, s, a))
  {
    hide Inv, SubInv, Shaped, Genesis;
    CoinAt(env, w, t);
    assert forall b :: b in w.coins[t].subs ==> b == 0 || b == 1;
  }

  lemma SumZero<K>(m: map<K, int>)
    requires forall k :: k in m ==> m[k] == 0
    ensures Sum(m) == 0
  {
    if m != map[] { SumSingle(m, Pick(m)); }
  }

  // ---- the vault

  /** The value the vault has paid out for a coin. */
  function PaidFromVault(env: Env): Coin -> int {
    (c: Coin) =>
      if c.registry.status.Spent? && c.head.attempt in c.subs && env.who(c.subs[c.head.attempt].finalOwner) != Vault
      then c.registry.value else 0
  }

  /** Of what attempt `a` moves, the vault sees the value it has won. */
  lemma AttemptFromVault(env: Env, bps: u32, serial: Bytes32, c: Coin, a: byte)
    requires CoinInv(env, bps, serial, c)
    ensures AttemptFlow(env, bps, c, a, Vault)
         == if a in c.subs && c.subs[a].status.Won?
            then Delta(Vault, Vault, env.who(c.subs[a].finalOwner), c.registry.value) else 0
  {
    hide I.BondOf, Shaped, Genesis, WellChained, ParseOwner, I.BondAmount;
  }

  lemma VaultFlow(env: Env, bps: u32, serial: Bytes32, c: Coin)
    requires CoinInv(env, bps, serial, c)
    ensures Flow(env, bps, Vault)(c) + PaidFromVault(env)(c) == 0
  {
    AttemptFromVault(env, bps, serial, c, 0);
    AttemptFromVault(env, bps, serial, c, 1);
    hide I.BondOf, Genesis, SubInv, AttemptFlow, CoinInv;
    HeadAlone(env, bps, serial, c);
  }

  /** A won attempt is the head of a spent coin. */
  lemma HeadAlone(env: Env, bps: u32, serial: Bytes32, c: Coin)
    requires CoinInv(env, bps, serial, c)
    ensures forall a :: a in c.subs ==> a == 0 || a == 1
    ensures forall a :: a in c.subs && c.subs[a].status.Won? ==> c.registry.status.Spent? && a == c.head.attempt
    ensures c.registry.status.Spent? ==> c.head.attempt in c.subs && c.subs[c.head.attempt].status.Won?
  {
    hide SubInv, Genesis;
  }

  /** Nobody outside the program takes tokens from the vault, its authority included. */
  lemma {:induction false} NoOutsideDrain(env: Env, w: World, events: seq<Event>)
    ensures OutsideFlows(env, w, events, Vault) >= 0
    decreases |events|
  {
    hide DoMint, DoStart, DoAppend, DoFinalize, DoSettle, DoSetCap, Ledgers.Transfer;
    if events != [] { NoOutsideDrain(env, Exec(env, w, events[0]), events[1..]); }
  }

  /** On every run the vault holds what it had, plus what was put in, minus the values of the coins paid out of it. */
  lemma VaultPaysCoinsOnly(env: Env, start: World, events: seq<Event>)
    requires Initial(start)
    ensures var w := Run(env, start, events);
            Bal(w.ledger, Vault) ==
              Bal(start.ledger, Vault) + OutsideFlows(env, start, events, Vault) - SumOf(w.coins, PaidFromVault(env))
    ensures OutsideFlows(env, start, events, Vault) >= 0
  {
    hide Inv, CoinInv, Run, OutsideFlows, Flow, Initial, PaidFromVault;
    var w := Run(env, start, events);
    RunAccounts(env, start, events, Vault);
    NoOutsideDrain(env, start, events);
    InitialInv(env, start);
    RunKeeps(env, start, events);
    var flow, paid, none := Flow(env, w.config.bps, Vault), PaidFromVault(env), (c: Coin) => 0;
    forall t | t in w.coins ensures flow(w.coins[t]) + paid(w.coins[t]) == 0 {
      CoinAt(env, w, t);
      VaultFlow(env, w.config.bps, t, w.coins[t]);
    }
    SumAdd(Weights(w.coins, none), Weights(w.coins, flow), Weights(w.coins, paid));
    SumZero(Weights(w.coins, none));
  }
}
