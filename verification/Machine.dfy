/** The program as a state machine: all its accounts, and the instructions that arrive one by one. */
module Machine {
  import opened Bytes
  import opened Results
  import opened StateOps
  import opened Ledgers
  import opened Accounts
  import I = Instructions

  /** Registry, head and check-in attempts of one serial. */
  datatype Coin = Coin(registry: Registry, head: Head, subs: map<byte, Submission>)

  datatype World = World(
    config: Config, coins: map<Bytes32, Coin>, allowances: map<Bytes32, Allowance>,
    ledger: Ledger, minted: u64, slot: u64)

  /** Instructions of the program, then what the token program and the clock do beside it. */
  datatype Event =
    | Mint(authority: Bytes32, serial: Bytes32, value: u64, recipient: Bytes32, genesis: Bytes32)
    | Fund(authority: Bytes32, amount: u64)
    | Withdraw(authority: Bytes32, amount: u64)
    | SetCap(wallet: Bytes32, cap: u64)
    | Start(serial: Bytes32, attempt: byte, state0: State, checker: Bytes32, held: u64)
    | Append(serial: Bytes32, attempt: byte, headOwner: Bytes32, newLinks: seq<Link>, lastHash: Bytes32)
    | Finalize(serial: Bytes32, attempt: byte, otherAttempt: byte, recipient: Bytes32, extras: I.Extras)
    | Settle(serial: Bytes32, attempt: byte, otherAttempt: byte, recipient: Bytes32, extras: I.Extras)
    | Pay(from: Bytes32, to: Owner, amount: u64)
    | Issue(to: Owner, amount: u64)
    | Tick(slot: u64)

  /** Only a wallet key can sign; the program's derived addresses have no private key. */
  function Signed(env: Env, key: Bytes32): Result<()> { Need(env.who(key).Wallet?, NotASigner) }

  function LookUp<K, V>(m: map<K, V>, k: K): Option<V> { if k in m then Some(m[k]) else None }

  predicate HasAttempt(w: World, serial: Bytes32, attempt: byte) {
    serial in w.coins && attempt in w.coins[serial].subs
  }

  function Load(w: World, serial: Bytes32, attempt: byte): I.Ctx
    requires HasAttempt(w, serial, attempt)
  {
    var coin := w.coins[serial];
    I.Ctx(w.config, coin.registry, coin.head, coin.subs[attempt], LookUp(coin.subs, 1 - attempt),
          LookUp(w.allowances, coin.registry.recipient), w.ledger)
  }

  function Store(w: World, serial: Bytes32, attempt: byte, c: I.Ctx): World
    requires HasAttempt(w, serial, attempt)
    requires c.other.Some? ==> attempt <= 1
  {
    var mine := w.coins[serial].subs[attempt := c.mine];
    var subs := if c.other.Some? then mine[1 - attempt := c.other.value] else mine;
    var allowances := if c.allowance.Some? then w.allowances[c.registry.recipient := c.allowance.value]
      else w.allowances;
    w.(config := c.config, ledger := c.ledger, allowances := allowances,
       coins := w.coins[serial := Coin(c.registry, c.head, subs)])
  }

  function DoMint(env: Env, w: World, authority: Bytes32, serial: Bytes32, value: u64, recipient: Bytes32,
                  genesis: Bytes32): Result<World>
  {
    var _ :- Signed(env, authority);
    var m :- I.MintCoin(env, w.config, serial in w.coins, AllowanceOf(w, recipient), Bal(w.ledger, Vault), authority,
                        serial, value, recipient, genesis);
    Ok(w.(config := m.config, coins := w.coins[serial := Coin(m.registry, NO_HEAD, map[])],
          allowances := w.allowances[recipient := m.allowance]))
  }

  function AllowanceOf(w: World, k: Bytes32): Allowance {
    if k in w.allowances then w.allowances[k] else NO_ALLOWANCE
  }

  function DoSetCap(env: Env, w: World, wallet: Bytes32, cap: u64): Result<World> {
    var _ :- Signed(env, wallet);
    var _ :- Need(wallet in w.allowances, AccountMissing);
    var a :- I.SetAllowance(w.allowances[wallet], cap);
    Ok(w.(allowances := w.allowances[wallet := a]))
  }

  function DoStart(env: Env, w: World, serial: Bytes32, attempt: byte, state0: State, checker: Bytes32, held: u64)
    : Result<World>
  {
    var _ :- Signed(env, checker);
    var _ :- Need(serial in w.coins, AccountMissing);
    var coin := w.coins[serial];
    var s :- I.StartCheckIn(env, w.config, coin.registry, attempt in coin.subs, w.ledger, w.slot,
                            serial, attempt, state0, checker, held);
    Ok(w.(ledger := s.ledger,
          coins := w.coins[serial := coin.(registry := s.registry, subs := coin.subs[attempt := s.submission])]))
  }

  function DoAppend(env: Env, w: World, serial: Bytes32, attempt: byte, headOwner: Bytes32, links: seq<Link>,
                    lastHash: Bytes32): Result<World>
  {
    var _ :- Need(HasAttempt(w, serial, attempt), AccountMissing);
    var coin := w.coins[serial];
    var sub :- I.AppendLinks(env, w.config, coin.registry, coin.subs[attempt], serial, headOwner, links, lastHash);
    Ok(w.(coins := w.coins[serial := coin.(subs := coin.subs[attempt := sub])]))
  }

  function DoFinalize(env: Env, w: World, serial: Bytes32, attempt: byte, otherAttempt: byte, recipient: Bytes32,
                      x: I.Extras): Result<World>
  {
    var _ :- Need(HasAttempt(w, serial, attempt), AccountMissing);
    var c :- I.FinalizeCheckIn(env, Load(w, serial, attempt), serial, otherAttempt, recipient, x, w.slot);
    Ok(Store(w, serial, attempt, c))
  }

  function DoSettle(env: Env, w: World, serial: Bytes32, attempt: byte, otherAttempt: byte, recipient: Bytes32,
                    x: I.Extras): Result<World>
  {
    var _ :- Need(HasAttempt(w, serial, attempt), AccountMissing);
    var c :- I.Settle(env, Load(w, serial, attempt), serial, otherAttempt, recipient, x, w.slot);
    Ok(Store(w, serial, attempt, c))
  }

  /** What moves tokens or time without touching a coin. */
  function DoOutside(env: Env, w: World, e: Event): Result<World>
    requires e.Fund? || e.Withdraw? || e.Pay? || e.Issue? || e.Tick?
  {
    match e
    case Fund(authority, amount) =>
      var _ :- Signed(env, authority);
      var ledger :- I.FundVault(w.config, w.ledger, authority, env.who(authority), amount);
      Ok(w.(ledger := ledger))
    case Withdraw(authority, amount) =>
      var _ :- Signed(env, authority);
      var ledger :- I.WithdrawVault(w.config, w.ledger, authority, env.who(authority), amount);
      Ok(w.(ledger := ledger))
    case Pay(from, to, amount) =>
      var _ :- Signed(env, from);
      var ledger :- Transfer(w.ledger, env.who(from), to, amount);
      Ok(w.(ledger := ledger))
    case Issue(to, amount) =>
      var _ :- Need(w.minted + amount <= U64_MAX, ArithmeticOverflow);
      var _ :- Need(Bal(w.ledger, to) + amount <= U64_MAX, ArithmeticOverflow);
      Ok(w.(minted := w.minted + amount, ledger := w.ledger[to := Bal(w.ledger, to) + amount]))
    case Tick(slot) =>
      var _ :- Need(slot >= w.slot, ClockReversed);
      Ok(w.(slot := slot))
  }

  function Step(env: Env, w: World, e: Event): Result<World> {
    match e
    case Mint(authority, serial, value, recipient, genesis) =>
      DoMint(env, w, authority, serial, value, recipient, genesis)
    case SetCap(wallet, cap) => DoSetCap(env, w, wallet, cap)
    case Start(serial, attempt, state0, checker, held) => DoStart(env, w, serial, attempt, state0, checker, held)
    case Append(serial, attempt, headOwner, newLinks, lastHash) =>
      DoAppend(env, w, serial, attempt, headOwner, newLinks, lastHash)
    case Finalize(serial, attempt, otherAttempt, recipient, x) =>
      DoFinalize(env, w, serial, attempt, otherAttempt, recipient, x)
    case Settle(serial, attempt, otherAttempt, recipient, x) =>
      DoSettle(env, w, serial, attempt, otherAttempt, recipient, x)
    case _ => DoOutside(env, w, e)
  }

  /** A failed instruction leaves every account as it was. */
  function Exec(env: Env, w: World, e: Event): World {
    match Step(env, w, e)
    case Ok(after) => after
    case Err(_) => w
  }

  function Run(env: Env, w: World, events: seq<Event>): World
    decreases |events|
  {
    if events == [] then w else Run(env, Exec(env, w, events[0]), events[1..])
  }

  /** A world right after init: no coin, no allowance, some distribution of the vault token. */
  ghost predicate Initial(w: World) {
    && w.coins == map[] && w.allowances == map[]
    && Total(w.ledger) == w.minted
    && exists bps, window, maxLinks, allowance, scheme ::
         I.Init(w.config.authority, bps, window, maxLinks, allowance, scheme) == Ok(w.config)
  }

  lemma {:induction false} RunConcat(env: Env, w: World, a: seq<Event>, b: seq<Event>)
    ensures Run(env, w, a + b) == Run(env, Run(env, w, a), b)
    decreases |a|
  {
    if a == [] {
      assert a + b == b;
    } else {
      RunConcat(env, Exec(env, w, a[0]), a[1..], b);
      assert (a + b)[1..] == a[1..] + b;
    }
  }
}
