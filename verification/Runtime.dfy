/** The chain around the program: loads the accounts of an instruction, runs its handler, and keeps the result only on
    success. */
module Runtime {
  import opened Bytes
  import opened Results
  import opened StateOps
  import opened Accounts
  import opened AccountObjects
  import opened Machine
  import opened Invariant
  import opened Reachable
  import Program
  import I = Instructions

  class Cluster {
    const env: Env
    var world: World
    /** The check-in steps that have succeeded so far, in order. */
    ghost var taken: seq<Event>

    constructor (env: Env, world: World)
      ensures this.env == env && this.world == world && taken == []
    {
      this.env, this.world, taken := env, world, [];
    }

    /** Submissions in the world fit the buffers they are loaded into. */
    ghost predicate Valid()
      reads this
    {
      forall s, a :: HasAttempt(world, s, a) ==> Loadable(env, world.coins[s].subs[a])
    }

    method Mint(authority: Bytes32, serial: Bytes32, value: u64, recipient: Bytes32, genesis: Bytes32)
      returns (r: Result<()>)
      modifies this`world
      ensures Meets(DoMint(env, old(world), authority, serial, value, recipient, genesis), r)
      ensures world == Exec(env, old(world), Event.Mint(authority, serial, value, recipient, genesis))
    {
      hide I.MintCoin;
      var _ :- Signed(env, authority);
      var config := new ConfigAccount(world.config);
      var registry := new RegistryAccount(Registry(Zeros(32), 0, Zeros(32), Zeros(32), Active, 0));
      var allowance := new AllowanceAccount(AllowanceOf(world, recipient));
      var tokens := new TokenProgram(world.ledger);
      var _ :- Program.MintCoin(env, config, registry, serial in world.coins, allowance, tokens,
                                authority, serial, value, recipient, genesis);
      world := world.(config := config.Value(), coins := world.coins[serial := Coin(registry.Value(), NO_HEAD, map[])],
                      allowances := world.allowances[recipient := allowance.Value()]);
      return Ok(());
    }

    method Fund(authority: Bytes32, amount: u64) returns (r: Result<()>)
      modifies this`world
      ensures Meets(Step(env, old(world), Event.Fund(authority, amount)), r)
      ensures world == Exec(env, old(world), Event.Fund(authority, amount))
    {
      hide I.FundVault;
      var _ :- Signed(env, authority);
      var config := new ConfigAccount(world.config);
      var tokens := new TokenProgram(world.ledger);
      var _ :- Program.FundVault(config, tokens, authority, env.who(authority), amount);
      world := world.(ledger := tokens.ledger);
      return Ok(());
    }

    method Withdraw(authority: Bytes32, amount: u64) returns (r: Result<()>)
      modifies this`world
      ensures Meets(Step(env, old(world), Event.Withdraw(authority, amount)), r)
      ensures world == Exec(env, old(world), Event.Withdraw(authority, amount))
    {
      hide I.WithdrawVault;
      var _ :- Signed(env, authority);
      var config := new ConfigAccount(world.config);
      var tokens := new TokenProgram(world.ledger);
      var _ :- Program.WithdrawVault(config, tokens, authority, env.who(authority), amount);
      world := world.(ledger := tokens.ledger);
      return Ok(());
    }

    method SetCap(wallet: Bytes32, cap: u64) returns (r: Result<()>)
      modifies this`world
      ensures Meets(DoSetCap(env, old(world), wallet, cap), r)
      ensures world == Exec(env, old(world), Event.SetCap(wallet, cap))
    {
      var _ :- Signed(env, wallet);
      var _ :- Need(wallet in world.allowances, AccountMissing);
      var allowance := new AllowanceAccount(world.allowances[wallet]);
      var _ :- Program.SetAllowance(allowance, cap);
      world := world.(allowances := world.allowances[wallet := allowance.Value()]);
      return Ok(());
    }

    method Start(serial: Bytes32, attempt: byte, state0: State, checker: Bytes32, held: u64) returns (r: Result<()>)
      modifies this`world
      ensures Meets(DoStart(env, old(world), serial, attempt, state0, checker, held), r)
      ensures world == Exec(env, old(world), Event.Start(serial, attempt, state0, checker, held))
    {
      hide I.StartCheckIn;
      var _ :- Signed(env, checker);
      var _ :- Need(serial in world.coins, AccountMissing);
      var coin := world.coins[serial];
      var config := new ConfigAccount(world.config);
      var registry := new RegistryAccount(coin.registry);
      var submission := new SubmissionAccount(env.maxStates);
      var tokens := new TokenProgram(world.ledger);
      var _ :- Program.StartCheckIn(env, config, registry, submission, attempt in coin.subs, tokens, world.slot,
                                    serial, attempt, state0, checker, held);
      var subs := coin.subs[attempt := submission.Value()];
      world := world.(ledger := tokens.ledger,
                      coins := world.coins[serial := coin.(registry := registry.Value(), subs := subs)]);
      return Ok(());
    }

    method Append(serial: Bytes32, attempt: byte, headOwner: Bytes32, links: seq<Link>, lastHash: Bytes32)
      returns (r: Result<()>)
      requires Valid()
      modifies this`world
      ensures Meets(DoAppend(env, old(world), serial, attempt, headOwner, links, lastHash), r)
      ensures world == Exec(env, old(world), Event.Append(serial, attempt, headOwner, links, lastHash))
    {
      hide I.AppendLinks;
      var _ :- Need(HasAttempt(world, serial, attempt), AccountMissing);
      var coin := world.coins[serial];
      assert Loadable(env, coin.subs[attempt]);
      var config := new ConfigAccount(world.config);
      var registry := new RegistryAccount(coin.registry);
      var submission := new SubmissionAccount.Load(env.maxStates, coin.subs[attempt]);
      var _ :- Program.AppendLinks(env, config, registry, submission, serial, headOwner, links, lastHash);
      var subs := coin.subs[attempt := submission.Value()];
      world := world.(coins := world.coins[serial := coin.(subs := subs)]);
      return Ok(());
    }

    /** Loads everything finalize_check_in and settle may touch; absent accounts stay absent. */
    method LoadAccounts(serial: Bytes32, attempt: byte) returns (a: CheckIn)
      requires Valid() && HasAttempt(world, serial, attempt)
      ensures a.Valid() && a.Value() == Machine.Load(world, serial, attempt) && (a.other.Some? ==> attempt <= 1)
      ensures fresh(a.config) && fresh(a.registry) && fresh(a.head) && fresh(a.mine) && fresh(a.tokens)
      ensures fresh(a.Optional())
    {
      var coin := world.coins[serial];
      assert Loadable(env, coin.subs[attempt]);
      var config := new ConfigAccount(world.config);
      var registry := new RegistryAccount(coin.registry);
      var head := new HeadAccount(coin.head);
      var tokens := new TokenProgram(world.ledger);
      var mine := new SubmissionAccount.Load(env.maxStates, coin.subs[attempt]);
      var other := None;
      if 1 - attempt in coin.subs {
        assert HasAttempt(world, serial, 1 - attempt) && Loadable(env, coin.subs[1 - attempt]);
        var account := new SubmissionAccount.Load(env.maxStates, coin.subs[1 - attempt]);
        other := Some(account);
      }
      var allowance := None;
      if coin.registry.recipient in world.allowances {
        var account := new AllowanceAccount(world.allowances[coin.registry.recipient]);
        allowance := Some(account);
      }
      a := CheckIn(config, registry, head, mine, tokens, other, allowance);
    }

    method Finalize(serial: Bytes32, attempt: byte, otherAttempt: byte, recipient: Bytes32, x: I.Extras)
      returns (r: Result<()>)
      requires Valid()
      modifies this`world
      ensures Meets(DoFinalize(env, old(world), serial, attempt, otherAttempt, recipient, x), r)
      ensures world == Exec(env, old(world), Event.Finalize(serial, attempt, otherAttempt, recipient, x))
    {
      hide I.FinalizeCheckIn, Machine.Load, Machine.Store;
      var _ :- Need(HasAttempt(world, serial, attempt), AccountMissing);
      var a := LoadAccounts(serial, attempt);
      var _ :- Program.FinalizeCheckIn(env, a, serial, otherAttempt, recipient, x, world.slot);
      world := Machine.Store(world, serial, attempt, a.Value());
      return Ok(());
    }

    method Settle(serial: Bytes32, attempt: byte, otherAttempt: byte, recipient: Bytes32, x: I.Extras)
      returns (r: Result<()>)
      requires Valid()
      modifies this`world
      ensures Meets(DoSettle(env, old(world), serial, attempt, otherAttempt, recipient, x), r)
      ensures world == Exec(env, old(world), Event.Settle(serial, attempt, otherAttempt, recipient, x))
    {
      hide I.Settle, Machine.Load, Machine.Store;
      var _ :- Need(HasAttempt(world, serial, attempt), AccountMissing);
      var a := LoadAccounts(serial, attempt);
      var _ :- Program.Settle(env, a, serial, otherAttempt, recipient, x, world.slot);
      world := Machine.Store(world, serial, attempt, a.Value());
      return Ok(());
    }

    /** Whatever arrives, the handlers on account objects take the chain exactly where the state machine goes. */
    method Submit(e: Event) returns (r: Result<()>)
      requires Valid()
      modifies this
      ensures Meets(Step(env, old(world), e), r)
      ensures world == Exec(env, old(world), e)
      ensures taken == old(taken) + if r.Ok? && IsStep(e) then [e] else []
    {
      hide Exec, DoMint, DoSetCap, DoStart, DoAppend, DoFinalize, DoSettle, HasAttempt;
      match e {
        case Mint(authority, serial, value, recipient, genesis) =>
          r := Mint(authority, serial, value, recipient, genesis);
        case Fund(authority, amount) => r := Fund(authority, amount);
        case Withdraw(authority, amount) => r := Withdraw(authority, amount);
        case SetCap(wallet, cap) => r := SetCap(wallet, cap);
        case Start(serial, attempt, state0, checker, held) => r := Start(serial, attempt, state0, checker, held);
        case Append(serial, attempt, headOwner, newLinks, lastHash) =>
          r := Append(serial, attempt, headOwner, newLinks, lastHash);
        case Finalize(serial, attempt, other, recipient, x) => r := Finalize(serial, attempt, other, recipient, x);
        case Settle(serial, attempt, other, recipient, x) => r := Settle(serial, attempt, other, recipient, x);
        case _ => r := Beside(e);
      }
      taken := taken + if r.Ok? && IsStep(e) then [e] else [];
    }

    /** The token program and the clock, beside the program. */
    method Beside(e: Event) returns (r: Result<()>)
      requires e.Pay? || e.Issue? || e.Tick?
      modifies this`world
      ensures Meets(Step(env, old(world), e), r)
      ensures world == Exec(env, old(world), e)
    {
      var next :- DoOutside(env, world, e);
      world := next;
      return Ok(());
    }

    /** Feeds a whole run to the handlers; every world on the way, and the last one, satisfies the invariant. */
    method Replay(events: seq<Event>)
      requires Inv(env, world)
      modifies this
      ensures world == Run(env, old(world), events) && Inv(env, world)
    {
      hide Inv, Exec;
      for i := 0 to |events|
        invariant Run(env, old(world), events) == Run(env, world, events[i..]) && Inv(env, world)
      {
        assert events[i..][0] == events[i] && events[i..][1..] == events[i + 1..];
        AllLoadable(env, world);
        StepKeeps(env, world, events[i]);
        var _ := Submit(events[i]);
      }
      assert events[|events|..] == [];
    }
  }

  /** The four instructions a check-in consists of. */
  predicate IsStep(e: Event) { e.Start? || e.Append? || e.Finalize? || e.Settle? }

  ghost predicate Loadable(env: Env, s: Submission) { |s.states| == |s.commits| <= env.maxStates }

  lemma AllLoadable(env: Env, w: World)
    requires Inv(env, w)
    ensures forall s, a :: HasAttempt(w, s, a) ==> Loadable(env, w.coins[s].subs[a])
  {
    hide Inv, WellChained;
    forall s, a | HasAttempt(w, s, a) ensures Loadable(env, w.coins[s].subs[a]) { SubAt(env, w, s, a); }
  }
}
