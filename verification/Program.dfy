/** The instruction handlers, updating account objects step by step; each meets its specification in Instructions. */
module Program {
  import opened Bytes
  import opened Results
  import opened StateOps
  import opened Accounts
  import opened AccountObjects
  import opened Ledgers
  import I = Instructions

  // ---- init, vault, allowance, mint

  method Init(config: ConfigAccount, authority: Bytes32, bps: u32, window: u64, maxLinks: u16, defaultAllowance: u64,
              sigScheme: byte) returns (r: Result<()>)
    modifies config
    ensures Meets(I.Init(authority, bps, window, maxLinks, defaultAllowance, sigScheme), r)
    ensures r.Ok? <==> bps >= 10_000 && window >= 1 && maxLinks >= 1 && sigScheme <= 1
    ensures r.Err? ==> r.error == if bps < 10_000 then BondBelowParity else if window < 1 then WindowTooSmall
                                  else if maxLinks < 1 then MaxLinksTooSmall else SigSchemeUnsupported
    ensures r.Ok? ==>
      && config.authority == authority && config.bps == bps && config.window == window && config.maxLinks == maxLinks
      && config.defaultAllowance == defaultAllowance && config.supply == 0 && config.sigScheme == sigScheme
    ensures r.Ok? ==> config.Value() == I.Init(authority, bps, window, maxLinks, defaultAllowance, sigScheme).value
  {
    var _ :- Need(bps >= 10_000, BondBelowParity);
    var _ :- Need(window >= 1, WindowTooSmall);
    var _ :- Need(maxLinks >= 1, MaxLinksTooSmall);
    var _ :- Need(sigScheme <= 1, SigSchemeUnsupported);
    config.authority := authority;
    config.bps := bps;
    config.window := window;
    config.maxLinks := maxLinks;
    config.defaultAllowance := defaultAllowance;
    config.supply := 0;
    config.sigScheme := sigScheme;
    return Ok(());
  }

  method FundVault(config: ConfigAccount, tokens: TokenProgram, authority: Bytes32, owner: Owner, amount: u64)
    returns (r: Result<()>)
    modifies tokens
    ensures Meets(I.FundVault(config.Value(), old(tokens.ledger), authority, owner, amount), r)
    ensures r.Ok? ==> tokens.ledger == I.FundVault(config.Value(), old(tokens.ledger), authority, owner, amount).value
  {
    var _ :- Need(authority == config.authority, StatusInvalid);
    r := tokens.Transfer(owner, owner, Vault, amount);
  }

  method WithdrawVault(config: ConfigAccount, tokens: TokenProgram, authority: Bytes32, owner: Owner, amount: u64)
    returns (r: Result<()>)
    modifies tokens
    ensures Meets(I.WithdrawVault(config.Value(), old(tokens.ledger), authority, owner, amount), r)
    ensures r.Ok? ==>
      tokens.ledger == I.WithdrawVault(config.Value(), old(tokens.ledger), authority, owner, amount).value
  {
    var _ :- Need(authority == config.authority, StatusInvalid);
    var source := Bal(tokens.ledger, Vault);
    var _ :- Need(config.supply + amount <= U64_MAX, ArithmeticOverflow);
    var _ :- Need(source >= config.supply + amount, VaultUnderflow);
    r := tokens.Transfer(owner, Vault, owner, amount);
  }

  method SetAllowance(allowance: AllowanceAccount, cap: u64) returns (r: Result<()>)
    modifies allowance`cap
    ensures Meets(I.SetAllowance(old(allowance.Value()), cap), r)
    ensures r == if allowance.committed <= cap then Ok(()) else Err(AllowanceCapBelowCommitted)
    ensures allowance.cap == if allowance.committed <= cap then cap else old(allowance.cap)
    ensures r.Ok? ==> allowance.Value() == I.SetAllowance(old(allowance.Value()), cap).value
  {
    var _ :- Need(cap >= allowance.committed, AllowanceCapBelowCommitted);
    allowance.cap := cap;
    return Ok(());
  }

  method Commit(allowance: AllowanceAccount, defaultCap: u64, value: u64) returns (r: Result<()>)
    modifies allowance
    ensures Meets(I.Commit(old(allowance.Value()), defaultCap, value), r)
    ensures var cap := if old(allowance.initialized) then old(allowance.cap) else defaultCap;
            var committed := if old(allowance.initialized) then old(allowance.committed) else 0;
            && r == (if committed + value > U64_MAX then Err(ArithmeticOverflow)
                     else if committed + value > cap then Err(AllowanceExceeded) else Ok(()))
            && (r.Ok? ==> allowance.initialized && allowance.cap == cap && allowance.committed == committed + value)
    ensures r.Ok? ==> allowance.Value() == I.Commit(old(allowance.Value()), defaultCap, value).value
  {
    if !allowance.initialized {
      allowance.cap := defaultCap;
      allowance.committed := 0;
      allowance.initialized := true;
    }
    var _ :- Need(allowance.committed + value <= U64_MAX, ArithmeticOverflow);
    var _ :- Need(allowance.committed + value <= allowance.cap, AllowanceExceeded);
    allowance.committed := allowance.committed + value;
    return Ok(());
  }

  method MintCoin(env: Env, config: ConfigAccount, registry: RegistryAccount, inUse: bool, allowance: AllowanceAccount,
                  tokens: TokenProgram, authority: Bytes32, serial: Bytes32, value: u64, recipient: Bytes32,
                  genesis: Bytes32)
    returns (r: Result<()>)
    modifies config`supply, registry, allowance
    ensures Meets(I.MintCoin(env, old(config.Value()), inUse, old(allowance.Value()), Bal(tokens.ledger, Vault),
                             authority, serial, value, recipient, genesis), r)
    ensures r.Ok? ==>
      I.Minted(config.Value(), registry.Value(), allowance.Value()) ==
      I.MintCoin(env, old(config.Value()), inUse, old(allowance.Value()), Bal(tokens.ledger, Vault),
                 authority, serial, value, recipient, genesis).value
  {
    hide Genesis, Ledgers.Bal, I.Commit;
    var _ :- Need(authority == config.authority, StatusInvalid);
    var _ :- Need(!inUse, AccountInUse);
    var _ :- Need(value > 0, ZeroValue);
    var state0 := GenesisState(serial, value, recipient);
    var _ :- Need(env.hash(state0[..]) == genesis, GenesisMismatch);
    var _ :- Need(config.supply + value <= U64_MAX, ArithmeticOverflow);
    var _ :- Need(Bal(tokens.ledger, Vault) >= config.supply + value, VaultUnderflow);
    config.supply := config.supply + value;
    var _ :- Commit(allowance, config.defaultAllowance, value);
    registry.serial := serial;
    registry.value := value;
    registry.genesis := genesis;
    registry.recipient := recipient;
    registry.status := Active;
    registry.count := 0;
    return Ok(());
  }

  // ---- start_check_in and append_links

  /** Fills in a zeroed account: open for links, with the first state in place. */
  method OpenSubmission(submission: SubmissionAccount, slot: u64, serial: Bytes32, attempt: byte, state0: State,
                        checker: Bytes32)
    requires submission.Valid() && submission.states.Length >= 1 && submission.commits[0] == Zeros(32)
    modifies submission, submission.states
    ensures submission.Valid()
    ensures submission.Value() ==
            Submission(serial, attempt, checker, ParseOwner(state0), 0, slot, 0, Receiving, [state0], [Zeros(32)])
  {
    hide ParseOwner;
    submission.serial := serial;
    submission.attempt := attempt;
    submission.checker := checker;
    submission.finalOwner := ParseOwner(state0);
    submission.links := 0;
    submission.started := slot;
    submission.finalized := 0;
    submission.status := Receiving;
    submission.statesLen := 1;
    submission.states[0] := state0;
    assert submission.states[..1] == [state0] && submission.commits[..1] == [Zeros(32)];
  }

  method StartCheckIn(env: Env, config: ConfigAccount, registry: RegistryAccount, submission: SubmissionAccount,
                      inUse: bool, tokens: TokenProgram, slot: u64, serial: Bytes32, attempt: byte, state0: State,
                      checker: Bytes32, held: u64)
    returns (r: Result<()>)
    requires submission.Valid() && submission.states.Length >= 1
    requires forall i :: 0 <= i < submission.commits.Length ==> submission.commits[i] == Zeros(32)
    modifies registry`count, submission, submission.states, tokens
    ensures submission.Valid()
    ensures Meets(I.StartCheckIn(env, config.Value(), old(registry.Value()), inUse, old(tokens.ledger), slot,
                                 serial, attempt, state0, checker, held), r)
    ensures r.Ok? ==>
      I.Started(registry.Value(), submission.Value(), tokens.ledger) ==
      I.StartCheckIn(env, config.Value(), old(registry.Value()), inUse, old(tokens.ledger), slot,
                     serial, attempt, state0, checker, held).value
  {
    hide I.BondAmount, I.BondOf, Ledgers.Transfer, Ledgers.TransferAs, ParseOwner, ParseSerial, ParseValue;
    var _ :- Need(config.sigScheme <= 1, SigSchemeUnsupported);
    var _ :- Need(registry.status.Active?, StatusInvalid);
    var _ :- Need(!inUse, AccountInUse);
    var _ :- Need(held == 0, BondEscrowFailed);
    var _ :- Need(attempt <= 1, AttemptRange);
    var _ :- Need(registry.count < 2, DuplicateSubmission);
    var _ :- Need(ParseSerial(state0) == serial, SerialMismatch);
    var _ :- Need(ParseValue(state0) == registry.value, ValueMismatch);
    var _ :- Need(env.hash(state0) == registry.genesis, GenesisMismatch);
    OpenSubmission(submission, slot, serial, attempt, state0, checker);
    registry.count := registry.count + 1;
    var bond :- I.BondAmount(registry.value, config.bps);
    r := tokens.Transfer(env.who(checker), env.who(checker), Escrow(serial, attempt), bond);
  }

  /** verify_full_chain: the anchor, then every link in turn. */
  method VerifyFullChain(hash: Bytes -> Bytes32, submission: SubmissionAccount, registry: RegistryAccount)
    returns (r: Result<()>)
    requires submission.Valid()
    ensures r == I.VerifyFullChain(hash, registry.Value(), submission.Value().states)
  {
    var n := submission.statesLen;
    var _ :- Need(n >= 1, StatusInvalid);
    var _ :- Need(hash(submission.states[0]) == registry.genesis, GenesisMismatch);
    ghost var chain := submission.Value().states;
    for i := 1 to n
      invariant I.VerifyFullChain(hash, registry.Value(), chain) == I.CheckFrom(hash, registry.Value(), chain, i)
    {
      var prev, cur := submission.states[i - 1], submission.states[i];
      assert chain[i - 1] == prev && chain[i] == cur;
      var _ :- Need(ParseSerial(cur) == registry.serial, SerialMismatch);
      var _ :- Need(ParseValue(cur) == registry.value, ValueMismatch);
      var _ :- Need(ParsePrevHash(cur) == hash(prev), ChainBroken);
    }
    return Ok(());
  }

  /** The loop of append_links: checks one link at a time against the one before it and stores it. */
  method StoreLinks(env: Env, config: ConfigAccount, registry: RegistryAccount, submission: SubmissionAccount,
                    links: seq<Link>)
    returns (r: Result<()>)
    requires submission.Valid() && submission.statesLen >= 1
    requires submission.statesLen + |links| <= submission.states.Length
    modifies submission.states, submission.commits
    ensures Meets(I.CheckLinks(env.hash, config.sigScheme, registry.Value(), Last(old(submission.Value().states)),
                               links), r)
    ensures r.Ok? ==> var n := submission.statesLen + |links|;
                      && submission.states[..n] == old(submission.Value().states) + I.StatesOf(links)
                      && submission.commits[..n] == old(submission.Value().commits) + I.CommitsOf(env.hash, links)
  {
    hide ParseSerial, ParseValue, ParsePrevHash, I.SigFormatOk;
    var base := submission.statesLen;
    var prev := submission.states[base - 1];
    ghost var first := prev;
    for i := 0 to |links|
      invariant submission.states[..base + i] == old(submission.Value().states) + I.StatesOf(links[..i])
      invariant submission.commits[..base + i] == old(submission.Value().commits) + I.CommitsOf(env.hash, links[..i])
      invariant I.CheckLinks(env.hash, config.sigScheme, registry.Value(), first, links)
             == I.CheckLinks(env.hash, config.sigScheme, registry.Value(), prev, links[i..])
    {
      var state := links[i].state;
      assert links[i..][0] == links[i] && links[i..][1..] == links[i + 1..];
      assert links[..i + 1] == links[..i] + [links[i]];
      var _ :- Need(ParseSerial(state) == registry.serial, SerialMismatch);
      var _ :- Need(ParseValue(state) == registry.value, ValueMismatch);
      var _ :- Need(ParsePrevHash(state) == env.hash(prev), ChainBroken);
      var _ :- Need(I.SigFormatOk(config.sigScheme, links[i].sig), SigCommitFormat);
      submission.commits[base + i] := env.hash(links[i].sig);
      submission.states[base + i] := state;
      prev := state;
    }
    assert links[..|links|] == links;
    return Ok(());
  }

  method AppendLinks(env: Env, config: ConfigAccount, registry: RegistryAccount, submission: SubmissionAccount,
                     serial: Bytes32, headOwner: Bytes32, links: seq<Link>, lastHash: Bytes32) returns (r: Result<()>)
    requires submission.Valid() && submission.states.Length == env.maxStates
    modifies submission, submission.states, submission.commits
    ensures submission.Valid()
    ensures Meets(I.AppendLinks(env, config.Value(), registry.Value(), old(submission.Value()), serial, headOwner,
                                links, lastHash), r)
    ensures r.Ok? ==>
      submission.Value() ==
      I.AppendLinks(env, config.Value(), registry.Value(), old(submission.Value()), serial, headOwner, links,
                    lastHash).value
  {
    hide ParseOwner, I.CheckLinks;
    var _ :- Need(config.sigScheme <= 1, SigSchemeUnsupported);
    var _ :- Need(submission.status.Receiving?, StatusInvalid);
    var _ :- Need(serial == submission.serial, SubmissionMismatch);
    var _ :- Need(links != [], EmptyLinks);
    var _ :- Need(|links| <= config.maxLinks, MaxLinksExceeded);
    var _ :- Need(submission.statesLen + |links| <= env.maxStates, StatesFull);
    var _ :- Need(submission.statesLen >= 1, StatusInvalid);
    var base := submission.statesLen;
    var _ :- Need(ParseOwner(submission.states[base - 1]) == headOwner, OwnerAnchorMismatch);
    var _ :- StoreLinks(env, config, registry, submission, links);
    var last := submission.states[base + |links| - 1];
    assert last == submission.states[..base + |links|][base + |links| - 1] == links[|links| - 1].state;
    var _ :- Need(env.hash(last) == lastHash, LastHashMismatch);
    submission.statesLen := base + |links|;
    var _ :- Need(submission.links + |links| <= U16_MAX, ArithmeticOverflow);
    submission.links := submission.links + |links|;
    submission.finalOwner := ParseOwner(last);
    return Ok(());
  }

  method VerifySigCommit(env: Env, config: ConfigAccount, submission: SubmissionAccount, serial: Bytes32, attempt: byte,
                         index: u16, sig: Sig) returns (r: Result<()>)
    requires submission.Valid()
    ensures r == I.VerifySigCommit(env, config.Value(), submission.Value(), serial, attempt, index, sig)
  {
    var _ :- Need(config.sigScheme <= 1, SigSchemeUnsupported);
    var _ :- Need(submission.serial == serial, SubmissionMismatch);
    var _ :- Need(submission.attempt == attempt, SubmissionMismatch);
    var _ :- Need(index >= 1 && index + 1 <= submission.statesLen, StatusInvalid);
    assert submission.Value().commits[index] == submission.commits[index];
    var _ :- Need(env.hash(sig) == submission.commits[index], SigCommitMismatch);
    return Ok(());
  }

  // ---- finalize_check_in

  method FinRejectSpent(a: CheckIn, slot: u64) returns (r: Result<()>)
    requires a.Valid()
    modifies a.mine`status, a.mine`finalized, a.tokens
    ensures Meets(I.RejectSpent(old(a.Value()), slot), r)
    ensures r.Ok? ==> a.Value() == I.RejectSpent(old(a.Value()), slot).value
  {
    hide I.BondAmount, Ledgers.Transfer, Ledgers.TransferAs;
    var bond :- I.BondAmount(a.registry.value, a.config.bps);
    var escrow := Escrow(a.mine.serial, a.mine.attempt);
    var _ :- a.tokens.Transfer(escrow, escrow, Fees, bond);
    a.mine.status := Rejected;
    a.mine.finalized := slot;
    return Ok(());
  }

  /** The four head fields that a new head and a winning contender both write. */
  method WriteHead(head: HeadAccount, mine: SubmissionAccount, slot: u64)
    requires mine.Valid() && mine.statesLen >= 1
    modifies head`state, head`attempt, head`len, head`since
    ensures head.isSet ==> head.Value() == I.HeadOf(mine.Value(), slot)
    ensures !head.isSet ==> head.Value().(isSet := true) == I.HeadOf(mine.Value(), slot)
  {
    head.state := mine.states[mine.statesLen - 1];
    head.attempt := mine.attempt;
    head.len := mine.statesLen;
    head.since := slot;
  }

  method FinSetHead(a: CheckIn, slot: u64)
    requires a.Valid() && a.mine.statesLen >= 1
    modifies a.head, a.mine`status, a.mine`finalized
    ensures a.Value() == I.SetHead(old(a.Value()), slot)
  {
    hide I.HeadOf;
    a.head.isSet := true;
    WriteHead(a.head, a.mine, slot);
    a.mine.status := Pending;
    a.mine.finalized := slot;
  }

  /** Where the head state sits in the contender's chain: the first match, if any. */
  method FindHead(submission: SubmissionAccount, head: HeadAccount) returns (at: Option<nat>)
    requires submission.Valid()
    ensures at == I.FindFrom(submission.Value().states, head.state, 0)
  {
    ghost var chain := submission.Value().states;
    at := None;
    for i := 0 to submission.statesLen
      invariant at == None && I.FindFrom(chain, head.state, 0) == I.FindFrom(chain, head.state, i)
    {
      assert chain[i] == submission.states[i];
      if submission.states[i] == head.state {
        return Some(i);
      }
    }
  }

  /** Both bonds go to the contender's checker and the value to the owner of its chain. */
  method PayWin(env: Env, a: CheckIn, x: I.Extras) returns (r: Result<()>)
    requires a.Valid() && a.other.Some?
    modifies a.tokens
    ensures Meets(I.WinTransfers(env, old(a.Value()), x), r)
    ensures r.Ok? ==> a.tokens.ledger == I.WinTransfers(env, old(a.Value()), x).value
  {
    hide I.BondAmount, Ledgers.Transfer, Ledgers.TransferAs;
    var serial, other, checker := a.mine.serial, a.other.value, env.who(a.mine.checker);
    var bond :- I.BondAmount(a.registry.value, a.config.bps);
    var mine, theirs := Escrow(serial, a.mine.attempt), Escrow(serial, other.attempt);
    var _ :- a.tokens.Transfer(mine, mine, checker, bond);
    var _ :- I.Require(x.otherEscrow);
    var _ :- a.tokens.Transfer(theirs, theirs, checker, bond);
    r := a.tokens.Transfer(Vault, Vault, env.who(a.mine.finalOwner), a.registry.value);
  }

  method FinResolveWin(env: Env, a: CheckIn, x: I.Extras, slot: u64) returns (r: Result<()>)
    requires a.Valid() && a.other.Some? && a.mine.statesLen >= 1 && a.head.isSet
    modifies a.head, a.registry`status, a.config`supply, a.mine`status, a.mine`finalized, a.tokens, a.Optional()
    ensures a.Valid() && Meets(I.ResolveWin(env, old(a.Value()), x, slot), r)
    ensures r.Ok? ==> a.Value() == I.ResolveWin(env, old(a.Value()), x, slot).value
  {
    hide I.WinTransfers, I.HeadOf;
    var value, other := a.registry.value, a.other.value;
    var _ :- PayWin(env, a, x);
    WriteHead(a.head, a.mine, slot);
    a.registry.status := Spent;
    var _ :- Need(value <= a.config.supply, VaultUnderflow);
    a.config.supply := a.config.supply - value;
    var _ :- I.Require(x.allowance);
    var _ :- Need(a.allowance.Some?, StatusInvalid);
    var allowance := a.allowance.value;
    var _ :- Need(value <= allowance.committed, AllowanceExceeded);
    allowance.committed := allowance.committed - value;
    a.mine.status := Won;
    a.mine.finalized := slot;
    other.status := Lost;
    return Ok(());
  }

  method FinResolveLose(env: Env, a: CheckIn, x: I.Extras, slot: u64) returns (r: Result<()>)
    requires a.Valid() && a.other.Some?
    modifies a.mine`status, a.mine`finalized, a.tokens
    ensures Meets(I.ResolveLose(env, old(a.Value()), x, slot), r)
    ensures r.Ok? ==> a.Value() == I.ResolveLose(env, old(a.Value()), x, slot).value
  {
    hide I.BondAmount, Ledgers.Transfer, Ledgers.TransferAs;
    var _ :- I.Require(x.otherChecker);
    var bond :- I.BondAmount(a.registry.value, a.config.bps);
    var escrow := Escrow(a.mine.serial, a.mine.attempt);
    var _ :- a.tokens.Transfer(escrow, escrow, env.who(a.other.value.checker), bond);
    a.mine.status := Lost;
    a.mine.finalized := slot;
    return Ok(());
  }

  method FinResolve(env: Env, a: CheckIn, x: I.Extras, slot: u64) returns (r: Result<()>)
    requires a.Valid() && a.mine.statesLen >= 1 && a.head.isSet
    modifies a.head, a.registry`status, a.config`supply, a.mine`status, a.mine`finalized, a.tokens, a.Optional()
    ensures a.Valid() && Meets(I.Resolve(env, old(a.Value()), x, slot), r)
    ensures r.Ok? ==> a.Value() == I.Resolve(env, old(a.Value()), x, slot).value
  {
    hide I.ResolveWin, I.ResolveLose, I.FindFrom;
    var _ :- I.Require(x.other);
    var _ :- Need(a.other.Some?, StatusInvalid);
    var other := a.other.value;
    var _ :- Need(other.attempt == a.head.attempt, StatusInvalid);
    var _ :- Need(other.status.Pending?, StatusInvalid);
    var myLen, headLen := a.mine.statesLen, a.head.len;
    var at := FindHead(a.mine, a.head);
    var iWin := match at case Some(d) => d + 1 < myLen case None => myLen > headLen;
    if iWin {
      r := FinResolveWin(env, a, x, slot);
    } else {
      r := FinResolveLose(env, a, x, slot);
    }
  }

  method FinalizeCheckIn(env: Env, a: CheckIn, serial: Bytes32, otherAttempt: byte, recipient: Bytes32, x: I.Extras,
                         slot: u64)
    returns (r: Result<()>)
    requires a.Valid()
    modifies a.head, a.registry`status, a.config`supply, a.mine`status, a.mine`finalized, a.tokens, a.Optional()
    ensures a.Valid() && Meets(I.FinalizeCheckIn(env, old(a.Value()), serial, otherAttempt, recipient, x, slot), r)
    ensures r.Ok? ==>
      a.Value() == I.FinalizeCheckIn(env, old(a.Value()), serial, otherAttempt, recipient, x, slot).value
  {
    hide I.RejectSpent, I.SetHead, I.Resolve, I.CheckFrom;
    var _ :- Need(a.config.sigScheme <= 1, SigSchemeUnsupported);
    var _ :- Need(a.mine.status.Receiving?, StatusInvalid);
    var _ :- Need(serial == a.mine.serial, SubmissionMismatch);
    var _ :- Need(recipient == a.registry.recipient, SubmissionMismatch);
    var _ :- Need(a.mine.attempt <= 1, ArithmeticOverflow);
    var _ :- Need(otherAttempt == 1 - a.mine.attempt, AttemptRange);
    var _ :- VerifyFullChain(env.hash, a.mine, a.registry);
    if a.registry.status.Spent? {
      r := FinRejectSpent(a, slot);
    } else if !a.head.isSet {
      FinSetHead(a, slot);
      r := Ok(());
    } else {
      r := FinResolve(env, a, x, slot);
    }
  }

  // ---- settle

  /** The counterparty part: an open attempt is abandoned, its bond goes to the fee sink. */
  method AbandonOther(a: CheckIn, x: I.Extras, bond: u64) returns (r: Result<()>)
    requires a.Valid()
    modifies a.tokens, if a.other.Some? then {a.other.value} else {}
    ensures a.Valid() && Meets(I.Abandon(old(a.Value()), x, bond), r)
    ensures r.Ok? ==> a.Value() == I.Abandon(old(a.Value()), x, bond).value
  {
    hide Ledgers.Transfer, Ledgers.TransferAs;
    var _ :- Need(!x.other.Missing?, StatusInvalid);
    if !x.other.Skipped? {
      var _ :- Need(a.other.Some?, StatusInvalid);
      var other := a.other.value;
      if other.status.Receiving? {
        var _ :- I.Require(x.otherEscrow);
        var escrow := Escrow(a.mine.serial, other.attempt);
        var _ :- a.tokens.Transfer(escrow, escrow, Fees, bond);
        other.status := Rejected;
      } else {
        var _ :- Need(other.status.Lost? || other.status.Rejected?, StatusInvalid);
      }
    }
    return Ok(());
  }

  method PaySettled(env: Env, a: CheckIn, bond: u64) returns (r: Result<()>)
    requires a.Valid()
    modifies a.tokens
    ensures Meets(I.SettleTransfers(env, old(a.Value()), bond), r)
    ensures r.Ok? ==> a.tokens.ledger == I.SettleTransfers(env, old(a.Value()), bond).value
  {
    hide Ledgers.Transfer, Ledgers.TransferAs;
    var _ :- a.tokens.Transfer(Vault, Vault, env.who(a.mine.finalOwner), a.registry.value);
    var escrow := Escrow(a.mine.serial, a.mine.attempt);
    r := a.tokens.Transfer(escrow, escrow, env.who(a.mine.checker), bond);
  }

  method ReleaseAllowance(a: Option<AllowanceAccount>, e: I.Extra, value: u64) returns (r: Result<()>)
    modifies if a.Some? then {a.value} else {}
    ensures Meets(I.Release(old(AllowanceValue(a)), e, value), r)
    ensures r.Ok? ==> AllowanceValue(a) == I.Release(old(AllowanceValue(a)), e, value).value
  {
    var _ :- Need(!e.Missing?, StatusInvalid);
    if !e.Skipped? {
      var _ :- Need(a.Some?, StatusInvalid);
      var _ :- Need(value <= a.value.committed, AllowanceExceeded);
      a.value.committed := a.value.committed - value;
    }
    return Ok(());
  }

  /** Marks the coin spent and the attempt won, and takes the value off supply and commitment. */
  method SettleBooks(a: CheckIn, x: I.Extras) returns (r: Result<()>)
    requires a.Valid()
    modifies a.registry`status, a.config`supply, a.mine`status, if a.allowance.Some? then {a.allowance.value} else {}
    ensures a.Valid() && Meets(I.SettleBooks(old(a.Value()), x), r)
    ensures r.Ok? ==> a.Value() == I.SettleBooks(old(a.Value()), x).value
  {
    hide I.Release, AllowanceValue;
    var value := a.registry.value;
    a.registry.status := Spent;
    var _ :- Need(value <= a.config.supply, VaultUnderflow);
    a.config.supply := a.config.supply - value;
    var _ :- ReleaseAllowance(a.allowance, x.allowance, value);
    a.mine.status := Won;
    return Ok(());
  }

  method SettlePayOut(env: Env, a: CheckIn, x: I.Extras) returns (r: Result<()>)
    requires a.Valid()
    modifies a.registry`status, a.config`supply, a.mine`status, a.tokens, a.Optional()
    ensures a.Valid() && Meets(I.SettlePayOut(env, old(a.Value()), x), r)
    ensures r.Ok? ==> a.Value() == I.SettlePayOut(env, old(a.Value()), x).value
  {
    hide I.BondAmount, I.Abandon, I.SettleTransfers, I.SettleBooks, AllowanceValue;
    var bond :- I.BondAmount(a.registry.value, a.config.bps);
    var _ :- AbandonOther(a, x, bond);
    var _ :- PaySettled(env, a, bond);
    r := SettleBooks(a, x);
  }

  method Settle(env: Env, a: CheckIn, serial: Bytes32, otherAttempt: byte, recipient: Bytes32, x: I.Extras, slot: u64)
    returns (r: Result<()>)
    requires a.Valid()
    modifies a.registry`status, a.config`supply, a.mine`status, a.tokens, a.Optional()
    ensures a.Valid() && Meets(I.Settle(env, old(a.Value()), serial, otherAttempt, recipient, x, slot), r)
    ensures r.Ok? ==> a.Value() == I.Settle(env, old(a.Value()), serial, otherAttempt, recipient, x, slot).value
  {
    hide I.SettlePayOut;
    var _ :- Need(a.config.sigScheme <= 1, SigSchemeUnsupported);
    var _ :- Need(a.registry.status.Active?, StatusInvalid);
    var _ :- Need(a.mine.status.Pending?, StatusInvalid);
    var _ :- Need(serial == a.mine.serial, SubmissionMismatch);
    var _ :- Need(recipient == a.registry.recipient, SubmissionMismatch);
    var _ :- Need(a.mine.attempt <= 1, ArithmeticOverflow);
    var _ :- Need(otherAttempt == 1 - a.mine.attempt, AttemptRange);
    var _ :- Need(a.head.isSet, StatusInvalid);
    var _ :- Need(a.mine.attempt == a.head.attempt, StatusInvalid);
    var _ :- Need(slot >= I.SaturatingAdd(a.head.since, a.config.window), WindowExpired);
    r := SettlePayOut(env, a, x);
  }
}
