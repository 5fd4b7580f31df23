/** What each instruction does to the accounts it is given. */
module Instructions {
  import opened Bytes
  import opened Results
  import opened StateOps
  import opened Ledgers
  import opened Accounts

  // ---- bond and chain checks

  function BondOf(value: u64, bps: u32): nat { value * bps / 10_000 }

  lemma AtParity(value: nat, bps: nat)
    requires bps >= 10_000
    ensures value * bps >= value * 10_000
  {}

  function BondAmount(value: u64, bps: u32): (r: Result<u64>)
    ensures r.Ok? <==> bps >= 10_000 && value * bps <= U64_MAX
    ensures r.Ok? ==> r.value == BondOf(value, bps) && value <= r.value
    ensures r.Ok? ==> 10_000 * r.value <= value * bps < 10_000 * r.value + 10_000
    ensures r.Err? ==> r.error == if bps < 10_000 then BondBelowParity else BondOverflow
  {
    var _ :- Need(bps >= 10_000, BondBelowParity);
    var _ :- Need(value * bps <= U64_MAX, BondOverflow);
    AtParity(value, bps);
    Ok(BondOf(value, bps))
  }

  /** The links of `states` from index `i` on carry the registry's serial and value and hash back. */
  function CheckFrom(hash: Bytes -> Bytes32, reg: Registry, states: seq<State>, i: nat): Result<()>
    requires 1 <= i <= |states|
    decreases |states| - i
  {
    if i == |states| then Ok(()) else
    var _ :- Need(ParseSerial(states[i]) == reg.serial, SerialMismatch);
    var _ :- Need(ParseValue(states[i]) == reg.value, ValueMismatch);
    var _ :- Need(ParsePrevHash(states[i]) == hash(states[i - 1]), ChainBroken);
    CheckFrom(hash, reg, states, i + 1)
  }

  function VerifyFullChain(hash: Bytes -> Bytes32, reg: Registry, states: seq<State>): Result<()> {
    var _ :- Need(|states| >= 1, StatusInvalid);
    var _ :- Need(hash(states[0]) == reg.genesis, GenesisMismatch);
    CheckFrom(hash, reg, states, 1)
  }

  // ---- vault and allowance

  function FundVault(cfg: Config, ledger: Ledger, authority: Bytes32, owner: Owner, amount: u64): Result<Ledger> {
    var _ :- Need(authority == cfg.authority, StatusInvalid);
    TransferAs(ledger, owner, owner, Vault, amount)
  }

  /** The tokens lie with the vault, but the authority signs for itself: the token program refuses. */
  function WithdrawVault(cfg: Config, ledger: Ledger, authority: Bytes32, owner: Owner, amount: u64): Result<Ledger> {
    var _ :- Need(authority == cfg.authority, StatusInvalid);
    var _ :- Need(cfg.supply + amount <= U64_MAX, ArithmeticOverflow);
    var _ :- Need(Bal(ledger, Vault) >= cfg.supply + amount, VaultUnderflow);
    TransferAs(ledger, owner, Vault, owner, amount)
  }

  function SetAllowance(a: Allowance, cap: u64): Result<Allowance> {
    var _ :- Need(cap >= a.committed, AllowanceCapBelowCommitted);
    Ok(a.(cap := cap))
  }

  /** What init stores: no coin is out, and the parameters respect their bounds. */
  function Init(authority: Bytes32, bps: u32, window: u64, maxLinks: u16, defaultAllowance: u64, sigScheme: byte)
    : Result<Config>
  {
    var _ :- Need(bps >= 10_000, BondBelowParity);
    var _ :- Need(window >= 1, WindowTooSmall);
    var _ :- Need(maxLinks >= 1, MaxLinksTooSmall);
    var _ :- Need(sigScheme <= 1, SigSchemeUnsupported);
    Ok(Config(authority, bps, window, maxLinks, defaultAllowance, 0, sigScheme))
  }

  /** The mint gate: a wallet's first coin opens its allowance at the default cap. */
  function Commit(allowance: Allowance, defaultCap: u64, value: u64): Result<Allowance> {
    var a := if allowance.initialized then allowance else Allowance(defaultCap, 0, true);
    var _ :- Need(a.committed + value <= U64_MAX, ArithmeticOverflow);
    var _ :- Need(a.committed + value <= a.cap, AllowanceExceeded);
    Ok(a.(committed := a.committed + value))
  }

  datatype Minted = Minted(config: Config, registry: Registry, allowance: Allowance)

  function MintCoin(env: Env, cfg: Config, inUse: bool, allowance: Allowance, vault: u64, authority: Bytes32,
                    serial: Bytes32, value: u64, recipient: Bytes32, genesis: Bytes32): Result<Minted>
  {
    var _ :- Need(authority == cfg.authority, StatusInvalid);
    var _ :- Need(!inUse, AccountInUse);
    var _ :- Need(value > 0, ZeroValue);
    var _ :- Need(env.hash(Genesis(serial, value, recipient)) == genesis, GenesisMismatch);
    var _ :- Need(cfg.supply + value <= U64_MAX, ArithmeticOverflow);
    var _ :- Need(vault >= cfg.supply + value, VaultUnderflow);
    var a :- Commit(allowance, cfg.defaultAllowance, value);
    Ok(Minted(cfg.(supply := cfg.supply + value),
              Registry(serial, value, genesis, recipient, Active, 0), a))
  }

  // ---- start_check_in and append_links

  datatype Started = Started(registry: Registry, submission: Submission, ledger: Ledger)

  /** `held` is what the account given for the bond holds already; it may be any account of the escrow address. */
  function StartCheckIn(env: Env, cfg: Config, reg: Registry, inUse: bool, ledger: Ledger, slot: u64, serial: Bytes32,
                        attempt: byte, state0: State, checker: Bytes32, held: u64): Result<Started>
  {
    var _ :- Need(cfg.sigScheme <= 1, SigSchemeUnsupported);
    var _ :- Need(reg.status.Active?, StatusInvalid);
    var _ :- Need(!inUse, AccountInUse);
    var _ :- Need(held == 0, BondEscrowFailed);
    var _ :- Need(attempt <= 1, AttemptRange);
    var _ :- Need(reg.count < 2, DuplicateSubmission);
    var _ :- Need(ParseSerial(state0) == serial, SerialMismatch);
    var _ :- Need(ParseValue(state0) == reg.value, ValueMismatch);
    var _ :- Need(env.hash(state0) == reg.genesis, GenesisMismatch);
    var bond :- BondAmount(reg.value, cfg.bps);
    var paid :- Transfer(ledger, env.who(checker), Escrow(serial, attempt), bond);
    Ok(Started(reg.(count := reg.count + 1),
               Submission(serial, attempt, checker, ParseOwner(state0), 0, slot, 0, Receiving, [state0], [Zeros(32)]),
               paid))
  }

  function StatesOf(links: seq<Link>): (states: seq<State>)
    ensures |states| == |links|
  {
    seq(|links|, i requires 0 <= i < |links| => links[i].state)
  }

  function CommitsOf(hash: Bytes -> Bytes32, links: seq<Link>): (commits: seq<Bytes32>)
    ensures |commits| == |links|
  {
    seq<Bytes32>(|links|, i requires 0 <= i < |links| => hash(links[i].sig))
  }

  /** Under scheme 1 a link carries a 32-byte commitment padded with zeros. */
  predicate SigFormatOk(scheme: byte, sig: Sig) { scheme == 1 ==> sig[32..] == Zeros(32) }

  /** Walks the links after `prev`; the first failing check aborts. */
  function CheckLinks(hash: Bytes -> Bytes32, scheme: byte, reg: Registry, prev: State, links: seq<Link>): Result<()>
    decreases |links|
  {
    if links == [] then Ok(()) else
    var state := links[0].state;
    var _ :- Need(ParseSerial(state) == reg.serial, SerialMismatch);
    var _ :- Need(ParseValue(state) == reg.value, ValueMismatch);
    var _ :- Need(ParsePrevHash(state) == hash(prev), ChainBroken);
    var _ :- Need(SigFormatOk(scheme, links[0].sig), SigCommitFormat);
    CheckLinks(hash, scheme, reg, state, links[1..])
  }

  function AppendLinks(env: Env, cfg: Config, reg: Registry, sub: Submission, serial: Bytes32, headOwner: Bytes32,
                       links: seq<Link>, lastHash: Bytes32): Result<Submission>
  {
    var _ :- Need(cfg.sigScheme <= 1, SigSchemeUnsupported);
    var _ :- Need(sub.status.Receiving?, StatusInvalid);
    var _ :- Need(serial == sub.serial, SubmissionMismatch);
    var _ :- Need(links != [], EmptyLinks);
    var _ :- Need(|links| <= cfg.maxLinks, MaxLinksExceeded);
    var _ :- Need(|sub.states| + |links| <= env.maxStates, StatesFull);
    var _ :- Need(|sub.states| >= 1, StatusInvalid);
    var _ :- Need(ParseOwner(Last(sub.states)) == headOwner, OwnerAnchorMismatch);
    var _ :- CheckLinks(env.hash, cfg.sigScheme, reg, Last(sub.states), links);
    var last := links[|links| - 1].state;
    var _ :- Need(env.hash(last) == lastHash, LastHashMismatch);
    var _ :- Need(sub.links + |links| <= U16_MAX, ArithmeticOverflow);
    Ok(sub.(states := sub.states + StatesOf(links), commits := sub.commits + CommitsOf(env.hash, links),
            links := sub.links + |links|, finalOwner := ParseOwner(last)))
  }

  function VerifySigCommit(env: Env, cfg: Config, sub: Submission, serial: Bytes32, attempt: byte, index: u16,
                           sig: Sig): Result<()>
  {
    var _ :- Need(cfg.sigScheme <= 1, SigSchemeUnsupported);
    var _ :- Need(sub.serial == serial, SubmissionMismatch);
    var _ :- Need(sub.attempt == attempt, SubmissionMismatch);
    var _ :- Need(1 <= index < |sub.states| && index < |sub.commits|, StatusInvalid);
    var _ :- Need(env.hash(sig) == sub.commits[index], SigCommitMismatch);
    Ok(())
  }

  // ---- finalize_check_in and settle

  /** An optional account position: not supplied, filled with the program id, or the right account. */
  datatype Extra = Missing | Skipped | Given

  datatype Extras = Extras(other: Extra, otherEscrow: Extra, otherChecker: Extra, allowance: Extra)

  /** The accounts finalize_check_in and settle work on. */
  datatype Ctx = Ctx(
    config: Config, registry: Registry, head: Head, mine: Submission, other: Option<Submission>,
    allowance: Option<Allowance>, ledger: Ledger)

  /** A position that must hold a real account. */
  function Require(e: Extra): Result<()> { Need(e.Given?, StatusInvalid) }

  function RejectSpent(c: Ctx, slot: u64): Result<Ctx> {
    var bond :- BondAmount(c.registry.value, c.config.bps);
    var ledger :- Transfer(c.ledger, Escrow(c.mine.serial, c.mine.attempt), Fees, bond);
    Ok(c.(ledger := ledger, mine := c.mine.(status := Rejected, finalized := slot)))
  }

  function HeadOf(sub: Submission, slot: u64): Head
    requires |sub.states| >= 1
  {
    Head(true, Last(sub.states), sub.attempt, |sub.states|, slot)
  }

  function SetHead(c: Ctx, slot: u64): Ctx
    requires |c.mine.states| >= 1
  {
    c.(head := HeadOf(c.mine, slot), mine := c.mine.(status := Pending, finalized := slot))
  }

  /** Position of `target` in `states` from `i` on, the first one if several. */
  function FindFrom(states: seq<State>, target: State, i: nat): (r: Option<nat>)
    requires i <= |states|
    ensures r.Some? ==> i <= r.value < |states| && states[r.value] == target && target !in states[i..r.value]
    ensures r.None? ==> target !in states[i..]
    decreases |states| - i
  {
    if i == |states| then None
    else if states[i] == target then Some(i)
    else FindFrom(states, target, i + 1)
  }

  /** The two-branch dispute rule: extend the head strictly, or be a longer fork. */
  predicate ContenderWins(states: seq<State>, head: Head) {
    match FindFrom(states, head.state, 0)
    case Some(d) => d + 1 < |states|
    case None => |states| > head.len
  }

  /** The three payments of a win: both bonds to the contender's checker, the value to the owner of its chain. */
  function WinTransfers(env: Env, c: Ctx, x: Extras): Result<Ledger>
    requires c.other.Some?
  {
    var serial, checker := c.mine.serial, env.who(c.mine.checker);
    var bond :- BondAmount(c.registry.value, c.config.bps);
    var refunded :- Transfer(c.ledger, Escrow(serial, c.mine.attempt), checker, bond);
    var _ :- Require(x.otherEscrow);
    var compensated :- Transfer(refunded, Escrow(serial, c.other.value.attempt), checker, bond);
    Transfer(compensated, Vault, env.who(c.mine.finalOwner), c.registry.value)
  }

  function ResolveWin(env: Env, c: Ctx, x: Extras, slot: u64): Result<Ctx>
    requires c.other.Some? && |c.mine.states| >= 1
  {
    var value := c.registry.value;
    var paid :- WinTransfers(env, c, x);
    var _ :- Need(value <= c.config.supply, VaultUnderflow);
    var _ :- Require(x.allowance);
    var _ :- Need(c.allowance.Some?, StatusInvalid);
    var _ :- Need(value <= c.allowance.value.committed, AllowanceExceeded);
    Ok(c.(ledger := paid,
          head := HeadOf(c.mine, slot),
          registry := c.registry.(status := Spent),
          config := c.config.(supply := c.config.supply - value),
          allowance := Some(c.allowance.value.(committed := c.allowance.value.committed - value)),
          mine := c.mine.(status := Won, finalized := slot),
          other := Some(c.other.value.(status := Lost))))
  }

  function ResolveLose(env: Env, c: Ctx, x: Extras, slot: u64): Result<Ctx>
    requires c.other.Some?
  {
    var _ :- Require(x.otherChecker);
    var bond :- BondAmount(c.registry.value, c.config.bps);
    var ledger :- Transfer(c.ledger, Escrow(c.mine.serial, c.mine.attempt), env.who(c.other.value.checker), bond);
    Ok(c.(ledger := ledger, mine := c.mine.(status := Lost, finalized := slot)))
  }

  function Resolve(env: Env, c: Ctx, x: Extras, slot: u64): Result<Ctx>
    requires |c.mine.states| >= 1
  {
    var _ :- Require(x.other);
    var _ :- Need(c.other.Some?, StatusInvalid);
    var _ :- Need(c.other.value.attempt == c.head.attempt, StatusInvalid);
    var _ :- Need(c.other.value.status.Pending?, StatusInvalid);
    if ContenderWins(c.mine.states, c.head) then ResolveWin(env, c, x, slot) else ResolveLose(env, c, x, slot)
  }

  function FinalizeCheckIn(env: Env, c: Ctx, serial: Bytes32, otherAttempt: byte, recipient: Bytes32, x: Extras,
                           slot: u64): (r: Result<Ctx>)
    ensures r.Ok? ==> (r.value.other.Some? <==> c.other.Some?)
  {
    var _ :- Need(c.config.sigScheme <= 1, SigSchemeUnsupported);
    var _ :- Need(c.mine.status.Receiving?, StatusInvalid);
    var _ :- Need(serial == c.mine.serial, SubmissionMismatch);
    var _ :- Need(recipient == c.registry.recipient, SubmissionMismatch);
    var _ :- Need(c.mine.attempt <= 1, ArithmeticOverflow);
    var _ :- Need(otherAttempt == 1 - c.mine.attempt, AttemptRange);
    var _ :- VerifyFullChain(env.hash, c.registry, c.mine.states);
    if c.registry.status.Spent? then RejectSpent(c, slot)
    else if !c.head.isSet then Ok(SetHead(c, slot))
    else Resolve(env, c, x, slot)
  }

  function SaturatingAdd(a: u64, b: u64): u64 { if a + b <= U64_MAX then a + b else U64_MAX }

  /** The counterparty part of settle: an open submission is abandoned, a terminal one is left alone. */
  function Abandon(c: Ctx, x: Extras, bond: u64): Result<Ctx> {
    var _ :- Need(!x.other.Missing?, StatusInvalid);
    if x.other.Skipped? then Ok(c) else
    var _ :- Need(c.other.Some?, StatusInvalid);
    if c.other.value.status.Receiving? then
      var _ :- Require(x.otherEscrow);
      var ledger :- Transfer(c.ledger, Escrow(c.mine.serial, c.other.value.attempt), Fees, bond);
      Ok(c.(ledger := ledger, other := Some(c.other.value.(status := Rejected))))
    else
      var _ :- Need(c.other.value.status.Lost? || c.other.value.status.Rejected?, StatusInvalid);
      Ok(c)
  }

  /** The allowance part of settle: nothing when the account is skipped. */
  function Release(a: Option<Allowance>, e: Extra, value: u64): Result<Option<Allowance>> {
    var _ :- Need(!e.Missing?, StatusInvalid);
    if e.Skipped? then Ok(a) else
    var _ :- Need(a.Some?, StatusInvalid);
    var _ :- Need(value <= a.value.committed, AllowanceExceeded);
    Ok(Some(a.value.(committed := a.value.committed - value)))
  }

  /** The value to the owner of the winning chain, the bond back to its checker. */
  function SettleTransfers(env: Env, c: Ctx, bond: u64): Result<Ledger> {
    var paid :- Transfer(c.ledger, Vault, env.who(c.mine.finalOwner), c.registry.value);
    Transfer(paid, Escrow(c.mine.serial, c.mine.attempt), env.who(c.mine.checker), bond)
  }

  /** The books after a settled payment: coin spent, supply and commitment reduced, attempt won. */
  function SettleBooks(c: Ctx, x: Extras): Result<Ctx> {
    var value := c.registry.value;
    var _ :- Need(value <= c.config.supply, VaultUnderflow);
    var allowance :- Release(c.allowance, x.allowance, value);
    Ok(c.(registry := c.registry.(status := Spent),
          config := c.config.(supply := c.config.supply - value),
          allowance := allowance,
          mine := c.mine.(status := Won)))
  }

  function SettlePayOut(env: Env, c: Ctx, x: Extras): Result<Ctx> {
    var bond :- BondAmount(c.registry.value, c.config.bps);
    var abandoned :- Abandon(c, x, bond);
    var paid :- SettleTransfers(env, abandoned, bond);
    SettleBooks(abandoned.(ledger := paid), x)
  }

  function Settle(env: Env, c: Ctx, serial: Bytes32, otherAttempt: byte, recipient: Bytes32, x: Extras,
                  slot: u64): (r: Result<Ctx>)
    ensures r.Ok? ==> (r.value.other.Some? <==> c.other.Some?)
  {
    var _ :- Need(c.config.sigScheme <= 1, SigSchemeUnsupported);
    var _ :- Need(c.registry.status.Active?, StatusInvalid);
    var _ :- Need(c.mine.status.Pending?, StatusInvalid);
    var _ :- Need(serial == c.mine.serial, SubmissionMismatch);
    var _ :- Need(recipient == c.registry.recipient, SubmissionMismatch);
    var _ :- Need(c.mine.attempt <= 1, ArithmeticOverflow);
    var _ :- Need(otherAttempt == 1 - c.mine.attempt, AttemptRange);
    var _ :- Need(c.head.isSet, StatusInvalid);
    var _ :- Need(c.mine.attempt == c.head.attempt, StatusInvalid);
    var _ :- Need(slot >= SaturatingAdd(c.head.since, c.config.window), WindowExpired);
    SettlePayOut(env, c, x)
  }
}
