/** The program's accounts as the mutable objects its handlers work on. */
module AccountObjects {
  import opened Bytes
  import opened Results
  import opened StateOps
  import opened Accounts
  import L = Ledgers
  import I = Instructions

  class ConfigAccount {
    var authority: Bytes32
    var bps: u32
    var window: u64
    var maxLinks: u16
    var defaultAllowance: u64
    var supply: u64
    var sigScheme: byte

    constructor (c: Config)
      ensures Value() == c
    {
      authority, bps, window, maxLinks := c.authority, c.bps, c.window, c.maxLinks;
      defaultAllowance, supply, sigScheme := c.defaultAllowance, c.supply, c.sigScheme;
    }

    function Value(): Config
      reads this
    {
      Config(authority, bps, window, maxLinks, defaultAllowance, supply, sigScheme)
    }
  }

  class RegistryAccount {
    var serial: Bytes32
    var value: u64
    var genesis: Bytes32
    var recipient: Bytes32
    var status: RegistryStatus
    var count: byte

    constructor (r: Registry)
      ensures Value() == r
    {
      serial, value, genesis := r.serial, r.value, r.genesis;
      recipient, status, count := r.recipient, r.status, r.count;
    }

    function Value(): Registry
      reads this
    {
      Registry(serial, value, genesis, recipient, status, count)
    }
  }

  class HeadAccount {
    var isSet: bool
    var state: State
    var attempt: byte
    var len: u16
    var since: u64

    constructor (h: Head)
      ensures Value() == h
    {
      isSet, state, attempt, len, since := h.isSet, h.state, h.attempt, h.len, h.since;
    }

    function Value(): Head
      reads this
    {
      Head(isSet, state, attempt, len, since)
    }
  }

  class AllowanceAccount {
    var cap: u64
    var committed: u64
    var initialized: bool

    constructor (a: Allowance)
      ensures Value() == a
    {
      cap, committed, initialized := a.cap, a.committed, a.initialized;
    }

    function Value(): Allowance
      reads this
    {
      Allowance(cap, committed, initialized)
    }
  }

  /** One check-in attempt with its fixed-size buffers; the first `statesLen` entries are in use. */
  class SubmissionAccount {
    var serial: Bytes32
    var attempt: byte
    var checker: Bytes32
    var finalOwner: Bytes32
    var links: u16
    var started: u64
    var finalized: u64
    var status: SubmissionStatus
    var statesLen: u16
    const states: array<State>
    const commits: array<Bytes32>

    /** A zeroed account of the given capacity. */
    constructor (capacity: StateCap)
      ensures Valid() && fresh(states) && fresh(commits) && states.Length == capacity && statesLen == 0
      ensures forall i :: 0 <= i < capacity ==> commits[i] == Zeros(32)
    {
      serial, attempt, checker, finalOwner := Zeros(32), 0, Zeros(32), Zeros(32);
      links, started, finalized, status, statesLen := 0, 0, 0, Receiving, 0;
      states := new State[capacity](_ => Zeros(STATE_SIZE));
      commits := new Bytes32[capacity](_ => Zeros(32));
    }

    /** An account holding `s`. */
    constructor Load(capacity: StateCap, s: Submission)
      requires |s.states| == |s.commits| <= capacity
      ensures Valid() && fresh(states) && fresh(commits) && states.Length == capacity && Value() == s
    {
      serial, attempt, checker, finalOwner := s.serial, s.attempt, s.checker, s.finalOwner;
      links, started, finalized, status, statesLen := s.links, s.started, s.finalized, s.status, |s.states|;
      states := new State[capacity](_ => Zeros(STATE_SIZE));
      commits := new Bytes32[capacity](_ => Zeros(32));
      new;
      forall i | 0 <= i < |s.states| { states[i] := s.states[i]; }
      forall i | 0 <= i < |s.commits| { commits[i] := s.commits[i]; }
      assert states[..statesLen] == s.states && commits[..statesLen] == s.commits;
    }

    ghost predicate Valid()
      reads this
    {
      statesLen <= states.Length == commits.Length && states as object != commits as object
    }

    function Value(): Submission
      requires Valid()
      reads this, states, commits
    {
      Submission(serial, attempt, checker, finalOwner, links, started, finalized, status,
                 states[..statesLen], commits[..statesLen])
    }
  }

  /** The token program: one account per owner. */
  class TokenProgram {
    var ledger: L.Ledger

    constructor (l: L.Ledger)
      ensures ledger == l
    {
      ledger := l;
    }

    /** Moves tokens on the signature of `signer`, who must own the account they leave. */
    method Transfer(signer: L.Owner, from: L.Owner, to: L.Owner, amount: u64) returns (r: Result<()>)
      modifies this
      ensures Meets(L.TransferAs(old(ledger), signer, from, to, amount), r)
      ensures r.Ok? ==> ledger == L.TransferAs(old(ledger), signer, from, to, amount).value
    {
      if L.Bal(ledger, from) < amount {
        return Err(InsufficientFunds);
      }
      if signer != from {
        return Err(OwnerMismatch);
      }
      ledger := ledger[from := L.Bal(ledger, from) - amount];
      if L.Bal(ledger, to) + amount > U64_MAX {
        return Err(ArithmeticOverflow);
      }
      ledger := ledger[to := L.Bal(ledger, to) + amount];
      return Ok(());
    }
  }

  function AllowanceValue(a: Option<AllowanceAccount>): Option<Allowance>
    reads if a.Some? then {a.value} else {}
  {
    if a.Some? then Some(a.value.Value()) else None
  }

  /** The accounts handed to finalize_check_in and settle; the last two may be left out by the caller. */
  datatype CheckIn = CheckIn(
    config: ConfigAccount, registry: RegistryAccount, head: HeadAccount, mine: SubmissionAccount,
    tokens: TokenProgram, other: Option<SubmissionAccount>, allowance: Option<AllowanceAccount>)
  {
    function Optional(): set<object> {
      (if other.Some? then {other.value} else {}) + (if allowance.Some? then {allowance.value} else {})
    }

    ghost predicate Valid()
      reads mine, Optional()
    {
      mine.Valid() && (other.Some? ==> other.value.Valid() && other.value != mine)
    }

    function Buffers(): set<object> {
      {mine.states} + {mine.commits} + (if other.Some? then {other.value.states} + {other.value.commits} else {})
    }

    function Value(): I.Ctx
      requires Valid()
      reads config, registry, head, mine, tokens, Optional(), Buffers()
    {
      I.Ctx(config.Value(), registry.Value(), head.Value(), mine.Value(),
            if other.Some? then Some(other.value.Value()) else None, AllowanceValue(allowance), tokens.ledger)
    }
  }
}
