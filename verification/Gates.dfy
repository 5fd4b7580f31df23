/** What every instruction accepts, refuses and writes, said in fields, numbers and bytes alone. */
module Gates {
  import opened Bytes
  import opened Results
  import opened StateOps
  import opened Ledgers
  import opened Accounts
  import opened Machine
  import opened Invariant
  import opened Reachable
  import opened Payouts
  import opened Progress
  import I = Instructions

  // ---- numbers and bytes the gates are made of

  /** A slot passes the window gate when the window is over, or when there is no later slot. */
  lemma WindowGate(slot: u64, since: u64, window: u64)
    ensures slot >= I.SaturatingAdd(since, window) <==> slot == U64_MAX || slot >= since + window
  {}

  /** Under scheme 1 the second half of the signature field must be zero; under scheme 0 anything goes. */
  lemma FormatGate(scheme: byte, sig: Sig)
    ensures I.SigFormatOk(scheme, sig) <==> (scheme == 1 ==> forall j :: 32 <= j < 64 ==> sig[j] == 0)
  {
    if forall j :: 32 <= j < 64 ==> sig[j] == 0 {
      assert forall j :: 0 <= j < 32 ==> sig[32..][j] == sig[32 + j];
    } else {
      var j :| 32 <= j < 64 && sig[j] != 0;
      assert sig[32..][j - 32] == sig[j] && Zeros(32)[j - 32] == 0;
    }
  }

  // ---- funding

  /** fund_vault: the authority itself, with the tokens; they move to the vault and nothing else changes. */
  lemma FundIff(env: Env, w: World, authority: Bytes32, amount: u64)
    requires Inv(env, w)
    ensures var r := Step(env, w, Fund(authority, amount));
            && (r.Ok? <==> env.who(authority).Wallet? && authority == w.config.authority
                           && amount <= Bal(w.ledger, env.who(authority)))
            && (r.Err? ==> r.error == if !env.who(authority).Wallet? then NotASigner
                                      else if authority != w.config.authority then StatusInvalid else InsufficientFunds)
            && (r.Ok? ==> r.value == w.(ledger := r.value.ledger))
            && (r.Ok? ==>
                  forall o :: Bal(r.value.ledger, o) == Bal(w.ledger, o)
                    + (if o == Vault then amount else 0) - (if o == env.who(authority) then amount else 0))
  {
    hide CoinsInv, Escrowed, Backed, Allowed, Ledgers.Transfer, Bal;
    if amount <= Bal(w.ledger, env.who(authority)) {
      TransferWithinSupply(w.ledger, env.who(authority), Vault, amount);
    }
  }

  // ---- allowances

  /** set_allowance: the wallet itself, an allowance, and a cap that covers the commitment; it writes the cap only. */
  lemma SetCapIff(env: Env, w: World, wallet: Bytes32, cap: u64)
    ensures var r := Step(env, w, SetCap(wallet, cap));
            && (r.Ok? <==> env.who(wallet).Wallet? && wallet in w.allowances && w.allowances[wallet].committed <= cap)
            && (r.Ok? ==>
                  r.value == w.(allowances := w.allowances[wallet := AllowanceOf(w, wallet).(cap := cap)]))
            && (r.Err? ==> r.error == if !env.who(wallet).Wallet? then NotASigner
                                      else if wallet !in w.allowances then AccountMissing
                                      else AllowanceCapBelowCommitted)
  {}

  /** The cap and the commitment that a mint to `k` finds: a wallet without an allowance starts at the default. */
  function MintCap(w: World, k: Bytes32): u64 {
    if k in w.allowances then w.allowances[k].cap else w.config.defaultAllowance
  }

  function MintCommitted(w: World, k: Bytes32): u64 { if k in w.allowances then w.allowances[k].committed else 0 }

  /** mint_coin: what it asks for, in its order. */
  function MintFault(env: Env, w: World, authority: Bytes32, s: Bytes32, value: u64, recipient: Bytes32,
                     genesis: Bytes32)
    : Option<Error>
  {
    if !env.who(authority).Wallet? then Some(NotASigner)
    else if authority != w.config.authority then Some(StatusInvalid)
    else if s in w.coins then Some(AccountInUse)
    else if value == 0 then Some(ZeroValue)
    else if env.hash(Fields(s, value, recipient, Zeros(32))) != genesis then Some(GenesisMismatch)
    else if w.config.supply + value > U64_MAX then Some(ArithmeticOverflow)
    else if Bal(w.ledger, Vault) < w.config.supply + value then Some(VaultUnderflow)
    else if MintCommitted(w, recipient) + value > U64_MAX then Some(ArithmeticOverflow)
    else if MintCommitted(w, recipient) + value > MintCap(w, recipient) then Some(AllowanceExceeded)
    else None
  }

  /** mint_coin succeeds exactly when it finds no fault; it writes a fresh coin, adds the value to the supply and to the
      commitment, and leaves every cap as it was or at the default. */
  lemma MintIff(env: Env, w: World, authority: Bytes32, s: Bytes32, value: u64, recipient: Bytes32, genesis: Bytes32)
    requires Allowed(w)
    ensures var r := Step(env, w, Mint(authority, s, value, recipient, genesis));
            var fault := MintFault(env, w, authority, s, value, recipient, genesis);
            && (r.Ok? <==> fault.None?) && (r.Err? ==> fault == Some(r.error))
            && (r.Ok? ==>
                  var coin := Coin(Registry(s, value, genesis, recipient, Active, 0), NO_HEAD, map[]);
                  var allowance := Allowance(MintCap(w, recipient), MintCommitted(w, recipient) + value, true);
                  r.value == w.(config := w.config.(supply := w.config.supply + value), coins := w.coins[s := coin],
                                allowances := w.allowances[recipient := allowance]))
  {}

  // ---- caps over runs

  /** What a step makes of the cap of `k`: its own set_allowance writes it, its first mint opens it at the default. */
  function CapAfter(env: Env, w: World, e: Event, k: Bytes32, cap: Option<u64>): Option<u64> {
    if Step(env, w, e).Err? then cap
    else if e.SetCap? && e.wallet == k then Some(e.cap)
    else if e.Mint? && e.recipient == k && cap.None? then Some(w.config.defaultAllowance)
    else cap
  }

  ghost function LastCap(env: Env, w: World, events: seq<Event>, k: Bytes32, cap: Option<u64>): Option<u64>
    decreases |events|
  {
    if events == [] then cap
    else LastCap(env, Exec(env, w, events[0]), events[1..], k, CapAfter(env, w, events[0], k, cap))
  }

  function CapOf(w: World, k: Bytes32): Option<u64> { if k in w.allowances then Some(w.allowances[k].cap) else None }

  lemma StepCap(env: Env, w: World, e: Event, k: Bytes32)
    requires Inv(env, w)
    ensures CapOf(Exec(env, w, e), k) == CapAfter(env, w, e, k, CapOf(w, k))
    ensures Exec(env, w, e).config == w.config.(supply := Exec(env, w, e).config.supply)
  {
    hide CoinsInv, Escrowed, Backed, AllowedFor, DoMint, DoSetCap, DoStart, DoAppend, DoFinalize, DoSettle, DoOutside;
    if Step(env, w, e).Ok? {
      match e
      case Mint(authority, s, value, recipient, genesis) => MintIff(env, w, authority, s, value, recipient, genesis);
      case SetCap(wallet, cap) => SetCapIff(env, w, wallet, cap);
      case Start(s, a, state0, checker, held) => StartBooks(env, w, s, a, state0, checker, held);
      case Append(s, a, owner, newLinks, lastHash) => AppendBooks(env, w, s, a, owner, newLinks, lastHash);
      case Finalize(s, a, other, recipient, x) => FinalizeBooks(env, w, s, a, other, recipient, x, k);
      case Settle(s, a, other, recipient, x) => SettleBooks(env, w, s, a, other, recipient, x, k);
      case _ => OutsideBooks(env, w, e);
    }
  }

  lemma StartBooks(env: Env, w: World, s: Bytes32, a: byte, state0: State, checker: Bytes32, held: u64)
    requires DoStart(env, w, s, a, state0, checker, held).Ok?
    ensures var after := DoStart(env, w, s, a, state0, checker, held).value;
            after.config == w.config && after.allowances == w.allowances
  {
    hide I.StartCheckIn;
  }

  lemma AppendBooks(env: Env, w: World, s: Bytes32, a: byte, owner: Bytes32, links: seq<Link>, lastHash: Bytes32)
    requires DoAppend(env, w, s, a, owner, links, lastHash).Ok?
    ensures var after := DoAppend(env, w, s, a, owner, links, lastHash).value;
            after.config == w.config && after.allowances == w.allowances
  {
    hide I.AppendLinks;
  }

  lemma OutsideBooks(env: Env, w: World, e: Event)
    requires (e.Fund? || e.Withdraw? || e.Pay? || e.Issue? || e.Tick?) && DoOutside(env, w, e).Ok?
    ensures DoOutside(env, w, e).value.config == w.config && DoOutside(env, w, e).value.allowances == w.allowances
  {
    hide I.FundVault, I.WithdrawVault, Ledgers.Transfer;
  }

  lemma FinalizeBooks(env: Env, w: World, s: Bytes32, a: byte, other: byte, recipient: Bytes32, x: I.Extras, k: Bytes32)
    requires Inv(env, w) && DoFinalize(env, w, s, a, other, recipient, x).Ok?
    ensures var after := DoFinalize(env, w, s, a, other, recipient, x).value;
            after.config == w.config.(supply := after.config.supply) && CapOf(after, k) == CapOf(w, k)
  {
    hide Inv, SubInv, I.VerifyFullChain, I.ContenderWins, I.RejectSpent, I.ResolveWin, I.ResolveLose, WinMoves,
         LoseMoves, RejectMoves, Moves;
    SubAt(env, w, s, a);
    var b := Load(w, s, a);
    if w.coins[s].registry.status.Spent? {
      RejectEffect(env, b, w.slot);
    } else if w.coins[s].head.isSet {
      if I.ContenderWins(b.mine.states, b.head) {
        WinEffect(env, b, x, w.slot);
      } else {
        LoseEffect(env, b, x, w.slot);
      }
    }
  }

  lemma SettleBooks(env: Env, w: World, s: Bytes32, a: byte, other: byte, recipient: Bytes32, x: I.Extras, k: Bytes32)
    requires DoSettle(env, w, s, a, other, recipient, x).Ok?
    ensures var after := DoSettle(env, w, s, a, other, recipient, x).value;
            after.config == w.config.(supply := after.config.supply) && CapOf(after, k) == CapOf(w, k)
  {
    hide I.SettlePayOut, SettleMoves, Moves;
    SettleEffect(env, Load(w, s, a), x);
  }

  lemma {:induction false} RunCap(env: Env, w: World, events: seq<Event>, k: Bytes32)
    requires Inv(env, w)
    ensures CapOf(Run(env, w, events), k) == LastCap(env, w, events, k, CapOf(w, k))
    ensures Run(env, w, events).config == w.config.(supply := Run(env, w, events).config.supply)
    decreases |events|
  {
    hide Inv, Exec, CapAfter, CapOf;
    if events != [] {
      StepKeeps(env, w, events[0]);
      StepCap(env, w, events[0], k);
      RunCap(env, Exec(env, w, events[0]), events[1..], k);
    }
  }

  /** After any run a wallet's cap is the one of its last successful set_allowance, else the default of init from its
      first mint on, and it has none before that. */
  lemma CapsOfRuns(env: Env, start: World, events: seq<Event>, k: Bytes32)
    requires Initial(start)
    ensures CapOf(Run(env, start, events), k) == LastCap(env, start, events, k, None)
    ensures Run(env, start, events).config == start.config.(supply := Run(env, start, events).config.supply)
  {
    hide Run, LastCap;
    InitialInv(env, start);
    RunCap(env, start, events, k);
  }
}
