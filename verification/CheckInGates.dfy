/** The instructions of a check-in, said the same way: for every call the first thing that is wrong with it, or what it
    writes. */
module CheckInGates {
  import opened Bytes
  import opened Results
  import opened StateOps
  import opened Ledgers
  import opened Accounts
  import opened Machine
  import opened Invariant
  import opened Reachable
  import opened Payouts
  import opened Progress
  import opened Gates
  import I = Instructions

  // ---- start_check_in

  /** The first thing wrong with a start, if any; the last one is that the checker has not got the bond. */
  function StartFault(env: Env, w: World, s: Bytes32, a: byte, state0: State, checker: Bytes32, held: u64)
    : Option<Error>
  {
    if !env.who(checker).Wallet? then Some(NotASigner)
    else if s !in w.coins then Some(AccountMissing)
    else
      var coin := w.coins[s];
      if coin.registry.status.Spent? then Some(StatusInvalid)
      else if a in coin.subs then Some(AccountInUse)
      else if held > 0 then Some(BondEscrowFailed)
      else if a > 1 then Some(AttemptRange)
      else if state0[..32] != s then Some(SerialMismatch)
      else if ParseValue(state0) != coin.registry.value then Some(ValueMismatch)
      else if env.hash(state0) != coin.registry.genesis then Some(GenesisMismatch)
      else if coin.registry.value * w.config.bps > U64_MAX then Some(BondOverflow)
      else if coin.registry.value * w.config.bps >= 10_000 * Bal(w.ledger, env.who(checker)) + 10_000
      then Some(InsufficientFunds)
      else None
  }

  /** What a start adds to the balance of the escrow address. */
  function Charged(w: World, after: World, s: Bytes32, a: byte): int {
    Bal(after.ledger, Escrow(s, a)) - Bal(w.ledger, Escrow(s, a))
  }

  /** The world after a start: one more attempt at its first state, and a bond of value * bps / 10000, rounded down,
      moved from the checker to the escrow address. */
  ghost predicate Started(env: Env, w: World, s: Bytes32, a: byte, state0: State, checker: Bytes32, after: World)
    requires s in w.coins
  {
    var coin, bond := w.coins[s], Charged(w, after, s, a);
    var sub := Submission(s, a, checker, state0[40..72], 0, w.slot, 0, Receiving, [state0], [Zeros(32)]);
    && coin.registry.count < 0xFF
    && 10_000 * bond <= coin.registry.value * w.config.bps < 10_000 * bond + 10_000
    && (forall o :: Bal(after.ledger, o) == Bal(w.ledger, o) + (if o == Escrow(s, a) then bond else 0)
                                            - (if o == env.who(checker) then bond else 0))
    && after == w.(ledger := after.ledger,
                   coins := w.coins[s := coin.(registry := coin.registry.(count := coin.registry.count + 1),
                                               subs := coin.subs[a := sub])])
  }

  lemma StartIff(env: Env, w: World, s: Bytes32, a: byte, state0: State, checker: Bytes32, held: u64)
    requires Inv(env, w)
    ensures var r := Step(env, w, Start(s, a, state0, checker, held));
            var fault := StartFault(env, w, s, a, state0, checker, held);
            && (r.Ok? <==> fault.None?) && (r.Err? ==> fault == Some(r.error))
            && (r.Ok? ==> Started(env, w, s, a, state0, checker, r.value))
  {
    hide Inv, ParseValue, I.BondAmount, I.BondOf, CoinInv, Ledgers.Transfer, Started;
    if s in w.coins && env.who(checker).Wallet? {
      BondGate(env, w, s);
      if a !in w.coins[s].subs && a <= 1 { RoomLeft(env, w, s, a); }
      if I.BondAmount(w.coins[s].registry.value, w.config.bps).Ok? {
        BondCovered(env, w, w.coins[s].registry.value, checker, Escrow(s, a));
      }
      if DoStart(env, w, s, a, state0, checker, held).Ok? { StartedIs(env, w, s, a, state0, checker, held); }
    }
  }

  lemma StartedIs(env: Env, w: World, s: Bytes32, a: byte, state0: State, checker: Bytes32, held: u64)
    requires Inv(env, w) && DoStart(env, w, s, a, state0, checker, held).Ok?
    ensures s in w.coins && Started(env, w, s, a, state0, checker, DoStart(env, w, s, a, state0, checker, held).value)
  {
    hide Inv, ParseValue, I.BondAmount, I.BondOf, Ledgers.Transfer;
    BondCovered(env, w, w.coins[s].registry.value, checker, Escrow(s, a));
    var bond := I.BondAmount(w.coins[s].registry.value, w.config.bps).value;
    TransferMoves(w.ledger, env.who(checker), Escrow(s, a), bond);
  }

  lemma TransferMoves(l: Ledger, from: Owner, to: Owner, amount: u64)
    requires Ledgers.Transfer(l, from, to, amount).Ok? && from != to
    ensures forall o :: Bal(Ledgers.Transfer(l, from, to, amount).value, o)
                     == Bal(l, o) + (if o == to then amount else 0) - (if o == from then amount else 0)
  {}

  lemma BondGate(env: Env, w: World, s: Bytes32)
    requires Inv(env, w) && s in w.coins
    ensures w.coins[s].registry.serial == s && w.config.sigScheme <= 1
    ensures var r := I.BondAmount(w.coins[s].registry.value, w.config.bps);
            && (r.Ok? <==> w.coins[s].registry.value * w.config.bps <= U64_MAX)
            && (r.Err? ==> r.error == BondOverflow)
  {
    hide Inv, CoinInv;
    CoinAt(env, w, s);
  }

  lemma RoomLeft(env: Env, w: World, s: Bytes32, a: byte)
    requires Inv(env, w) && s in w.coins && a !in w.coins[s].subs && a <= 1
    ensures w.coins[s].registry.count < 2
  {
    hide Inv, SubInv, Shaped, Genesis;
    CoinAt(env, w, s);
    RoomFor(w.coins[s], a);
  }

  /** The bond can be moved exactly when value * bps is below ten thousand times one more than the balance. */
  lemma BondCovered(env: Env, w: World, value: u64, checker: Bytes32, to: Owner)
    requires Inv(env, w) && I.BondAmount(value, w.config.bps).Ok?
    ensures var bond, from := I.BondAmount(value, w.config.bps).value, env.who(checker);
            var r := Ledgers.Transfer(w.ledger, from, to, bond);
            && (r.Ok? <==> value * w.config.bps < 10_000 * Bal(w.ledger, from) + 10_000)
            && (r.Err? ==> r.error == InsufficientFunds)
            && 10_000 * bond <= value * w.config.bps < 10_000 * bond + 10_000
  {
    var bond, from := I.BondAmount(value, w.config.bps).value, env.who(checker);
    hide CoinsInv, Escrowed, Backed, Allowed, I.BondAmount, Ledgers.Transfer;
    if bond <= Bal(w.ledger, from) { TransferWithinSupply(w.ledger, from, to, bond); }
  }

  // ---- append_links

  /** What is wrong with a link after `prev`, if anything. */
  function LinkFault(hash: Bytes -> Bytes32, scheme: byte, reg: Registry, prev: State, link: Link): Option<Error> {
    if link.state[..32] != reg.serial then Some(SerialMismatch)
    else if ParseValue(link.state) != reg.value then Some(ValueMismatch)
    else if link.state[72..] != hash(prev) then Some(ChainBroken)
    else if scheme == 1 && exists j :: 32 <= j < 64 && link.sig[j] != 0 then Some(SigCommitFormat)
    else None
  }

  function FaultAt(hash: Bytes -> Bytes32, scheme: byte, reg: Registry, prev: State, links: seq<Link>, i: nat)
    : Option<Error>
    requires i < |links|
  {
    LinkFault(hash, scheme, reg, if i == 0 then prev else links[i - 1].state, links[i])
  }

  ghost predicate Faultless(hash: Bytes -> Bytes32, scheme: byte, reg: Registry, prev: State, links: seq<Link>) {
    forall i :: 0 <= i < |links| ==> FaultAt(hash, scheme, reg, prev, links, i) == None
  }

  ghost predicate FirstFaultIs(hash: Bytes -> Bytes32, scheme: byte, reg: Registry, prev: State, links: seq<Link>,
                               e: Error)
  {
    exists i :: 0 <= i < |links| && FaultAt(hash, scheme, reg, prev, links, i) == Some(e)
                && forall j :: 0 <= j < i ==> FaultAt(hash, scheme, reg, prev, links, j) == None
  }

  /** The walk stops at the first faulty link, with that link's fault. */
  lemma {:induction false} FirstFault(hash: Bytes -> Bytes32, scheme: byte, reg: Registry, prev: State,
                                      links: seq<Link>)
    ensures var r := I.CheckLinks(hash, scheme, reg, prev, links);
            if r.Ok? then Faultless(hash, scheme, reg, prev, links)
            else FirstFaultIs(hash, scheme, reg, prev, links, r.error) && !Faultless(hash, scheme, reg, prev, links)
    decreases |links|
  {
    if links != [] {
      FormatGate(scheme, links[0].sig);
      hide I.SigFormatOk, ParseValue;
      var state, rest := links[0].state, links[1..];
      FirstFault(hash, scheme, reg, state, rest);
      forall i | 0 <= i < |rest|
        ensures FaultAt(hash, scheme, reg, prev, links, i + 1) == FaultAt(hash, scheme, reg, state, rest, i)
      {
        assert links[i + 1] == rest[i];
      }
      hide LinkFault;
      var r := I.CheckLinks(hash, scheme, reg, prev, links);
      if FaultAt(hash, scheme, reg, prev, links, 0) == None {
        if r.Ok? {
          forall i | 0 <= i < |links| ensures FaultAt(hash, scheme, reg, prev, links, i) == None {
            if i > 0 { assert FaultAt(hash, scheme, reg, state, rest, i - 1) == None; }
          }
        } else {
          var k :| 0 <= k < |rest| && FaultAt(hash, scheme, reg, state, rest, k) == Some(r.error)
                   && forall j :: 0 <= j < k ==> FaultAt(hash, scheme, reg, state, rest, j) == None;
          assert FaultAt(hash, scheme, reg, prev, links, k + 1) == Some(r.error);
          forall j | 0 <= j < k + 1 ensures FaultAt(hash, scheme, reg, prev, links, j) == None {
            if j > 0 { assert FaultAt(hash, scheme, reg, state, rest, j - 1) == None; }
          }
        }
      }
    }
  }

  /** The first thing wrong with an append call, apart from the links themselves: before the walk over them, and after.
      */
  function AppendFault(w: World, s: Bytes32, a: byte, maxStates: nat, headOwner: Bytes32, links: seq<Link>)
    : Option<Error>
  {
    if !HasAttempt(w, s, a) then Some(AccountMissing)
    else
      var states := w.coins[s].subs[a].states;
      if !w.coins[s].subs[a].status.Receiving? then Some(StatusInvalid)
      else if links == [] then Some(EmptyLinks)
      else if |links| > w.config.maxLinks then Some(MaxLinksExceeded)
      else if |states| + |links| > maxStates then Some(StatesFull)
      else if states == [] then Some(StatusInvalid)
      else if states[|states| - 1][40..72] != headOwner then Some(OwnerAnchorMismatch)
      else None
  }

  /** The attempt after an append: the states, and the hash of each signature, behind those stored. */
  ghost predicate Grown(env: Env, sub: Submission, links: seq<Link>, next: Submission)
    requires links != []
  {
    && next == sub.(states := next.states, commits := next.commits, links := next.links, finalOwner := next.finalOwner)
    && next.links == sub.links + |links| && next.finalOwner == links[|links| - 1].state[40..72]
    && |next.states| == |sub.states| + |links| && |next.commits| == |sub.commits| + |links|
    && sub.states <= next.states && sub.commits <= next.commits
    && forall i :: 0 <= i < |links| ==>
         next.states[|sub.states| + i] == links[i].state && next.commits[|sub.commits| + i] == env.hash(links[i].sig)
  }

  /** The world after an append: only the attempt has grown. */
  ghost predicate Appended(env: Env, w: World, s: Bytes32, a: byte, links: seq<Link>, after: World)
    requires HasAttempt(w, s, a) && links != []
  {
    var coin := w.coins[s];
    && HasAttempt(after, s, a) && Grown(env, coin.subs[a], links, after.coins[s].subs[a])
    && after == w.(coins := w.coins[s := coin.(subs := coin.subs[a := after.coins[s].subs[a]])])
  }

  /** The last state stored for an attempt. */
  function LastStored(w: World, s: Bytes32, a: byte): State
    requires HasAttempt(w, s, a) && w.coins[s].subs[a].states != []
  {
    w.coins[s].subs[a].states[|w.coins[s].subs[a].states| - 1]
  }

  /** The same at the level of the accounts of the call. */
  lemma AppendLinksIff(env: Env, cfg: Config, reg: Registry, sub: Submission, headOwner: Bytes32, links: seq<Link>,
                       lastHash: Bytes32)
    requires cfg.sigScheme <= 1 && sub.status.Receiving? && sub.states != [] && sub.links == |sub.states| - 1
    requires 1 <= |links| <= cfg.maxLinks && |sub.states| + |links| <= env.maxStates
    requires sub.states[|sub.states| - 1][40..72] == headOwner
    ensures var r := I.AppendLinks(env, cfg, reg, sub, sub.serial, headOwner, links, lastHash);
            var prev := sub.states[|sub.states| - 1];
            if !Faultless(env.hash, cfg.sigScheme, reg, prev, links) then
              r.Err? && FirstFaultIs(env.hash, cfg.sigScheme, reg, prev, links, r.error)
            else if env.hash(links[|links| - 1].state) != lastHash then r == Err(LastHashMismatch)
            else r.Ok? && Grown(env, sub, links, r.value)
  {
    hide I.CheckLinks, Faultless, FirstFaultIs;
    FirstFault(env.hash, cfg.sigScheme, reg, sub.states[|sub.states| - 1], links);
  }

  /** append_links succeeds exactly when nothing is wrong with the call, with any of its links, or with the announced
      hash; otherwise it fails with the first such thing. */
  lemma AppendIff(env: Env, w: World, s: Bytes32, a: byte, headOwner: Bytes32, links: seq<Link>, lastHash: Bytes32)
    requires Inv(env, w)
    ensures var r := Step(env, w, Append(s, a, headOwner, links, lastHash));
            var fault := AppendFault(w, s, a, env.maxStates, headOwner, links);
            if fault.Some? then r == Err(fault.value)
            else
              var scheme, reg, prev := w.config.sigScheme, w.coins[s].registry, LastStored(w, s, a);
              if !Faultless(env.hash, scheme, reg, prev, links) then
                r.Err? && FirstFaultIs(env.hash, scheme, reg, prev, links, r.error)
              else if env.hash(links[|links| - 1].state) != lastHash then r == Err(LastHashMismatch)
              else r.Ok? && Appended(env, w, s, a, links, r.value)
  {
    hide Inv, Faultless, FirstFaultIs, Grown;
    if HasAttempt(w, s, a) {
      SubKept(env, w, s, a);
      if AppendFault(w, s, a, env.maxStates, headOwner, links).None? {
        hide I.AppendLinks;
        AppendLinksIff(env, w.config, w.coins[s].registry, w.coins[s].subs[a], headOwner, links, lastHash);
      }
    }
  }

  lemma SubKept(env: Env, w: World, s: Bytes32, a: byte)
    requires Inv(env, w) && HasAttempt(w, s, a)
    ensures var sub := w.coins[s].subs[a];
            sub.serial == s && sub.attempt == a && sub.states != [] && sub.links == |sub.states| - 1
    ensures w.config.sigScheme <= 1
  {
    hide Inv, CoinInv, WellChained, I.BondAmount;
    SubAt(env, w, s, a);
    CoinAt(env, w, s);
  }

  /** The links with all signatures zero. */
  function Plain(links: seq<Link>): (plain: seq<Link>)
    ensures |plain| == |links|
  {
    seq(|links|, i requires 0 <= i < |links| => links[i].(sig := Zeros(64)))
  }

  /** The last 32 bytes of every signature field are zero. */
  ghost predicate ZeroTails(links: seq<Link>) {
    forall i, j :: 0 <= i < |links| && 32 <= j < 64 ==> links[i].sig[j] == 0
  }

  /** For links that are otherwise in order: under scheme 1 they are accepted exactly when the last 32 bytes of every
      signature field are zero, and refused for their format otherwise; under scheme 0 they are always accepted. */
  lemma FormatDecides(env: Env, w: World, s: Bytes32, a: byte, headOwner: Bytes32, links: seq<Link>, lastHash: Bytes32)
    requires Inv(env, w) && Step(env, w, Append(s, a, headOwner, Plain(links), lastHash)).Ok?
    ensures var r := Step(env, w, Append(s, a, headOwner, links, lastHash));
            && (r.Ok? <==> (w.config.sigScheme == 1 ==> ZeroTails(links)))
            && (w.config.sigScheme == 1 && !ZeroTails(links) ==> r == Err(SigCommitFormat))
  {
    hide Inv, Step, Appended, Faultless, FirstFaultIs, ZeroTails;
    var scheme, plain := w.config.sigScheme, Plain(links);
    AppendIff(env, w, s, a, headOwner, plain, lastHash);
    AppendIff(env, w, s, a, headOwner, links, lastHash);
    assert links != [] ==> plain[|links| - 1].state == links[|links| - 1].state;
    PlainFaults(env.hash, scheme, w.coins[s].registry, LastStored(w, s, a), links);
  }

  /** Links whose plain version is faultless have no fault but their format. */
  lemma PlainFaults(hash: Bytes -> Bytes32, scheme: byte, reg: Registry, prev: State, links: seq<Link>)
    requires Faultless(hash, scheme, reg, prev, Plain(links))
    ensures Faultless(hash, scheme, reg, prev, links) <==> (scheme == 1 ==> ZeroTails(links))
    ensures forall e :: FirstFaultIs(hash, scheme, reg, prev, links, e) ==> e == SigCommitFormat
  {
    forall i | 0 <= i < |links|
      ensures FaultAt(hash, scheme, reg, prev, links, i)
           == if scheme == 1 && exists j :: 32 <= j < 64 && links[i].sig[j] != 0 then Some(SigCommitFormat) else None
    {
      PlainFault(hash, scheme, reg, prev, links, i);
    }
    hide FaultAt;
  }

  lemma PlainFault(hash: Bytes -> Bytes32, scheme: byte, reg: Registry, prev: State, links: seq<Link>, i: nat)
    requires i < |links| && FaultAt(hash, scheme, reg, prev, Plain(links), i) == None
    ensures FaultAt(hash, scheme, reg, prev, links, i)
         == if scheme == 1 && exists j :: 32 <= j < 64 && links[i].sig[j] != 0 then Some(SigCommitFormat) else None
  {
    hide ParseValue;
  }

  // ---- verify_sig_commit

  /** A signature opens the commitment of a stored link: the right attempt, a link's index, the right hash. */
  lemma SigCommitIff(env: Env, cfg: Config, sub: Submission, serial: Bytes32, attempt: byte, index: u16, sig: Sig)
    requires cfg.sigScheme <= 1
    ensures var r := I.VerifySigCommit(env, cfg, sub, serial, attempt, index, sig);
            && (r.Ok? <==> sub.serial == serial && sub.attempt == attempt && 1 <= index < |sub.states|
                           && index < |sub.commits| && sub.commits[index] == env.hash(sig))
            && (r.Err? ==> r.error == if sub.serial != serial || sub.attempt != attempt then SubmissionMismatch
                                      else if 1 <= index < |sub.states| && index < |sub.commits| then SigCommitMismatch
                                      else StatusInvalid)
  {}

  // ---- finalize_check_in

  /** The first thing wrong with a finalize, if any. Accounts are looked at only when a head stands. */
  function FinalizeFault(w: World, s: Bytes32, a: byte, other: byte, recipient: Bytes32, x: I.Extras): Option<Error> {
    if !HasAttempt(w, s, a) then Some(AccountMissing)
    else
      var c := w.coins[s];
      if !c.subs[a].status.Receiving? then Some(StatusInvalid)
      else if recipient != c.registry.recipient then Some(SubmissionMismatch)
      else if other != 1 - a then Some(AttemptRange)
      else if c.registry.status.Spent? || !c.head.isSet then None
      else if !x.other.Given? then Some(StatusInvalid)
      else if I.ContenderWins(c.subs[a].states, c.head) && !(x.otherEscrow.Given? && x.allowance.Given?)
      then Some(StatusInvalid)
      else if !I.ContenderWins(c.subs[a].states, c.head) && !x.otherChecker.Given? then Some(StatusInvalid)
      else None
  }

  /** The coin after a finalize: rejected if it is spent; the head if there is none; else winner or loser of the
      dispute. */
  ghost predicate Finalized(w: World, s: Bytes32, a: byte, after: World)
    requires HasAttempt(w, s, a) && s in after.coins
  {
    var c, d := w.coins[s], after.coins[s];
    var sub := c.subs[a].(finalized := w.slot);
    if c.registry.status.Spent? then d == c.(subs := c.subs[a := sub.(status := Rejected)])
    else if sub.states == [] then false
    else
      var head := Head(true, sub.states[|sub.states| - 1], a, |sub.states|, w.slot);
      if !c.head.isSet then d == c.(head := head, subs := c.subs[a := sub.(status := Pending)])
      else if I.ContenderWins(sub.states, c.head) then
        a <= 1 && 1 - a in c.subs
        && d == Coin(c.registry.(status := Spent), head,
                     c.subs[a := sub.(status := Won)][1 - a := c.subs[1 - a].(status := Lost)])
      else d == c.(subs := c.subs[a := sub.(status := Lost)])
  }

  /** finalize_check_in succeeds exactly when nothing is wrong, and fails with the first thing that is. */
  lemma FinalizeIff(env: Env, w: World, s: Bytes32, a: byte, other: byte, recipient: Bytes32, x: I.Extras)
    requires Inv(env, w)
    ensures var r := Step(env, w, Finalize(s, a, other, recipient, x));
            var fault := FinalizeFault(w, s, a, other, recipient, x);
            && (r.Ok? <==> fault.None?) && (r.Err? ==> fault == Some(r.error))
            && (r.Ok? ==> HasAttempt(w, s, a) && r.value.coins == w.coins[s := r.value.coins[s]]
                          && Finalized(w, s, a, r.value))
  {
    hide Inv, DoFinalize, I.ContenderWins, Finalized;
    if FinalizeFault(w, s, a, other, recipient, x).None? {
      FinalizePassesWith(env, w, s, a, x);
      FinalizedIs(env, w, s, a, x);
    } else {
      FinalizeRefused(env, w, s, a, other, recipient, x);
    }
  }

  lemma FinalizedIs(env: Env, w: World, s: Bytes32, a: byte, x: I.Extras)
    requires Inv(env, w) && HasAttempt(w, s, a) && a <= 1
    requires DoFinalize(env, w, s, a, 1 - a, w.coins[s].registry.recipient, x).Ok?
    ensures var after := DoFinalize(env, w, s, a, 1 - a, w.coins[s].registry.recipient, x).value;
            s in after.coins && after.coins == w.coins[s := after.coins[s]] && Finalized(w, s, a, after)
  {
    hide Inv, CoinInv, SubInv, I.VerifyFullChain, I.ContenderWins, I.RejectSpent, I.ResolveWin, I.ResolveLose, WinMoves,
         LoseMoves, RejectMoves, Moves;
    CoinAt(env, w, s);
    SubAt(env, w, s, a);
    var b := Load(w, s, a);
    if w.coins[s].registry.status.Spent? {
      RejectEffect(env, b, w.slot);
    } else if w.coins[s].head.isSet {
      if I.ContenderWins(b.mine.states, b.head) {
        WinEffect(env, b, x, w.slot);
      } else {
        LoseEffect(env, b, x, w.slot);
      }
    }
  }

  lemma FinalizeRefused(env: Env, w: World, s: Bytes32, a: byte, other: byte, recipient: Bytes32, x: I.Extras)
    requires Inv(env, w) && FinalizeFault(w, s, a, other, recipient, x).Some?
    ensures Step(env, w, Finalize(s, a, other, recipient, x)) == Err(FinalizeFault(w, s, a, other, recipient, x).value)
  {
    hide Inv, CoinInv, WellChained, I.VerifyFullChain, I.ContenderWins, I.BondAmount, I.BondOf, I.RejectSpent,
         ParseOwner, Ledgers.Transfer;
    if HasAttempt(w, s, a) {
      SubAt(env, w, s, a);
      SubKept(env, w, s, a);
      OpenAt(env, w, s, a);
      ChainPasses(env, w.coins[s].registry, w.coins[s].subs[a].states);
      var c := w.coins[s];
      if c.subs[a].status.Receiving? && c.registry.status.Active? && c.head.isSet && other == 1 - a
         && recipient == c.registry.recipient
      {
        Contested(env, w, s, a, x);
      }
    }
  }

  /** Against a standing head nothing but missing accounts can stop a finalize. */
  lemma Contested(env: Env, w: World, s: Bytes32, a: byte, x: I.Extras)
    requires Inv(env, w) && HasAttempt(w, s, a) && w.coins[s].subs[a].status.Receiving? && a <= 1
    requires w.coins[s].registry.status.Active? && w.coins[s].head.isSet && !FinalizeExtras(Load(w, s, a), x)
    requires w.coins[s].subs[a].states != []
    ensures I.Resolve(env, Load(w, s, a), x, w.slot) == Err(StatusInvalid)
  {
    hide Inv, CoinInv, SubInv, I.ContenderWins, I.ResolveWin, I.VerifyFullChain;
    OpenAt(env, w, s, a);
    SubAt(env, w, s, 1 - a);
    FinalizePasses(env, w, s, a);
    if I.ContenderWins(w.coins[s].subs[a].states, w.coins[s].head) && x.other.Given? {
      WinRefused(env, Load(w, s, a), x, w.slot);
    }
  }

  lemma WinRefused(env: Env, c: I.Ctx, x: I.Extras, slot: u64)
    requires c.other.Some? && c.mine.states != [] && I.ResolveWin(env, c, ALL, slot).Ok?
    requires !(x.otherEscrow.Given? && x.allowance.Given?)
    ensures I.ResolveWin(env, c, x, slot) == Err(StatusInvalid)
  {
    hide I.BondAmount, Ledgers.Transfer;
  }

  // ---- settle

  /** The first thing wrong with a settle, if any. */
  function SettleFault(w: World, s: Bytes32, a: byte, other: byte, recipient: Bytes32, x: I.Extras): Option<Error> {
    if !HasAttempt(w, s, a) then Some(AccountMissing)
    else
      var c := w.coins[s];
      if c.registry.status.Spent? || !c.subs[a].status.Pending? then Some(StatusInvalid)
      else if recipient != c.registry.recipient then Some(SubmissionMismatch)
      else if other != 1 - a then Some(AttemptRange)
      else if w.slot < U64_MAX && w.slot < c.head.since + w.config.window then Some(WindowExpired)
      else if x.other.Missing? || x.allowance.Missing? then Some(StatusInvalid)
      else if x.other.Given? && other !in c.subs then Some(StatusInvalid)
      else if x.other.Given? && c.subs[other].status.Receiving? && !x.otherEscrow.Given? then Some(StatusInvalid)
      else None
  }

  /** The coin after a settle: spent, the attempt won, an open counterparty rejected if it was supplied. */
  ghost predicate Settled(w: World, s: Bytes32, a: byte, x: I.Extras, after: World)
    requires HasAttempt(w, s, a) && s in after.coins
  {
    var c, d, won := w.coins[s], after.coins[s], w.coins[s].subs[a].(status := Won);
    && d.registry == c.registry.(status := Spent) && d.head == c.head
    && d.subs == if a <= 1 && x.other.Given? && 1 - a in c.subs && c.subs[1 - a].status.Receiving?
                 then c.subs[a := won][1 - a := c.subs[1 - a].(status := Rejected)] else c.subs[a := won]
  }

  /** settle succeeds exactly when nothing is wrong, and fails with the first thing that is: among others before the
      slot has reached the head's slot plus the window, unless that is beyond the last slot there is. */
  lemma SettleIff(env: Env, w: World, s: Bytes32, a: byte, other: byte, recipient: Bytes32, x: I.Extras)
    requires Inv(env, w)
    ensures var r := Step(env, w, Settle(s, a, other, recipient, x));
            var fault := SettleFault(w, s, a, other, recipient, x);
            && (r.Ok? <==> fault.None?) && (r.Err? ==> fault == Some(r.error))
            && (r.Ok? ==> HasAttempt(w, s, a) && r.value.coins == w.coins[s := r.value.coins[s]]
                          && Settled(w, s, a, x, r.value))
  {
    hide Inv, DoSettle, Settled, I.SaturatingAdd;
    if HasAttempt(w, s, a) { WindowGate(w.slot, w.coins[s].head.since, w.config.window); }
    if SettleFault(w, s, a, other, recipient, x).None? {
      SettlePasses(env, w, s, a, x);
      SettledIs(env, w, s, a, x);
    } else {
      SettleRefused(env, w, s, a, other, recipient, x);
    }
  }

  lemma SettledIs(env: Env, w: World, s: Bytes32, a: byte, x: I.Extras)
    requires Inv(env, w) && HasAttempt(w, s, a) && a <= 1
    requires DoSettle(env, w, s, a, 1 - a, w.coins[s].registry.recipient, x).Ok?
    ensures var after := DoSettle(env, w, s, a, 1 - a, w.coins[s].registry.recipient, x).value;
            s in after.coins && after.coins == w.coins[s := after.coins[s]] && Settled(w, s, a, x, after)
  {
    hide Inv, CoinInv, SubInv, I.SettlePayOut, SettleMoves, Moves;
    SettleEffect(env, Load(w, s, a), x);
  }

  lemma SettleRefused(env: Env, w: World, s: Bytes32, a: byte, other: byte, recipient: Bytes32, x: I.Extras)
    requires Inv(env, w) && SettleFault(w, s, a, other, recipient, x).Some?
    ensures Step(env, w, Settle(s, a, other, recipient, x)) == Err(SettleFault(w, s, a, other, recipient, x).value)
  {
    hide Inv, CoinInv, SubInv, I.SaturatingAdd, I.SettlePayOut;
    if HasAttempt(w, s, a) {
      SubKept(env, w, s, a);
      SubAt(env, w, s, a);
      OpenAt(env, w, s, a);
      WindowGate(w.slot, w.coins[s].head.since, w.config.window);
      if w.coins[s].subs[a].status.Pending? && w.coins[s].registry.status.Active?
         && w.slot >= I.SaturatingAdd(w.coins[s].head.since, w.config.window) && other == 1 - a {
        PayOutRefused(env, w, s, a, x);
      }
    }
  }

  /** Past the window nothing but missing accounts can stop a settle. */
  lemma PayOutRefused(env: Env, w: World, s: Bytes32, a: byte, x: I.Extras)
    requires Inv(env, w) && HasAttempt(w, s, a) && w.coins[s].subs[a].status.Pending? && a <= 1
    requires w.slot >= I.SaturatingAdd(w.coins[s].head.since, w.config.window)
    ensures !RightExtras(Load(w, s, a), x) ==> I.SettlePayOut(env, Load(w, s, a), x) == Err(StatusInvalid)
  {
    hide Inv, CoinInv, SubInv, I.SaturatingAdd, I.SettlePayOut;
    SettlePasses(env, w, s, a, I.Extras(I.Skipped, I.Skipped, I.Skipped, I.Skipped));
    var c := Load(w, s, a);
    if c.other.Some? { SettlePasses(env, w, s, a, ALL); }
    if !RightExtras(c, x) { ExtrasRefused(env, c, x); }
  }

  lemma ExtrasRefused(env: Env, c: I.Ctx, x: I.Extras)
    requires I.SettlePayOut(env, c, I.Extras(I.Skipped, I.Skipped, I.Skipped, I.Skipped)).Ok?
    requires c.other.Some? ==> I.SettlePayOut(env, c, ALL).Ok?
    requires !RightExtras(c, x)
    ensures I.SettlePayOut(env, c, x) == Err(StatusInvalid)
  {
    hide I.BondAmount, Ledgers.Transfer;
  }
}
