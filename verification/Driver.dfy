/** The client's check-in driver: stopped and rerun at any point, it picks up where the chain stands. */
module Driver {
  import opened Bytes
  import opened Results
  import opened StateOps
  import opened Ledgers
  import opened Accounts
  import opened Machine
  import opened Invariant
  import opened Reachable
  import opened Coins
  import opened ChainVerify
  import opened Agreement
  import opened Plans
  import opened Runtime
  import CheckInGates
  import History
  import Numbers
  import Precompile
  import I = Instructions

  /** How a run of the driver ends; it is stopped when it has used up the sends it is allowed. */
  datatype Outcome = Completed | Stopped | Thrown(error: Error)

  /** From `w` to `after` exactly the steps `sent` of the plan were taken. */
  ghost predicate Moved(env: Env, w: World, after: World, j: Job, s: Bytes32, sent: seq<Event>) {
    && Pursuing(env, w, j, s) && Pursuing(env, after, j, s) && HasLinks(j.coin)
    && 1 <= Stored(w, s) <= |j.coin.states| && 1 <= Stored(after, s) <= |j.coin.states|
    && Plan(env, w, j, s) == sent + Plan(env, after, j, s)
    && after.coins[s].registry.value == w.coins[s].registry.value && after.config.bps == w.config.bps
    && after.config.window == w.config.window
  }

  lemma Unmoved(env: Env, w: World, j: Job, s: Bytes32)
    requires Pursuing(env, w, j, s)
    ensures Moved(env, w, w, j, s, [])
  {
    StoredRange(env, w, j, s);
    PursuedBasics(env, w, j, s);
    hide Pursuing, Plan;
  }

  lemma MovedOn(env: Env, w: World, mid: World, after: World, j: Job, s: Bytes32, a: seq<Event>, b: seq<Event>)
    requires Moved(env, w, mid, j, s, a) && Moved(env, mid, after, j, s, b)
    ensures Moved(env, w, after, j, s, a + b)
  {
    hide Pursuing, Plan;
    assert a + b + Plan(env, after, j, s) == a + (b + Plan(env, after, j, s));
  }

  lemma PassesMoves(env: Env, w: World, j: Job, s: Bytes32, e: Event)
    requires Passes(env, w, j, s, e)
    ensures Moved(env, w, Exec(env, w, e), j, s, [e])
  {
    hide Pursuing, Plan, Step;
    PursuedBasics(env, w, j, s);
  }

  lemma PursuedBasics(env: Env, w: World, j: Job, s: Bytes32)
    requires Pursuing(env, w, j, s)
    ensures Inv(env, w) && s in w.coins && w.coins[s].subs.Keys <= {0} && w.coins[s].registry.recipient == j.recipient
    ensures env.who(j.recipient).Wallet? && ValidCoin(env.hash, j.verify, j.coin) && HasLinks(j.coin)
    ensures j.coin.serial == s && j.coin.scheme == ED25519
    ensures Anchored(env.hash, j.coin, Some(w.coins[s].registry.genesis))
    ensures w.coins[s].registry.status.Spent? <==> Arrived(w, s)
  {
    hide Inv, SubInv, ValidCoin, HasLinks, Anchored, Genesis;
    CoinAt(env, w, s);
  }

  function Bond(w: World, s: Bytes32): nat
    requires s in w.coins
  {
    I.BondOf(w.coins[s].registry.value, w.config.bps)
  }

  /** One transaction. */
  method Send(chain: Cluster, e: Event) returns (r: Result<()>)
    requires Inv(chain.env, chain.world)
    modifies chain
    ensures Inv(chain.env, chain.world)
    ensures Meets(Step(chain.env, old(chain.world), e), r)
    ensures chain.world == Exec(chain.env, old(chain.world), e)
    ensures chain.taken == old(chain.taken) + if r.Ok? && IsStep(e) then [e] else []
  {
    hide Inv, Step, Exec;
    AllLoadable(chain.env, chain.world);
    StepKeeps(chain.env, chain.world, e);
    r := chain.Submit(e);
  }

  /** Room for the tokens of that many top-ups: each at most the bond and the reserve. */
  predicate Affordable(w: World, s: Bytes32, times: nat)
    requires s in w.coins
  {
    w.minted + times * (Bond(w, s) + 500) <= U64_MAX
  }

  /** Mints tokens to the checker when its balance would not cover the bond. The amount passes through a double, which
      ExactCover shows to be harmless. */
  method TopUp(chain: Cluster, j: Job, s: Bytes32, checker: Bytes32, left: nat, ghost pursued: bool)
    returns (stop: Option<Outcome>, rest: nat)
    requires Inv(chain.env, chain.world) && s in chain.world.coins
    requires pursued ==> Pursuing(chain.env, chain.world, j, s) && checker == j.recipient
                         && Affordable(chain.world, s, 1)
    modifies chain
    ensures Inv(chain.env, chain.world) && chain.world.coins == old(chain.world.coins)
    ensures chain.world.config == old(chain.world.config) && chain.taken == old(chain.taken)
    ensures stop.None? ==> Bal(chain.world.ledger, chain.env.who(checker))
                           == ToppedUp(old(Bal(chain.world.ledger, chain.env.who(checker))), Bond(chain.world, s))
    ensures pursued ==>
      && Moved(chain.env, old(chain.world), chain.world, j, s, []) && rest <= left <= rest + 1
      && chain.world.minted <= old(chain.world.minted) + Bond(chain.world, s) + 500
      && (stop.Some? ==> stop.value == Stopped && left == 0)
      && (stop.None? ==>
            var before, bond := old(Bal(chain.world.ledger, chain.env.who(j.recipient))), Bond(chain.world, s);
            Bal(chain.world.ledger, chain.env.who(j.recipient)) == if before < bond + 50 then bond + 500 else before)
  {
    hide Inv, Pursuing, Moved, I.BondOf, Step, Exec, Affordable, Numbers.ToNumber, Numbers.Ulp;
    stop, rest := None, left;
    var bond, to := Bond(chain.world, s), chain.env.who(checker);
    var balance := Bal(chain.world.ledger, to);
    if pursued { Unmoved(chain.env, chain.world, j, s); }
    if balance < bond + 50 {
      if left == 0 { return Some(Stopped), 0; }
      var need := Numbers.ToNumber(bond + 500 - balance);
      if pursued { CoverExact(chain.env, chain.world, j, s, balance); }
      if need > U64_MAX { return Some(Thrown(OutOfRange)), left; }
      if pursued { CoverIssued(chain.env, chain.world, j, s, need); }
      IssueEffect(chain.env, chain.world, to, need);
      var r := Send(chain, Issue(to, need));
      rest := left - 1;
      if r.Err? { return Some(Thrown(r.error)), rest; }
    }
  }

  /** The checker's balance after a top-up. */
  function ToppedUp(balance: nat, bond: nat): nat {
    if balance < bond + 50 then balance + Numbers.ToNumber(bond + 500 - balance) else balance
  }

  /** Every bond that start_check_in can charge is so small that the amount passes through a double unchanged: a top-up
      ends at exactly the bond and a reserve of 500. */
  lemma ExactCover(balance: nat, value: u64, bps: u32)
    requires I.BondAmount(value, bps).Ok?
    ensures var bond := I.BondOf(value, bps);
            && bond + 500 < Numbers.EXACT
            && ToppedUp(balance, bond) == if balance < bond + 50 then bond + 500 else balance
  {
    hide Numbers.ToNumber;
    var bond := I.BondOf(value, bps);
    if balance < bond + 50 { Numbers.Nearest(bond + 500 - balance); }
  }

  lemma CoverExact(env: Env, w: World, j: Job, s: Bytes32, balance: nat)
    requires Pursuing(env, w, j, s) && s in w.coins
    ensures ToppedUp(balance, Bond(w, s)) == if balance < Bond(w, s) + 50 then Bond(w, s) + 500 else balance
    ensures Bond(w, s) + 500 <= U64_MAX
  {
    hide Inv, ValidCoin, CollisionFree, Anchored, HasLinks, Standing, I.BondOf, ToppedUp;
    ExactCover(balance, w.coins[s].registry.value, w.config.bps);
  }

  lemma IssuePasses(env: Env, w: World, to: Owner, amount: u64)
    requires Inv(env, w) && w.minted + amount <= U64_MAX
    ensures Step(env, w, Issue(to, amount)).Ok?
  {
    hide CoinsInv, Escrowed, Backed, Allowed;
    Sums.SumBounds(w.ledger);
  }

  /** The cover of a pursued check-in can be issued, and leaves the check-in where it is. */
  lemma CoverIssued(env: Env, w: World, j: Job, s: Bytes32, amount: u64)
    requires Pursuing(env, w, j, s) && s in w.coins && Affordable(w, s, 1) && amount <= Bond(w, s) + 500
    ensures var e := Issue(env.who(j.recipient), amount);
            && Step(env, w, e).Ok? && Moved(env, w, Exec(env, w, e), j, s, [])
            && Exec(env, w, e).minted <= w.minted + Bond(w, s) + 500
  {
    hide Inv, Pursuing, Moved, Bond, Step, Exec;
    var e := Issue(env.who(j.recipient), amount);
    PursuedBasics(env, w, j, s);
    IssuePasses(env, w, e.to, amount);
    IssueEffect(env, w, e.to, amount);
    BesideMoves(env, w, j, s, e);
  }

  lemma IssueEffect(env: Env, w: World, to: Owner, amount: u64)
    ensures var r := Step(env, w, Issue(to, amount));
            && Exec(env, w, Issue(to, amount)) == (if r.Ok? then r.value else w)
            && (r.Ok? ==> r.value.coins == w.coins && r.value.config == w.config && r.value.minted == w.minted + amount
                          && Bal(r.value.ledger, to) == Bal(w.ledger, to) + amount)
  {}

  lemma BesideMoves(env: Env, w: World, j: Job, s: Bytes32, e: Event)
    requires Pursuing(env, w, j, s) && Step(env, w, e).Ok?
    requires ((e.Issue? && !e.to.Escrow?) || (e.Tick? && Waiting(w, s)))
    ensures Moved(env, w, Exec(env, w, e), j, s, [])
  {
    hide Inv, Pursuing, Plan, Exec, Step;
    PursuedBasics(env, w, j, s);
    BesidePursued(env, w, j, s, e);
  }

  /** What a stage of the driver promises on a pursued check-in: it takes the steps `sent`, and only stops for want of
      sends. */
  ghost predicate Stage(env: Env, w: World, after: World, j: Job, s: Bytes32, left: nat, rest: nat, sent: seq<Event>,
                        stop: Option<Outcome>)
  {
    && Moved(env, w, after, j, s, sent) && after.minted == w.minted && left == rest + |sent|
    && (stop.Some? ==> stop.value == Stopped && rest == 0)
  }

  lemma StageStopped(env: Env, w: World, j: Job, s: Bytes32, left: nat)
    requires Pursuing(env, w, j, s)
    ensures Stage(env, w, w, j, s, left, left, [], None)
    ensures left == 0 ==> Stage(env, w, w, j, s, left, left, [], Some(Stopped))
  {
    Unmoved(env, w, j, s);
    hide Moved;
  }

  lemma StageSent(env: Env, w: World, j: Job, s: Bytes32, left: nat, e: Event)
    requires Passes(env, w, j, s, e) && left >= 1
    ensures Stage(env, w, Exec(env, w, e), j, s, left, left - 1, [e], None)
  {
    PassesMoves(env, w, j, s, e);
    hide Moved, Pursuing, Plan, Step, Exec;
  }

  lemma StageThen(env: Env, w: World, mid: World, after: World, j: Job, s: Bytes32, left: nat, between: nat, rest: nat,
                  a: seq<Event>, b: seq<Event>, stop: Option<Outcome>)
    requires Stage(env, w, mid, j, s, left, between, a, None) && Stage(env, mid, after, j, s, between, rest, b, stop)
    ensures Stage(env, w, after, j, s, left, rest, a + b, stop)
  {
    MovedOn(env, w, mid, after, j, s, a, b);
    hide Moved;
  }

  /** What this stage does on any coin: an attempt that exists is taken, attempt 0 first; otherwise attempt 0 is
      started. */
  ghost predicate StartSent(env: Env, w: World, after: World, j: Job, s: Bytes32, checker: Bytes32, left: nat,
                            rest: nat, attempt: byte, sent: seq<Event>, stop: Option<Outcome>)
    requires HasLinks(j.coin)
  {
    if HasAttempt(w, s, 0) || HasAttempt(w, s, 1) then
      stop.None? && rest == left && after == w && attempt == if HasAttempt(w, s, 0) then 0 else 1
    else if left == 0 then stop == Some(Stopped) && after == w
    else if checker != j.recipient then stop == Some(Thrown(NotASigner)) && after == w
    else
      var e := Start(s, 0, FirstIn(j.coin), j.recipient, Bal(w.ledger, Escrow(s, 0)));
      after == Exec(env, w, e) && rest == left - 1
      && (stop.None? <==> Step(env, w, e).Ok?) && (stop.None? ==> attempt == 0 && sent == [e])
  }

  /** start_check_in, unless an attempt of this coin exists; the transaction is signed by the checker alone. */
  method EnsureStarted(chain: Cluster, j: Job, s: Bytes32, checker: Bytes32, left: nat, ghost pursued: bool)
    returns (stop: Option<Outcome>, rest: nat, attempt: byte, ghost sent: seq<Event>)
    requires Inv(chain.env, chain.world) && s in chain.world.coins && HasLinks(j.coin)
    requires pursued ==> Pursuing(chain.env, chain.world, j, s) && checker == j.recipient
                         && Bal(chain.world.ledger, chain.env.who(j.recipient)) >= Bond(chain.world, s)
    modifies chain
    ensures Inv(chain.env, chain.world) && chain.taken == old(chain.taken) + sent
    ensures stop.None? ==> HasAttempt(chain.world, s, attempt)
    ensures StartSent(chain.env, old(chain.world), chain.world, j, s, checker, left, rest, attempt, sent, stop)
    ensures pursued ==> Stage(chain.env, old(chain.world), chain.world, j, s, left, rest, sent, stop)
    ensures pursued && stop.None? ==> attempt == 0
  {
    hide Inv, Pursuing, Stage, Passes, Step, Exec, HasLinks;
    stop, rest, attempt, sent := None, left, 0, [];
    if pursued {
      PursuedBasics(chain.env, chain.world, j, s);
      StageStopped(chain.env, chain.world, j, s, left);
    }
    if HasAttempt(chain.world, s, 0) { return; }
    if HasAttempt(chain.world, s, 1) { return None, left, 1, []; }
    if left == 0 { return Some(Stopped), 0, 0, []; }
    if checker != j.recipient { return Some(Thrown(NotASigner)), left, 0, []; }
    FirstState(j.coin);
    var e := Start(s, 0, j.coin.states[0], j.recipient, Bal(chain.world.ledger, Escrow(s, 0)));
    if pursued {
      EmptyEscrow(chain.env, chain.world, j, s);
      StartPasses(chain.env, chain.world, j, s);
      StageSent(chain.env, chain.world, j, s, left, e);
      PassesOk(chain.env, chain.world, j, s, e);
    }
    ghost var before := chain.world;
    var r := Send(chain, e);
    if r.Err? { return Some(Thrown(r.error)), left - 1, 0, []; }
    StartedIs(chain.env, before, s, 0, e.state0, j.recipient, e.held);
    return None, left - 1, 0, [e];
  }

  lemma EmptyEscrow(env: Env, w: World, j: Job, s: Bytes32)
    requires Pursuing(env, w, j, s) && !HasAttempt(w, s, 0)
    ensures Bal(w.ledger, Escrow(s, 0)) == 0
  {
    hide Inv, ValidCoin, CollisionFree, Anchored, HasLinks, I.BondAmount;
  }

  lemma PassesOk(env: Env, w: World, j: Job, s: Bytes32, e: Event)
    requires Passes(env, w, j, s, e)
    ensures Step(env, w, e).Ok?
  {
    hide Pursuing, Plan, Step;
  }

  function FirstIn(c: CoinCore): State
    requires HasLinks(c)
  {
    c.states[0]
  }

  lemma FirstState(c: CoinCore)
    requires HasLinks(c)
    ensures c.states != [] && |c.states[0]| == STATE_SIZE && StatesIn(c)[0] == c.states[0]
  {}

  lemma StartedIs(env: Env, w: World, s: Bytes32, a: byte, state0: State, checker: Bytes32, held: u64)
    requires Step(env, w, Start(s, a, state0, checker, held)).Ok?
    ensures HasAttempt(Exec(env, w, Start(s, a, state0, checker, held)), s, a)
  {
    hide I.StartCheckIn;
  }

  /** The next `size` links after state `k`, gathered one by one. */
  method NextBatch(c: CoinCore, k: nat, size: nat) returns (links: seq<Link>)
    requires HasLinks(c) && 1 <= k && k + size <= |c.states|
    ensures links == LinksOf(c)[k - 1..k - 1 + size]
  {
    links := [];
    for i := 0 to size
      invariant links == LinksOf(c)[k - 1..k - 1 + i]
    {
      links := links + [Link(c.states[k + i], c.sigs[k - 1 + i])];
    }
  }

  /** append_links until the stored chain is as long as the coin's; every call names the hash of the coin's last state.
      */
  method AppendMissing(chain: Cluster, j: Job, s: Bytes32, attempt: byte, left: nat, ghost pursued: bool)
    returns (stop: Option<Outcome>, rest: nat, ghost sent: seq<Event>)
    requires Inv(chain.env, chain.world) && HasAttempt(chain.world, s, attempt) && HasLinks(j.coin)
    requires pursued ==> Pursuing(chain.env, chain.world, j, s) && attempt == 0
    modifies chain
    ensures Inv(chain.env, chain.world) && HasAttempt(chain.world, s, attempt) && chain.taken == old(chain.taken) + sent
    ensures pursued ==> Stage(chain.env, old(chain.world), chain.world, j, s, left, rest, sent, stop)
    ensures stop.None? ==> |chain.world.coins[s].subs[attempt].states| >= |j.coin.states|
  {
    hide Inv, Pursuing, Stage, Passes, Step, Exec, HasLinks, HasAttempt, ParseOwner;
    stop, rest, sent := None, left, [];
    if pursued { StageStopped(chain.env, chain.world, j, s, left); }
    var n := |j.coin.states|;
    while true
      invariant Inv(chain.env, chain.world) && HasAttempt(chain.world, s, attempt)
      invariant chain.taken == old(chain.taken) + sent
      invariant pursued ==> Pursuing(chain.env, chain.world, j, s)
      invariant pursued ==> Stage(chain.env, old(chain.world), chain.world, j, s, left, rest, sent, None)
      decreases Missing(chain.world, s, attempt, n)
    {
      var sub := AttemptAt(chain.world, s, attempt);
      StoredSome(chain.env, chain.world, s, attempt);
      var k := |sub.states|;
      if k >= n { return; }
      if sub.status.Pending? {
        if pursued { NeverHere(chain.env, chain.world, j, s); }
        return Some(Thrown(StatusInvalid)), rest, sent;
      }
      var size := if n - k <= chain.world.config.maxLinks then n - k else chain.world.config.maxLinks;
      var links := NextBatch(j.coin, k, size);
      if size > Precompile.MAX_RECORDS {
        if pursued { OneCall(chain.env, chain.world, j, s); }
        return Some(Thrown(TooManyRecords)), rest, sent;
      }
      LastState(j.coin);
      var e := Append(s, attempt, ParseOwner(sub.states[k - 1]), links, chain.env.hash(j.coin.states[n - 1]));
      if pursued {
        NextIsAppend(chain.env, chain.world, j, s, e);
        PassesOk(chain.env, chain.world, j, s, e);
      }
      if rest == 0 {
        if pursued { OutOfSends(chain.env, old(chain.world), chain.world, j, s, left, sent); }
        return Some(Stopped), 0, sent;
      }
      if pursued { Continue(chain.env, old(chain.world), chain.world, j, s, left, rest, sent, e); }
      ghost var before := chain.world;
      var r := Send(chain, e);
      rest := rest - 1;
      AppendGrows(chain.env, before, e);
      if r.Err? { return Some(Thrown(r.error)), rest, sent; }
      sent := sent + [e];
    }
  }

  function AttemptAt(w: World, s: Bytes32, a: byte): Submission
    requires HasAttempt(w, s, a)
  {
    w.coins[s].subs[a]
  }

  ghost function Missing(w: World, s: Bytes32, a: byte, n: nat): int {
    if HasAttempt(w, s, a) then n - |w.coins[s].subs[a].states| else 0
  }

  lemma StoredSome(env: Env, w: World, s: Bytes32, a: byte)
    requires Inv(env, w) && HasAttempt(w, s, a)
    ensures |w.coins[s].subs[a].states| >= 1 && w.config.maxLinks >= 1
  {
    hide Inv, SubInv, CoinInv;
    SubAt(env, w, s, a);
    CoinAt(env, w, s);
  }

  lemma LastState(c: CoinCore)
    requires HasLinks(c)
    ensures c.states != [] && |c.states[|c.states| - 1]| == STATE_SIZE && Last(StatesIn(c)) == c.states[|c.states| - 1]
  {}

  /** A pursued attempt that is pending, or paid, is complete. */
  lemma NeverHere(env: Env, w: World, j: Job, s: Bytes32)
    requires Pursuing(env, w, j, s) && HasAttempt(w, s, 0) && !w.coins[s].subs[0].status.Receiving?
    ensures |w.coins[s].subs[0].states| == |j.coin.states|
  {
    hide Inv, ValidCoin, HasLinks, CollisionFree, Anchored, I.BondAmount;
  }

  lemma OneCall(env: Env, w: World, j: Job, s: Bytes32)
    requires Pursuing(env, w, j, s) && HasAttempt(w, s, 0)
    ensures |j.coin.states| - |w.coins[s].subs[0].states| <= w.config.maxLinks
    ensures |j.coin.states| - |w.coins[s].subs[0].states| <= Precompile.MAX_RECORDS
  {
    hide Inv, ValidCoin, HasLinks, CollisionFree, Anchored, Standing, I.BondAmount;
  }

  lemma NextIsAppend(env: Env, w: World, j: Job, s: Bytes32, e: Event)
    requires Pursuing(env, w, j, s) && HasAttempt(w, s, 0) && HasLinks(j.coin) && 1 <= Stored(w, s) < |j.coin.states|
    requires e.Append? && e.serial == s && e.attempt == 0 && e.headOwner == ParseOwner(Last(w.coins[s].subs[0].states))
    requires var k, n := Stored(w, s), |j.coin.states|;
             var size := if n - k <= w.config.maxLinks then n - k else w.config.maxLinks;
             e.newLinks == LinksOf(j.coin)[k - 1..k - 1 + size] && e.lastHash == env.hash(Last(StatesIn(j.coin)))
    ensures Passes(env, w, j, s, e)
  {
    hide Inv, ValidCoin, HasLinks, CollisionFree, Anchored, I.BondAmount, ParseOwner, Passes;
    OneCall(env, w, j, s);
    if !w.coins[s].subs[0].status.Receiving? { NeverHere(env, w, j, s); }
    var k := Stored(w, s);
    assert LinksOf(j.coin)[k - 1..|j.coin.states| - 1] == LinksOf(j.coin)[k - 1..];
    assert Last(w.coins[s].subs[0].states) == StatesIn(j.coin)[k - 1];
    hide Pursuing;
    AppendPasses(env, w, j, s);
  }

  lemma OutOfSends(env: Env, w: World, mid: World, j: Job, s: Bytes32, left: nat, sent: seq<Event>)
    requires Stage(env, w, mid, j, s, left, 0, sent, None)
    ensures Stage(env, w, mid, j, s, left, 0, sent, Some(Stopped))
  {
    hide Moved;
  }

  lemma Continue(env: Env, w: World, mid: World, j: Job, s: Bytes32, left: nat, rest: nat, sent: seq<Event>, e: Event)
    requires Stage(env, w, mid, j, s, left, rest, sent, None) && Passes(env, mid, j, s, e) && rest >= 1
    ensures Stage(env, w, Exec(env, mid, e), j, s, left, rest - 1, sent + [e], None)
    ensures Pursuing(env, Exec(env, mid, e), j, s)
  {
    hide Stage, Pursuing, Plan, Exec, Step;
    StageSent(env, mid, j, s, rest, e);
    StageThen(env, w, mid, Exec(env, mid, e), j, s, left, rest, rest - 1, sent, [e], None);
  }

  lemma AppendGrows(env: Env, w: World, e: Event)
    requires e.Append? && HasAttempt(w, e.serial, e.attempt)
    ensures HasAttempt(Exec(env, w, e), e.serial, e.attempt)
    ensures Step(env, w, e).Ok? ==> |Exec(env, w, e).coins[e.serial].subs[e.attempt].states|
                                    > |w.coins[e.serial].subs[e.attempt].states|
  {
    hide I.CheckLinks;
  }

  /** What this stage does on any coin: nothing unless the attempt pays the coin's current owner and is neither pending
      nor won; then one finalize without optional accounts. */
  ghost predicate FinalizeSent(env: Env, w: World, after: World, j: Job, s: Bytes32, a: byte, left: nat, rest: nat,
                               stop: Option<Outcome>)
    requires HasAttempt(w, s, a) && a <= 1
  {
    var sub := w.coins[s].subs[a];
    if CurrentOwner(j.coin) != Ok(sub.finalOwner) then stop == Some(Thrown(StatusInvalid)) && rest == left && after == w
    else if sub.status.Pending? || sub.status.Won? then stop.None? && rest == left && after == w
    else if left == 0 then stop == Some(Stopped) && after == w
    else
      var e := Finalize(s, a, 1 - a, j.recipient, I.Extras(I.Skipped, I.Skipped, I.Skipped, I.Skipped));
      after == Exec(env, w, e) && rest == left - 1 && (stop.None? <==> Step(env, w, e).Ok?)
  }

  /** finalize_check_in, unless the attempt is past it already; but first the attempt has to pay the coin's current
      owner. */
  method EnsureFinalized(chain: Cluster, j: Job, s: Bytes32, attempt: byte, left: nat, ghost pursued: bool)
    returns (stop: Option<Outcome>, rest: nat, ghost sent: seq<Event>)
    requires Inv(chain.env, chain.world) && HasAttempt(chain.world, s, attempt) && attempt <= 1
    requires pursued ==>
      Pursuing(chain.env, chain.world, j, s) && attempt == 0 && Stored(chain.world, s) == |j.coin.states|
    modifies chain
    ensures Inv(chain.env, chain.world) && HasAttempt(chain.world, s, attempt) && chain.taken == old(chain.taken) + sent
    ensures pursued ==> Stage(chain.env, old(chain.world), chain.world, j, s, left, rest, sent, stop)
    ensures pursued && stop.None? ==> Waiting(chain.world, s) || Arrived(chain.world, s)
    ensures FinalizeSent(chain.env, old(chain.world), chain.world, j, s, attempt, left, rest, stop)
  {
    hide Inv, Pursuing, Stage, Passes, Step, Exec, HasAttempt, HasLinks;
    stop, rest, sent := None, left, [];
    var sub := AttemptAt(chain.world, s, attempt);
    var owner := CurrentOwner(j.coin);
    if pursued { Complete(chain.env, chain.world, j, s); }
    if owner != Ok(sub.finalOwner) { return Some(Thrown(StatusInvalid)), left, []; }
    if pursued {
      StageStopped(chain.env, chain.world, j, s, left);
      OpenOrDone(chain.env, chain.world, j, s);
    }
    if sub.status.Pending? || sub.status.Won? { return; }
    if left == 0 { return Some(Stopped), 0, []; }
    var e := Finalize(s, attempt, 1 - attempt, j.recipient, NO_EXTRAS);
    if pursued {
      FinalizePassesAlone(chain.env, chain.world, j, s);
      StageSent(chain.env, chain.world, j, s, left, e);
      PassesOk(chain.env, chain.world, j, s, e);
      FinalizedWaits(chain.env, chain.world, j, s);
    }
    History.Kept(chain.env, chain.world, e, s, attempt);
    var r := Send(chain, e);
    if r.Err? { return Some(Thrown(r.error)), left - 1, []; }
    return None, left - 1, [e];
  }

  /** An attempt of a pursued check-in is open, waiting or paid. */
  lemma OpenOrDone(env: Env, w: World, j: Job, s: Bytes32)
    requires Pursuing(env, w, j, s) && HasAttempt(w, s, 0)
    ensures w.coins[s].subs[0].status.Receiving? || Waiting(w, s) || Arrived(w, s)
  {
    hide Inv, ValidCoin, HasLinks, CollisionFree, Anchored, I.BondAmount;
  }

  lemma FinalizedWaits(env: Env, w: World, j: Job, s: Bytes32)
    requires Pursuing(env, w, j, s) && HasAttempt(w, s, 0) && w.coins[s].subs[0].status.Receiving?
    requires Stored(w, s) == |j.coin.states|
    ensures Waiting(Exec(env, w, Finalize(s, 0, 1, j.recipient, NO_EXTRAS)), s)
  {
    hide Inv, Pursuing, DoFinalize, HasLinks, Standing;
    FinalizeSucceeds(env, w, j, s);
  }

  /** What this stage does on any coin: nothing unless the attempt is pending; then one settle, at a slot from the end
      of the window on, unless it gives up before. */
  ghost predicate SettleSent(env: Env, w: World, after: World, j: Job, s: Bytes32, a: byte, left: nat, rest: nat,
                             sent: seq<Event>, stop: Option<Outcome>)
    requires HasAttempt(w, s, a) && a <= 1
  {
    var deadline := w.coins[s].head.since + w.config.window;
    var e := Settle(s, a, 1 - a, j.recipient, I.Extras(I.Skipped, I.Skipped, I.Skipped, I.Given));
    if !w.coins[s].subs[a].status.Pending? then stop.None? && rest == left && sent == [] && after == w
    else if left == 0 then stop == Some(Stopped) && after == w
    else if stop == GAVE_UP then after == w.(slot := after.slot) && after.slot < deadline
    else exists slot: u64 :: deadline <= slot && after == Exec(env, w.(slot := slot), e)
  }

  /** Waits until the challenge window is over, then settles; gives up when it has waited `slots` slots for it. */
  method AwaitAndSettle(chain: Cluster, j: Job, s: Bytes32, attempt: byte, left: nat, slots: nat, ghost pursued: bool)
    returns (stop: Option<Outcome>, rest: nat, ghost sent: seq<Event>)
    requires Inv(chain.env, chain.world) && HasAttempt(chain.world, s, attempt) && attempt <= 1
    requires pursued ==> Pursuing(chain.env, chain.world, j, s) && attempt == 0
                         && (Waiting(chain.world, s) || Arrived(chain.world, s))
    modifies chain
    ensures Inv(chain.env, chain.world) && chain.taken == old(chain.taken) + sent
    ensures pursued && stop != GAVE_UP ==> Stage(chain.env, old(chain.world), chain.world, j, s, left, rest, sent, stop)
    ensures pursued && stop == GAVE_UP ==>
      Stage(chain.env, old(chain.world), chain.world, j, s, left, rest, sent, None) && slots < chain.world.config.window
    ensures pursued && stop.None? ==> Arrived(chain.world, s)
    ensures SettleSent(chain.env, old(chain.world), chain.world, j, s, attempt, left, rest, sent, stop)
  {
    hide Inv, Pursuing, Stage, Passes, Step, Exec, HasLinks;
    stop, rest, sent := None, left, [];
    if pursued { StageStopped(chain.env, chain.world, j, s, left); }
    if !chain.world.coins[s].subs[attempt].status.Pending? { return; }
    if left == 0 { return Some(Stopped), 0, []; }
    var deadline := chain.world.coins[s].head.since + chain.world.config.window;
    ghost var before := chain.world;
    if pursued { DeadlineFits(chain.env, chain.world, j, s); }
    if chain.world.slot < deadline {
      var until := Earliest(deadline, chain.world.slot + slots);
      if pursued { TickStage(chain.env, chain.world, j, s, until, left); }
      TickMoves(chain.env, chain.world, until);
      var _ := Send(chain, Tick(until));
      if until < deadline { return GAVE_UP, left, []; }
    }
    var e := Settle(s, attempt, 1 - attempt, j.recipient, SETTLE_EXTRAS);
    if pursued {
      SettlePassesAlone(chain.env, chain.world, j, s);
      Continue(chain.env, before, chain.world, j, s, left, left, [], e);
      PassesOk(chain.env, chain.world, j, s, e);
      assert [] + [e] == [e];
    }
    NoTimeout(chain.env, chain.world, e);
    var r := Send(chain, e);
    if r.Err? { return Some(Thrown(r.error)), left - 1, []; }
    return None, left - 1, [e];
  }

  const GAVE_UP: Option<Outcome> := Some(Thrown(WaitTimeout))

  /** Whichever slot comes first; the clock ends with 64 bits. */
  function Earliest(a: nat, b: nat): (slot: u64)
    ensures slot <= a && slot <= b
    ensures a <= U64_MAX ==> slot == if a <= b then a else b
  {
    var slot := if a <= b then a else b;
    if slot <= U64_MAX then slot else U64_MAX
  }

  /** The program itself knows no timeout. */
  lemma NoTimeout(env: Env, w: World, e: Event)
    requires Inv(env, w) && e.Settle?
    ensures Step(env, w, e).Err? ==> Step(env, w, e).error != WaitTimeout
  {
    hide Inv, Step, CheckInGates.Settled;
    CheckInGates.SettleIff(env, w, e.serial, e.attempt, e.otherAttempt, e.recipient, e.extras);
  }

  lemma DeadlineFits(env: Env, w: World, j: Job, s: Bytes32)
    requires Pursuing(env, w, j, s) && Waiting(w, s)
    ensures w.coins[s].head.since <= w.slot && w.coins[s].head.since + w.config.window <= U64_MAX
  {
    hide Inv, ValidCoin, HasLinks, CollisionFree, Anchored, I.BondAmount;
  }

  lemma TickMoves(env: Env, w: World, slot: u64)
    requires w.slot <= slot
    ensures Step(env, w, Tick(slot)) == Ok(w.(slot := slot)) && Exec(env, w, Tick(slot)) == w.(slot := slot)
  {}

  lemma TickStage(env: Env, w: World, j: Job, s: Bytes32, slot: u64, left: nat)
    requires Pursuing(env, w, j, s) && Waiting(w, s) && w.slot <= slot
    ensures Stage(env, w, Exec(env, w, Tick(slot)), j, s, left, left, [], None)
    ensures Pursuing(env, Exec(env, w, Tick(slot)), j, s)
  {
    TickMoves(env, w, slot);
    hide Moved, Pursuing, Step, Exec;
    BesidePursued(env, w, j, s, Tick(slot));
    BesideMoves(env, w, j, s, Tick(slot));
  }

  /** The whole way of an uncontested check-in that has been pursued up to now. */
  ghost predicate Expected(env: Env, w: World, j: Job, checker: Bytes32) {
    && |j.coin.serial| == 32 && Pursuing(env, w, j, j.coin.serial) && checker == j.recipient
    && j.coin.serial in w.coins && Affordable(w, j.coin.serial, 1)
  }

  /** How far a run may go: how often it may send, and how many slots may pass while it waits for the window. */
  datatype Leash = Leash(sends: nat, slots: nat)

  /** What one run of the driver achieves; at most one of its sends goes into minting tokens. */
  ghost predicate Achieved(env: Env, w: World, after: World, j: Job, s: Bytes32, leash: Leash, outcome: Outcome,
                           sent: seq<Event>)
  {
    && Moved(env, w, after, j, s, sent) && s in w.coins && after.minted <= w.minted + Bond(w, s) + 500
    && |sent| <= leash.sends
    && (outcome.Completed? ==> Arrived(after, s))
    && (outcome.Stopped? ==> leash.sends <= |sent| + 1)
    && (outcome.Thrown? ==> Arrived(w, s) || (outcome.error == WaitTimeout && leash.slots < w.config.window))
  }

  lemma Concluded(env: Env, w: World, mid: World, after: World, j: Job, s: Bytes32, leash: Leash, left: nat, rest: nat,
                  sent: seq<Event>, stop: Option<Outcome>)
    requires Moved(env, w, mid, j, s, []) && s in w.coins && left <= leash.sends <= left + 1
    requires mid.minted <= w.minted + Bond(w, s) + 500
    requires Stage(env, mid, after, j, s, left, rest, sent, stop)
    ensures stop.Some? ==> Achieved(env, w, after, j, s, leash, stop.value, sent)
    ensures stop.None? && Arrived(after, s) ==> Achieved(env, w, after, j, s, leash, Completed, sent)
    ensures stop.None? && leash.slots < after.config.window ==>
      Achieved(env, w, after, j, s, leash, GAVE_UP.value, sent)
  {
    hide Moved, Bond;
    MovedOn(env, w, mid, after, j, s, [], sent);
    SameWindow(env, w, after, j, s, [] + sent);
    assert [] + sent == sent;
  }

  lemma SameWindow(env: Env, w: World, after: World, j: Job, s: Bytes32, sent: seq<Event>)
    requires Moved(env, w, after, j, s, sent)
    ensures after.config.window == w.config.window
  {
    hide Pursuing, Plan;
  }

  /** Why a run throws before it sends anything, if it does: the coin or its registry is not fit for a check-in. */
  ghost function NotFit(env: Env, w: World, j: Job): Option<Error> {
    var c := j.coin;
    if c.scheme != 0 then Some(SigSchemeUnsupported)
    else if c.states == [] then Some(NoStates)
    else if !Sized(c.states) then Some(WrongSize)
    else if !ValidCoin(env.hash, j.verify, c) then Some(ChainInvalid)
    else if |c.serial| != 32 || c.serial !in w.coins then Some(AccountMissing)
    else
      var reg := w.coins[c.serial].registry;
      if reg.status.Spent? then Some(NotReady)
      else if reg.recipient != j.recipient then Some(SubmissionMismatch)
      else if env.hash(c.states[0]) != reg.genesis then Some(GenesisMismatch)
      else None
  }

  /** runCheckIn on a leash: checks the coin and the registry, then takes whatever steps the chain still needs. */
  method RunCheckIn(chain: Cluster, j: Job, checker: Bytes32, leash: Leash)
    returns (outcome: Outcome, ghost sent: seq<Event>)
    requires Inv(chain.env, chain.world)
    modifies chain
    ensures Inv(chain.env, chain.world) && chain.taken == old(chain.taken) + sent
    ensures old(NotFit(chain.env, chain.world, j).Some?) ==>
      outcome == Thrown(old(NotFit(chain.env, chain.world, j)).value) && sent == [] && chain.world == old(chain.world)
    ensures old(Expected(chain.env, chain.world, j, checker)) ==>
      Achieved(chain.env, old(chain.world), chain.world, j, j.coin.serial, leash, outcome, sent)
  {
    hide Inv, Pursuing, Stage, Moved, Passes, Step, Exec, HasAttempt, HasLinks, Achieved, ValidCoin, Anchored;
    sent := [];
    var coin, env := j.coin, chain.env;
    ghost var pursued := Expected(env, chain.world, j, checker);
    if pursued {
      PursuedBasics(env, chain.world, j, coin.serial);
      Unmoved(env, chain.world, j, coin.serial);
      LinksSized(coin);
    }
    if coin.scheme != ED25519 { return Thrown(SigSchemeUnsupported), []; }
    var verdict := VerifyCoinChain(env.hash, j.verify, coin, None);
    NoAnchor(env.hash, coin);
    if verdict.Err? { return Thrown(verdict.error), []; }
    if !verdict.value.ok { return Thrown(ChainInvalid), []; }
    ValidHasLinks(env.hash, j.verify, coin);
    LastState(coin);
    FirstState(coin);
    if |coin.serial| != 32 || coin.serial !in chain.world.coins { return Thrown(AccountMissing), []; }
    var s, reg := coin.serial, chain.world.coins[coin.serial].registry;
    if reg.status.Spent? {
      if pursued { AlreadyThere(env, chain.world, j, s, leash); }
      return Thrown(NotReady), [];
    }
    if reg.recipient != j.recipient { return Thrown(SubmissionMismatch), []; }
    if pursued { AnchorHolds(env.hash, coin, reg); }
    if env.hash(coin.states[0]) != reg.genesis { return Thrown(GenesisMismatch), []; }
    outcome, sent := Advance(chain, j, s, checker, leash, pursued);
  }

  lemma LinksSized(c: CoinCore)
    requires HasLinks(c)
    ensures c.states != [] && Sized(c.states)
  {}

  lemma NoAnchor(hash: Bytes -> Bytes32, c: CoinCore)
    ensures Anchored(hash, c, None)
  {}

  lemma AnchorHolds(hash: Bytes -> Bytes32, c: CoinCore, reg: Registry)
    requires Anchored(hash, c, Some(reg.genesis))
    ensures c.states != [] && hash(c.states[0]) == reg.genesis
  {}

  lemma AlreadyThere(env: Env, w: World, j: Job, s: Bytes32, leash: Leash)
    requires |j.coin.serial| == 32 && s == j.coin.serial && Moved(env, w, w, j, s, []) && s in w.coins && Arrived(w, s)
    ensures Achieved(env, w, w, j, s, leash, Thrown(NotReady), [])
  {
    hide Moved;
  }

  /** The sending part of runCheckIn: bond cover, start, missing links, finalize, settle; re-reading the chain before
      each. */
  method Advance(chain: Cluster, j: Job, s: Bytes32, checker: Bytes32, leash: Leash, ghost pursued: bool)
    returns (outcome: Outcome, ghost sent: seq<Event>)
    requires Inv(chain.env, chain.world) && s in chain.world.coins && HasLinks(j.coin) && j.coin.serial == s
    requires pursued ==> Expected(chain.env, chain.world, j, checker)
    modifies chain
    ensures Inv(chain.env, chain.world) && chain.taken == old(chain.taken) + sent
    ensures pursued ==> Achieved(chain.env, old(chain.world), chain.world, j, s, leash, outcome, sent)
  {
    hide Inv, Pursuing, Stage, Moved, Passes, Step, Exec, HasAttempt, HasLinks, Achieved, CurrentOwner, AttemptAt,
         ToppedUp, Affordable, Bal, Plan, Waiting, Arrived, StartSent, FinalizeSent, SettleSent;
    sent := [];
    ghost var env, w0 := chain.env, chain.world;
    var stop, left := TopUp(chain, j, s, checker, leash.sends, pursued);
    ghost var w1 := chain.world;
    if pursued {
      MovedPursued(env, w0, w1, j, s, []);
      StageStopped(env, w1, j, s, left);
      Concluded(env, w0, w1, w1, j, s, leash, left, left, [], if left == 0 then Some(Stopped) else None);
    }
    if stop.Some? { return stop.value, []; }
    var rest, attempt;
    ghost var steps;
    stop, rest, attempt, sent := EnsureStarted(chain, j, s, checker, left, pursued);
    if pursued {
      StagePursued(env, w1, chain.world, j, s, left, rest, sent, stop);
      Concluded(env, w0, w1, chain.world, j, s, leash, left, rest, sent, stop);
    }
    if stop.Some? { return stop.value, sent; }
    AttemptIsBit(chain.env, chain.world, s, attempt);
    ghost var w2, between := chain.world, rest;
    stop, rest, steps := AppendMissing(chain, j, s, attempt, rest, pursued);
    if pursued {
      StagePursued(env, w2, chain.world, j, s, between, rest, steps, stop);
      StageThen(env, w1, w2, chain.world, j, s, left, between, rest, sent, steps, stop);
      Concluded(env, w0, w1, chain.world, j, s, leash, left, rest, sent + steps, stop);
    }
    sent := sent + steps;
    if stop.Some? { return stop.value, sent; }
    if pursued { Complete(env, chain.world, j, s); }
    ghost var w3 := chain.world;
    between := rest;
    stop, rest, steps := EnsureFinalized(chain, j, s, attempt, rest, pursued);
    if pursued {
      StagePursued(env, w3, chain.world, j, s, between, rest, steps, stop);
      StageThen(env, w1, w3, chain.world, j, s, left, between, rest, sent, steps, stop);
      Concluded(env, w0, w1, chain.world, j, s, leash, left, rest, sent + steps, stop);
    }
    sent := sent + steps;
    if stop.Some? { return stop.value, sent; }
    ghost var w4 := chain.world;
    between := rest;
    stop, rest, steps := AwaitAndSettle(chain, j, s, attempt, rest, leash.slots, pursued);
    if pursued {
      ghost var settled := if stop == GAVE_UP then None else stop;
      StageThen(env, w1, w4, chain.world, j, s, left, between, rest, sent, steps, settled);
      Concluded(env, w0, w1, chain.world, j, s, leash, left, rest, sent + steps, settled);
    }
    sent := sent + steps;
    outcome := if stop.Some? then stop.value else Completed;
  }

  lemma MovedPursued(env: Env, w: World, after: World, j: Job, s: Bytes32, sent: seq<Event>)
    requires Moved(env, w, after, j, s, sent)
    ensures Pursuing(env, after, j, s)
  {
    hide Pursuing, Plan;
  }

  lemma StagePursued(env: Env, w: World, after: World, j: Job, s: Bytes32, left: nat, rest: nat, sent: seq<Event>,
                     stop: Option<Outcome>)
    requires Stage(env, w, after, j, s, left, rest, sent, stop)
    ensures Pursuing(env, after, j, s)
  {
    hide Pursuing, Plan;
  }

  lemma AttemptIsBit(env: Env, w: World, s: Bytes32, a: byte)
    requires Inv(env, w) && HasAttempt(w, s, a)
    ensures a <= 1
  {
    hide Inv, SubInv;
    SubAt(env, w, s, a);
  }

  /** A complete attempt of a pursued check-in pays the coin's current owner. */
  lemma Complete(env: Env, w: World, j: Job, s: Bytes32)
    requires Pursuing(env, w, j, s) && HasAttempt(w, s, 0) && |w.coins[s].subs[0].states| >= |j.coin.states|
    ensures Stored(w, s) == |j.coin.states| && CurrentOwner(j.coin) == Ok(w.coins[s].subs[0].finalOwner)
  {
    hide Inv, WellChained, ValidCoin, CollisionFree, Anchored, I.BondAmount, ParseOwner;
    SubAt(env, w, s, 0);
    assert w.coins[s].subs[0].states == StatesIn(j.coin);
  }

  // ---- reruns

  /** A run that may send at least twice, once for tokens and once for a step, and may wait a whole window. */
  predicate LongEnough(leash: Leash, window: nat) { leash.sends >= 2 && leash.slots >= window }

  function Useful(leashes: seq<Leash>, window: nat): nat {
    if leashes == [] then 0
    else Useful(leashes[..|leashes| - 1], window) + if LongEnough(leashes[|leashes| - 1], window) then 1 else 0
  }

  /** As Expected, with room to mint on each of `runs` runs. */
  ghost predicate ExpectedRuns(env: Env, w: World, j: Job, checker: Bytes32, runs: nat) {
    && |j.coin.serial| == 32 && Pursuing(env, w, j, j.coin.serial) && checker == j.recipient
    && j.coin.serial in w.coins && Affordable(w, j.coin.serial, runs)
  }

  /** Runs the driver again and again, each run on its own leash. Over all runs exactly the first steps of
      the plan were sent; as many useful runs as there are steps bring the coin home. */
  method Rerun(chain: Cluster, j: Job, checker: Bytes32, leashes: seq<Leash>) returns (ghost sent: seq<Event>)
    requires Inv(chain.env, chain.world)
    modifies chain
    ensures Inv(chain.env, chain.world) && chain.taken == old(chain.taken) + sent
    ensures old(ExpectedRuns(chain.env, chain.world, j, checker, |leashes|)) ==>
      && Moved(chain.env, old(chain.world), chain.world, j, j.coin.serial, sent)
      && (Useful(leashes, old(chain.world.config.window)) >= |Plan(chain.env, old(chain.world), j, j.coin.serial)|
          ==> Arrived(chain.world, j.coin.serial))
  {
    hide Inv, Pursuing, Moved, Arrived, HasLinks, Achieved, Plan;
    sent := [];
    ghost var env, w0 := chain.env, chain.world;
    ghost var pursued := ExpectedRuns(env, w0, j, checker, |leashes|);
    if pursued { Unmoved(env, w0, j, j.coin.serial); }
    for i := 0 to |leashes|
      invariant Inv(env, chain.world) && chain.taken == old(chain.taken) + sent
      invariant pursued ==> Moved(env, w0, chain.world, j, j.coin.serial, sent)
      invariant pursued ==> ExpectedRuns(env, chain.world, j, checker, |leashes| - i)
      invariant pursued ==> Arrived(chain.world, j.coin.serial) || |sent| >= Useful(leashes[..i], w0.config.window)
    {
      ghost var before := chain.world;
      ghost var steps;
      assert leashes[..i + 1][..i] == leashes[..i];
      if pursued { OneMoreRun(env, before, j, checker, |leashes| - i); }
      var outcome;
      outcome, steps := RunCheckIn(chain, j, checker, leashes[i]);
      if pursued {
        RunCounted(env, w0, before, chain.world, j, checker, |leashes| - i, leashes[i], outcome, sent, steps);
      }
      sent := sent + steps;
    }
    assert leashes[..|leashes|] == leashes;
    if pursued { PlanDone(env, w0, chain.world, j, j.coin.serial, sent); }
  }

  lemma OneMoreRun(env: Env, w: World, j: Job, checker: Bytes32, runs: nat)
    requires ExpectedRuns(env, w, j, checker, runs) && runs >= 1
    ensures Expected(env, w, j, checker)
  {
    hide Pursuing;
    RunsCost(runs, Bond(w, j.coin.serial) + 500);
  }

  lemma RunCounted(env: Env, w0: World, w: World, after: World, j: Job, checker: Bytes32, runs: nat, leash: Leash,
                   outcome: Outcome, sent: seq<Event>, steps: seq<Event>)
    requires ExpectedRuns(env, w, j, checker, runs) && runs >= 1
    requires Moved(env, w0, w, j, j.coin.serial, sent)
    requires Achieved(env, w, after, j, j.coin.serial, leash, outcome, steps)
    ensures ExpectedRuns(env, after, j, checker, runs - 1) && Moved(env, w0, after, j, j.coin.serial, sent + steps)
    ensures LongEnough(leash, w0.config.window) ==> Arrived(after, j.coin.serial) || |steps| >= 1
    ensures Arrived(w, j.coin.serial) ==> Arrived(after, j.coin.serial)
  {
    hide Moved, Pursuing, Arrived, Bond;
    var s := j.coin.serial;
    MovedOn(env, w0, w, after, j, s, sent, steps);
    MovedPursued(env, w, after, j, s, steps);
    SameBond(env, w, after, j, s, steps);
    SameWindow(env, w0, w, j, s, sent);
    if Arrived(w, s) { HomeStays(env, w, after, j, s, steps); }
    RoomLeft(runs, Bond(w, s) + 500, w.minted, after.minted);
  }

  lemma RunsCost(runs: nat, step: nat)
    requires runs >= 1
    ensures runs * step >= step
  {}

  lemma RoomLeft(runs: nat, step: nat, before: nat, after: nat)
    requires runs >= 1 && before + runs * step <= U64_MAX && after <= before + step
    ensures after + (runs - 1) * step <= U64_MAX
  {
    assert runs * step == (runs - 1) * step + step;
  }

  lemma SameBond(env: Env, w: World, after: World, j: Job, s: Bytes32, sent: seq<Event>)
    requires Moved(env, w, after, j, s, sent)
    ensures s in w.coins && s in after.coins && Bond(after, s) == Bond(w, s)
  {
    hide Plan;
    PursuedBasics(env, w, j, s);
    PursuedBasics(env, after, j, s);
    hide Pursuing;
  }

  lemma HomeStays(env: Env, w: World, after: World, j: Job, s: Bytes32, sent: seq<Event>)
    requires Moved(env, w, after, j, s, sent) && Arrived(w, s)
    ensures Arrived(after, s)
  {
    hide Pursuing, AppendFrom;
  }

  /** Once as many steps are taken as were planned, the attempt is paid. */
  lemma PlanDone(env: Env, w: World, after: World, j: Job, s: Bytes32, sent: seq<Event>)
    requires Moved(env, w, after, j, s, sent)
    ensures HasLinks(j.coin) && 1 <= Stored(w, s) <= |j.coin.states|
    ensures |sent| >= |Plan(env, w, j, s)| ==> Arrived(after, s)
    ensures Arrived(after, s) ==> sent == Plan(env, w, j, s)
  {
    hide Pursuing, AppendFrom;
    assert |Plan(env, w, j, s)| == |sent| + |Plan(env, after, j, s)|;
  }

  /** Position of a step in a check-in. */
  function Rank(e: Event): int {
    match e
    case Start(_, _, _, _, _) => 0
    case Append(_, _, _, _, _) => 1
    case Finalize(_, _, _, _, _) => 2
    case Settle(_, _, _, _, _) => 3
    case _ => 4
  }

  /** A plan holds each kind of step at most once, in this order: over all reruns none is sent successfully twice. */
  lemma StepsOnce(env: Env, w: World, j: Job, s: Bytes32, i: nat, k: nat)
    requires HasLinks(j.coin) && 1 <= Stored(w, s) <= |j.coin.states|
    requires i < k < |Plan(env, w, j, s)|
    ensures |Plan(env, w, j, s)| <= 4 && Rank(Plan(env, w, j, s)[i]) < Rank(Plan(env, w, j, s)[k]) <= 3
  {
    hide HasLinks;
    var plan, finish := Plan(env, w, j, s), Settle(s, 0, 1, j.recipient, SETTLE_EXTRAS);
    if !Arrived(w, s) && !Waiting(w, s) {
      var starts := if HasAttempt(w, s, 0) then [] else [Start(s, 0, StatesIn(j.coin)[0], j.recipient, 0)];
      var appends := if Stored(w, s) < |j.coin.states| then [AppendFrom(env.hash, j.coin, s, Stored(w, s))] else [];
      assert plan == starts + appends + [Finalize(s, 0, 1, j.recipient, NO_EXTRAS)] + [finish];
      hide Plan;
      Ranked(starts, appends, Finalize(s, 0, 1, j.recipient, NO_EXTRAS), finish, i, k);
    }
  }

  lemma Ranked(starts: seq<Event>, appends: seq<Event>, finalize: Event, settle: Event, i: nat, k: nat)
    requires |starts| <= 1 && (starts != [] ==> starts[0].Start?) && |appends| <= 1
    requires (appends != [] ==> appends[0].Append?)
    requires finalize.Finalize? && settle.Settle?
    requires i < k < |starts + appends + [finalize] + [settle]|
    ensures var plan := starts + appends + [finalize] + [settle];
            |plan| <= 4 && Rank(plan[i]) < Rank(plan[k]) <= 3
  {}

  /** Home means: the coin is spent, the attempt has won, and the coin's current owner is the one who was paid. */
  lemma HomeIs(env: Env, w: World, j: Job, s: Bytes32)
    requires Pursuing(env, w, j, s) && Arrived(w, s)
    ensures w.coins[s].registry.status.Spent? && w.coins[s].subs[0].status.Won?
    ensures CurrentOwner(j.coin) == Ok(w.coins[s].subs[0].finalOwner)
  {
    PursuedBasics(env, w, j, s);
    NeverHere(env, w, j, s);
    Complete(env, w, j, s);
    hide Pursuing;
  }
}
