/** The steps a client still has to send for an uncontested check-in; each one succeeds and is then behind it. */
module Plans {
  import opened Bytes
  import opened Results
  import opened StateOps
  import opened Ledgers
  import opened Accounts
  import opened Machine
  import opened Invariant
  import opened Reachable
  import opened Progress
  import opened Payouts
  import opened Batches
  import opened Coins
  import opened ChainVerify
  import opened Agreement
  import Dispute
  import Precompile
  import I = Instructions

  const NO_EXTRAS := I.Extras(I.Skipped, I.Skipped, I.Skipped, I.Skipped)
  const SETTLE_EXTRAS := I.Extras(I.Skipped, I.Skipped, I.Skipped, I.Given)

  /** A coin to check in, the wallet it was minted to, and the signature check. */
  datatype Job = Job(coin: CoinCore, recipient: Bytes32, verify: Verifier)

  /** States stored so far: none counts as one, since start_check_in stores the first. */
  function Stored(w: World, s: Bytes32): nat {
    if HasAttempt(w, s, 0) then |w.coins[s].subs[0].states| else 1
  }

  /** The append call for all links from state `k` on. */
  ghost function AppendFrom(hash: Bytes -> Bytes32, c: CoinCore, s: Bytes32, k: nat): Event
    requires HasLinks(c) && 1 <= k <= |c.states|
  {
    Append(s, 0, ParseOwner(StatesIn(c)[k - 1]), LinksOf(c)[k - 1..], hash(Last(StatesIn(c))))
  }

  ghost predicate Open(env: Env, w: World, s: Bytes32) {
    s in w.coins && w.coins[s].registry.status.Active? && w.slot + w.config.window <= U64_MAX
  }

  /** Where the check-in of an uncontested coin can stand. */
  ghost predicate Standing(env: Env, w: World, c: CoinCore, s: Bytes32)
    requires HasLinks(c)
  {
    && s in w.coins && w.coins[s].subs.Keys <= {0}
    && if !HasAttempt(w, s, 0) then Open(env, w, s) && Bal(w.ledger, Escrow(s, 0)) == 0
       else
         var sub := w.coins[s].subs[0];
         match sub.status
         case Receiving => Open(env, w, s) && sub.states != [] && sub.states <= StatesIn(c)
         case Pending =>
           sub.states == StatesIn(c) && w.coins[s].head.since <= w.slot
           && w.coins[s].head.since + w.config.window <= U64_MAX
         case Won => sub.states == StatesIn(c)
         case _ => false
  }

  /** An uncontested check-in of a valid, anchored coin whose missing links fit one batch. */
  ghost predicate Pursuing(env: Env, w: World, j: Job, s: Bytes32) {
    && Inv(env, w) && ValidCoin(env.hash, j.verify, j.coin) && HasLinks(j.coin)
    && j.coin.serial == s && j.coin.scheme == ED25519
    && Standing(env, w, j.coin, s)
    && var reg := w.coins[s].registry;
       && reg.recipient == j.recipient && env.who(j.recipient).Wallet?
       && Anchored(env.hash, j.coin, Some(reg.genesis))
       && CollisionFree(env.hash, [StatesIn(j.coin)[0], Genesis(reg.serial, reg.value, reg.recipient)])
       && I.BondAmount(reg.value, w.config.bps).Ok? && w.config.sigScheme == 0
       && |j.coin.states| <= env.maxStates && |j.coin.states| - Stored(w, s) <= w.config.maxLinks
       && |j.coin.states| - Stored(w, s) <= Precompile.MAX_RECORDS
  }

  predicate Arrived(w: World, s: Bytes32) { HasAttempt(w, s, 0) && w.coins[s].subs[0].status.Won? }

  predicate Waiting(w: World, s: Bytes32) { HasAttempt(w, s, 0) && w.coins[s].subs[0].status.Pending? }

  /** What is still to be sent, in order. */
  ghost function Plan(env: Env, w: World, j: Job, s: Bytes32): seq<Event>
    requires HasLinks(j.coin) && 1 <= Stored(w, s) <= |j.coin.states|
  {
    if Arrived(w, s) then [] else
    var finish := [Settle(s, 0, 1, j.recipient, SETTLE_EXTRAS)];
    if Waiting(w, s) then finish else
    (if HasAttempt(w, s, 0) then [] else [Start(s, 0, StatesIn(j.coin)[0], j.recipient, 0)])
    + (if Stored(w, s) < |j.coin.states| then [AppendFrom(env.hash, j.coin, s, Stored(w, s))] else [])
    + [Finalize(s, 0, 1, j.recipient, NO_EXTRAS)] + finish
  }

  lemma StoredRange(env: Env, w: World, j: Job, s: Bytes32)
    requires Pursuing(env, w, j, s)
    ensures 1 <= Stored(w, s) <= |j.coin.states|
  {
    hide Inv, ValidCoin, CollisionFree, Anchored;
  }

  ghost predicate SameTerms(w: World, after: World, s: Bytes32) {
    && s in w.coins && s in after.coins && after.coins[s].registry.value == w.coins[s].registry.value
    && after.config.bps == w.config.bps && after.config.window == w.config.window && after.minted == w.minted
  }

  /** The next step is behind us: the plan is one shorter, everything else still holds. */
  ghost predicate Passes(env: Env, w: World, j: Job, s: Bytes32, e: Event) {
    && Step(env, w, e).Ok? && Pursuing(env, w, j, s) && Pursuing(env, Exec(env, w, e), j, s)
    && 1 <= Stored(w, s) <= |j.coin.states| && 1 <= Stored(Exec(env, w, e), s) <= |j.coin.states|
    && Plan(env, w, j, s) == [e] + Plan(env, Exec(env, w, e), j, s) && SameTerms(w, Exec(env, w, e), s)
  }

  /** What stays the same about the coin and the books while a check-in goes on. */
  lemma StaysPursued(env: Env, w: World, after: World, j: Job, s: Bytes32)
    requires Pursuing(env, w, j, s) && Inv(env, after) && Standing(env, after, j.coin, s)
    requires var next := after.coins[s].registry;
             next == w.coins[s].registry.(status := next.status, count := next.count)
    requires after.config == w.config.(supply := after.config.supply) && Stored(after, s) >= Stored(w, s)
    ensures Pursuing(env, after, j, s)
  {
    hide Inv, ValidCoin, CollisionFree, Standing, HasLinks, I.BondAmount;
  }

  lemma StartPasses(env: Env, w: World, j: Job, s: Bytes32)
    requires Pursuing(env, w, j, s) && !HasAttempt(w, s, 0)
    requires Bal(w.ledger, env.who(j.recipient)) >= I.BondOf(w.coins[s].registry.value, w.config.bps)
    ensures Passes(env, w, j, s, Start(s, 0, StatesIn(j.coin)[0], j.recipient, 0))
  {
    hide Inv, DoStart, Standing, ValidCoin, HasLinks, Anchored, CollisionFree, I.BondAmount, I.BondOf, Plan;
    StoredRange(env, w, j, s);
    StartSucceeds(env, w, j, s);
    var e := Start(s, 0, StatesIn(j.coin)[0], j.recipient, 0);
    StepKeeps(env, w, e);
    StartStands(env, w, j, s);
    StaysPursued(env, w, Exec(env, w, e), j, s);
    hide Pursuing;
    PlanFromStart(env, w, Exec(env, w, e), j, s);
  }

  lemma PlanFromStart(env: Env, w: World, after: World, j: Job, s: Bytes32)
    requires HasLinks(j.coin) && !HasAttempt(w, s, 0) && HasAttempt(after, s, 0) && Stored(after, s) == 1
    requires after.coins[s].subs[0].status.Receiving?
    ensures Plan(env, w, j, s) == [Start(s, 0, StatesIn(j.coin)[0], j.recipient, 0)] + Plan(env, after, j, s)
  {
    hide AppendFrom, HasLinks;
  }

  lemma StartSucceeds(env: Env, w: World, j: Job, s: Bytes32)
    requires Pursuing(env, w, j, s) && !HasAttempt(w, s, 0)
    requires Bal(w.ledger, env.who(j.recipient)) >= I.BondOf(w.coins[s].registry.value, w.config.bps)
    ensures DoStart(env, w, s, 0, StatesIn(j.coin)[0], j.recipient, 0).Ok?
  {
    hide Inv, SubInv, Shaped, ValidCoin, CollisionFree, I.BondOf, ParseSerial, ParseValue, ParseOwner, Genesis;
    CoinAt(env, w, s);
    var reg := w.coins[s].registry;
    assert w.coins[s].subs == map[];
    AnchoredStart(env.hash, j.verify, j.coin, reg);
    ParseFields(reg.serial, reg.value, reg.recipient, Zeros(32));
    GenesisParses(reg);
    TransferWithinSupply(w.ledger, env.who(j.recipient), Escrow(s, 0), I.BondOf(reg.value, w.config.bps));
  }

  lemma GenesisParses(reg: Registry)
    ensures var g := Genesis(reg.serial, reg.value, reg.recipient);
            ParseSerial(g) == reg.serial && ParseValue(g) == reg.value
  {
    ParseFields(reg.serial, reg.value, reg.recipient, Zeros(32));
  }

  lemma StartStands(env: Env, w: World, j: Job, s: Bytes32)
    requires Pursuing(env, w, j, s) && !HasAttempt(w, s, 0)
    requires DoStart(env, w, s, 0, StatesIn(j.coin)[0], j.recipient, 0).Ok?
    ensures var after := DoStart(env, w, s, 0, StatesIn(j.coin)[0], j.recipient, 0).value;
            && Standing(env, after, j.coin, s) && HasAttempt(after, s, 0) && Stored(after, s) == 1
            && after.coins[s].subs[0].status.Receiving? && after.config == w.config && SameTerms(w, after, s)
            && after.coins[s].registry == w.coins[s].registry.(count := after.coins[s].registry.count)
  {
    hide Inv, ValidCoin, CollisionFree, I.BondAmount, ParseSerial, ParseValue, ParseOwner;
  }

  lemma AppendPasses(env: Env, w: World, j: Job, s: Bytes32)
    requires Pursuing(env, w, j, s) && HasAttempt(w, s, 0) && w.coins[s].subs[0].status.Receiving?
    requires 1 <= Stored(w, s) < |j.coin.states|
    ensures Passes(env, w, j, s, AppendFrom(env.hash, j.coin, s, Stored(w, s)))
  {
    hide Inv, DoAppend, Standing, ValidCoin, HasLinks, Anchored, CollisionFree, I.BondAmount, I.BondOf, Plan;
    var e := AppendFrom(env.hash, j.coin, s, Stored(w, s));
    AppendSucceeds(env, w, j, s);
    StepKeeps(env, w, e);
    StaysPursued(env, w, Exec(env, w, e), j, s);
    hide Pursuing, AppendFrom;
    PlanFromAppend(env, w, Exec(env, w, e), j, s);
  }

  lemma PlanFromAppend(env: Env, w: World, after: World, j: Job, s: Bytes32)
    requires HasLinks(j.coin) && HasAttempt(w, s, 0) && HasAttempt(after, s, 0)
    requires w.coins[s].subs[0].status.Receiving? && after.coins[s].subs[0].status.Receiving?
    requires 1 <= Stored(w, s) < Stored(after, s) == |j.coin.states|
    ensures Plan(env, w, j, s) == [AppendFrom(env.hash, j.coin, s, Stored(w, s))] + Plan(env, after, j, s)
  {
    hide AppendFrom, HasLinks;
  }

  /** One call with all missing links of a valid coin completes the stored chain. */
  lemma AppendFills(env: Env, verify: Verifier, c: CoinCore, cfg: Config, reg: Registry, sub: Submission, k: nat)
    requires ValidCoin(env.hash, verify, c) && HasLinks(c) && c.serial == reg.serial && c.value == reg.value
    requires Ready(cfg, sub, reg.serial) && cfg.sigScheme == 0
    requires 1 <= k < |c.states| <= env.maxStates && sub.states == StatesIn(c)[..k] && sub.links == k - 1
    requires |c.states| - k <= cfg.maxLinks
    ensures var r := I.AppendLinks(env, cfg, reg, sub, reg.serial, ParseOwner(StatesIn(c)[k - 1]), LinksOf(c)[k - 1..],
                                   env.hash(Last(StatesIn(c))));
            r.Ok? && r.value.states == StatesIn(c) && r.value.status.Receiving?
  {
    hide ValidCoin, LinksOk, ParseOwner, ParseSerial, ParseValue, I.AppendLinks;
    var n := |c.states|;
    var links := LinksOf(c)[k - 1..n - 1];
    assert links == LinksOf(c)[k - 1..];
    ValidIsLinked(env.hash, verify, c, reg, k, n);
    OneBatch(env, cfg, reg, sub, reg.serial, links);
    assert links[|links| - 1].state == Last(StatesIn(c));
    assert sub.states + I.StatesOf(links) == StatesIn(c);
  }

  /** All missing links go in with one call. */
  lemma AppendSucceeds(env: Env, w: World, j: Job, s: Bytes32)
    requires Pursuing(env, w, j, s) && HasAttempt(w, s, 0) && w.coins[s].subs[0].status.Receiving?
    requires 1 <= Stored(w, s) < |j.coin.states|
    ensures var r := Step(env, w, AppendFrom(env.hash, j.coin, s, Stored(w, s)));
            && r.Ok? && Standing(env, r.value, j.coin, s) && HasAttempt(r.value, s, 0)
            && Stored(r.value, s) == |j.coin.states| && r.value.coins[s].subs[0].status.Receiving?
            && r.value.config == w.config && r.value.coins[s].registry == w.coins[s].registry
            && SameTerms(w, r.value, s)
  {
    hide Inv, CoinInv, Shaped, WellChained, ValidCoin, CollisionFree, Anchored, HasLinks, I.BondAmount, ParseOwner,
         I.AppendLinks;
    SubAt(env, w, s, 0);
    AnchoredCoin(env, w, j, s);
    CoinAt(env, w, s);
    assert StatesIn(j.coin)[..Stored(w, s)] == w.coins[s].subs[0].states;
    AppendFills(env, j.verify, j.coin, w.config, w.coins[s].registry, w.coins[s].subs[0], Stored(w, s));
  }

  /** The anchored coin carries the registry's serial and value. */
  lemma AnchoredCoin(env: Env, w: World, j: Job, s: Bytes32)
    requires Pursuing(env, w, j, s)
    ensures j.coin.serial == w.coins[s].registry.serial && j.coin.value == w.coins[s].registry.value
  {
    hide Inv, SubInv, Shaped, ValidCoin, CollisionFree, I.BondAmount, Genesis, ParseOwner;
    CoinAt(env, w, s);
    AnchoredStart(env.hash, j.verify, j.coin, w.coins[s].registry);
  }

  lemma FinalizePassesAlone(env: Env, w: World, j: Job, s: Bytes32)
    requires Pursuing(env, w, j, s) && HasAttempt(w, s, 0) && w.coins[s].subs[0].status.Receiving?
    requires Stored(w, s) == |j.coin.states|
    ensures Passes(env, w, j, s, Finalize(s, 0, 1, j.recipient, NO_EXTRAS))
    ensures Exec(env, w, Finalize(s, 0, 1, j.recipient, NO_EXTRAS)).slot == w.slot
  {
    hide Inv, DoFinalize, Standing, ValidCoin, HasLinks, Anchored, CollisionFree, I.BondAmount, I.BondOf, Plan;
    var e := Finalize(s, 0, 1, j.recipient, NO_EXTRAS);
    FinalizeSucceeds(env, w, j, s);
    StepKeeps(env, w, e);
    StoredRange(env, w, j, s);
    StaysPursued(env, w, Exec(env, w, e), j, s);
    hide Pursuing;
    PlanFromFinalize(env, w, Exec(env, w, e), j, s);
  }

  lemma PlanFromFinalize(env: Env, w: World, after: World, j: Job, s: Bytes32)
    requires HasLinks(j.coin) && HasAttempt(w, s, 0) && w.coins[s].subs[0].status.Receiving?
    requires Waiting(after, s) && Stored(w, s) == |j.coin.states| == Stored(after, s)
    ensures Plan(env, w, j, s) == [Finalize(s, 0, 1, j.recipient, NO_EXTRAS)] + Plan(env, after, j, s)
  {
    hide AppendFrom, HasLinks;
  }

  /** Alone on its coin, a submission becomes the head; no further account is needed for that. */
  lemma FinalizeSucceeds(env: Env, w: World, j: Job, s: Bytes32)
    requires Pursuing(env, w, j, s) && HasAttempt(w, s, 0) && w.coins[s].subs[0].status.Receiving?
    requires Stored(w, s) == |j.coin.states|
    ensures var r := Step(env, w, Finalize(s, 0, 1, j.recipient, NO_EXTRAS));
            && r.Ok? && Standing(env, r.value, j.coin, s) && Waiting(r.value, s) && r.value.slot == w.slot
            && Stored(r.value, s) == |j.coin.states| && r.value.config == w.config
            && r.value.coins[s].registry == w.coins[s].registry && SameTerms(w, r.value, s)
  {
    hide Inv, CoinInv, SubInv, ValidCoin, CollisionFree, Anchored, I.BondAmount, I.VerifyFullChain;
    SubAt(env, w, s, 0);
    AloneUnheaded(env, w, s);
    FinalizePasses(env, w, s, 0);
  }

  lemma AloneUnheaded(env: Env, w: World, s: Bytes32)
    requires Inv(env, w) && HasAttempt(w, s, 0) && w.coins[s].subs.Keys <= {0} && w.coins[s].subs[0].status.Receiving?
    ensures Unheaded(w.coins[s])
  {
    hide Inv, SubInv, Genesis;
    CoinAt(env, w, s);
  }

  lemma SettlePassesAlone(env: Env, w: World, j: Job, s: Bytes32)
    requires Pursuing(env, w, j, s) && Waiting(w, s)
    requires w.slot >= w.coins[s].head.since + w.config.window
    ensures Passes(env, w, j, s, Settle(s, 0, 1, j.recipient, SETTLE_EXTRAS))
    ensures Arrived(Exec(env, w, Settle(s, 0, 1, j.recipient, SETTLE_EXTRAS)), s)
  {
    hide Inv, DoSettle, Standing, ValidCoin, HasLinks, Anchored, CollisionFree, I.BondAmount, I.BondOf, Plan;
    var e := Settle(s, 0, 1, j.recipient, SETTLE_EXTRAS);
    SettleSucceeds(env, w, j, s);
    StepKeeps(env, w, e);
    StoredRange(env, w, j, s);
    StaysPursued(env, w, Exec(env, w, e), j, s);
    hide Pursuing;
    PlanFromSettle(env, w, Exec(env, w, e), j, s);
  }

  lemma PlanFromSettle(env: Env, w: World, after: World, j: Job, s: Bytes32)
    requires HasLinks(j.coin) && Waiting(w, s) && Arrived(after, s)
    requires 1 <= Stored(w, s) <= |j.coin.states| && 1 <= Stored(after, s) <= |j.coin.states|
    ensures Plan(env, w, j, s) == [Settle(s, 0, 1, j.recipient, SETTLE_EXTRAS)] + Plan(env, after, j, s)
  {
    hide AppendFrom, HasLinks;
  }

  lemma SettleSucceeds(env: Env, w: World, j: Job, s: Bytes32)
    requires Pursuing(env, w, j, s) && Waiting(w, s)
    requires w.slot >= w.coins[s].head.since + w.config.window
    ensures var r := Step(env, w, Settle(s, 0, 1, j.recipient, SETTLE_EXTRAS));
            && r.Ok? && Standing(env, r.value, j.coin, s) && Arrived(r.value, s)
            && Stored(r.value, s) == Stored(w, s) && r.value.config == w.config.(supply := r.value.config.supply)
            && r.value.coins[s].registry == w.coins[s].registry.(status := Spent) && SameTerms(w, r.value, s)
  {
    hide Inv, CoinInv, SubInv, ValidCoin, CollisionFree, Anchored, I.BondAmount, I.SettlePayOut, SettleMoves;
    SubAt(env, w, s, 0);
    CoinAt(env, w, s);
    SettlePasses(env, w, s, 0, SETTLE_EXTRAS);
    SettleEffect(env, Load(w, s, 0), SETTLE_EXTRAS);
  }

  /** New tokens and passing time leave a pursued check-in where it is. */
  lemma BesidePursued(env: Env, w: World, j: Job, s: Bytes32, e: Event)
    requires Pursuing(env, w, j, s) && Step(env, w, e).Ok?
    requires (e.Issue? && !e.to.Escrow?) || (e.Tick? && Waiting(w, s))
    ensures var after := Exec(env, w, e);
            && Pursuing(env, after, j, s) && 1 <= Stored(w, s) <= |j.coin.states|
            && after.coins == w.coins && after.config == w.config
            && Stored(after, s) == Stored(w, s) && Plan(env, after, j, s) == Plan(env, w, j, s)
  {
    hide Inv, ValidCoin, CollisionFree, Anchored, HasLinks, I.BondAmount, AppendFrom, Ledgers.Transfer;
    StepKeeps(env, w, e);
    StoredRange(env, w, j, s);
    StaysPursued(env, w, Exec(env, w, e), j, s);
  }

  /** The states of an anchored coin are all different, and so are their hashes. */
  lemma DistinctStates(hash: Bytes -> Bytes32, verify: Verifier, c: CoinCore, reg: Registry, i: nat, j: nat)
    requires ValidCoin(hash, verify, c) && HasLinks(c) && Minted(hash, reg) && Anchored(hash, c, Some(reg.genesis))
    requires c.serial == reg.serial && c.value == reg.value && i < |c.states| && j < |c.states|
    requires CollisionFree(hash, Dispute.Disputed(reg, StatesIn(c), StatesIn(c)))
    requires hash(StatesIn(c)[i]) == hash(StatesIn(c)[j])
    ensures i == j
  {
    hide ValidCoin, WellChained, Anchored, HasLinks, Genesis;
    var states := StatesIn(c);
    var all := Dispute.Disputed(reg, states, states);
    assert states[i] in all && states[j] in all;
    hide Dispute.Disputed, CollisionFree;
    CoinWellChained(hash, verify, c, reg);
    Dispute.SamePosition(hash, reg, states, states, i, j);
  }

  lemma CoinWellChained(hash: Bytes -> Bytes32, verify: Verifier, c: CoinCore, reg: Registry)
    requires ValidCoin(hash, verify, c) && HasLinks(c) && Anchored(hash, c, Some(reg.genesis))
    requires c.serial == reg.serial && c.value == reg.value
    ensures WellChained(hash, reg, StatesIn(c))
  {
    ValidIsLinked(hash, verify, c, reg, 1, |c.states|);
    assert [StatesIn(c)[0]] + I.StatesOf(LinksOf(c)[0..|c.states| - 1]) == StatesIn(c);
    assert Carries(c, c.states[0]);
    hide LinksOk, ParseSerial, ParseValue, ParsePrevHash;
  }

  /** The driver always names the hash of the coin's very last state, so its append call is accepted exactly when the
      batch reaches that state: when all missing links fit one call. Otherwise only that hash is at fault. */
  lemma DriverAppendIff(env: Env, verify: Verifier, c: CoinCore, cfg: Config, reg: Registry, sub: Submission, k: nat)
    requires ValidCoin(env.hash, verify, c) && HasLinks(c) && Minted(env.hash, reg)
    requires Anchored(env.hash, c, Some(reg.genesis))
    requires c.serial == reg.serial && c.value == reg.value
    requires CollisionFree(env.hash, Dispute.Disputed(reg, StatesIn(c), StatesIn(c)))
    requires Ready(cfg, sub, reg.serial) && cfg.sigScheme == 0 && cfg.maxLinks >= 1
    requires 1 <= k < |c.states| <= env.maxStates && sub.states == StatesIn(c)[..k] && sub.links == k - 1
    ensures var batch := if |c.states| - k <= cfg.maxLinks then |c.states| - k else cfg.maxLinks;
            var r := I.AppendLinks(env, cfg, reg, sub, reg.serial, ParseOwner(StatesIn(c)[k - 1]),
                                   LinksOf(c)[k - 1..k - 1 + batch],
                                   env.hash(Last(StatesIn(c))));
            && (r.Ok? <==> |c.states| - k <= cfg.maxLinks)
            && (r.Err? ==> r.error == LastHashMismatch)
  {
    hide ValidCoin, LinksOk, CollisionFree, Dispute.Disputed, ParseOwner, I.AppendLinks, Minted, Anchored, HasLinks,
         Genesis;
    var batch := if |c.states| - k <= cfg.maxLinks then |c.states| - k else cfg.maxLinks;
    var m := k + batch;
    var links := LinksOf(c)[k - 1..m - 1];
    ValidIsLinked(env.hash, verify, c, reg, k, m);
    if env.hash(StatesIn(c)[m - 1]) == env.hash(Last(StatesIn(c))) {
      DistinctStates(env.hash, verify, c, reg, m - 1, |c.states| - 1);
    }
    assert links[batch - 1].state == StatesIn(c)[m - 1];
    LastHashDecides(env, cfg, reg, sub, links, env.hash(Last(StatesIn(c))));
  }

  /** Of links that are otherwise fine, append_links takes exactly those that end at the announced hash. */
  lemma LastHashDecides(env: Env, cfg: Config, reg: Registry, sub: Submission, links: seq<Link>, lastHash: Bytes32)
    requires Ready(cfg, sub, reg.serial) && cfg.sigScheme == 0 && 1 <= |links| <= cfg.maxLinks
    requires |sub.states| + |links| <= env.maxStates && sub.links < |sub.states|
    requires LinksOk(env.hash, reg, [Last(sub.states)] + I.StatesOf(links))
    ensures var r := I.AppendLinks(env, cfg, reg, sub, reg.serial, ParseOwner(Last(sub.states)), links, lastHash);
            && (r.Ok? <==> env.hash(links[|links| - 1].state) == lastHash)
            && (r.Err? ==> r.error == LastHashMismatch)
  {
    CheckLinksIff(env.hash, cfg.sigScheme, reg, Last(sub.states), links);
    hide LinksOk, ParseOwner, I.CheckLinks;
  }
}
