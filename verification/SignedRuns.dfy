/** From signature records to whole runs: a chain stored through vouched transactions is a valid coin for the client. */
module SignedRuns {
  import opened Bytes
  import opened Results
  import opened StateOps
  import opened Accounts
  import opened Machine
  import opened Invariant
  import opened Reachable
  import opened History
  import opened Coins
  import opened ChainVerify
  import opened Agreement
  import opened Precompile
  import opened AppendWire
  import opened Plans
  import I = Instructions

  /** The transaction of an append event: the precompile instruction `ed` built for it passes over its data. */
  ghost predicate VouchedBy(verify: Verifier, disc: Bytes, e: Event, ed: Bytes)
    requires e.Append?
  {
    && |disc| == 8 && 1 <= |e.newLinks| <= MAX_RECORDS && Encodes(ed, Records(|e.newLinks|))
    && Accepts(verify, [ed, AppendData(disc, e.serial, e.headOwner, e.newLinks, e.lastHash)], ed)
  }

  ghost predicate Vouched(verify: Verifier, disc: Bytes, e: Event) {
    e.Append? ==> exists ed :: VouchedBy(verify, disc, e, ed)
  }

  ghost predicate AllSigned(hash: Bytes -> Bytes32, verify: Verifier, first: State, links: seq<Link>) {
    forall i :: 0 <= i < |links| ==> LinkSigned(hash, verify, first, links, i)
  }

  lemma AllSignedConcat(hash: Bytes -> Bytes32, verify: Verifier, first: State, a: seq<Link>, b: seq<Link>)
    requires AllSigned(hash, verify, first, a)
    requires AllSigned(hash, verify, if a == [] then first else a[|a| - 1].state, b)
    ensures AllSigned(hash, verify, first, a + b)
  {
    hide SigOk, ParseOwner;
    forall i | 0 <= i < |a + b| ensures LinkSigned(hash, verify, first, a + b, i) {
      assert if i < |a| then LinkSigned(hash, verify, first, a, i)
             else LinkSigned(hash, verify, if a == [] then first else a[|a| - 1].state, b, i - |a|);
    }
  }

  /** An accepted, vouched append adds signed links only. */
  lemma VouchedAppend(env: Env, verify: Verifier, disc: Bytes, w: World, e: Event)
    requires e.Append? && Vouched(verify, disc, e) && Step(env, w, e).Ok?
    ensures HasAttempt(w, e.serial, e.attempt) && w.coins[e.serial].subs[e.attempt].states != []
    ensures AllSigned(env.hash, verify, Last(w.coins[e.serial].subs[e.attempt].states), e.newLinks)
  {
    hide I.AppendLinks, AppendData, Accepts, Encodes, LinkSigned, ReadAppend;
    var ed :| VouchedBy(verify, disc, e, ed);
    var coin, data := w.coins[e.serial], AppendData(disc, e.serial, e.headOwner, e.newLinks, e.lastHash);
    AppendRoundTrip(disc, e.serial, e.headOwner, e.newLinks, e.lastHash);
    SignatureCoverage(env, verify, w.config, coin.registry, coin.subs[e.attempt], ed, data);
  }

  /** The attempt's links are the given ones, all signed. */
  ghost predicate Signed(env: Env, verify: Verifier, w: World, s: Bytes32, a: byte, links: seq<Link>) {
    && Stores(env, w, s, a, links)
    && (HasAttempt(w, s, a) ==> AllSigned(env.hash, verify, w.coins[s].subs[a].states[0], links))
  }

  lemma StepSigned(env: Env, verify: Verifier, disc: Bytes, w: World, e: Event, s: Bytes32, a: byte, links: seq<Link>)
    requires Inv(env, w) && Signed(env, verify, w, s, a, links)
    requires StepLinks(env, w, e, s, a) != [] ==> Vouched(verify, disc, e)
    ensures Signed(env, verify, Exec(env, w, e), s, a, links + StepLinks(env, w, e, s, a))
  {
    hide Inv, DoMint, DoStart, DoFinalize, DoSettle, DoOutside, DoSetCap, I.AppendLinks, Vouched, LinkSigned;
    var step := StepLinks(env, w, e, s, a);
    StepStores(env, w, e, s, a, links);
    if step != [] {
      VouchedAppend(env, verify, disc, w, e);
      var states := w.coins[s].subs[a].states;
      assert Last(states) == if links == [] then states[0] else links[|links| - 1].state;
      AllSignedConcat(env.hash, verify, states[0], links, step);
      FirstStays(env, w, e, s, a);
    } else {
      assert links + step == links;
      if HasAttempt(w, s, a) {
        FirstStays(env, w, e, s, a);
      }
    }
  }

  lemma FirstStays(env: Env, w: World, e: Event, s: Bytes32, a: byte)
    requires Inv(env, w) && HasAttempt(w, s, a)
    ensures HasAttempt(Exec(env, w, e), s, a) && w.coins[s].subs[a].states != []
    ensures w.coins[s].subs[a].states <= Exec(env, w, e).coins[s].subs[a].states
  {
    hide Inv, Exec, Step, Evolution.Measure;
    Evolution.StepEvolves(env, w, e, s);
    SubAt(env, w, s, a);
  }

  /** Every append call of the run that stored links for attempt `a` of coin `s` came with a passing precompile. */
  ghost predicate DeliveryVouched(env: Env, verify: Verifier, disc: Bytes, w: World, events: seq<Event>, s: Bytes32,
                                  a: byte)
    decreases |events|
  {
    events == []
    || ((StepLinks(env, w, events[0], s, a) != [] ==> Vouched(verify, disc, events[0]))
        && DeliveryVouched(env, verify, disc, Exec(env, w, events[0]), events[1..], s, a))
  }

  lemma {:induction false} RunSigned(env: Env, verify: Verifier, disc: Bytes, w: World, events: seq<Event>, s: Bytes32,
                                     a: byte, links: seq<Link>)
    requires Inv(env, w) && Signed(env, verify, w, s, a, links) && DeliveryVouched(env, verify, disc, w, events, s, a)
    ensures Signed(env, verify, Run(env, w, events), s, a, links + Delivered(env, w, events, s, a))
    decreases |events|
  {
    hide Inv, Exec, Signed, StepLinks, Vouched;
    if events == [] {
      assert links + [] == links;
    } else {
      var next, step := Exec(env, w, events[0]), StepLinks(env, w, events[0], s, a);
      StepKeeps(env, w, events[0]);
      StepSigned(env, verify, disc, w, events[0], s, a, links);
      RunSigned(env, verify, disc, next, events[1..], s, a, links + step);
      var rest := Delivered(env, next, events[1..], s, a);
      assert links + step + rest == links + (step + rest);
    }
  }

  function SigsOf(links: seq<Link>): seq<Bytes> {
    seq(|links|, i requires 0 <= i < |links| => links[i].sig)
  }

  /** The stored attempt and the signatures that came with its links, as a coin of the client. */
  ghost function StoredCoin(w: World, s: Bytes32, a: byte, links: seq<Link>): CoinCore
    requires HasAttempt(w, s, a)
  {
    AsCoin(w.coins[s].registry, w.coins[s].subs[a].states, SigsOf(links))
  }

  /** The first stored state and the minted one do not collide. */
  ghost predicate FirstUnique(env: Env, w: World, s: Bytes32, a: byte)
    requires HasAttempt(w, s, a)
  {
    var reg, states := w.coins[s].registry, w.coins[s].subs[a].states;
    states != [] ==> CollisionFree(env.hash, [states[0], Genesis(reg.serial, reg.value, reg.recipient)])
  }

  /** A chain stored by any run, with the signatures it was sent with, passes the client's verification exactly when
      every link was signed; the anchor always holds. The program itself never looks at a signature. */
  lemma StoredChainsVerifyIff(env: Env, verify: Verifier, start: World, events: seq<Event>, s: Bytes32, a: byte)
    requires Initial(start) && HasAttempt(Run(env, start, events), s, a)
    requires FirstUnique(env, Run(env, start, events), s, a)
    ensures var w, links := Run(env, start, events), Delivered(env, start, events, s, a);
            && w.coins[s].subs[a].states != []
            && Anchored(env.hash, StoredCoin(w, s, a, links), Some(w.coins[s].registry.genesis))
            && (ValidCoin(env.hash, verify, StoredCoin(w, s, a, links))
                <==> AllSigned(env.hash, verify, w.coins[s].subs[a].states[0], links))
  {
    hide Inv, Run, Delivered, ValidCoin, Anchored, FirstUnique, AllSigned;
    InitialInv(env, start);
    RunKeeps(env, start, events);
    StoredIsDelivered(env, start, events, s, a);
    ValidExactlySigned(env, verify, Run(env, start, events), s, a, Delivered(env, start, events, s, a));
  }

  lemma ValidExactlySigned(env: Env, verify: Verifier, w: World, s: Bytes32, a: byte, links: seq<Link>)
    requires Inv(env, w) && HasAttempt(w, s, a) && Stores(env, w, s, a, links) && FirstUnique(env, w, s, a)
    ensures w.coins[s].subs[a].states != []
    ensures Anchored(env.hash, StoredCoin(w, s, a, links), Some(w.coins[s].registry.genesis))
    ensures ValidCoin(env.hash, verify, StoredCoin(w, s, a, links))
       <==> AllSigned(env.hash, verify, w.coins[s].subs[a].states[0], links)
  {
    hide Inv, ValidCoin, Broken, Genesis, CollisionFree, WellChained, I.BondAmount, ParseOwner, AllSigned;
    SubAt(env, w, s, a);
    AnchorOfStored(env, w, s, a);
    var reg, states, c := w.coins[s].registry, w.coins[s].subs[a].states, StoredCoin(w, s, a, links);
    if AllSigned(env.hash, verify, states[0], links) {
      forall e: ChainError ensures !Broken(env.hash, verify, c, Some(reg.genesis), e) {
        if e.BadSig? {
          SignedUnbroken(env.hash, verify, reg, states, links, e.at);
        } else {
          ProgramPassesClient(env, verify, w, s, a, SigsOf(links), e);
        }
      }
      AcceptsValid(env.hash, verify, c, Some(reg.genesis));
    }
    if ValidCoin(env.hash, verify, c) {
      ValidIsSigned(env.hash, verify, reg, states, links);
    }
  }

  lemma AnchorOfStored(env: Env, w: World, s: Bytes32, a: byte)
    requires Inv(env, w) && HasAttempt(w, s, a)
    ensures w.coins[s].subs[a].states != [] && env.hash(w.coins[s].subs[a].states[0]) == w.coins[s].registry.genesis
  {
    hide Inv, LinksOk, I.BondAmount;
    SubAt(env, w, s, a);
  }

  lemma ValidIsSigned(hash: Bytes -> Bytes32, verify: Verifier, reg: Registry, states: seq<State>, links: seq<Link>)
    requires states != [] && states == [states[0]] + I.StatesOf(links)
    requires ValidCoin(hash, verify, AsCoin(reg, states, SigsOf(links)))
    ensures AllSigned(hash, verify, states[0], links)
  {
    hide SigOk, ParseOwner, ParsePrevHash, ParseSerial, ParseValue;
    var c := AsCoin(reg, states, SigsOf(links));
    forall i | 0 <= i < |links| ensures LinkSigned(hash, verify, states[0], links, i) {
      assert Follows(hash, verify, c.states[i], c.states[i + 1], c.sigs[i]);
      assert states[i] == Before(states[0], links, i) && states[i + 1] == links[i].state;
    }
  }

  /** If the calls that delivered its links came with a passing precompile, a stored chain is valid for the client. */
  lemma StoredChainsVerify(env: Env, verify: Verifier, disc: Bytes, start: World, events: seq<Event>, s: Bytes32,
                           a: byte)
    requires Initial(start) && DeliveryVouched(env, verify, disc, start, events, s, a)
    requires HasAttempt(Run(env, start, events), s, a) && FirstUnique(env, Run(env, start, events), s, a)
    ensures var w := Run(env, start, events);
            ValidCoin(env.hash, verify, StoredCoin(w, s, a, Delivered(env, start, events, s, a)))
  {
    hide Inv, Run, Delivered, DeliveryVouched, ValidCoin, FirstUnique, AllSigned;
    InitialInv(env, start);
    RunSigned(env, verify, disc, start, events, s, a, []);
    assert [] + Delivered(env, start, events, s, a) == Delivered(env, start, events, s, a);
    StoredChainsVerifyIff(env, verify, start, events, s, a);
  }

  /** Under scheme 0 append_links treats links alike that differ in their signatures only: it asks for none to be valid.
      */
  lemma SignaturesUnread(env: Env, cfg: Config, reg: Registry, sub: Submission, serial: Bytes32, headOwner: Bytes32,
                         links: seq<Link>, other: seq<Link>, lastHash: Bytes32)
    requires cfg.sigScheme == 0 && |links| == |other|
    requires forall i :: 0 <= i < |links| ==> links[i].state == other[i].state
    ensures var r, q := I.AppendLinks(env, cfg, reg, sub, serial, headOwner, links, lastHash),
                        I.AppendLinks(env, cfg, reg, sub, serial, headOwner, other, lastHash);
            && (r.Ok? <==> q.Ok?) && (r.Err? ==> r == q)
            && (r.Ok? ==> r.value == q.value.(commits := sub.commits + I.CommitsOf(env.hash, links)))
  {
    if sub.states != [] {
      SameChecks(env.hash, reg, Last(sub.states), links, other);
    }
    assert I.StatesOf(links) == I.StatesOf(other);
    hide I.CheckLinks, ParseOwner;
  }

  lemma {:induction false} SameChecks(hash: Bytes -> Bytes32, reg: Registry, prev: State, links: seq<Link>,
                                      other: seq<Link>)
    requires |links| == |other| && forall i :: 0 <= i < |links| ==> links[i].state == other[i].state
    ensures I.CheckLinks(hash, 0, reg, prev, links) == I.CheckLinks(hash, 0, reg, prev, other)
    decreases |links|
  {
    if links != [] {
      SameChecks(hash, reg, links[0].state, links[1..], other[1..]);
    }
  }

  lemma SignedUnbroken(hash: Bytes -> Bytes32, verify: Verifier, reg: Registry, states: seq<State>, links: seq<Link>,
                       i: nat)
    requires states != [] && states == [states[0]] + I.StatesOf(links) && AllSigned(hash, verify, states[0], links)
    ensures !Broken(hash, verify, AsCoin(reg, states, SigsOf(links)), Some(reg.genesis), BadSig(i))
  {
    hide SigOk, ParseOwner;
    if i < |links| {
      assert LinkSigned(hash, verify, states[0], links, i);
    }
  }

  /** The other way round: the append transaction a client plans for a valid coin always passes the precompile. */
  lemma PlannedAppendVouched(env: Env, w: World, j: Job, s: Bytes32, disc: Bytes, ed: Bytes)
    requires Pursuing(env, w, j, s) && HasAttempt(w, s, 0) && w.coins[s].subs[0].status.Receiving?
    requires 1 <= Stored(w, s) < |j.coin.states| && |disc| == 8
    requires Encodes(ed, Records(|j.coin.states| - Stored(w, s)))
    ensures VouchedBy(j.verify, disc, AppendFrom(env.hash, j.coin, s, Stored(w, s)), ed)
  {
    hide Inv, I.AppendLinks, AppendData, Accepts, Encodes, LinkSigned, ReadAppend, Records, HasLinks, CollisionFree,
         Anchored, I.BondAmount;
    var e, coin, k := AppendFrom(env.hash, j.coin, s, Stored(w, s)), w.coins[s], Stored(w, s);
    AppendSucceeds(env, w, j, s);
    var data := AppendData(disc, s, e.headOwner, e.newLinks, e.lastHash);
    AppendRoundTrip(disc, s, e.headOwner, e.newLinks, e.lastHash);
    forall i | 0 <= i < |e.newLinks|
      ensures LinkSigned(env.hash, j.verify, Last(coin.subs[0].states), e.newLinks, i)
    {
      NextSigned(env.hash, j.verify, j.coin, k, i);
    }
    hide ValidCoin;
    SignatureCoverage(env, j.verify, w.config, coin.registry, coin.subs[0], ed, data);
  }

  lemma NextSigned(hash: Bytes -> Bytes32, verify: Verifier, c: CoinCore, k: nat, i: nat)
    requires ValidCoin(hash, verify, c) && HasLinks(c) && 1 <= k && k + i < |c.states|
    ensures LinkSigned(hash, verify, StatesIn(c)[k - 1], LinksOf(c)[k - 1..], i)
  {
    hide SigOk, ParseOwner, ParsePrevHash;
    assert Follows(hash, verify, c.states[k - 1 + i], c.states[k + i], c.sigs[k - 1 + i]);
  }
}
