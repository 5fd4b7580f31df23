/** What is stored for an attempt is what its append calls delivered, nothing more and nothing less. */
module History {
  import opened Bytes
  import opened StateOps
  import opened Accounts
  import opened Machine
  import opened Invariant
  import opened Reachable
  import opened Evolution
  import opened Batches
  import I = Instructions

  /** The links a step stores for attempt `a` of coin `s`. */
  function StepLinks(env: Env, w: World, e: Event, s: Bytes32, a: byte): seq<Link> {
    if e.Append? && e.serial == s && e.attempt == a && Step(env, w, e).Ok? then e.newLinks else []
  }

  ghost function Delivered(env: Env, w: World, events: seq<Event>, s: Bytes32, a: byte): seq<Link>
    decreases |events|
  {
    if events == [] then []
    else StepLinks(env, w, events[0], s, a) + Delivered(env, Exec(env, w, events[0]), events[1..], s, a)
  }

  /** Attempt `a` of coin `s` stores its first state and then exactly `links`, each with its commitment. */
  ghost predicate Stores(env: Env, w: World, s: Bytes32, a: byte, links: seq<Link>) {
    if HasAttempt(w, s, a) then
      var sub := w.coins[s].subs[a];
      && sub.states != [] && sub.states == [sub.states[0]] + I.StatesOf(links)
      && sub.commits == [Zeros(32)] + I.CommitsOf(env.hash, links)
    else links == []
  }

  /** Beside append, only start_check_in writes states, and it writes the first one. */
  lemma OthersKeepChain(env: Env, w: World, e: Event, s: Bytes32, a: byte)
    requires Inv(env, w) && !(e.Append? && e.serial == s && e.attempt == a) && HasAttempt(Exec(env, w, e), s, a)
    ensures var sub := Exec(env, w, e).coins[s].subs[a];
            if HasAttempt(w, s, a) then sub.states == w.coins[s].subs[a].states
                                        && sub.commits == w.coins[s].subs[a].commits
            else sub.states != [] && sub.states == [sub.states[0]] && sub.commits == [Zeros(32)]
  {
    hide Inv, DoMint, DoFinalize, DoSettle, I.AppendLinks, I.BondAmount, ParseOwner, ParseSerial, ParseValue, Advances;
    if Step(env, w, e).Ok? {
      match e
      case Mint(authority, t, value, recipient, genesis) =>
        MintUnattempted(env, w, authority, t, value, recipient, genesis);
      case Finalize(t, b, other, recipient, x) =>
        FinalizeElsewhere(env, w, t, b, other, recipient, x, s);
        FinalizeAdvances(env, w, t, b, other, recipient, x);
      case Settle(t, b, other, recipient, x) =>
        SettleElsewhere(env, w, t, b, other, recipient, x, s);
        SettleAdvances(env, w, t, b, other, recipient, x);
      case _ =>
    }
  }

  lemma MintUnattempted(env: Env, w: World, authority: Bytes32, s: Bytes32, value: u64, recipient: Bytes32,
                        genesis: Bytes32)
    requires DoMint(env, w, authority, s, value, recipient, genesis).Ok?
    ensures var after := DoMint(env, w, authority, s, value, recipient, genesis).value;
            s !in w.coins && s in after.coins && after.coins == w.coins[s := after.coins[s]]
            && after.coins[s].subs == map[]
  {
    hide Genesis;
  }

  lemma AppendStores(env: Env, w: World, s: Bytes32, a: byte, headOwner: Bytes32, newLinks: seq<Link>,
                     lastHash: Bytes32, links: seq<Link>)
    requires DoAppend(env, w, s, a, headOwner, newLinks, lastHash).Ok? && Stores(env, w, s, a, links)
    ensures Stores(env, DoAppend(env, w, s, a, headOwner, newLinks, lastHash).value, s, a, links + newLinks)
  {
    hide I.CheckLinks, ParseOwner;
    StatesOfConcat(links, newLinks);
    CommitsOfConcat(env.hash, links, newLinks);
  }

  lemma StepStores(env: Env, w: World, e: Event, s: Bytes32, a: byte, links: seq<Link>)
    requires Inv(env, w) && Stores(env, w, s, a, links)
    ensures Stores(env, Exec(env, w, e), s, a, links + StepLinks(env, w, e, s, a))
  {
    hide Inv, DoMint, DoStart, DoAppend, DoFinalize, DoSettle, DoOutside, DoSetCap, Advances;
    if e.Append? && e.serial == s && e.attempt == a && Step(env, w, e).Ok? {
      AppendStores(env, w, s, a, e.headOwner, e.newLinks, e.lastHash, links);
    } else {
      assert links + [] == links;
      if HasAttempt(Exec(env, w, e), s, a) {
        if Step(env, w, e).Ok? { OthersKeepChain(env, w, e, s, a); }
      } else if HasAttempt(w, s, a) {
        StepEvolves(env, w, e, s);
        Kept(env, w, e, s, a);
      }
    }
  }

  lemma Kept(env: Env, w: World, e: Event, s: Bytes32, a: byte)
    requires Inv(env, w) && HasAttempt(w, s, a)
    ensures HasAttempt(Exec(env, w, e), s, a)
  {
    hide Inv, Exec, Step, Measure;
    StepEvolves(env, w, e, s);
  }

  lemma {:induction false} RunStores(env: Env, w: World, events: seq<Event>, s: Bytes32, a: byte, links: seq<Link>)
    requires Inv(env, w) && Stores(env, w, s, a, links)
    ensures Stores(env, Run(env, w, events), s, a, links + Delivered(env, w, events, s, a))
    decreases |events|
  {
    hide Inv, Exec, Stores, StepLinks;
    if events == [] {
      assert links + [] == links;
    } else {
      var next, step := Exec(env, w, events[0]), StepLinks(env, w, events[0], s, a);
      StepKeeps(env, w, events[0]);
      StepStores(env, w, events[0], s, a, links);
      RunStores(env, next, events[1..], s, a, links + step);
      var rest := Delivered(env, next, events[1..], s, a);
      assert links + step + rest == links + (step + rest);
    }
  }

  /** After any run from init, an attempt holds its first state and the links of its append calls, in order,
      and each commitment is the hash of that link's signature. */
  lemma StoredIsDelivered(env: Env, start: World, events: seq<Event>, s: Bytes32, a: byte)
    requires Initial(start)
    ensures Stores(env, Run(env, start, events), s, a, Delivered(env, start, events, s, a))
  {
    hide Run, Delivered;
    InitialInv(env, start);
    RunStores(env, start, events, s, a, []);
    assert [] + Delivered(env, start, events, s, a) == Delivered(env, start, events, s, a);
  }
}
