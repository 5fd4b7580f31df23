/** How append calls add up: splitting links into batches changes nothing. */
module Batches {
  import opened Bytes
  import opened Results
  import opened StateOps
  import opened Accounts
  import opened Invariant
  import I = Instructions

  function Flatten(batches: seq<seq<Link>>): seq<Link> {
    if batches == [] then [] else batches[0] + Flatten(batches[1..])
  }

  /** One append call per batch, each anchored at the owner and ending at the hash of its own last link. */
  function AppendAll(env: Env, cfg: Config, reg: Registry, sub: Submission, serial: Bytes32, batches: seq<seq<Link>>)
    : (r: Result<Submission>)
    requires sub.states != []
    ensures r.Ok? ==> r.value.states != []
    decreases |batches|
  {
    if batches == [] then Ok(sub) else
    var _ :- Need(batches[0] != [], EmptyLinks);
    var next :- I.AppendLinks(env, cfg, reg, sub, serial, ParseOwner(Last(sub.states)), batches[0],
                              env.hash(batches[0][|batches[0]| - 1].state));
    AppendAll(env, cfg, reg, next, serial, batches[1..])
  }

  /** The submission once all of `links` are in. */
  function Extended(hash: Bytes -> Bytes32, sub: Submission, links: seq<Link>): Submission
    requires |sub.states| + |links| <= U16_MAX && sub.links + |links| <= U16_MAX
  {
    if links == [] then sub else
    sub.(states := sub.states + I.StatesOf(links), commits := sub.commits + I.CommitsOf(hash, links),
         links := sub.links + |links|, finalOwner := ParseOwner(links[|links| - 1].state))
  }

  /** What append_links asks of the links themselves, whatever the batches. */
  ghost predicate Appendable(env: Env, cfg: Config, reg: Registry, sub: Submission, links: seq<Link>)
    requires sub.states != []
  {
    && |sub.states| + |links| <= env.maxStates && sub.links + |links| <= U16_MAX
    && LinksOk(env.hash, reg, [Last(sub.states)] + I.StatesOf(links)) && SigsOk(cfg.sigScheme, links)
  }

  ghost predicate Ready(cfg: Config, sub: Submission, serial: Bytes32) {
    cfg.sigScheme <= 1 && sub.status.Receiving? && serial == sub.serial && sub.states != []
  }

  ghost predicate AllowedBatches(cfg: Config, batches: seq<seq<Link>>) {
    forall i :: 0 <= i < |batches| ==> 1 <= |batches[i]| <= cfg.maxLinks
  }

  lemma StatesOfConcat(a: seq<Link>, b: seq<Link>)
    ensures I.StatesOf(a + b) == I.StatesOf(a) + I.StatesOf(b)
  {}

  lemma CommitsOfConcat(hash: Bytes -> Bytes32, a: seq<Link>, b: seq<Link>)
    ensures I.CommitsOf(hash, a + b) == I.CommitsOf(hash, a) + I.CommitsOf(hash, b)
  {}

  /** A chain is linked exactly when it is linked on both sides of any of its states. */
  lemma LinksOkSplit(hash: Bytes -> Bytes32, reg: Registry, states: seq<State>, k: nat)
    requires k < |states|
    ensures LinksOk(hash, reg, states) <==> LinksOk(hash, reg, states[..k + 1]) && LinksOk(hash, reg, states[k..])
  {
    hide LinkOk;
    var left, right := states[..k + 1], states[k..];
    forall i, j | 0 <= i < j < |right| && j == i + 1 && LinksOk(hash, reg, states)
      ensures LinkOk(hash, reg, right[i], right[j])
    {
      assert LinkOk(hash, reg, states[i + k], states[j + k]);
    }
    forall i, j | 0 <= i < j < |states| && j == i + 1 && LinksOk(hash, reg, left) && LinksOk(hash, reg, right)
      ensures LinkOk(hash, reg, states[i], states[j])
    {
      assert if j <= k then LinkOk(hash, reg, left[i], left[j]) else LinkOk(hash, reg, right[i - k], right[j - k]);
    }
  }

  /** One call accepts exactly the links that fit, are linked on, and are within the batch limit. */
  lemma OneBatch(env: Env, cfg: Config, reg: Registry, sub: Submission, serial: Bytes32, links: seq<Link>)
    requires Ready(cfg, sub, serial) && 1 <= |links|
    ensures var r := I.AppendLinks(env, cfg, reg, sub, serial, ParseOwner(Last(sub.states)), links,
                                   env.hash(links[|links| - 1].state));
            && (r.Ok? <==> Appendable(env, cfg, reg, sub, links) && |links| <= cfg.maxLinks)
            && (r.Ok? ==> r.value == Extended(env.hash, sub, links))
  {
    hide LinksOk, I.CheckLinks, SigsOk, ParseOwner;
    CheckLinksIff(env.hash, cfg.sigScheme, reg, Last(sub.states), links);
  }

  lemma AppendableConcat(env: Env, cfg: Config, reg: Registry, sub: Submission, a: seq<Link>, b: seq<Link>)
    requires sub.states != [] && a != []
    ensures Appendable(env, cfg, reg, sub, a + b)
       <==> Appendable(env, cfg, reg, sub, a) && Appendable(env, cfg, reg, Extended(env.hash, sub, a), b)
  {
    hide LinksOk, I.SigFormatOk;
    var prev := [Last(sub.states)];
    var all := prev + I.StatesOf(a + b);
    StatesOfConcat(a, b);
    LinksOkSplit(env.hash, reg, all, |a|);
    assert all[..|a| + 1] == prev + I.StatesOf(a);
    assert all[|a|..] == [a[|a| - 1].state] + I.StatesOf(b);
    SigsOkConcat(cfg.sigScheme, a, b);
  }

  lemma SigsOkConcat(scheme: byte, a: seq<Link>, b: seq<Link>)
    ensures SigsOk(scheme, a + b) <==> SigsOk(scheme, a) && SigsOk(scheme, b)
  {
    hide I.SigFormatOk;
    forall i | 0 <= i < |a| && SigsOk(scheme, a + b) ensures I.SigFormatOk(scheme, a[i].sig) {
      assert a[i] == (a + b)[i];
    }
    forall i | 0 <= i < |b| && SigsOk(scheme, a + b) ensures I.SigFormatOk(scheme, b[i].sig) {
      assert b[i] == (a + b)[|a| + i];
    }
  }

  lemma ExtendedConcat(hash: Bytes -> Bytes32, sub: Submission, a: seq<Link>, b: seq<Link>)
    requires |sub.states| + |a| + |b| <= U16_MAX && sub.links + |a| + |b| <= U16_MAX
    ensures Extended(hash, Extended(hash, sub, a), b) == Extended(hash, sub, a + b)
  {
    StatesOfConcat(a, b);
    CommitsOfConcat(hash, a, b);
    assert a + b == if a == [] then b else if b == [] then a else a + b;
    assert sub.states + (I.StatesOf(a) + I.StatesOf(b)) == sub.states + I.StatesOf(a) + I.StatesOf(b);
    assert sub.commits + (I.CommitsOf(hash, a) + I.CommitsOf(hash, b)) ==
      sub.commits + I.CommitsOf(hash, a) + I.CommitsOf(hash, b);
    if b != [] { assert (a + b)[|a + b| - 1] == b[|b| - 1]; }
  }

  /** Any split of the links into allowed batches is accepted or refused alike, and stores the same submission. */
  lemma {:induction false} BatchingInvisible(env: Env, cfg: Config, reg: Registry, sub: Submission, serial: Bytes32,
                                             batches: seq<seq<Link>>)
    requires Ready(cfg, sub, serial) && AllowedBatches(cfg, batches) && |sub.states| <= env.maxStates
    ensures var r, links := AppendAll(env, cfg, reg, sub, serial, batches), Flatten(batches);
            && (r.Ok? <==> links == [] || Appendable(env, cfg, reg, sub, links))
            && (r.Ok? ==> |sub.states| + |links| <= env.maxStates && sub.links + |links| <= U16_MAX
                          && r.value == Extended(env.hash, sub, links))
    decreases |batches|
  {
    hide Appendable, I.AppendLinks, ParseOwner;
    if batches != [] {
      var first, rest := batches[0], batches[1..];
      OneBatch(env, cfg, reg, sub, serial, first);
      AppendableConcat(env, cfg, reg, sub, first, Flatten(rest));
      if Appendable(env, cfg, reg, sub, first) {
        ExtendedReady(env, cfg, reg, sub, serial, first);
        BatchingInvisible(env, cfg, reg, Extended(env.hash, sub, first), serial, rest);
        if Flatten(rest) == [] {
          assert first + Flatten(rest) == first;
        }
        if AppendAll(env, cfg, reg, sub, serial, batches).Ok? {
          ExtendedConcat(env.hash, sub, first, Flatten(rest));
        }
      }
    }
  }

  lemma ExtendedReady(env: Env, cfg: Config, reg: Registry, sub: Submission, serial: Bytes32, links: seq<Link>)
    requires Ready(cfg, sub, serial) && Appendable(env, cfg, reg, sub, links)
    ensures |sub.states| + |links| <= env.maxStates && sub.links + |links| <= U16_MAX
    ensures var next := Extended(env.hash, sub, links);
            Ready(cfg, next, serial) && |next.states| == |sub.states| + |links| && next.links == sub.links + |links|
  {}

  /** Two ways of splitting the same links cannot be told apart afterwards. */
  lemma SplitsAgree(env: Env, cfg: Config, reg: Registry, sub: Submission, serial: Bytes32, a: seq<seq<Link>>,
                    b: seq<seq<Link>>)
    requires Ready(cfg, sub, serial) && |sub.states| <= env.maxStates
    requires AllowedBatches(cfg, a) && AllowedBatches(cfg, b) && Flatten(a) == Flatten(b)
    ensures AppendAll(env, cfg, reg, sub, serial, a).Ok? <==> AppendAll(env, cfg, reg, sub, serial, b).Ok?
    ensures AppendAll(env, cfg, reg, sub, serial, a).Ok?
        ==> AppendAll(env, cfg, reg, sub, serial, a) == AppendAll(env, cfg, reg, sub, serial, b)
  {
    hide Appendable, Extended;
    BatchingInvisible(env, cfg, reg, sub, serial, a);
    BatchingInvisible(env, cfg, reg, sub, serial, b);
  }

  /** Verifying a commitment accepts a signature exactly when it hashes like the one the link was appended with. */
  lemma CommitOpens(env: Env, cfg: Config, sub: Submission, links: seq<Link>, i: nat, sig: Sig)
    requires cfg.sigScheme <= 1 && sub.states != [] && |sub.commits| == |sub.states| && i < |links|
    requires |sub.states| + |links| <= U16_MAX && sub.links + |links| <= U16_MAX
    ensures I.VerifySigCommit(env, cfg, Extended(env.hash, sub, links), sub.serial, sub.attempt, |sub.states| + i,
                              sig).Ok?
       <==> env.hash(sig) == env.hash(links[i].sig)
  {}
}
