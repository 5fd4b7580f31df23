/** Every instruction keeps the invariant, so every reachable world satisfies it. */
module Reachable {
  import opened Bytes
  import opened StateOps
  import opened Ledgers
  import opened Accounts
  import opened Machine
  import opened Invariant
  import opened Payouts
  import I = Instructions

  // ---- writing one coin

  /** The new value of coin `s`, which keeps its recipient, is all that changes among the coins. */
  ghost predicate Puts(w: World, after: World, s: Bytes32) {
    && s in after.coins && after.coins == w.coins[s := after.coins[s]]
    && (s in w.coins ==> w.coins[s].registry.recipient == after.coins[s].registry.recipient)
    && after.config == w.config.(supply := after.config.supply)
    && Total(after.ledger) == after.minted
  }

  /** The coin's own live bonds are escrowed; nobody else's escrow is touched. */
  ghost predicate KeepsBonds(w: World, after: World, s: Bytes32)
    requires s in after.coins
  {
    var coin := after.coins[s];
    && (forall a :: a in coin.subs && Live(coin.subs[a].status)
                    ==> Bal(after.ledger, Escrow(s, a)) >= I.BondOf(coin.registry.value, after.config.bps))
    && (forall t, a :: t != s ==> Bal(after.ledger, Escrow(t, a)) >= Bal(w.ledger, Escrow(t, a)))
  }

  /** Supply and the recipient's commitment follow the coin's unspent value. */
  ghost predicate Balances(w: World, after: World, s: Bytes32)
    requires s in after.coins
  {
    var k := after.coins[s].registry.recipient;
    var gain := Unspent()(after.coins[s]) - Counted(w, s, Unspent());
    && after.config.supply == w.config.supply + gain && Bal(after.ledger, Vault) >= after.config.supply
    && k in after.allowances && after.allowances == w.allowances[k := after.allowances[k]]
    && after.allowances[k].initialized && after.allowances[k].committed <= after.allowances[k].cap
    && AllowanceOf(w, k).committed + gain <= after.allowances[k].committed
  }

  lemma PutCoin(env: Env, w: World, after: World, s: Bytes32)
    requires Inv(env, w) && Puts(w, after, s) && KeepsBonds(w, after, s) && Balances(w, after, s)
    requires CoinInv(env, w.config.bps, s, after.coins[s])
    ensures Inv(env, after)
  {
    hide CoinInv, SumOf;
    SumOfUpdate(w.coins, s, after.coins[s], Unspent());
    assert Allowed(after) by {
      hide CoinsInv, Escrowed, Backed;
      forall k: Bytes32 ensures AllowedFor(after, k) {
        SumOfUpdate(w.coins, s, after.coins[s], UnspentOf(k));
        assert AllowedFor(w, k);
      }
    }
    assert Escrowed(after) by { hide Backed, Allowed; }
  }

  // ---- instructions outside a coin's own life

  lemma MintKeeps(env: Env, w: World, authority: Bytes32, s: Bytes32, value: u64, recipient: Bytes32, genesis: Bytes32)
    requires Inv(env, w) && DoMint(env, w, authority, s, value, recipient, genesis).Ok?
    ensures Inv(env, DoMint(env, w, authority, s, value, recipient, genesis).value)
  {
    hide Genesis;
    var after := DoMint(env, w, authority, s, value, recipient, genesis).value;
    assert CoinInv(env, w.config.bps, s, after.coins[s]);
    assert AllowedFor(w, recipient);
    PutCoin(env, w, after, s);
  }

  lemma SetCapKeeps(env: Env, w: World, wallet: Bytes32, cap: u64)
    requires Inv(env, w) && DoSetCap(env, w, wallet, cap).Ok?
    ensures Inv(env, DoSetCap(env, w, wallet, cap).value)
  {
    hide CoinInv;
    var after := DoSetCap(env, w, wallet, cap).value;
    forall k: Bytes32 ensures AllowedFor(after, k) { assert AllowedFor(w, k); }
  }

  /** Outside moves leave coins, allowances and supply alone, draw on no escrow and leave the supply covered. */
  lemma OutsideMoves(env: Env, w: World, e: Event)
    requires Total(w.ledger) == w.minted && Bal(w.ledger, Vault) >= w.config.supply
    requires (e.Fund? || e.Withdraw? || e.Pay? || e.Issue? || e.Tick?) && DoOutside(env, w, e).Ok?
    ensures var after := DoOutside(env, w, e).value;
            && after == w.(ledger := after.ledger, minted := after.minted, slot := after.slot)
            && Total(after.ledger) == after.minted && Bal(after.ledger, Vault) >= w.config.supply
            && forall s, a :: Bal(after.ledger, Escrow(s, a)) >= Bal(w.ledger, Escrow(s, a))
  {
    if e.Issue? {
      Sums.SumUpdate(w.ledger, e.to, Bal(w.ledger, e.to) + e.amount);
    }
  }

  lemma SameBooks(env: Env, w: World, after: World)
    requires Inv(env, w) && after == w.(ledger := after.ledger, minted := after.minted, slot := after.slot)
    requires Total(after.ledger) == after.minted && Bal(after.ledger, Vault) >= w.config.supply
    requires forall s, a :: Bal(after.ledger, Escrow(s, a)) >= Bal(w.ledger, Escrow(s, a))
    ensures Inv(env, after)
  {
    hide CoinInv, SumOf;
    forall k: Bytes32 ensures AllowedFor(after, k) { assert AllowedFor(w, k); }
  }

  lemma OutsideKeeps(env: Env, w: World, e: Event)
    requires Inv(env, w) && (e.Fund? || e.Withdraw? || e.Pay? || e.Issue? || e.Tick?) && DoOutside(env, w, e).Ok?
    ensures Inv(env, DoOutside(env, w, e).value)
  {
    hide CoinsInv, Escrowed, Allowed, DoOutside, SumOf;
    OutsideMoves(env, w, e);
    var after := DoOutside(env, w, e).value;
    SameBooks(env, w, after);
  }

  // ---- instructions on one coin

  lemma CoinAt(env: Env, w: World, s: Bytes32)
    requires Inv(env, w) && s in w.coins
    ensures CoinInv(env, w.config.bps, s, w.coins[s]) && w.coins[s].registry.serial == s && ConfigInv(w.config)
    ensures AllowedFor(w, w.coins[s].registry.recipient) && w.coins[s].registry.recipient in w.allowances
    ensures w.allowances[w.coins[s].registry.recipient].initialized && w.coins[s].subs.Keys <= {0, 1}
    ensures Total(w.ledger) == w.minted && Bal(w.ledger, Vault) >= w.config.supply
  {
    hide SumOf, SubInv, Shaped;
  }

  /** With one of the two attempts free, the count allows another one. */
  lemma RoomFor(c: Coin, a: byte)
    requires c.subs.Keys <= {0, 1} && a <= 1 && a !in c.subs && c.registry.count == |c.subs|
    ensures c.registry.count < 2
  {
    assert c.subs.Keys <= {1 - a};
    if c.subs != map[] {
      var k :| k in c.subs;
      assert c.subs.Keys == {k};
    }
    assert |c.subs| == |c.subs.Keys|;
  }

  lemma BondAt(env: Env, w: World, s: Bytes32, a: byte)
    requires Inv(env, w) && HasAttempt(w, s, a) && Live(w.coins[s].subs[a].status)
    ensures Bal(w.ledger, Escrow(s, a)) >= I.BondOf(w.coins[s].registry.value, w.config.bps)
  {
    hide CoinsInv, Backed, Allowed;
  }

  lemma ReplaceSub(env: Env, bps: u32, s: Bytes32, coin: Coin, a: byte, sub: Submission)
    requires CoinInv(env, bps, s, coin) && a in coin.subs
    requires coin.subs[a].status.Receiving? && sub.status.Receiving?
    requires SubInv(env, bps, coin.registry, a, sub)
    ensures CoinInv(env, bps, s, coin.(subs := coin.subs[a := sub]))
  {
    hide SubInv, Genesis;
    var next := coin.(subs := coin.subs[a := sub]);
    assert next.subs.Keys == coin.subs.Keys;
    assert Shaped(next);
  }

  lemma AddSub(env: Env, bps: u32, s: Bytes32, coin: Coin, reg: Registry, a: byte, sub: Submission)
    requires CoinInv(env, bps, s, coin) && coin.registry.status.Active? && a !in coin.subs && a <= 1
    requires sub.status.Receiving? && SubInv(env, bps, coin.registry, a, sub)
    requires coin.registry.count < 2 && reg == coin.registry.(count := coin.registry.count + 1)
    ensures CoinInv(env, bps, s, coin.(registry := reg, subs := coin.subs[a := sub]))
  {
    hide SubInv, Genesis;
    var next := coin.(registry := reg, subs := coin.subs[a := sub]);
    assert next.subs.Keys == coin.subs.Keys + {a};
    assert Shaped(next);
    forall b | b in next.subs ensures SubInv(env, bps, reg, b, next.subs[b]) {
      SameSub(env, bps, coin.registry, reg, b, if b == a then sub else coin.subs[b]);
    }
  }

  lemma SameSub(env: Env, bps: u32, reg: Registry, other: Registry, a: byte, sub: Submission)
    requires SubInv(env, bps, reg, a, sub)
    requires other.genesis == reg.genesis && other.serial == reg.serial && other.value == reg.value
    ensures SubInv(env, bps, other, a, sub)
  {
    SameChain(env.hash, reg, other, sub.states);
  }

  lemma SameChain(hash: Bytes -> Bytes32, reg: Registry, other: Registry, states: seq<State>)
    requires WellChained(hash, reg, states)
    requires other.genesis == reg.genesis && other.serial == reg.serial && other.value == reg.value
    ensures WellChained(hash, other, states)
  {
    forall i, j | 0 <= i < j < |states| && j == i + 1 ensures LinkOk(hash, other, states[i], states[j]) {
      assert LinkOk(hash, reg, states[i], states[j]);
    }
  }

  /** A step that leaves status, supply and allowances alone, and takes nothing from the vault. */
  lemma Unspending(env: Env, w: World, after: World, s: Bytes32)
    requires Inv(env, w) && s in w.coins && s in after.coins
    requires Unspent()(after.coins[s]) == Unspent()(w.coins[s])
    requires after.coins[s].registry.recipient == w.coins[s].registry.recipient
    requires after.config == w.config && after.allowances == w.allowances
    requires Bal(after.ledger, Vault) >= Bal(w.ledger, Vault)
    ensures Balances(w, after, s)
  {
    hide Inv, CoinInv, SumOf;
    CoinAt(env, w, s);
  }

  lemma StartedSub(env: Env, cfg: Config, reg: Registry, ledger: Ledger, slot: u64, s: Bytes32, a: byte, state0: State,
                   checker: Bytes32, held: u64)
    requires I.StartCheckIn(env, cfg, reg, false, ledger, slot, s, a, state0, checker, held).Ok?
    requires env.who(checker).Wallet? && reg.serial == s
    ensures var started := I.StartCheckIn(env, cfg, reg, false, ledger, slot, s, a, state0, checker, held).value;
            SubInv(env, cfg.bps, reg, a, started.submission)
  {
    hide ParseOwner, ParseSerial, ParseValue, I.BondOf;
  }

  lemma StartKeeps(env: Env, w: World, s: Bytes32, a: byte, state0: State, checker: Bytes32, held: u64)
    requires Inv(env, w) && DoStart(env, w, s, a, state0, checker, held).Ok?
    ensures Inv(env, DoStart(env, w, s, a, state0, checker, held).value)
  {
    hide Inv, CoinInv, SubInv, Genesis, ParseOwner, ParseSerial, ParseValue, I.BondAmount, I.BondOf, AllowedFor;
    CoinAt(env, w, s);
    var after := DoStart(env, w, s, a, state0, checker, held).value;
    var coin, next := w.coins[s], after.coins[s];
    StartedSub(env, w.config, coin.registry, w.ledger, w.slot, s, a, state0, checker, held);
    AddSub(env, w.config.bps, s, coin, next.registry, a, next.subs[a]);
    forall b | b in next.subs && Live(next.subs[b].status)
      ensures Bal(after.ledger, Escrow(s, b)) >= I.BondOf(coin.registry.value, w.config.bps)
    {
      if b != a { BondAt(env, w, s, b); }
    }
    Unspending(env, w, after, s);
    PutCoin(env, w, after, s);
  }

  /** What append_links writes is again a valid submission. */
  lemma AppendedSub(env: Env, cfg: Config, reg: Registry, a: byte, sub: Submission, serial: Bytes32, headOwner: Bytes32,
                    links: seq<Link>, lastHash: Bytes32)
    requires SubInv(env, cfg.bps, reg, a, sub)
    requires I.AppendLinks(env, cfg, reg, sub, serial, headOwner, links, lastHash).Ok?
    ensures var next := I.AppendLinks(env, cfg, reg, sub, serial, headOwner, links, lastHash).value;
            SubInv(env, cfg.bps, reg, a, next) && sub.status.Receiving? && next.status.Receiving?
  {
    AppendedChain(env, cfg.sigScheme, reg, sub.states, links);
    hide WellChained, I.CheckLinks, ParseOwner, I.BondAmount;
    assert Last(sub.states + I.StatesOf(links)) == links[|links| - 1].state;
  }

  lemma AppendedChain(env: Env, scheme: byte, reg: Registry, states: seq<State>, links: seq<Link>)
    requires WellChained(env.hash, reg, states)
    requires I.CheckLinks(env.hash, scheme, reg, Last(states), links).Ok?
    ensures WellChained(env.hash, reg, states + I.StatesOf(links))
  {
    CheckLinksIff(env.hash, scheme, reg, Last(states), links);
    hide LinkOk, ParseSerial, ParseValue;
    var added := [Last(states)] + I.StatesOf(links);
    var all := states + I.StatesOf(links);
    forall i, j | 0 <= i < j < |all| && j == i + 1 ensures LinkOk(env.hash, reg, all[i], all[j]) {
      var k := i - |states| + 1;
      assert j < |states| || LinkOk(env.hash, reg, added[k], added[k + 1]);
    }
  }

  lemma AppendKeeps(env: Env, w: World, s: Bytes32, a: byte, headOwner: Bytes32, links: seq<Link>, lastHash: Bytes32)
    requires Inv(env, w) && DoAppend(env, w, s, a, headOwner, links, lastHash).Ok?
    ensures Inv(env, DoAppend(env, w, s, a, headOwner, links, lastHash).value)
  {
    hide Inv, I.AppendLinks, AllowedFor;
    CoinAt(env, w, s);
    var coin := w.coins[s];
    assert SubInv(env, w.config.bps, coin.registry, a, coin.subs[a]);
    hide CoinInv, SubInv;
    AppendedSub(env, w.config, coin.registry, a, coin.subs[a], s, headOwner, links, lastHash);
    var after := DoAppend(env, w, s, a, headOwner, links, lastHash).value;
    var next := after.coins[s];
    ReplaceSub(env, w.config.bps, s, coin, a, next.subs[a]);
    forall b | b in next.subs && Live(next.subs[b].status)
      ensures Bal(after.ledger, Escrow(s, b)) >= I.BondOf(coin.registry.value, w.config.bps)
    {
      BondAt(env, w, s, b);
    }
    Unspending(env, w, after, s);
    PutCoin(env, w, after, s);
  }

  // ---- finalize and settle

  /** Only statuses and slots of submissions change. */
  ghost predicate Restamped(coin: Coin, next: Coin) {
    && next.registry == coin.registry.(status := next.registry.status)
    && next.subs.Keys == coin.subs.Keys
    && forall b :: b in coin.subs ==>
         next.subs[b] == coin.subs[b].(status := next.subs[b].status, finalized := next.subs[b].finalized)
  }

  /** `next` differs from `coin` in the given statuses (and slots) only. */
  ghost predicate Turned(coin: Coin, next: Coin, a: byte, mine: SubmissionStatus, other: SubmissionStatus) {
    && a <= 1 && a in coin.subs && Restamped(coin, next)
    && next.subs[a].status == mine && (1 - a in coin.subs ==> next.subs[1 - a].status == other)
  }

  /** Storing accounts that differ in statuses and slots turns the coin accordingly. */
  lemma StoredTurn(w: World, s: Bytes32, a: byte, c: I.Ctx)
    requires HasAttempt(w, s, a) && a <= 1 && w.coins[s].subs.Keys <= {0, 1}
    requires var b := Load(w, s, a);
             && c.registry == b.registry.(status := c.registry.status)
             && c.mine == b.mine.(status := c.mine.status, finalized := c.mine.finalized)
             && (c.other.Some? <==> b.other.Some?)
             && (c.other.Some? ==> c.other.value == b.other.value.(status := c.other.value.status))
    ensures s in Store(w, s, a, c).coins
    ensures var after := Store(w, s, a, c);
            && after.coins == w.coins[s := after.coins[s]] && after.coins[s].registry == c.registry
            && after.coins[s].head == c.head
            && after.ledger == c.ledger && after.config == c.config && after.slot == w.slot
    ensures Turned(w.coins[s], Store(w, s, a, c).coins[s], a, c.mine.status,
                   if c.other.Some? then c.other.value.status else Lost)
  {}

  lemma RestampedCoin(env: Env, bps: u32, s: Bytes32, coin: Coin, next: Coin)
    requires CoinInv(env, bps, s, coin) && Restamped(coin, next) && Shaped(next)
    ensures CoinInv(env, bps, s, next)
  {
    hide Genesis, Shaped, I.BondAmount, ParseOwner;
    forall b | b in next.subs ensures SubInv(env, bps, next.registry, b, next.subs[b]) {
      SameSub(env, bps, coin.registry, next.registry, b, coin.subs[b]);
      hide WellChained;
    }
    hide SubInv;
  }

  /** The coin after a finalize or settle: a proper shape, nothing but statuses changed, nothing reopened. */
  ghost predicate Reshaped(coin: Coin, next: Coin) {
    && Shaped(next) && Restamped(coin, next)
    && forall b :: b in coin.subs && Terminal(coin.subs[b].status) ==> Terminal(next.subs[b].status)
  }

  lemma RejectShape(env: Env, w: World, s: Bytes32, a: byte, coin: Coin, next: Coin)
    requires CoinInv(env, w.config.bps, s, coin) && a in coin.subs && coin.registry.status.Spent?
    requires coin.subs[a].status.Receiving?
    requires next.subs == coin.subs[a := coin.subs[a].(status := Rejected, finalized := w.slot)]
    requires next.registry == coin.registry && next.head == coin.head
    ensures Reshaped(coin, next)
  {
    hide SubInv, Genesis;
  }

  lemma SetHeadShape(env: Env, w: World, s: Bytes32, a: byte, coin: Coin, next: Coin)
    requires CoinInv(env, w.config.bps, s, coin) && a in coin.subs && coin.registry.status.Active? && !coin.head.isSet
    requires coin.subs[a].states != [] && coin.subs[a].attempt == a
    requires next.head == I.HeadOf(coin.subs[a], w.slot) && next.registry == coin.registry
    requires next.subs == coin.subs[a := coin.subs[a].(status := Pending, finalized := w.slot)]
    ensures Reshaped(coin, next)
  {
    hide SubInv, Genesis;
  }

  lemma LoseShape(env: Env, w: World, s: Bytes32, a: byte, coin: Coin, next: Coin)
    requires CoinInv(env, w.config.bps, s, coin) && a in coin.subs && coin.registry.status.Active? && coin.head.isSet
    requires coin.subs[a].status.Receiving?
    requires next.subs == coin.subs[a := coin.subs[a].(status := Lost, finalized := w.slot)]
    requires next.registry == coin.registry && next.head == coin.head
    ensures Reshaped(coin, next)
  {
    hide SubInv, Genesis;
  }

  lemma WinShape(env: Env, w: World, s: Bytes32, a: byte, coin: Coin, next: Coin)
    requires CoinInv(env, w.config.bps, s, coin) && a in coin.subs && 1 - a in coin.subs
    requires coin.subs[a].states != [] && coin.subs[a].attempt == a
    requires next.head == I.HeadOf(coin.subs[a], w.slot) && next.registry == coin.registry.(status := Spent)
    requires next.subs == coin.subs[a := coin.subs[a].(status := Won, finalized := w.slot)]
                                   [1 - a := coin.subs[1 - a].(status := Lost)]
    ensures Reshaped(coin, next)
  {
    hide SubInv, Genesis;
  }

  lemma SettleShape(env: Env, w: World, s: Bytes32, a: byte, coin: Coin, next: Coin, abandoned: bool)
    requires CoinInv(env, w.config.bps, s, coin) && a in coin.subs && coin.registry.status.Active?
    requires coin.subs[a].status.Pending?
    requires next.head == coin.head && next.registry == coin.registry.(status := Spent)
    requires abandoned ==> 1 - a in coin.subs && coin.subs[1 - a].status.Receiving?
    requires var won := coin.subs[a := coin.subs[a].(status := Won)];
             next.subs == if abandoned then won[1 - a := coin.subs[1 - a].(status := Rejected)] else won
    ensures Reshaped(coin, next)
  {
    hide SubInv, Genesis;
  }

  /** Facts about a stored attempt that the pay-out rules rely on. */
  lemma SubAt(env: Env, w: World, s: Bytes32, a: byte)
    requires Inv(env, w) && HasAttempt(w, s, a)
    ensures a <= 1 && SubInv(env, w.config.bps, w.coins[s].registry, a, w.coins[s].subs[a])
    ensures var sub := w.coins[s].subs[a]; sub.serial == s && sub.attempt == a && sub.states != []
  {
    hide Inv, Shaped;
    CoinAt(env, w, s);
  }

  /** Tokens after it: an escrow is drawn on only by an attempt that is terminal afterwards. */
  ghost predicate Drawn(w: World, s: Bytes32, next: Coin, ledger: Ledger) {
    && Total(ledger) == w.minted
    && (forall b :: b in next.subs && Bal(ledger, Escrow(s, b)) < Bal(w.ledger, Escrow(s, b)) ==>
        Terminal(next.subs[b].status))
    && (forall t, b :: t != s ==> Bal(ledger, Escrow(t, b)) >= Bal(w.ledger, Escrow(t, b)))
  }

  /** The part all finalize and settle branches share: shape, escrows and accounting give the invariant. */
  lemma StoreKeeps(env: Env, w: World, s: Bytes32, after: World)
    requires Inv(env, w) && s in w.coins && s in after.coins && after.coins == w.coins[s := after.coins[s]]
    requires Reshaped(w.coins[s], after.coins[s]) && Drawn(w, s, after.coins[s], after.ledger)
    requires after.minted == w.minted && after.config == w.config.(supply := after.config.supply)
    requires Balances(w, after, s)
    ensures Inv(env, after)
  {
    hide Inv, CoinInv, Shaped, Balances, I.BondOf;
    CoinAt(env, w, s);
    RestampedCoin(env, w.config.bps, s, w.coins[s], after.coins[s]);
    forall b | b in after.coins[s].subs && Live(after.coins[s].subs[b].status)
      ensures Bal(after.ledger, Escrow(s, b)) >= I.BondOf(w.coins[s].registry.value, w.config.bps)
    {
      BondAt(env, w, s, b);
    }
    PutCoin(env, w, after, s);
  }

  /** One bond leaves the escrow of an attempt that is terminal afterwards. */
  lemma SingleDraw(w: World, s: Bytes32, a: byte, to: Owner, bond: nat, ledger: Ledger, next: Coin)
    requires Moves(w.ledger, ledger, (o: Owner) => Delta(o, Escrow(s, a), to, bond)) && Total(w.ledger) == w.minted
    requires a in next.subs && Terminal(next.subs[a].status)
    ensures Drawn(w, s, next, ledger) && Bal(ledger, Vault) >= Bal(w.ledger, Vault)
  {}

  lemma RejectKeeps(env: Env, w: World, s: Bytes32, a: byte)
    requires Inv(env, w) && HasAttempt(w, s, a)
    requires w.coins[s].registry.status.Spent? && w.coins[s].subs[a].status.Receiving?
    requires I.RejectSpent(Load(w, s, a), w.slot).Ok?
    ensures a <= 1 && Inv(env, Store(w, s, a, I.RejectSpent(Load(w, s, a), w.slot).value))
  {
    hide Inv, CoinInv, SubInv, Shaped, Drawn, Balances, Reshaped, I.BondOf, AllowedFor, I.RejectSpent;
    CoinAt(env, w, s);
    SubAt(env, w, s, a);
    RejectEffect(env, Load(w, s, a), w.slot);
    var c := I.RejectSpent(Load(w, s, a), w.slot).value;
    var after := Store(w, s, a, c);
    assert after.coins[s].subs == w.coins[s].subs[a := c.mine];
    RejectShape(env, w, s, a, w.coins[s], after.coins[s]);
    assert after.allowances == w.allowances;
    SingleDraw(w, s, a, Fees, I.BondOf(w.coins[s].registry.value, w.config.bps), c.ledger, after.coins[s]);
    Unspending(env, w, after, s);
    StoreKeeps(env, w, s, after);
  }

  lemma SetHeadKeeps(env: Env, w: World, s: Bytes32, a: byte)
    requires Inv(env, w) && HasAttempt(w, s, a)
    requires w.coins[s].registry.status.Active? && !w.coins[s].head.isSet && w.coins[s].subs[a].states != []
    ensures a <= 1 && Inv(env, Store(w, s, a, I.SetHead(Load(w, s, a), w.slot)))
  {
    hide Inv, CoinInv, SubInv, Shaped, I.BondOf, AllowedFor;
    CoinAt(env, w, s);
    SubAt(env, w, s, a);
    var c := I.SetHead(Load(w, s, a), w.slot);
    var after := Store(w, s, a, c);
    assert after.coins[s].subs == w.coins[s].subs[a := c.mine];
    OpenCoin(env, w, s);
    SetHeadShape(env, w, s, a, w.coins[s], after.coins[s]);
    assert after.allowances == w.allowances;
    Unspending(env, w, after, s);
    StoreKeeps(env, w, s, after);
  }

  lemma OpenCoin(env: Env, w: World, s: Bytes32)
    requires Inv(env, w) && s in w.coins && w.coins[s].registry.status.Active? && !w.coins[s].head.isSet
    ensures forall b :: b in w.coins[s].subs ==> w.coins[s].subs[b].status.Receiving?
  {
    hide Inv, SubInv;
    CoinAt(env, w, s);
  }

  lemma LoseKeeps(env: Env, w: World, s: Bytes32, a: byte, x: I.Extras)
    requires Inv(env, w) && HasAttempt(w, s, a) && Load(w, s, a).other.Some?
    requires w.coins[s].registry.status.Active? && w.coins[s].head.isSet && w.coins[s].subs[a].status.Receiving?
    requires I.ResolveLose(env, Load(w, s, a), x, w.slot).Ok?
    ensures a <= 1 && Inv(env, Store(w, s, a, I.ResolveLose(env, Load(w, s, a), x, w.slot).value))
  {
    hide Inv, CoinInv, SubInv, Shaped, Drawn, Balances, Reshaped, I.BondOf, AllowedFor, I.ResolveLose;
    CoinAt(env, w, s);
    SubAt(env, w, s, a);
    LoseEffect(env, Load(w, s, a), x, w.slot);
    var c := I.ResolveLose(env, Load(w, s, a), x, w.slot).value;
    var after := Store(w, s, a, c);
    assert after.coins[s].subs == w.coins[s].subs[a := c.mine];
    LoseShape(env, w, s, a, w.coins[s], after.coins[s]);
    assert after.allowances == w.allowances;
    SingleDraw(w, s, a, env.who(w.coins[s].subs[1 - a].checker), I.BondOf(w.coins[s].registry.value, w.config.bps),
               c.ledger, after.coins[s]);
    Unspending(env, w, after, s);
    StoreKeeps(env, w, s, after);
  }

  /** Paying the value out once, with the recipient's commitment reduced by it or left alone. */
  lemma Released(env: Env, w: World, after: World, s: Bytes32)
    requires Inv(env, w) && s in w.coins && s in after.coins && w.coins[s].registry.status.Active?
    requires after.coins[s].registry == w.coins[s].registry.(status := Spent)
    requires after.config.supply == w.config.supply - w.coins[s].registry.value
    requires Bal(after.ledger, Vault) >= Bal(w.ledger, Vault) - w.coins[s].registry.value
    requires var k, value := w.coins[s].registry.recipient, w.coins[s].registry.value;
             && k in w.allowances && k in after.allowances && after.allowances == w.allowances[k := after.allowances[k]]
             && after.allowances[k] == w.allowances[k].(committed := after.allowances[k].committed)
             && w.allowances[k].committed - value <= after.allowances[k].committed <= w.allowances[k].committed
    ensures Balances(w, after, s)
  {
    hide Inv, CoinInv, SumOf;
    CoinAt(env, w, s);
  }

  lemma WinKeeps(env: Env, w: World, s: Bytes32, a: byte, x: I.Extras)
    requires Inv(env, w) && HasAttempt(w, s, a) && Load(w, s, a).other.Some? && w.coins[s].subs[a].states != []
    requires w.coins[s].registry.status.Active?
    requires I.ResolveWin(env, Load(w, s, a), x, w.slot).Ok?
    ensures a <= 1 && Inv(env, Store(w, s, a, I.ResolveWin(env, Load(w, s, a), x, w.slot).value))
  {
    hide Inv, CoinInv, SubInv, Shaped, Moves, Drawn, Balances, Reshaped, I.BondOf, AllowedFor, I.ResolveWin;
    SubAt(env, w, s, a);
    SubAt(env, w, s, 1 - a);
    CoinAt(env, w, s);
    WinEffect(env, Load(w, s, a), x, w.slot);
    var c := I.ResolveWin(env, Load(w, s, a), x, w.slot).value;
    var coin, after := w.coins[s], Store(w, s, a, c);
    assert after.coins[s].subs == coin.subs[a := c.mine][1 - a := c.other.value];
    WinShape(env, w, s, a, coin, after.coins[s]);
    WinDraws(env, w, s, a, c.ledger, after.coins[s]);
    Released(env, w, after, s);
    StoreKeeps(env, w, s, after);
  }

  lemma WinDraws(env: Env, w: World, s: Bytes32, a: byte, ledger: Ledger, next: Coin)
    requires HasAttempt(w, s, a) && a <= 1 && 1 - a in w.coins[s].subs && Total(w.ledger) == w.minted
    requires var c := Load(w, s, a); c.mine.serial == s && c.mine.attempt == a && c.other.value.attempt == 1 - a
    requires Moves(w.ledger, ledger, WinMoves(env, Load(w, s, a)))
    requires a in next.subs && 1 - a in next.subs && Terminal(next.subs[a].status) && Terminal(next.subs[1 - a].status)
    ensures Drawn(w, s, next, ledger) && Bal(ledger, Vault) >= Bal(w.ledger, Vault) - w.coins[s].registry.value
  {
    hide I.BondOf;
  }

  lemma SettleKeeps(env: Env, w: World, s: Bytes32, a: byte, x: I.Extras)
    requires Inv(env, w) && HasAttempt(w, s, a)
    requires w.coins[s].registry.status.Active? && w.coins[s].subs[a].status.Pending?
    requires I.SettlePayOut(env, Load(w, s, a), x).Ok?
    ensures a <= 1 && (I.SettlePayOut(env, Load(w, s, a), x).value.other.Some? ==> Load(w, s, a).other.Some?)
    ensures Inv(env, Store(w, s, a, I.SettlePayOut(env, Load(w, s, a), x).value))
  {
    hide Inv, CoinInv, SubInv, Shaped, Moves, Drawn, Balances, Reshaped, I.BondOf, AllowedFor, I.SettlePayOut;
    SubAt(env, w, s, a);
    CoinAt(env, w, s);
    SettleEffect(env, Load(w, s, a), x);
    var coin, c := w.coins[s], I.SettlePayOut(env, Load(w, s, a), x).value;
    if 1 - a in coin.subs { SubAt(env, w, s, 1 - a); }
    var after, abandoned := Store(w, s, a, c), Abandons(Load(w, s, a), x);
    var won := coin.subs[a := c.mine];
    assert after.coins[s].subs == if abandoned then won[1 - a := c.other.value] else won;
    SettleShape(env, w, s, a, coin, after.coins[s], abandoned);
    SettleDraws(env, w, s, a, x, c.ledger, after.coins[s]);
    Released(env, w, after, s);
    StoreKeeps(env, w, s, after);
  }

  lemma SettleDraws(env: Env, w: World, s: Bytes32, a: byte, x: I.Extras, ledger: Ledger, next: Coin)
    requires HasAttempt(w, s, a) && a <= 1 && Total(w.ledger) == w.minted
    requires var c := Load(w, s, a);
             && c.mine.serial == s && c.mine.attempt == a && (c.other.Some? ==> c.other.value.attempt == 1 - a)
             && Moves(w.ledger, ledger, SettleMoves(env, c, x))
             && (Abandons(c, x) ==> 1 - a in next.subs && Terminal(next.subs[1 - a].status))
    requires a in next.subs && Terminal(next.subs[a].status)
    ensures Drawn(w, s, next, ledger) && Bal(ledger, Vault) >= Bal(w.ledger, Vault) - w.coins[s].registry.value
  {
    hide I.BondOf;
  }

  lemma FinalizeKeeps(env: Env, w: World, s: Bytes32, a: byte, otherAttempt: byte, recipient: Bytes32, x: I.Extras)
    requires Inv(env, w) && DoFinalize(env, w, s, a, otherAttempt, recipient, x).Ok?
    ensures Inv(env, DoFinalize(env, w, s, a, otherAttempt, recipient, x).value)
  {
    hide Inv, I.VerifyFullChain, I.ContenderWins, I.ResolveWin, I.ResolveLose, I.RejectSpent, Store;
    SubAt(env, w, s, a);
    hide SubInv;
    if w.coins[s].registry.status.Spent? {
      RejectKeeps(env, w, s, a);
    } else if !w.coins[s].head.isSet {
      SetHeadKeeps(env, w, s, a);
    } else if I.ContenderWins(w.coins[s].subs[a].states, w.coins[s].head) {
      WinKeeps(env, w, s, a, x);
    } else {
      LoseKeeps(env, w, s, a, x);
    }
  }

  // ---- runs

  lemma StepKeeps(env: Env, w: World, e: Event)
    requires Inv(env, w)
    ensures Inv(env, Exec(env, w, e))
  {
    hide Inv, DoMint, DoSetCap, DoStart, DoAppend, DoFinalize, DoOutside, I.SettlePayOut;
    if Step(env, w, e).Ok? {
      match e
      case Mint(authority, serial, value, recipient, genesis) =>
        MintKeeps(env, w, authority, serial, value, recipient, genesis);
      case SetCap(wallet, cap) => SetCapKeeps(env, w, wallet, cap);
      case Start(serial, attempt, state0, checker, held) => StartKeeps(env, w, serial, attempt, state0, checker, held);
      case Append(serial, attempt, owner, newLinks, lastHash) =>
        AppendKeeps(env, w, serial, attempt, owner, newLinks, lastHash);
      case Finalize(serial, attempt, other, recipient, x) =>
        FinalizeKeeps(env, w, serial, attempt, other, recipient, x);
      case Settle(serial, attempt, other, recipient, x) => SettleKeeps(env, w, serial, attempt, x);
      case _ => OutsideKeeps(env, w, e);
    }
  }

  /** Whatever instructions arrive, in whatever order, the invariant holds afterwards. */
  lemma {:induction false} RunKeeps(env: Env, w: World, events: seq<Event>)
    requires Inv(env, w)
    ensures Inv(env, Run(env, w, events))
    decreases |events|
  {
    hide Inv, Exec;
    if events != [] {
      StepKeeps(env, w, events[0]);
      RunKeeps(env, Exec(env, w, events[0]), events[1..]);
    }
  }

  ghost predicate ReachableWorld(env: Env, w: World) {
    exists start, events :: Initial(start) && w == Run(env, start, events)
  }

  /** Supply backing, allowance accounting, escrowed bonds and joint shapes of every reachable world. */
  lemma ReachableInv(env: Env, w: World)
    requires ReachableWorld(env, w)
    ensures Inv(env, w)
  {
    hide Inv;
    var start, events :| Initial(start) && w == Run(env, start, events);
    InitialInv(env, start);
    RunKeeps(env, start, events);
  }
}
