/** Token balances. All token accounts of an owner count together; an owner nobody funded has zero. */
module Ledgers {
  import opened Bytes
  import opened Results
  import opened Sums

  /** Who controls a token account: a wallet key, or one of the program's derived addresses. */
  datatype Owner =
    | Wallet(key: Bytes32)
    | Vault
    | Fees
    | Escrow(serial: Bytes32, attempt: int)

  type Ledger = map<Owner, u64>

  ghost function Total(l: Ledger): int { Sum(l) }

  function Bal(l: Ledger, o: Owner): u64 {
    if o in l then l[o] else 0
  }

  /** What a transfer of `amount` adds to the balance of `o`. */
  function Delta(o: Owner, from: Owner, to: Owner, amount: int): int {
    (if o == to then amount else 0) - (if o == from then amount else 0)
  }

  lemma DeltaVia(o: Owner, from: Owner, via: Owner, to: Owner, amount: int)
    ensures Delta(o, from, to, amount) == Delta(o, from, via, amount) + Delta(o, via, to, amount)
  {}

  lemma MovedTotal(l: Ledger, from: Owner, to: Owner, amount: u64)
    requires amount <= Bal(l, from)
    ensures var debited: map<Owner, int> := l[from := Bal(l, from) - amount];
            Sum(debited[to := (if to in debited then debited[to] else 0) + amount]) == Total(l)
  {
    var debited: map<Owner, int> := l[from := Bal(l, from) - amount];
    SumUpdate(l, from, Bal(l, from) - amount);
    SumUpdate(debited, to, (if to in debited then debited[to] else 0) + amount);
  }

  function Transfer(l: Ledger, from: Owner, to: Owner, amount: u64): (r: Result<Ledger>)
    ensures r.Ok? <==> amount <= Bal(l, from) && (from == to || Bal(l, to) + amount <= U64_MAX)
    ensures r.Err? ==> r.error == if Bal(l, from) < amount then InsufficientFunds else ArithmeticOverflow
    ensures r.Ok? ==> forall o :: Bal(r.value, o) == Bal(l, o) + Delta(o, from, to, amount)
    ensures r.Ok? ==> r.value.Keys == l.Keys + {from, to} && Total(r.value) == Total(l)
  {
    var _ :- Need(amount <= Bal(l, from), InsufficientFunds);
    var debited := l[from := Bal(l, from) - amount];
    var _ :- Need(Bal(debited, to) + amount <= U64_MAX, ArithmeticOverflow);
    MovedTotal(l, from, to, amount);
    Ok(debited[to := Bal(debited, to) + amount])
  }

  /** A transfer signed by `signer`: the token program checks the balance, then that the signer owns the account. */
  function TransferAs(l: Ledger, signer: Owner, from: Owner, to: Owner, amount: u64): (r: Result<Ledger>)
    ensures r.Ok? ==> signer == from
    ensures signer == from ==> r == Transfer(l, from, to, amount)
    ensures signer != from ==> r == Err(if Bal(l, from) < amount then InsufficientFunds else OwnerMismatch)
  {
    var _ :- Need(amount <= Bal(l, from), InsufficientFunds);
    var _ :- Need(signer == from, OwnerMismatch);
    Transfer(l, from, to, amount)
  }

  /** With all balances together inside 64 bits, only a missing balance can stop a transfer. */
  lemma TransferWithinSupply(l: Ledger, from: Owner, to: Owner, amount: u64)
    requires Total(l) <= U64_MAX && amount <= Bal(l, from)
    ensures Transfer(l, from, to, amount).Ok?
  {
    SumUpdate(l, from, Bal(l, from) - amount);
    SumBounds(l[from := Bal(l, from) - amount]);
  }
}
