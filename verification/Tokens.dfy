/** An ERC-20 ledger (EIP-20, Methods) for all tokens at once, with one-to-one wrapping. */
module Tokens {
  import opened Vocabulary

  datatype Account = Account(token: Address, who: Address)
  datatype Grant = Grant(token: Address, owner: Address, spender: Address)
  datatype Ledger = Ledger(balances: map<Account, nat>, allowances: map<Grant, nat>)

  function Balance(l: Ledger, token: Address, who: Address): nat {
    if Account(token, who) in l.balances then l.balances[Account(token, who)] else 0
  }

  function Allowance(l: Ledger, token: Address, owner: Address, spender: Address): nat {
    if Grant(token, owner, spender) in l.allowances then l.allowances[Grant(token, owner, spender)] else 0
  }

  function WithBalance(l: Ledger, token: Address, who: Address, amount: nat): Ledger {
    l.(balances := l.balances[Account(token, who) := amount])
  }

  /** approve */
  function Approved(l: Ledger, token: Address, owner: Address, spender: Address, amount: nat): Ledger {
    l.(allowances := l.allowances[Grant(token, owner, spender) := amount])
  }

  /** transfer; None is a revert. */
  function Moved(l: Ledger, token: Address, from: Address, dest: Address, amount: nat): Option<Ledger> {
    if Balance(l, token, from) < amount then None
    else
      var l' := WithBalance(l, token, from, Balance(l, token, from) - amount);
      Some(WithBalance(l', token, dest, Balance(l', token, dest) + amount))
  }

  /** transferFrom: spends the allowance that from gave to spender. */
  function Pulled(l: Ledger, token: Address, spender: Address, from: Address, dest: Address, amount: nat)
    : Option<Ledger>
  {
    if Allowance(l, token, from, spender) < amount then None
    else
      var l' :- Moved(l, token, from, dest, amount);
      Some(Approved(l', token, from, spender, Allowance(l, token, from, spender) - amount))
  }

  /** A super token's upgrade: pull the underlying from the caller, mint the same amount to it. */
  function Upgraded(l: Ledger, token: Address, underlying: Address, caller: Address, amount: nat): Option<Ledger> {
    var l' :- Pulled(l, underlying, token, caller, token, amount);
    Some(WithBalance(l', token, caller, Balance(l', token, caller) + amount))
  }

  /** A super token's downgrade: burn from the caller, pay out the same amount of the underlying. */
  function Downgraded(l: Ledger, token: Address, underlying: Address, caller: Address, amount: nat): Option<Ledger> {
    if Balance(l, token, caller) < amount then None
    else Moved(WithBalance(l, token, caller, Balance(l, token, caller) - amount), underlying, token, caller, amount)
  }

  // ---------------------------------------------------------------- effects

  /** What a transfer adds to an account's balance. */
  function Gain(who: Address, from: Address, dest: Address, amount: nat): int {
    (if who == dest then amount else 0) - (if who == from then amount else 0)
  }

  lemma {:induction false} MovedEffect(l: Ledger, token: Address, from: Address, dest: Address, amount: nat)
    requires Moved(l, token, from, dest, amount).Some?
    ensures var l' := Moved(l, token, from, dest, amount).value;
            && l'.allowances == l.allowances
            && forall t, w :: Balance(l', t, w) ==
                 Balance(l, t, w) + if t == token then Gain(w, from, dest, amount) else 0
  {
  }

  lemma {:induction false} PulledEffect(
    l: Ledger, token: Address, spender: Address, from: Address, dest: Address, amount: nat)
    requires Pulled(l, token, spender, from, dest, amount).Some?
    ensures var l' := Pulled(l, token, spender, from, dest, amount).value;
            && l'.allowances ==
               l.allowances[Grant(token, from, spender) := Allowance(l, token, from, spender) - amount]
            && forall t, w :: Balance(l', t, w) ==
                 Balance(l, t, w) + if t == token then Gain(w, from, dest, amount) else 0
  {
    MovedEffect(l, token, from, dest, amount);
  }

  ghost function In(token: Address): (Account, nat) -> int {
    (a: Account, n: nat) => if a.token == token then n else 0
  }

  /** The total of a token over all accounts. */
  ghost function Supply(l: Ledger, token: Address): int {
    MapSum(l.balances, In(token))
  }

  lemma {:induction false} SupplyPut(l: Ledger, token: Address, who: Address, amount: nat, t: Address)
    ensures Supply(WithBalance(l, token, who, amount), t) ==
            Supply(l, t) + if t == token then amount - Balance(l, token, who) else 0
  {
    var k, g := Account(token, who), In(t);
    MapSumPut(l.balances, k, amount, g);
    if k in l.balances {
      MapSumRemove(l.balances, k, g);
    } else {
      assert l.balances - {k} == l.balances;
    }
  }

  /** Transfers conserve every token's total. */
  lemma {:induction false} MovedSupply(l: Ledger, token: Address, from: Address, dest: Address, amount: nat, t: Address)
    requires Moved(l, token, from, dest, amount).Some?
    ensures Supply(Moved(l, token, from, dest, amount).value, t) == Supply(l, t)
  {
    var l' := WithBalance(l, token, from, Balance(l, token, from) - amount);
    SupplyPut(l, token, from, Balance(l, token, from) - amount, t);
    SupplyPut(l', token, dest, Balance(l', token, dest) + amount, t);
  }

  lemma {:induction false} PulledSupply(
    l: Ledger, token: Address, spender: Address, from: Address, dest: Address, amount: nat, t: Address)
    requires Pulled(l, token, spender, from, dest, amount).Some?
    ensures Supply(Pulled(l, token, spender, from, dest, amount).value, t) == Supply(l, t)
  {
    MovedSupply(l, token, from, dest, amount, t);
  }

  /** Upgrading mints exactly what it locks: the token's total and its reserve grow alike. */
  lemma {:induction false} UpgradedEffect(l: Ledger, token: Address, u: Address, caller: Address, amount: nat)
    requires Upgraded(l, token, u, caller, amount).Some? && u != token
    ensures var l' := Upgraded(l, token, u, caller, amount).value;
            && l'.allowances == l.allowances[Grant(u, caller, token) := Allowance(l, u, caller, token) - amount]
            && (forall t, w :: Balance(l', t, w) ==
                  Balance(l, t, w)
                  + (if t == u then Gain(w, caller, token, amount) else 0)
                  + (if t == token && w == caller then amount else 0))
            && (forall t :: Supply(l', t) == Supply(l, t) + if t == token then amount else 0)
  {
    PulledEffect(l, u, token, caller, token, amount);
    var l1 := Pulled(l, u, token, caller, token, amount).value;
    forall t ensures Supply(Upgraded(l, token, u, caller, amount).value, t) ==
                     Supply(l, t) + if t == token then amount else 0 {
      PulledSupply(l, u, token, caller, token, amount, t);
      SupplyPut(l1, token, caller, Balance(l1, token, caller) + amount, t);
    }
  }

  lemma {:induction false} DowngradedEffect(l: Ledger, token: Address, u: Address, caller: Address, amount: nat)
    requires Downgraded(l, token, u, caller, amount).Some? && u != token
    ensures var l' := Downgraded(l, token, u, caller, amount).value;
            && l'.allowances == l.allowances
            && (forall t, w :: Balance(l', t, w) ==
                  Balance(l, t, w)
                  + (if t == u then Gain(w, token, caller, amount) else 0)
                  - (if t == token && w == caller then amount else 0))
            && (forall t :: Supply(l', t) == Supply(l, t) - if t == token then amount else 0)
  {
    hide Supply;
    var l1 := WithBalance(l, token, caller, Balance(l, token, caller) - amount);
    MovedEffect(l1, u, token, caller, amount);
    forall t ensures Supply(Downgraded(l, token, u, caller, amount).value, t) ==
                     Supply(l, t) - if t == token then amount else 0 {
      SupplyPut(l, token, caller, Balance(l, token, caller) - amount, t);
      MovedSupply(l1, u, token, caller, amount, t);
    }
  }
}
