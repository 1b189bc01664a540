/** The agent's list of protected tokens and the guarded call that respects it. */
module ProtectedTokens {
  import opened Vocabulary
  import opened Tokens
  import Agreement

  const PROTECTED_TOKENS_CAP: nat := 10

  /** What a called contract may change behind an agent's back: its list, every token's balances, and
      the agreement's flows. */
  datatype Holdings = Holdings(protectedTokens: seq<Address>, ledger: Ledger, flows: Agreement.Agreed)

  // ---------------------------------------------------------------- the list

  function IndexOf(tokens: seq<Address>, token: Address): (i: nat)
    ensures i <= |tokens|
    ensures i < |tokens| ==> tokens[i] == token
    ensures forall j :: 0 <= j < i ==> tokens[j] != token
  {
    if tokens == [] || tokens[0] == token then 0 else IndexOf(tokens[1..], token) + 1
  }

  function Added(tokens: seq<Address>, token: Address, isErc20: bool): Option<seq<Address>> {
    if |tokens| >= PROTECTED_TOKENS_CAP || !isErc20 || token in tokens then None else Some(tokens + [token])
  }

  /** The last entry takes the removed one's place. */
  function Removed(tokens: seq<Address>, token: Address): Option<seq<Address>> {
    var i := IndexOf(tokens, token);
    if i == |tokens| then None
    else Some(tokens[i := tokens[|tokens| - 1]][..|tokens| - 1])
  }

  ghost predicate Sound(tokens: seq<Address>) {
    && |tokens| <= 10
    && forall i, j :: 0 <= i < j < |tokens| ==> tokens[i] != tokens[j]
  }

  /** Adding to a sound list puts exactly the token behind the others; it succeeds exactly below the cap of
      ten, for a new ERC-20 token. */
  lemma {:induction false} AddedIsInsertion(tokens: seq<Address>, token: Address, isErc20: bool)
    requires Sound(tokens)
    ensures var r := Added(tokens, token, isErc20);
            && (r.Some? <==> |tokens| < 10 && isErc20 && token !in tokens)
            && (r.Some? ==>
                  && Sound(r.value) && |r.value| == |tokens| + 1
                  && (forall j :: 0 <= j <= |tokens| ==> r.value[j] == if j < |tokens| then tokens[j] else token)
                  && forall t :: t in r.value <==> t in tokens || t == token)
  {
  }

  /** The swap with the last entry removes exactly the token and moves no other entry but the last. */
  lemma {:induction false} RemovedIsDeletion(tokens: seq<Address>, token: Address)
    requires Sound(tokens)
    ensures var r := Removed(tokens, token);
            && (r.Some? <==> token in tokens)
            && (r.Some? ==>
                  && Sound(r.value) && |r.value| == |tokens| - 1
                  && (forall j :: 0 <= j < |r.value| ==>
                        r.value[j] == if tokens[j] == token then tokens[|tokens| - 1] else tokens[j])
                  && forall t :: t in r.value <==> t in tokens && t != token)
  {
    var i, n := IndexOf(tokens, token), |tokens|;
    if token in tokens {
      var r := Removed(tokens, token).value;
      assert forall j :: 0 <= j < n - 1 ==> r[j] == if j == i then tokens[n - 1] else tokens[j];
      forall t | t in tokens && t != token ensures t in r {
        var j :| 0 <= j < n && tokens[j] == t;
        assert if j == n - 1 then r[i] == t else r[j] == t;
      }
    }
  }

  datatype Change = Add(token: Address, isErc20: bool) | Remove(token: Address)

  function Applied(tokens: seq<Address>, c: Change): seq<Address> {
    var r := if c.Add? then Added(tokens, c.token, c.isErc20) else Removed(tokens, c.token);
    if r.Some? then r.value else tokens
  }

  function AppliedAll(tokens: seq<Address>, changes: seq<Change>): seq<Address> {
    if changes == [] then tokens
    else Applied(AppliedAll(tokens, changes[..|changes| - 1]), changes[|changes| - 1])
  }

  /** Over any run of additions and removals the list stays free of duplicates and within the cap. */
  lemma {:induction false} ListStaysSound(tokens: seq<Address>, changes: seq<Change>)
    requires Sound(tokens)
    ensures Sound(AppliedAll(tokens, changes))
  {
    if changes != [] {
      var before, c := AppliedAll(tokens, changes[..|changes| - 1]), changes[|changes| - 1];
      ListStaysSound(tokens, changes[..|changes| - 1]);
      if c.Add? {
        AddedIsInsertion(before, c.token, c.isErc20);
      } else {
        RemovedIsDeletion(before, c.token);
      }
    }
  }

  // ---------------------------------------------------------------- the guarded call

  /** The list is as before and no protected balance of the agent is lower. */
  predicate Respects(agent: Address, before: Holdings, after: Holdings) {
    && after.protectedTokens == before.protectedTokens
    && forall t :: t in before.protectedTokens ==> Balance(after.ledger, t, agent) >= Balance(before.ledger, t, agent)
  }

  /** safeExecute: any call on any target but a protected token, which stands only if it respects the
      agent's protected tokens. */
  function SafeExecuted(agent: Address, h: Holdings, target: Address, called: Holdings -> Option<Holdings>)
    : Option<Holdings>
  {
    if target in h.protectedTokens then None
    else
      var after :- called(h);
      if Respects(agent, h, after) then Some(after) else None
  }

  // ---------------------------------------------------------------- the agent

  class Agent {
    const self: Address
    var protectedTokens: seq<Address>
    var ledger: Ledger
    var flows: Agreement.Agreed

    /** The agent at an address, in the world as it stands. */
    constructor (address: Address, h: Holdings)
      ensures self == address && Now() == h
    {
      self := address;
      protectedTokens, ledger, flows := h.protectedTokens, h.ledger, h.flows;
    }

    function Now(): Holdings
      reads this
    {
      Holdings(protectedTokens, ledger, flows)
    }

    method TokenIsProtected(token: Address) returns (r: bool)
      ensures r <==> token in protectedTokens
    {
      for i := 0 to |protectedTokens|
        invariant token !in protectedTokens[..i]
      {
        if protectedTokens[i] == token {
          return true;
        }
      }
      return false;
    }

    method AddProtectedToken(token: Address, isErc20: bool, authorized: bool) returns (ok: bool)
      modifies this`protectedTokens
      ensures var r := Added(old(protectedTokens), token, isErc20);
              && ok == (authorized && r.Some?)
              && protectedTokens == if ok then r.value else old(protectedTokens)
    {
      if !authorized || |protectedTokens| >= PROTECTED_TOKENS_CAP || !isErc20 {
        return false;
      }
      var already := TokenIsProtected(token);
      if already {
        return false;
      }
      protectedTokens := protectedTokens + [token];
      ok := true;
    }

    method RemoveProtectedToken(token: Address, authorized: bool) returns (ok: bool)
      modifies this`protectedTokens
      ensures var r := Removed(old(protectedTokens), token);
              && ok == (authorized && r.Some?)
              && protectedTokens == if ok then r.value else old(protectedTokens)
    {
      if !authorized {
        return false;
      }
      var index := 0;
      while index < |protectedTokens| && protectedTokens[index] != token
        invariant 0 <= index <= |protectedTokens|
        invariant forall j :: 0 <= j < index ==> protectedTokens[j] != token
      {
        index := index + 1;
      }
      if index == |protectedTokens| {
        return false;
      }
      protectedTokens := protectedTokens[index := protectedTokens[|protectedTokens| - 1]];
      protectedTokens := protectedTokens[..|protectedTokens| - 1];
      ok := true;
    }

    /** Whatever the called contract does to the list, the balances and the flows, the call stands
        exactly when the list is as before and no protected balance is lower; otherwise everything is
        rolled back. */
    method SafeExecute(target: Address, called: Holdings -> Option<Holdings>, authorized: bool) returns (ok: bool)
      modifies this
      ensures ok <==> authorized && SafeExecuted(self, old(Now()), target, called).Some?
      ensures Now() == if ok then SafeExecuted(self, old(Now()), target, called).value else old(Now())
      ensures protectedTokens == old(protectedTokens)
      ensures forall t :: t in protectedTokens ==> Balance(ledger, t, self) >= Balance(old(ledger), t, self)
    {
      if !authorized {
        return false;
      }
      var before := Now();
      var n := |protectedTokens|;
      var tokens: seq<Address> := [];
      var amounts: seq<nat> := [];
      for i := 0 to n
        invariant tokens == protectedTokens[..i] && |amounts| == i
        invariant target !in protectedTokens[..i]
        invariant forall j :: 0 <= j < i ==> amounts[j] == Balance(before.ledger, protectedTokens[j], self)
      {
        var token := protectedTokens[i];
        if target == token {
          return false;
        }
        tokens := tokens + [token];
        amounts := amounts + [Balance(ledger, token, self)];
      }

      var result := called(Now());
      if result.None? {
        return false;
      }
      protectedTokens, ledger, flows := result.value.protectedTokens, result.value.ledger, result.value.flows;

      ok := |protectedTokens| == n;
      var j := 0;
      while ok && j < n
        invariant 0 <= j <= n
        invariant ok ==> |protectedTokens| == n && protectedTokens[..j] == tokens[..j]
        invariant ok ==> forall i :: 0 <= i < j ==> Balance(ledger, tokens[i], self) >= amounts[i]
        invariant !ok ==> protectedTokens != tokens ||
                          exists t :: t in tokens && Balance(ledger, t, self) < Balance(before.ledger, t, self)
        decreases n - j, ok
      {
        if protectedTokens[j] != tokens[j] {
          ok := false;
        } else if Balance(ledger, protectedTokens[j], self) < amounts[j] {
          ok := false;
        } else {
          j := j + 1;
        }
      }
      if !ok {
        protectedTokens, ledger, flows := before.protectedTokens, before.ledger, before.flows;
      }
    }
  }
}
