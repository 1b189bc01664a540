/** The background script's state and its reducer: one event in, one state out. */
module Store {
  import opened Vocabulary
  import opened FlowRecords

  datatype SuperToken = SuperToken(address: Address, balance: int, netFlow: int, lastUpdate: nat)

  /** superTokens is None once the token updater has failed: its catch clause returns undefined. */
  datatype State = State(
    agent: Address,
    superTokens: Option<seq<SuperToken>>,
    flows: seq<Flow>,
    senders: map<Address, seq<SuperToken>>,
    initialBlock: nat,
    cachedBlockNumber: Option<nat>,
    isSyncing: bool)

  /** What the chain answers while an event is handled: whether its block can be read, and the balances
      of the agent and of the flow's sender. None is a read that throws. */
  datatype Answers = Answers(block: bool, token: Option<int>, sender: Option<int>)

  /** What the chain answers while the script starts: the agent's initialisation block, the number and
      the time of the current block, and the balances that can be read. */
  datatype StartAnswers = StartAnswers(
    initializationBlock: Option<nat>, currentBlock: Option<nat>, now: Option<nat>, balances: map<Address, int>)

  /** What happens to the store: an event reaches the reducer, or the script starts again from the state
      it has cached. */
  datatype StoreEvent =
    | FlowEvent(flow: FlowUpdated, answers: Answers)
    | VaultTransfer(token: Address, timestamp: nat, answers: Answers)
    | VaultDeposit(token: Address, timestamp: nat, answers: Answers)
    | SyncStatusSyncing(upTo: nat)
    | ExternalSubscriptionSynced
    | OtherEvent
    | Restarted(presets: seq<Address>, start: StartAnswers)

  // ---------------------------------------------------------------- super tokens

  function FindToken(tokens: seq<SuperToken>, a: Address): (i: nat)
    ensures i <= |tokens|
    ensures i < |tokens| ==> tokens[i].address == a
    ensures forall j :: 0 <= j < i ==> tokens[j].address != a
  {
    if tokens == [] || tokens[0].address == a then 0 else FindToken(tokens[1..], a) + 1
  }

  function UpdatedTokens(
    tokens: Option<seq<SuperToken>>, a: Address, timestamp: nat, netFlow: Option<int>, balance: Option<int>)
    : Option<seq<SuperToken>>
  {
    if tokens.None? || balance.None? then None
    else
      var ts := tokens.value;
      var i := FindToken(ts, a);
      var known := if i < |ts| then ts[i] else SuperToken(a, 0, 0, 0);
      var updated := SuperToken(
        known.address, balance.value, if netFlow.Some? then netFlow.value else known.netFlow, timestamp);
      Some(if i < |ts| then ts[i := updated] else ts + [updated])
  }

  // ---------------------------------------------------------------- senders

  function Without(entries: seq<SuperToken>, a: Address): (r: seq<SuperToken>)
    ensures forall x :: x in r <==> x in entries && x.address != a
  {
    if entries == [] then []
    else
      var rest := Without(entries[..|entries| - 1], a);
      var x := entries[|entries| - 1];
      assert entries == entries[..|entries| - 1] + [x];
      if x.address != a then rest + [x] else rest
  }

  predicate StoresSender(senders: map<Address, seq<SuperToken>>, agent: Address, e: FlowUpdated) {
    IsIncoming(e, agent) && (e.sender !in senders || e.senderTotal != Number(0))
  }

  function UpdatedSenders(
    senders: map<Address, seq<SuperToken>>, agent: Address, e: FlowUpdated, balance: Option<int>)
    : Option<map<Address, seq<SuperToken>>>
  {
    if !StoresSender(senders, agent, e) then Some(senders)
    else
      var b :- balance;
      var others := if e.sender in senders then Without(senders[e.sender], e.token) else [];
      Some(senders[e.sender := others + [SuperToken(e.token, b, e.senderTotal.n, e.timestamp)]])
  }

  // ---------------------------------------------------------------- the reducer

  /** The agent's own net rate, as the event reports it. */
  function AgentTotal(e: FlowUpdated, agent: Address): int {
    if e.sender == agent then e.senderTotal.n else e.receiverTotal
  }

  /** The user data is decoded outside every catch clause, so bytes that do not decode reject the handler. */
  function HandledFlow(s: State, e: FlowUpdated, answers: Answers): Option<State> {
    if !Touches(e, s.agent) then Some(s)
    else if !answers.block then None
    else
      var tokens := UpdatedTokens(s.superTokens, e.token, e.timestamp, Some(AgentTotal(e, s.agent)), answers.token);
      var senders :- UpdatedSenders(s.senders, s.agent, e, answers.sender);
      if e.userData.None? then None
      else Some(s.(superTokens := tokens, flows := Updated(s.flows, e, s.agent), senders := senders))
  }

  function HandledVault(s: State, token: Address, timestamp: nat, answers: Answers): Option<State> {
    if !answers.block then None
    else Some(s.(superTokens := UpdatedTokens(s.superTokens, token, timestamp, None, answers.token)))
  }

  /** None when a handler's promise rejects: it is returned without being awaited, so the reducer's own
      catch clause does not see it. */
  function Reduced(s: State, e: StoreEvent): Option<State> {
    match e
    case FlowEvent(flow, answers) => HandledFlow(s, flow, answers)
    case VaultTransfer(token, t, answers) => HandledVault(s, token, t, answers)
    case VaultDeposit(token, t, answers) => HandledVault(s, token, t, answers)
    case SyncStatusSyncing(upTo) => Some(s.(isSyncing := true, cachedBlockNumber := Some(upTo)))
    case ExternalSubscriptionSynced => Some(s.(isSyncing := false))
    case OtherEvent => Some(s)
    case Restarted(presets, start) => Started(s.agent, Some(s), presets, start)
  }

  /** The state after any number of sessions' deliveries. */
  function Run(s: State, d: seq<StoreEvent>): Option<State> {
    if d == [] then Some(s)
    else
      var before :- Run(s, d[..|d| - 1]);
      Reduced(before, d[|d| - 1])
  }

  function Read(balances: map<Address, int>, a: Address): Option<int> {
    if a in balances then Some(balances[a]) else None
  }

  /** The tokens after the initial load: one update per address, in order. */
  function Loaded(tokens: Option<seq<SuperToken>>, addresses: seq<Address>, timestamp: nat, balances: map<Address, int>)
    : Option<seq<SuperToken>>
  {
    if addresses == [] then tokens
    else
      var a := addresses[|addresses| - 1];
      UpdatedTokens(
        Loaded(tokens, addresses[..|addresses| - 1], timestamp, balances), a, timestamp, None, Read(balances, a))
  }

  /** A JavaScript Set keeps the first occurrence of each element, in insertion order. */
  function Distinct(addresses: seq<Address>): (r: seq<Address>)
    ensures forall a :: a in r <==> a in addresses
    ensures forall i, j :: 0 <= i < j < |r| ==> r[i] != r[j]
  {
    if addresses == [] then []
    else
      var init := Distinct(addresses[..|addresses| - 1]);
      var a := addresses[|addresses| - 1];
      assert addresses == addresses[..|addresses| - 1] + [a];
      if a in init then init else init + [a]
  }

  function Addresses(tokens: seq<SuperToken>): (r: seq<Address>)
    ensures |r| == |tokens|
    ensures forall i :: 0 <= i < |tokens| ==> r[i] == tokens[i].address
  {
    seq(|tokens|, i requires 0 <= i < |tokens| => tokens[i].address)
  }

  /** None when there is no token list to take addresses from, or the current block cannot be read. */
  function InitialLoad(s: State, presets: seq<Address>, now: Option<nat>, balances: map<Address, int>): Option<State> {
    if s.superTokens.None? || now.None? then None
    else
      var addresses := Distinct(Addresses(s.superTokens.value) + presets);
      Some(s.(superTokens := Loaded(s.superTokens, addresses, now.value, balances)))
  }

  /** The agent is the cached one, if there is a cached state, whatever the app's agent is by now. */
  function InitialState(agent: Address, cached: Option<State>, initialBlock: nat): State {
    if cached.Some? then cached.value.(isSyncing := true)
    else State(agent, Some([]), [], map[], initialBlock, None, true)
  }

  /** The initial block is read from the agent unless the cached state has one other than 0. */
  function StartBlock(cached: Option<State>, start: StartAnswers): Option<nat> {
    if cached.Some? && cached.value.initialBlock != 0 then Some(cached.value.initialBlock)
    else start.initializationBlock
  }

  /** The script's start, for the first time or from a cached state; None if a read that it needs throws. */
  function Started(agent: Address, cached: Option<State>, presets: seq<Address>, start: StartAnswers): Option<State> {
    var initialBlock :- StartBlock(cached, start);
    if start.currentBlock.None? then None
    else InitialLoad(InitialState(agent, cached, initialBlock), presets, start.now, start.balances)
  }

  // ---------------------------------------------------------------- the script itself

  datatype Contract = External(token: Address)

  /** The background script with its memo of token contracts, a module-level map. */
  class BackgroundScript {
    var superTokenContracts: map<Address, Contract>

    ghost predicate Valid()
      reads this
    {
      forall a :: a in superTokenContracts ==> superTokenContracts[a] == External(a)
    }

    constructor ()
      ensures Valid() && superTokenContracts == map[]
    {
      superTokenContracts := map[];
    }

    /** With no app at hand (hasApp false) an unknown token makes the lookup throw. */
    method GetSuperTokenContract(a: Address, hasApp: bool) returns (c: Option<Contract>)
      requires Valid()
      modifies this
      ensures Valid()
      ensures c == if hasApp || a in old(superTokenContracts) then Some(External(a)) else None
      ensures superTokenContracts ==
              if c.Some? then old(superTokenContracts)[a := External(a)] else old(superTokenContracts)
    {
      if a in superTokenContracts {
        c := Some(superTokenContracts[a]);
      } else if hasApp {
        c := Some(External(a));
      } else {
        return None;
      }
      superTokenContracts := superTokenContracts[a := c.value];
    }

    /** The contract is remembered whatever the reads answer. */
    method UpdateSuperTokens(
      s: State, a: Address, timestamp: nat, netFlow: Option<int>, balance: Option<int>)
      returns (r: Option<seq<SuperToken>>)
      requires Valid()
      modifies this
      ensures Valid()
      ensures superTokenContracts == old(superTokenContracts)[a := External(a)]
      ensures r == UpdatedTokens(s.superTokens, a, timestamp, netFlow, balance)
    {
      var contract := GetSuperTokenContract(a, true);
      if s.superTokens.None? || balance.None? {
        return None;
      }
      var newSuperTokens := s.superTokens.value;
      var index := 0;
      while index < |newSuperTokens| && newSuperTokens[index].address != a
        invariant 0 <= index <= |newSuperTokens|
        invariant forall j :: 0 <= j < index ==> newSuperTokens[j].address != a
      {
        index := index + 1;
      }
      var updatedToken := if index == |newSuperTokens| then SuperToken(a, 0, 0, 0) else newSuperTokens[index];
      updatedToken := updatedToken.(lastUpdate := timestamp);
      updatedToken := updatedToken.(balance := balance.value);
      if netFlow.Some? {
        updatedToken := updatedToken.(netFlow := netFlow.value);
      }
      if index == |newSuperTokens| {
        newSuperTokens := newSuperTokens + [updatedToken];
      } else {
        newSuperTokens := newSuperTokens[index := updatedToken];
      }
      return Some(newSuperTokens);
    }

    /** Looks the contract up without an app: fails if the memo misses or the balance read throws. */
    method NewSuperTokenEntry(a: Address, netFlow: int, timestamp: nat, balance: Option<int>)
      returns (r: Option<SuperToken>)
      requires Valid()
      modifies this
      ensures Valid()
      ensures superTokenContracts == old(superTokenContracts)
      ensures r == if a in old(superTokenContracts) && balance.Some?
                   then Some(SuperToken(a, balance.value, netFlow, timestamp)) else None
    {
      var contract := GetSuperTokenContract(a, false);
      if contract.None? || balance.None? {
        return None;
      }
      r := Some(SuperToken(a, balance.value, netFlow, timestamp));
    }

    /** Without an app at hand the update fails exactly when an entry is to be stored and its contract
        is not remembered or its balance read throws. */
    method UpdateSendersSuperTokens(s: State, e: FlowUpdated, balance: Option<int>)
      returns (r: Option<map<Address, seq<SuperToken>>>)
      requires Valid()
      modifies this
      ensures Valid()
      ensures superTokenContracts == old(superTokenContracts)
      ensures r == if StoresSender(s.senders, s.agent, e) && e.token !in old(superTokenContracts) then None
                   else UpdatedSenders(s.senders, s.agent, e, balance)
    {
      var newSenders := s.senders;
      if e.receiver != s.agent {
        return Some(newSenders);
      }
      if e.sender !in newSenders {
        var entry := NewSuperTokenEntry(e.token, e.senderTotal.n, e.timestamp, balance);
        if entry.None? {
          return None;
        }
        assert [] + [entry.value] == [entry.value];
        newSenders := newSenders[e.sender := [entry.value]];
      } else {
        var kept := Without(newSenders[e.sender], e.token);
        if e.senderTotal != Number(0) {
          var entry := NewSuperTokenEntry(e.token, e.senderTotal.n, e.timestamp, balance);
          if entry.None? {
            return None;
          }
          kept := kept + [entry.value];
          newSenders := newSenders[e.sender := kept];
        }
      }
      return Some(newSenders);
    }

    /** The sender update looks its contract up without an app; it can rely on the memo because the
        token update of the same event has just filled it, so the outcome never depends on the memo. */
    method HandleFlowUpdated(s: State, e: FlowUpdated, answers: Answers) returns (r: Option<State>)
      requires Valid()
      modifies this
      ensures Valid()
      ensures r == HandledFlow(s, e, answers)
    {
      if !(e.sender == s.agent || e.receiver == s.agent) {
        return Some(s);
      }
      if !answers.block {
        return None;
      }
      var total := if s.agent == e.sender then e.senderTotal.n else e.receiverTotal;
      var newSuperTokens := UpdateSuperTokens(s, e.token, e.timestamp, Some(total), answers.token);
      var newSenders := UpdateSendersSuperTokens(s, e, answers.sender);
      if newSenders.None? {
        return None;
      }
      var newFlows := UpdateFlows(s.flows, e, s.agent);
      if newFlows.None? {
        return None;
      }
      r := Some(s.(superTokens := newSuperTokens, flows := newFlows.value, senders := newSenders.value));
    }

    method HandleVaultEvent(s: State, token: Address, timestamp: nat, answers: Answers) returns (r: Option<State>)
      requires Valid()
      modifies this
      ensures Valid()
      ensures r == HandledVault(s, token, timestamp, answers)
    {
      if !answers.block {
        return None;
      }
      var newSuperTokens := UpdateSuperTokens(s, token, timestamp, None, answers.token);
      r := Some(s.(superTokens := newSuperTokens));
    }

    /** The reducer; a restart is no event of its own and is InitializeState's. */
    method Reduce(s: State, e: StoreEvent) returns (r: Option<State>)
      requires Valid() && !e.Restarted?
      modifies this
      ensures Valid()
      ensures r == Reduced(s, e)
    {
      match e
      case FlowEvent(flow, answers) =>
        r := HandleFlowUpdated(s, flow, answers);
      case VaultTransfer(token, t, answers) =>
        r := HandleVaultEvent(s, token, t, answers);
      case VaultDeposit(token, t, answers) =>
        r := HandleVaultEvent(s, token, t, answers);
      case SyncStatusSyncing(upTo) =>
        r := Some(s.(isSyncing := true, cachedBlockNumber := Some(upTo)));
      case ExternalSubscriptionSynced =>
        r := Some(s.(isSyncing := false));
      case OtherEvent =>
        r := Some(s);
    }

    method LoadInitialSuperTokens(s: State, presets: seq<Address>, now: Option<nat>, balances: map<Address, int>)
      returns (r: Option<State>)
      requires Valid()
      modifies this
      ensures Valid()
      ensures r == InitialLoad(s, presets, now, balances)
    {
      if s.superTokens.None? {
        return None;
      }
      var addresses := Distinct(Addresses(s.superTokens.value) + presets);
      if now.None? {
        return None;
      }
      var next := s;
      for i := 0 to |addresses|
        invariant Valid()
        invariant next == s.(superTokens := Loaded(s.superTokens, addresses[..i], now.value, balances))
      {
        var a := addresses[i];
        assert addresses[..i + 1][..i] == addresses[..i];
        var tokens := UpdateSuperTokens(next, a, now.value, None, Read(balances, a));
        next := next.(superTokens := tokens);
      }
      assert addresses[..|addresses|] == addresses;
      r := Some(next);
    }

    /** The reads of the initial block and of the current one, then the cached state, if there is one, over
        the defaults, then the initial load. */
    method InitializeState(agent: Address, cached: Option<State>, presets: seq<Address>, start: StartAnswers)
      returns (r: Option<State>)
      requires Valid()
      modifies this
      ensures Valid()
      ensures r == Started(agent, cached, presets, start)
      ensures cached.Some? ==> r == Reduced(cached.value, Restarted(presets, start))
    {
      var initialBlock := start.initializationBlock;
      if cached.Some? && cached.value.initialBlock != 0 {
        initialBlock := Some(cached.value.initialBlock);
      }
      if initialBlock.None? {
        return None;
      }
      var nextState := State(agent, Some([]), [], map[], initialBlock.value, None, true);
      if cached.Some? {
        nextState := cached.value.(isSyncing := true);
      }
      if start.currentBlock.None? {
        return None;
      }
      r := LoadInitialSuperTokens(nextState, presets, start.now, start.balances);
    }
  }
}
