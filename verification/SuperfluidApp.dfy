/** The on-chain app: permissions, token moves through the agent, and flow operations. */
module SuperfluidApp {
  import opened Vocabulary
  import opened Tokens
  import opened Agreement
  import opened ProtectedTokens

  datatype Role = ManageStreams | SetAgentRole | ManageSuperTokens | Transfer | SafeExecute
  datatype Permission = Permission(who: Address, on: Address, role: Role)

  /** An agreement operation that an agent asks a host for. */
  datatype HostCall = HostCall(host: Address, cfa: Address, agent: Address, op: Op)

  /** What is fixed around the app: its own address, which addresses have code, which answer as super
      tokens, the ERC-20 underlying of those that wrap one, which run an initialised Agent, the ACL, and
      what a host does when it is called, which may be anything. */
  datatype Setup = Setup(
    app: Address, contracts: set<Address>, superTokens: set<Address>, underlying: map<Address, Address>,
    agents: set<Address>, acl: set<Permission>, react: (HostCall, Holdings) -> Option<Holdings>)

  /** The app's storage, with the token ledger, the agreement it acts on and the agents' lists of
      protected tokens. */
  datatype State = State(
    initialized: bool, agent: Address, host: Address, cfa: Address, ledger: Ledger, flows: Agreed,
    guards: map<Address, seq<Address>>)

  /** The protected tokens of the app's agent. */
  function ProtectedBy(s: State): seq<Address> {
    if s.agent in s.guards then s.guards[s.agent] else []
  }

  /** What the agent's guarded call works on. */
  function AgentHoldings(s: State): Holdings {
    Holdings(ProtectedBy(s), s.ledger, s.flows)
  }

  datatype Call =
    | Initialize(newAgent: Address, newHost: Address, newCfa: Address)
    | Deposit(token: Address, amount: nat, isExternal: bool)
    | Withdraw(token: Address, receiver: Address, amount: nat)
    | Upgrade(token: Address, amount: nat)
    | Downgrade(token: Address, amount: nat)
    | CreateFlow(token: Address, receiver: Address, rate: int, userData: Option<string>, now: nat)
    | UpdateFlow(token: Address, receiver: Address, rate: int, userData: Option<string>, now: nat)
    | DeleteFlow(token: Address, receiver: Address, now: nat)
    | DeleteOwnFlow(token: Address, now: nat)
    | SetAgent(newAgent: Address)

  /** What deletions pass as user data: no bytes. */
  const NO_DATA: Option<string> := Some("")

  /** auth: also fails while the app is not initialised. */
  predicate Authorized(u: Setup, s: State, caller: Address, role: Role) {
    s.initialized && Permission(caller, u.app, role) in u.acl
  }

  predicate ValidSuperToken(u: Setup, token: Address) {
    token in u.contracts && token in u.superTokens
  }

  /** Vault deposit, called by the app: the agent pulls the tokens. */
  function VaultDeposited(u: Setup, s: State, token: Address, amount: nat): Option<Ledger> {
    if s.agent !in u.agents || amount == 0 then None
    else Pulled(s.ledger, token, s.agent, u.app, s.agent, amount)
  }

  /** Vault transfer, called by the app. */
  function VaultTransferred(u: Setup, s: State, token: Address, dest: Address, amount: nat): Option<Ledger> {
    if s.agent !in u.agents || Permission(u.app, s.agent, Transfer) !in u.acl || amount == 0 then None
    else Moved(s.ledger, token, s.agent, dest, amount)
  }

  /** The host's behaviour on an operation that the app's agent asks for. */
  function Called(u: Setup, s: State, op: Op): Holdings -> Option<Holdings> {
    (h: Holdings) => u.react(HostCall(s.host, s.cfa, s.agent, op), h)
  }

  /** The agent's guarded call on the host, with the agreement operation. */
  function AgreementCalled(u: Setup, s: State, op: Op): Option<State> {
    if s.agent !in u.agents || Permission(u.app, s.agent, SafeExecute) !in u.acl then None
    else
      var h :- SafeExecuted(s.agent, AgentHoldings(s), s.host, Called(u, s, op));
      Some(s.(ledger := h.ledger, flows := h.flows))
  }

  function Deposited(
    u: Setup, s: State, caller: Address, token: Address, amount: nat, isExternal: bool)
    : Option<State>
  {
    if !s.initialized || !ValidSuperToken(u, token) || amount == 0 then None
    else
      var l1 :- if isExternal then Pulled(s.ledger, token, u.app, caller, u.app, amount) else Some(s.ledger);
      var l2 := Approved(l1, token, u.app, s.agent, amount);
      var l3 :- VaultDeposited(u, s.(ledger := l2), token, amount);
      Some(s.(ledger := l3))
  }

  function Withdrawn(
    u: Setup, s: State, caller: Address, token: Address, receiver: Address, amount: nat)
    : Option<State>
  {
    if !Authorized(u, s, caller, ManageStreams) || !ValidSuperToken(u, token) || amount == 0 then None
    else
      var l :- VaultTransferred(u, s, token, receiver, amount);
      Some(s.(ledger := l))
  }

  function UpgradedByApp(u: Setup, s: State, caller: Address, token: Address, amount: nat): Option<State> {
    if !Authorized(u, s, caller, ManageSuperTokens) || !ValidSuperToken(u, token) || amount == 0
       || token !in u.underlying then None
    else
      var underlying := u.underlying[token];
      var l1 :- VaultTransferred(u, s, underlying, u.app, amount);
      var l2 := Approved(l1, underlying, u.app, token, amount);
      var l3 :- Upgraded(l2, token, underlying, u.app, amount);
      var l4 :- Moved(l3, token, u.app, s.agent, amount);
      Some(s.(ledger := l4))
  }

  function DowngradedByApp(u: Setup, s: State, caller: Address, token: Address, amount: nat): Option<State> {
    if !Authorized(u, s, caller, ManageSuperTokens) || !ValidSuperToken(u, token) || amount == 0
       || token !in u.underlying then None
    else
      var underlying := u.underlying[token];
      var l1 :- VaultTransferred(u, s, token, u.app, amount);
      var l2 :- Downgraded(l1, token, underlying, u.app, amount);
      var l3 :- Moved(l2, underlying, u.app, s.agent, amount);
      Some(s.(ledger := l3))
  }

  function FlowCalled(u: Setup, s: State, caller: Address, token: Address, op: Op): Option<State> {
    if !Authorized(u, s, caller, ManageStreams) || !ValidSuperToken(u, token) then None
    else AgreementCalled(u, s, op)
  }

  function OwnFlowDeleted(u: Setup, s: State, caller: Address, token: Address, now: nat): Option<State> {
    var key := Key(token, s.agent, caller);
    if !s.initialized || !ValidSuperToken(u, token) || key !in s.flows then None
    else AgreementCalled(u, s, Op.Delete(key, NO_DATA, now))
  }

  /** One external call; None is a revert. */
  function Step(u: Setup, s: State, caller: Address, call: Call): Option<State> {
    match call
    case Initialize(agent, host, cfa) =>
      if s.initialized || agent !in u.contracts || host !in u.contracts || cfa !in u.contracts then None
      else Some(s.(initialized := true, agent := agent, host := host, cfa := cfa))
    case Deposit(token, amount, isExternal) => Deposited(u, s, caller, token, amount, isExternal)
    case Withdraw(token, receiver, amount) => Withdrawn(u, s, caller, token, receiver, amount)
    case Upgrade(token, amount) => UpgradedByApp(u, s, caller, token, amount)
    case Downgrade(token, amount) => DowngradedByApp(u, s, caller, token, amount)
    case CreateFlow(token, receiver, rate, userData, now) =>
      FlowCalled(u, s, caller, token, Op.Create(Key(token, s.agent, receiver), rate, userData, now))
    case UpdateFlow(token, receiver, rate, userData, now) =>
      FlowCalled(u, s, caller, token, Op.Update(Key(token, s.agent, receiver), rate, userData, now))
    case DeleteFlow(token, receiver, now) =>
      FlowCalled(u, s, caller, token, Op.Delete(Key(token, s.agent, receiver), NO_DATA, now))
    case DeleteOwnFlow(token, now) => OwnFlowDeleted(u, s, caller, token, now)
    case SetAgent(agent) =>
      if !Authorized(u, s, caller, SetAgentRole) || agent !in u.contracts then None
      else Some(s.(agent := agent))
  }

  /** The contract with its storage fields; each call either succeeds as Step says or reverts, leaving
      every field as it was. */
  class Superfluid {
    const setup: Setup
    var initialized: bool
    var agent: Address
    var host: Address
    var cfa: Address
    var ledger: Ledger
    var flows: Agreed
    var guards: map<Address, seq<Address>>

    constructor (u: Setup, l: Ledger, m: Agreed, g: map<Address, seq<Address>>)
      ensures setup == u && Now() == State(false, 0, 0, 0, l, m, g)
    {
      setup := u;
      initialized, agent, host, cfa := false, 0, 0, 0;
      ledger, flows, guards := l, m, g;
    }

    function Now(): State
      reads this
    {
      State(initialized, agent, host, cfa, ledger, flows, guards)
    }

    ghost predicate Outcome(was: State, caller: Address, call: Call, ok: bool)
      reads this
    {
      var r := Step(setup, was, caller, call);
      ok == r.Some? && Now() == if ok then r.value else was
    }

    method Initialize(newAgent: Address, newHost: Address, newCfa: Address, caller: Address) returns (ok: bool)
      modifies this
      ensures Outcome(old(Now()), caller, Call.Initialize(newAgent, newHost, newCfa), ok)
    {
      if initialized || newAgent !in setup.contracts || newHost !in setup.contracts || newCfa !in setup.contracts {
        return false;
      }
      agent := newAgent;
      host := newHost;
      cfa := newCfa;
      initialized := true;
      ok := true;
    }

    method Deposit(token: Address, amount: nat, isExternal: bool, caller: Address) returns (ok: bool)
      modifies this
      ensures Outcome(old(Now()), caller, Call.Deposit(token, amount, isExternal), ok)
    {
      var before := ledger;
      if !initialized || !ValidSuperToken(setup, token) || amount == 0 {
        return false;
      }
      if isExternal {
        var pulled := Pulled(ledger, token, setup.app, caller, setup.app, amount);
        if pulled.None? {
          return false;
        }
        ledger := pulled.value;
      }
      ledger := Approved(ledger, token, setup.app, agent, amount);
      var deposited := VaultDeposited(setup, Now(), token, amount);
      if deposited.None? {
        ledger := before;
        return false;
      }
      ledger := deposited.value;
      ok := true;
    }

    method Withdraw(token: Address, receiver: Address, amount: nat, caller: Address) returns (ok: bool)
      modifies this
      ensures Outcome(old(Now()), caller, Call.Withdraw(token, receiver, amount), ok)
    {
      if !Authorized(setup, Now(), caller, ManageStreams) || !ValidSuperToken(setup, token) || amount == 0 {
        return false;
      }
      var sent := VaultTransferred(setup, Now(), token, receiver, amount);
      if sent.None? {
        return false;
      }
      ledger := sent.value;
      ok := true;
    }

    method Upgrade(token: Address, amount: nat, caller: Address) returns (ok: bool)
      modifies this
      ensures Outcome(old(Now()), caller, Call.Upgrade(token, amount), ok)
    {
      var before := ledger;
      if !Authorized(setup, Now(), caller, ManageSuperTokens) || !ValidSuperToken(setup, token) || amount == 0
         || token !in setup.underlying {
        return false;
      }
      var underlying := setup.underlying[token];
      var sent := VaultTransferred(setup, Now(), underlying, setup.app, amount);
      if sent.None? {
        return false;
      }
      ledger := sent.value;
      ledger := Approved(ledger, underlying, setup.app, token, amount);
      var upgraded := Upgraded(ledger, token, underlying, setup.app, amount);
      if upgraded.None? {
        ledger := before;
        return false;
      }
      ledger := upgraded.value;
      var returned := Moved(ledger, token, setup.app, agent, amount);
      if returned.None? {
        ledger := before;
        return false;
      }
      ledger := returned.value;
      ok := true;
    }

    method Downgrade(token: Address, amount: nat, caller: Address) returns (ok: bool)
      modifies this
      ensures Outcome(old(Now()), caller, Call.Downgrade(token, amount), ok)
    {
      var before := ledger;
      if !Authorized(setup, Now(), caller, ManageSuperTokens) || !ValidSuperToken(setup, token) || amount == 0
         || token !in setup.underlying {
        return false;
      }
      var underlying := setup.underlying[token];
      var sent := VaultTransferred(setup, Now(), token, setup.app, amount);
      if sent.None? {
        return false;
      }
      ledger := sent.value;
      var downgraded := Downgraded(ledger, token, underlying, setup.app, amount);
      if downgraded.None? {
        ledger := before;
        return false;
      }
      ledger := downgraded.value;
      var returned := Moved(ledger, underlying, setup.app, agent, amount);
      if returned.None? {
        ledger := before;
        return false;
      }
      ledger := returned.value;
      ok := true;
    }

    /** The call that the flow operations share: the agent's own guarded call, whatever the host does. */
    method CallAgreement(op: Op) returns (ok: bool)
      modifies this`ledger, this`flows
      ensures var r := AgreementCalled(setup, old(Now()), op);
              ok == r.Some? && Now() == if ok then r.value else old(Now())
      ensures forall t :: t in ProtectedBy(Now()) ==> Balance(ledger, t, agent) >= Balance(old(ledger), t, agent)
    {
      if agent !in setup.agents {
        return false;
      }
      var guarded := new Agent(agent, AgentHoldings(Now()));
      ok := guarded.SafeExecute(host, Called(setup, Now(), op), Permission(setup.app, agent, SafeExecute) in setup.acl);
      ledger, flows := guarded.ledger, guarded.flows;
    }

    method CreateFlow(token: Address, receiver: Address, rate: int, userData: Option<string>, now: nat, caller: Address)
      returns (ok: bool)
      modifies this
      ensures Outcome(old(Now()), caller, Call.CreateFlow(token, receiver, rate, userData, now), ok)
    {
      if !Authorized(setup, Now(), caller, ManageStreams) || !ValidSuperToken(setup, token) {
        return false;
      }
      ok := CallAgreement(Op.Create(Key(token, agent, receiver), rate, userData, now));
    }

    method UpdateFlow(token: Address, receiver: Address, rate: int, userData: Option<string>, now: nat, caller: Address)
      returns (ok: bool)
      modifies this
      ensures Outcome(old(Now()), caller, Call.UpdateFlow(token, receiver, rate, userData, now), ok)
    {
      if !Authorized(setup, Now(), caller, ManageStreams) || !ValidSuperToken(setup, token) {
        return false;
      }
      ok := CallAgreement(Op.Update(Key(token, agent, receiver), rate, userData, now));
    }

    method DeleteFlow(token: Address, receiver: Address, now: nat, caller: Address) returns (ok: bool)
      modifies this
      ensures Outcome(old(Now()), caller, Call.DeleteFlow(token, receiver, now), ok)
    {
      if !Authorized(setup, Now(), caller, ManageStreams) || !ValidSuperToken(setup, token) {
        return false;
      }
      ok := CallAgreement(Op.Delete(Key(token, agent, receiver), NO_DATA, now));
    }

    method DeleteOwnFlow(token: Address, now: nat, caller: Address) returns (ok: bool)
      modifies this
      ensures Outcome(old(Now()), caller, Call.DeleteOwnFlow(token, now), ok)
    {
      if !initialized || !ValidSuperToken(setup, token) || Key(token, agent, caller) !in flows {
        return false;
      }
      ok := CallAgreement(Op.Delete(Key(token, agent, caller), NO_DATA, now));
    }

    method SetAgent(newAgent: Address, caller: Address) returns (ok: bool)
      modifies this
      ensures Outcome(old(Now()), caller, Call.SetAgent(newAgent), ok)
    {
      if !Authorized(setup, Now(), caller, SetAgentRole) || newAgent !in setup.contracts {
        return false;
      }
      agent := newAgent;
      ok := true;
    }
  }
}
