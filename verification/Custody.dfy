/** Custody, permissions and lifecycle over every run of the on-chain app. */
module Custody {
  import opened Vocabulary
  import opened Tokens
  import opened Agreement
  import opened ProtectedTokens
  import opened SuperfluidApp

  /** Tokens, agents and the app are different contracts, and no token wraps itself. */
  ghost predicate WellFormed(u: Setup) {
    && u.app !in u.superTokens && u.app !in u.agents && u.agents !! u.superTokens
    && forall t :: t in u.underlying ==> t in u.superTokens && u.underlying[t] != t
  }

  /** The host moves no tokens while it handles a flow operation. */
  ghost predicate QuietHost(u: Setup) {
    forall c, h :: u.react(c, h).Some? ==> u.react(c, h).value.ledger == h.ledger
  }

  /** The host lets the agreement perform the operation and does nothing else. */
  ghost predicate Genuine(u: Setup) {
    forall c, h :: u.react(c, h) == if Allowed(h.flows, c.op) then Some(h.(flows := After(h.flows, c.op))) else None
  }

  // ---------------------------------------------------------------- one call's net effect

  /** What a successful call adds to an account's balance: deposits go straight to the agent,
      withdrawals straight from it, and wrapping swaps the agent's underlying for super tokens. */
  function Delta(u: Setup, s: State, caller: Address, call: Call, t: Address, w: Address): int {
    match call
    case Deposit(token, amount, isExternal) =>
      if t == token then Gain(w, if isExternal then caller else u.app, s.agent, amount) else 0
    case Withdraw(token, receiver, amount) => if t == token then Gain(w, s.agent, receiver, amount) else 0
    case Upgrade(token, amount) =>
      (if token in u.underlying && t == u.underlying[token] then Gain(w, s.agent, token, amount) else 0)
      + (if t == token && w == s.agent then amount else 0)
    case Downgrade(token, amount) =>
      (if token in u.underlying && t == u.underlying[token] then Gain(w, token, s.agent, amount) else 0)
      - (if t == token && w == s.agent then amount else 0)
    case _ => 0
  }

  /** What a successful call adds to a token's total. */
  function SupplyDelta(call: Call, t: Address): int {
    match call
    case Upgrade(token, amount) => if t == token then amount else 0
    case Downgrade(token, amount) => if t == token then -(amount as int) else 0
    case _ => 0
  }

  ghost predicate HasEffect(u: Setup, s: State, caller: Address, call: Call, s': State) {
    && (forall t, w :: Balance(s'.ledger, t, w) == Balance(s.ledger, t, w) + Delta(u, s, caller, call, t, w))
    && (forall t :: Supply(s'.ledger, t) == Supply(s.ledger, t) + SupplyDelta(call, t))
  }

  lemma {:induction false} DepositEffect(
    u: Setup, s: State, caller: Address, token: Address, amount: nat, isExternal: bool)
    requires Deposited(u, s, caller, token, amount, isExternal).Some?
    ensures HasEffect(u, s, caller, Deposit(token, amount, isExternal),
                      Deposited(u, s, caller, token, amount, isExternal).value)
  {
    var l1 := s.ledger;
    if isExternal {
      PulledEffect(s.ledger, token, u.app, caller, u.app, amount);
      l1 := Pulled(s.ledger, token, u.app, caller, u.app, amount).value;
      forall t {
        PulledSupply(s.ledger, token, u.app, caller, u.app, amount, t);
      }
    }
    var l2 := Approved(l1, token, u.app, s.agent, amount);
    PulledEffect(l2, token, s.agent, u.app, s.agent, amount);
    forall t {
      PulledSupply(l2, token, s.agent, u.app, s.agent, amount, t);
    }
  }

  lemma {:induction false} WithdrawEffect(
    u: Setup, s: State, caller: Address, token: Address, receiver: Address, amount: nat)
    requires Withdrawn(u, s, caller, token, receiver, amount).Some?
    ensures HasEffect(u, s, caller, Withdraw(token, receiver, amount),
                      Withdrawn(u, s, caller, token, receiver, amount).value)
  {
    MovedEffect(s.ledger, token, s.agent, receiver, amount);
    forall t {
      MovedSupply(s.ledger, token, s.agent, receiver, amount, t);
    }
  }

  lemma {:induction false} UpgradeBalances(u: Setup, s: State, caller: Address, token: Address, amount: nat)
    requires WellFormed(u) && UpgradedByApp(u, s, caller, token, amount).Some?
    ensures forall t, w :: Balance(UpgradedByApp(u, s, caller, token, amount).value.ledger, t, w) ==
                           Balance(s.ledger, t, w) + Delta(u, s, caller, Upgrade(token, amount), t, w)
  {
    var under := u.underlying[token];
    MovedEffect(s.ledger, under, s.agent, u.app, amount);
    var l2 := Approved(Moved(s.ledger, under, s.agent, u.app, amount).value, under, u.app, token, amount);
    UpgradedEffect(l2, token, under, u.app, amount);
    MovedEffect(Upgraded(l2, token, under, u.app, amount).value, token, u.app, s.agent, amount);
  }

  lemma {:induction false} UpgradeSupply(u: Setup, s: State, caller: Address, token: Address, amount: nat, t: Address)
    requires WellFormed(u) && UpgradedByApp(u, s, caller, token, amount).Some?
    ensures Supply(UpgradedByApp(u, s, caller, token, amount).value.ledger, t) ==
            Supply(s.ledger, t) + SupplyDelta(Upgrade(token, amount), t)
  {
    var under := u.underlying[token];
    MovedSupply(s.ledger, under, s.agent, u.app, amount, t);
    var l2 := Approved(Moved(s.ledger, under, s.agent, u.app, amount).value, under, u.app, token, amount);
    UpgradedEffect(l2, token, under, u.app, amount);
    MovedSupply(Upgraded(l2, token, under, u.app, amount).value, token, u.app, s.agent, amount, t);
  }

  lemma {:induction false} DowngradeBalances(u: Setup, s: State, caller: Address, token: Address, amount: nat)
    requires WellFormed(u) && DowngradedByApp(u, s, caller, token, amount).Some?
    ensures forall t, w :: Balance(DowngradedByApp(u, s, caller, token, amount).value.ledger, t, w) ==
                           Balance(s.ledger, t, w) + Delta(u, s, caller, Downgrade(token, amount), t, w)
  {
    var under := u.underlying[token];
    MovedEffect(s.ledger, token, s.agent, u.app, amount);
    var l1 := Moved(s.ledger, token, s.agent, u.app, amount).value;
    DowngradedEffect(l1, token, under, u.app, amount);
    MovedEffect(Downgraded(l1, token, under, u.app, amount).value, under, u.app, s.agent, amount);
  }

  lemma {:induction false} DowngradeSupply(u: Setup, s: State, caller: Address, token: Address, amount: nat, t: Address)
    requires WellFormed(u) && DowngradedByApp(u, s, caller, token, amount).Some?
    ensures Supply(DowngradedByApp(u, s, caller, token, amount).value.ledger, t) ==
            Supply(s.ledger, t) + SupplyDelta(Downgrade(token, amount), t)
  {
    var under := u.underlying[token];
    MovedSupply(s.ledger, token, s.agent, u.app, amount, t);
    var l1 := Moved(s.ledger, token, s.agent, u.app, amount).value;
    DowngradedEffect(l1, token, under, u.app, amount);
    MovedSupply(Downgraded(l1, token, under, u.app, amount).value, under, u.app, s.agent, amount, t);
  }

  predicate MovesTokens(call: Call) {
    call.Deposit? || call.Withdraw? || call.Upgrade? || call.Downgrade?
  }

  /** The stepwise transfers, approvals, mints and burns of any successful call come to its net effect,
      if its flow operations move no tokens. */
  lemma {:induction false} StepEffect(u: Setup, s: State, caller: Address, call: Call)
    requires WellFormed(u) && (MovesTokens(call) || QuietHost(u)) && Step(u, s, caller, call).Some?
    ensures HasEffect(u, s, caller, call, Step(u, s, caller, call).value)
  {
    match call
    case Deposit(token, amount, isExternal) => DepositEffect(u, s, caller, token, amount, isExternal);
    case Withdraw(token, receiver, amount) => WithdrawEffect(u, s, caller, token, receiver, amount);
    case Upgrade(token, amount) =>
      UpgradeBalances(u, s, caller, token, amount);
      forall t {
        UpgradeSupply(u, s, caller, token, amount, t);
      }
    case Downgrade(token, amount) =>
      DowngradeBalances(u, s, caller, token, amount);
      forall t {
        DowngradeSupply(u, s, caller, token, amount, t);
      }
    case _ =>
  }

  // ---------------------------------------------------------------- allowances and the app's own balance

  ghost predicate NoAllowance(u: Setup, l: Ledger) {
    forall t, spender :: Allowance(l, t, u.app, spender) == 0
  }

  lemma {:induction false} AllowanceSet(u: Setup, l: Ledger, l': Ledger, g: Grant, n: nat)
    requires NoAllowance(u, l) && l'.allowances == l.allowances[g := n] && (g.owner != u.app || n == 0)
    ensures NoAllowance(u, l')
  {
    forall t, spender ensures Allowance(l', t, u.app, spender) == 0 {
      assert Allowance(l, t, u.app, spender) == 0;
    }
  }

  /** Approving and then spending exactly the approved amount leaves nothing approved. */
  lemma {:induction false} ApprovalSpent(u: Setup, l: Ledger, l': Ledger, token: Address, spender: Address, amount: nat)
    requires NoAllowance(u, l)
    requires l'.allowances == l.allowances[Grant(token, u.app, spender) := amount][Grant(token, u.app, spender) := 0]
    ensures NoAllowance(u, l')
  {
    forall t, x ensures Allowance(l', t, u.app, x) == 0 {
      assert Allowance(l, t, u.app, x) == 0;
    }
  }

  lemma {:induction false} DepositSpendsItsApproval(
    u: Setup, s: State, caller: Address, token: Address, amount: nat, isExternal: bool)
    requires NoAllowance(u, s.ledger) && Deposited(u, s, caller, token, amount, isExternal).Some?
    ensures NoAllowance(u, Deposited(u, s, caller, token, amount, isExternal).value.ledger)
  {
    var l1 := s.ledger;
    if isExternal {
      PulledEffect(s.ledger, token, u.app, caller, u.app, amount);
      l1 := Pulled(s.ledger, token, u.app, caller, u.app, amount).value;
      assert Allowance(s.ledger, token, u.app, u.app) == 0;
      AllowanceSet(u, s.ledger, l1, Grant(token, caller, u.app), Allowance(s.ledger, token, caller, u.app) - amount);
    }
    var l2 := Approved(l1, token, u.app, s.agent, amount);
    PulledEffect(l2, token, s.agent, u.app, s.agent, amount);
    ApprovalSpent(u, l1, Deposited(u, s, caller, token, amount, isExternal).value.ledger, token, s.agent, amount);
  }

  lemma {:induction false} UpgradeSpendsItsApproval(u: Setup, s: State, caller: Address, token: Address, amount: nat)
    requires WellFormed(u) && NoAllowance(u, s.ledger) && UpgradedByApp(u, s, caller, token, amount).Some?
    ensures NoAllowance(u, UpgradedByApp(u, s, caller, token, amount).value.ledger)
  {
    var under := u.underlying[token];
    MovedEffect(s.ledger, under, s.agent, u.app, amount);
    var l1 := Moved(s.ledger, under, s.agent, u.app, amount).value;
    var l2 := Approved(l1, under, u.app, token, amount);
    UpgradedEffect(l2, token, under, u.app, amount);
    var l3 := Upgraded(l2, token, under, u.app, amount).value;
    MovedEffect(l3, token, u.app, s.agent, amount);
    ApprovalSpent(u, s.ledger, UpgradedByApp(u, s, caller, token, amount).value.ledger, under, token, amount);
  }

  /** The app spends exactly what it approves: no allowance is left over. */
  lemma {:induction false} NoAllowanceLeft(u: Setup, s: State, caller: Address, call: Call)
    requires WellFormed(u) && QuietHost(u) && NoAllowance(u, s.ledger) && Step(u, s, caller, call).Some?
    ensures NoAllowance(u, Step(u, s, caller, call).value.ledger)
  {
    match call
    case Deposit(token, amount, isExternal) =>
      DepositSpendsItsApproval(u, s, caller, token, amount, isExternal);
    case Upgrade(token, amount) =>
      UpgradeSpendsItsApproval(u, s, caller, token, amount);
    case _ =>
      var l' := Step(u, s, caller, call).value.ledger;
      assert l'.allowances == s.ledger.allowances;
      assert forall t, spender :: Allowance(l', t, u.app, spender) == Allowance(s.ledger, t, u.app, spender);
  }

  /** The app itself gains a balance exactly when someone withdraws to it. */
  lemma {:induction false} AppGainsOnlyByWithdrawal(u: Setup, s: State, caller: Address, call: Call)
    requires WellFormed(u) && QuietHost(u) && NoAllowance(u, s.ledger) && Step(u, s, caller, call).Some?
    ensures (exists t :: Balance(Step(u, s, caller, call).value.ledger, t, u.app) > Balance(s.ledger, t, u.app)) <==>
            call.Withdraw? && call.receiver == u.app
  {
    StepEffect(u, s, caller, call);
    if call.Withdraw? && call.receiver == u.app {
      assert Delta(u, s, caller, call, call.token, u.app) > 0;
    }
  }

  // ---------------------------------------------------------------- reserves

  /** How much of a wrapped token's total is not covered by its reserve of the underlying. */
  ghost function Uncovered(u: Setup, s: State, token: Address): int
    requires token in u.underlying
  {
    Supply(s.ledger, token) - Balance(s.ledger, u.underlying[token], token)
  }

  datatype Tx = Tx(caller: Address, call: Call)

  /** A run: calls that revert leave the state as it was. */
  function Run(u: Setup, s: State, txs: seq<Tx>): State {
    if txs == [] then s
    else
      var before := Run(u, s, txs[..|txs| - 1]);
      var tx := txs[|txs| - 1];
      var after := Step(u, before, tx.caller, tx.call);
      if after.Some? then after.value else before
  }

  ghost predicate NoTokenCalls(u: Setup, txs: seq<Tx>) {
    forall tx :: tx in txs ==> tx.caller !in u.superTokens
  }

  lemma {:induction false} ReserveStep(u: Setup, s: State, caller: Address, call: Call, token: Address)
    requires WellFormed(u) && QuietHost(u) && Step(u, s, caller, call).Some?
    requires caller !in u.superTokens && token in u.underlying
    ensures Uncovered(u, Step(u, s, caller, call).value, token) <= Uncovered(u, s, token)
    ensures !(call.Withdraw? && call.receiver == token && call.token == u.underlying[token]) ==>
              Uncovered(u, Step(u, s, caller, call).value, token) == Uncovered(u, s, token)
  {
    StepEffect(u, s, caller, call);
    assert Delta(u, s, caller, call, u.underlying[token], token) >= SupplyDelta(call, token);
  }

  ghost predicate NoWithdrawalToApp(u: Setup, txs: seq<Tx>) {
    forall tx :: tx in txs ==> !(tx.call.Withdraw? && tx.call.receiver == u.app)
  }

  /** No underlying is withdrawn straight to the token that wraps it. */
  ghost predicate NoWithdrawalToWrapper(u: Setup, txs: seq<Tx>, token: Address)
    requires token in u.underlying
  {
    forall tx :: tx in txs ==>
      !(tx.call.Withdraw? && tx.call.receiver == token && tx.call.token == u.underlying[token])
  }

  lemma {:induction false} StepSupply(u: Setup, s: State, caller: Address, call: Call)
    requires WellFormed(u) && QuietHost(u) && Step(u, s, caller, call).Some?
    ensures forall t :: t !in u.underlying ==> Supply(Step(u, s, caller, call).value.ledger, t) == Supply(s.ledger, t)
  {
    StepEffect(u, s, caller, call);
  }

  /** Over every run the app approves nothing it does not spend. Wrapped tokens never lose cover, and keep
      exactly the cover they have unless their underlying is withdrawn straight to them. The total of a
      token that wraps nothing never changes. Unless someone withdraws to the app itself, no balance of the
      app grows. */
  lemma {:induction false} CustodyOverRuns(u: Setup, s: State, txs: seq<Tx>)
    requires WellFormed(u) && QuietHost(u) && NoAllowance(u, s.ledger) && NoTokenCalls(u, txs)
    ensures NoAllowance(u, Run(u, s, txs).ledger)
    ensures forall token :: token in u.underlying ==>
              && Uncovered(u, Run(u, s, txs), token) <= Uncovered(u, s, token)
              && (NoWithdrawalToWrapper(u, txs, token) ==>
                    Uncovered(u, Run(u, s, txs), token) == Uncovered(u, s, token))
    ensures forall t :: t !in u.underlying ==> Supply(Run(u, s, txs).ledger, t) == Supply(s.ledger, t)
    ensures NoWithdrawalToApp(u, txs) ==>
              forall t :: Balance(Run(u, s, txs).ledger, t, u.app) <= Balance(s.ledger, t, u.app)
  {
    hide Step, Supply, Delta, SupplyDelta;
    if txs != [] {
      var init, tx := txs[..|txs| - 1], txs[|txs| - 1];
      assert tx in txs && forall x :: x in init ==> x in txs;
      CustodyOverRuns(u, s, init);
      var before := Run(u, s, init);
      if Step(u, before, tx.caller, tx.call).Some? {
        NoAllowanceLeft(u, before, tx.caller, tx.call);
        StepSupply(u, before, tx.caller, tx.call);
        AppGainsOnlyByWithdrawal(u, before, tx.caller, tx.call);
        forall token | token in u.underlying
          ensures Uncovered(u, Run(u, s, txs), token) <= Uncovered(u, before, token)
          ensures NoWithdrawalToWrapper(u, txs, token) ==>
                    Uncovered(u, Run(u, s, txs), token) == Uncovered(u, before, token)
        {
          ReserveStep(u, before, tx.caller, tx.call, token);
        }
      }
    }
  }

  // ---------------------------------------------------------------- when a call succeeds

  /** The role a call needs, if any. */
  function RoleFor(call: Call): Option<Role> {
    match call
    case Withdraw(_, _, _) => Some(ManageStreams)
    case CreateFlow(_, _, _, _, _) => Some(ManageStreams)
    case UpdateFlow(_, _, _, _, _) => Some(ManageStreams)
    case DeleteFlow(_, _, _) => Some(ManageStreams)
    case Upgrade(_, _) => Some(ManageSuperTokens)
    case Downgrade(_, _) => Some(ManageSuperTokens)
    case SetAgent(_) => Some(SetAgentRole)
    case _ => None
  }

  /** The agent runs, and lets the app move its tokens. */
  predicate AgentPays(u: Setup, s: State) {
    s.agent in u.agents && Permission(u.app, s.agent, Transfer) in u.acl
  }

  /** The funds a call needs before it starts; no later step of it can run short. */
  predicate Funded(u: Setup, s: State, caller: Address, call: Call) {
    match call
    case Deposit(token, amount, isExternal) =>
      && s.agent in u.agents
      && Balance(s.ledger, token, if isExternal then caller else u.app) >= amount
      && (isExternal ==> Allowance(s.ledger, token, caller, u.app) >= amount)
    case Withdraw(token, _, amount) => AgentPays(u, s) && Balance(s.ledger, token, s.agent) >= amount
    case Upgrade(token, amount) =>
      AgentPays(u, s) && token in u.underlying && Balance(s.ledger, u.underlying[token], s.agent) >= amount
    case Downgrade(token, amount) =>
      && AgentPays(u, s) && token in u.underlying
      && Balance(s.ledger, token, s.agent) >= amount
      && Balance(s.ledger, u.underlying[token], token) >= amount
    case _ => true
  }

  lemma {:induction false} DepositSucceeds(
    u: Setup, s: State, caller: Address, token: Address, amount: nat, isExternal: bool)
    requires s.initialized && ValidSuperToken(u, token) && amount > 0
    ensures Deposited(u, s, caller, token, amount, isExternal).Some? <==>
            Funded(u, s, caller, Deposit(token, amount, isExternal))
  {
    if isExternal && Pulled(s.ledger, token, u.app, caller, u.app, amount).Some? {
      PulledEffect(s.ledger, token, u.app, caller, u.app, amount);
    }
  }

  lemma {:induction false} UpgradeSucceeds(u: Setup, s: State, caller: Address, token: Address, amount: nat)
    requires WellFormed(u) && Authorized(u, s, caller, ManageSuperTokens) && ValidSuperToken(u, token) && amount > 0
    ensures UpgradedByApp(u, s, caller, token, amount).Some? <==> Funded(u, s, caller, Upgrade(token, amount))
  {
    if Funded(u, s, caller, Upgrade(token, amount)) {
      var under := u.underlying[token];
      MovedEffect(s.ledger, under, s.agent, u.app, amount);
      var l2 := Approved(Moved(s.ledger, under, s.agent, u.app, amount).value, under, u.app, token, amount);
      assert Allowance(l2, under, u.app, token) == amount;
      assert Balance(l2, under, u.app) >= amount;
      UpgradedEffect(l2, token, under, u.app, amount);
    }
  }

  lemma {:induction false} DowngradeSucceeds(u: Setup, s: State, caller: Address, token: Address, amount: nat)
    requires WellFormed(u) && Authorized(u, s, caller, ManageSuperTokens) && ValidSuperToken(u, token) && amount > 0
    ensures DowngradedByApp(u, s, caller, token, amount).Some? <==> Funded(u, s, caller, Downgrade(token, amount))
  {
    if AgentPays(u, s) && token in u.underlying && Balance(s.ledger, token, s.agent) >= amount {
      var under := u.underlying[token];
      MovedEffect(s.ledger, token, s.agent, u.app, amount);
      var l1 := Moved(s.ledger, token, s.agent, u.app, amount).value;
      var l1' := WithBalance(l1, token, u.app, Balance(l1, token, u.app) - amount);
      assert Balance(l1', under, token) == Balance(s.ledger, under, token);
      if Balance(s.ledger, under, token) >= amount {
        DowngradedEffect(l1, token, under, u.app, amount);
      }
    }
  }

  /** A token-moving call succeeds exactly when the app is initialised, the caller has the call's role,
      the token is a super token, the amount is not zero and the funds are there at the start. */
  lemma {:induction false} SucceedsExactly(u: Setup, s: State, caller: Address, call: Call)
    requires WellFormed(u) && MovesTokens(call)
    ensures Step(u, s, caller, call).Some? <==>
            && s.initialized
            && (RoleFor(call).Some? ==> Permission(caller, u.app, RoleFor(call).value) in u.acl)
            && call.token in u.contracts && call.token in u.superTokens && call.amount > 0
            && Funded(u, s, caller, call)
  {
    hide Moved, Pulled, Upgraded, Downgraded;
    if s.initialized && ValidSuperToken(u, call.token) && call.amount > 0 {
      match call
      case Deposit(token, amount, isExternal) => DepositSucceeds(u, s, caller, token, amount, isExternal);
      case Withdraw(token, receiver, amount) => WithdrawSucceeds(u, s, caller, token, receiver, amount);
      case Upgrade(token, amount) =>
        if Authorized(u, s, caller, ManageSuperTokens) {
          UpgradeSucceeds(u, s, caller, token, amount);
        }
      case Downgrade(token, amount) =>
        if Authorized(u, s, caller, ManageSuperTokens) {
          DowngradeSucceeds(u, s, caller, token, amount);
        }
    }
  }

  lemma {:induction false} WithdrawSucceeds(
    u: Setup, s: State, caller: Address, token: Address, receiver: Address, amount: nat)
    requires ValidSuperToken(u, token) && amount > 0
    ensures Withdrawn(u, s, caller, token, receiver, amount).Some? <==>
            Authorized(u, s, caller, ManageStreams) && Funded(u, s, caller, Withdraw(token, receiver, amount))
  {
  }

  /** The agreement operation that a call asks for, if it is about a flow. */
  function OpOf(s: State, caller: Address, call: Call): Option<Op> {
    match call
    case CreateFlow(token, receiver, rate, userData, now) =>
      Some(Op.Create(Key(token, s.agent, receiver), rate, userData, now))
    case UpdateFlow(token, receiver, rate, userData, now) =>
      Some(Op.Update(Key(token, s.agent, receiver), rate, userData, now))
    case DeleteFlow(token, receiver, now) => Some(Op.Delete(Key(token, s.agent, receiver), Some(""), now))
    case DeleteOwnFlow(token, now) => Some(Op.Delete(Key(token, s.agent, caller), Some(""), now))
    case _ => None
  }

  // ---------------------------------------------------------------- flow calls through the guard

  /** Token t is on the list of protected tokens of the app's agent. */
  predicate Guarded(s: State, t: Address) {
    s.agent in s.guards && t in s.guards[s.agent]
  }

  /** What a guarded call may leave behind: the same list, and no protected balance of the agent lower. */
  ghost predicate Harmless(s: State, h: Holdings) {
    && h.protectedTokens == (if s.agent in s.guards then s.guards[s.agent] else [])
    && forall t :: Guarded(s, t) ==> Balance(h.ledger, t, s.agent) >= Balance(s.ledger, t, s.agent)
  }

  /** What any flow call needs before the host is asked: an initialised app, the call's role or the caller's
      own open flow, a super token, and an agent that lets the app call the host and does not protect it. */
  predicate MayAsk(u: Setup, s: State, caller: Address, call: Call, op: Op) {
    && s.initialized
    && (RoleFor(call).Some? ==> Permission(caller, u.app, RoleFor(call).value) in u.acl)
    && (call.DeleteOwnFlow? ==> Key(call.token, s.agent, caller) in s.flows)
    && op.key.token in u.contracts && op.key.token in u.superTokens
    && s.agent in u.agents && Permission(u.app, s.agent, SafeExecute) in u.acl
    && !Guarded(s, s.host)
  }

  /** Whatever the host does, a flow call succeeds exactly when it may ask the host, and the host performs
      the agent's operation harmlessly. It then takes over what the host made of the balances and flows, and
      leaves the app's storage and every agent's list alone. */
  lemma {:induction false} FlowCallsOnAnyHost(u: Setup, s: State, caller: Address, call: Call)
    requires OpOf(s, caller, call).Some?
    ensures var r, op := Step(u, s, caller, call), OpOf(s, caller, call).value;
            var list := if s.agent in s.guards then s.guards[s.agent] else [];
            var h := u.react(HostCall(s.host, s.cfa, s.agent, op), Holdings(list, s.ledger, s.flows));
            && (r.Some? <==> MayAsk(u, s, caller, call, op) && h.Some? && Harmless(s, h.value))
            && (r.Some? ==> r.value == s.(ledger := h.value.ledger, flows := h.value.flows))
  {
    hide Deposited, Withdrawn, UpgradedByApp, DowngradedByApp;
    var list := if s.agent in s.guards then s.guards[s.agent] else [];
    assert AgentHoldings(s) == Holdings(list, s.ledger, s.flows);
  }

  lemma {:induction false} GuardStep(u: Setup, s: State, caller: Address, call: Call)
    requires WellFormed(u) && s.initialized && Step(u, s, caller, call).Some?
    requires call.SetAgent? ==> NoRole(u, caller)
    ensures var s' := Step(u, s, caller, call).value;
            && s'.initialized && s'.agent == s.agent && s'.guards == s.guards
            && forall t :: Guarded(s, t) ==>
                 Balance(s'.ledger, t, s.agent) >= Balance(s.ledger, t, s.agent) + Delta(u, s, caller, call, t, s.agent)
  {
    if OpOf(s, caller, call).Some? {
      FlowCallsOnAnyHost(u, s, caller, call);
    } else {
      StorageStep(u, s, caller, call);
      StepEffect(u, s, caller, call);
    }
  }

  /** What the token-moving calls of a run, those that succeed, add to the agent's balance of a token. */
  function NetMoved(u: Setup, s: State, txs: seq<Tx>, t: Address): int {
    if txs == [] then 0
    else
      var before, tx := Run(u, s, txs[..|txs| - 1]), txs[|txs| - 1];
      NetMoved(u, s, txs[..|txs| - 1], t) +
      if Step(u, before, tx.caller, tx.call).Some? then Delta(u, before, tx.caller, tx.call, t, before.agent) else 0
  }

  predicate TakesTokens(call: Call) {
    call.Withdraw? || call.Upgrade? || call.Downgrade?
  }

  /** Only a role holder's call can take tokens from the agent. */
  lemma {:induction false} OthersOnlyAdd(u: Setup, s: State, caller: Address, call: Call, t: Address)
    requires Step(u, s, caller, call).Some? && (TakesTokens(call) ==> NoRole(u, caller))
    ensures Delta(u, s, caller, call, t, s.agent) >= 0
  {
  }

  /** Whatever the host does and whoever asks for flows, while the agent is not replaced its balance of a
      protected token is at least what deposits, withdrawals and wrapping make it. Without
      withdrawals or wrapping by a role holder it never falls. */
  lemma {:induction false} GuardOverRuns(u: Setup, s: State, txs: seq<Tx>)
    requires WellFormed(u) && s.initialized
    requires forall tx :: tx in txs && tx.call.SetAgent? ==> NoRole(u, tx.caller)
    ensures var s' := Run(u, s, txs);
            && s'.initialized && s'.agent == s.agent && s'.guards == s.guards
            && forall t :: Guarded(s, t) ==>
                 Balance(s'.ledger, t, s.agent) >= Balance(s.ledger, t, s.agent) + NetMoved(u, s, txs, t)
    ensures (forall tx :: tx in txs && TakesTokens(tx.call) ==> NoRole(u, tx.caller)) ==>
              forall t :: NetMoved(u, s, txs, t) >= 0
  {
    hide Step, Delta, NoRole;
    if txs != [] {
      var init, tx := txs[..|txs| - 1], txs[|txs| - 1];
      assert tx in txs && forall x :: x in init ==> x in txs;
      GuardOverRuns(u, s, init);
      var before := Run(u, s, init);
      if Step(u, before, tx.caller, tx.call).Some? {
        GuardStep(u, before, tx.caller, tx.call);
        forall t | TakesTokens(tx.call) ==> NoRole(u, tx.caller)
          ensures Delta(u, before, tx.caller, tx.call, t, s.agent) >= 0
        {
          OthersOnlyAdd(u, before, tx.caller, tx.call, t);
        }
      }
    }
  }

  /** What every agreement run keeps: no flow from an account to itself, no rate that is not positive. */
  ghost predicate Sane(m: Agreed) {
    forall k :: k in m ==> k.sender != k.receiver && m[k].rate > 0
  }

  /** With a genuine host the guard only ever stops a call whose host is itself protected: the list and
      the balances pass both comparisons. */
  lemma {:induction false} GenuineCall(u: Setup, s: State, op: Op)
    requires Genuine(u)
    ensures AgreementCalled(u, s, op) ==
            if s.agent in u.agents && Permission(u.app, s.agent, SafeExecute) in u.acl
               && s.host !in ProtectedBy(s) && Allowed(s.flows, op)
            then Some(s.(flows := After(s.flows, op))) else None
  {
    var c, h := HostCall(s.host, s.cfa, s.agent, op), AgentHoldings(s);
    assert Called(u, s, op)(h) == u.react(c, h);
  }

  lemma {:induction false} SaneOverRuns(u: Setup, s: State, txs: seq<Tx>)
    requires Genuine(u) && Sane(s.flows)
    ensures Sane(Run(u, s, txs).flows)
  {
    hide Genuine, Step;
    if txs != [] {
      var init, tx := txs[..|txs| - 1], txs[|txs| - 1];
      SaneOverRuns(u, s, init);
      StepOnFlows(u, Run(u, s, init), tx.caller, tx.call);
    }
  }

  /** The only change to the agreement is the operation that a flow call asks for, which it allows. */
  lemma {:induction false} StepOnFlows(u: Setup, s: State, caller: Address, call: Call)
    requires Genuine(u)
    ensures var op, r := OpOf(s, caller, call), Step(u, s, caller, call);
            r.Some? ==>
              if op.None? then r.value.flows == s.flows
              else Allowed(s.flows, op.value) && r.value == s.(flows := After(s.flows, op.value))
  {
    hide Genuine, AgreementCalled;
    var op := OpOf(s, caller, call);
    if op.Some? {
      GenuineCall(u, s, op.value);
    }
  }

  /** The flow that a call is about is in the state the call needs: a new flow is to another account and
      not open yet, rates are positive, and what is changed or closed is open. */
  predicate FlowReady(s: State, caller: Address, call: Call) {
    match call
    case CreateFlow(token, receiver, rate, _, _) =>
      rate > 0 && receiver != s.agent && Key(token, s.agent, receiver) !in s.flows
    case UpdateFlow(token, receiver, rate, _, _) => rate > 0 && Key(token, s.agent, receiver) in s.flows
    case DeleteFlow(token, receiver, _) => Key(token, s.agent, receiver) in s.flows
    case DeleteOwnFlow(token, _) => Key(token, s.agent, caller) in s.flows
    case _ => true
  }

  /** In every reachable state a flow call on a genuine host succeeds exactly when the app is initialised,
      the caller has the call's role or is the receiver closing its own flow, the token is a super token,
      the agent lets the app call the host and does not protect it, and the flow is ready; and then it
      opens, changes or closes that flow and nothing else. */
  lemma {:induction false} FlowCallSucceedsExactly(u: Setup, start: State, txs: seq<Tx>, caller: Address, call: Call)
    requires Genuine(u) && Sane(start.flows)
    requires OpOf(Run(u, start, txs), caller, call).Some?
    ensures var s := Run(u, start, txs);
            var r, op := Step(u, s, caller, call), OpOf(s, caller, call).value;
            && (r.Some? <==> MayAsk(u, s, caller, call, op) && FlowReady(s, caller, call))
            && (r.Some? ==>
                  r.value == s.(flows := if op.Delete? then s.flows - {op.key}
                                         else s.flows[op.key := Live(op.now, op.rate)]))
  {
    hide Genuine, AgreementCalled;
    var s := Run(u, start, txs);
    SaneOverRuns(u, start, txs);
    GenuineCall(u, s, OpOf(s, caller, call).value);
  }

  /** Opening a flow can be undone at once, by the manager and by the flow's receiver alike: either call
      succeeds and restores the whole state. */
  lemma {:induction false} CreateThenDelete(
    u: Setup, s: State, caller: Address, token: Address, receiver: Address, rate: int, userData: Option<string>,
    now: nat, later: nat)
    requires Genuine(u) && Step(u, s, caller, CreateFlow(token, receiver, rate, userData, now)).Some?
    ensures var s1 := Step(u, s, caller, CreateFlow(token, receiver, rate, userData, now)).value;
            && Step(u, s1, caller, DeleteFlow(token, receiver, later)) == Some(s)
            && Step(u, s1, receiver, DeleteOwnFlow(token, later)) == Some(s)
  {
    hide Genuine, AgreementCalled;
    var k := Key(token, s.agent, receiver);
    GenuineCall(u, s, Op.Create(k, rate, userData, now));
    var s1 := s.(flows := s.flows[k := Live(now, rate)]);
    GenuineCall(u, s1, Op.Delete(k, NO_DATA, later));
    assert s1.flows - {k} == s.flows;
  }

  // ---------------------------------------------------------------- wrapping round trip

  /** Downgrading undoes an upgrade's effect on every account. */
  lemma {:induction false} EffectsCancel(
    u: Setup, s: State, s1: State, s2: State, caller: Address, token: Address, amount: nat)
    requires s1.agent == s.agent
    requires HasEffect(u, s, caller, Upgrade(token, amount), s1)
    requires HasEffect(u, s1, caller, Downgrade(token, amount), s2)
    ensures forall t, w :: Balance(s2.ledger, t, w) == Balance(s.ledger, t, w)
    ensures forall t :: Supply(s2.ledger, t) == Supply(s.ledger, t)
  {
    forall t, w ensures Balance(s2.ledger, t, w) == Balance(s.ledger, t, w) {
      assert Delta(u, s1, caller, Downgrade(token, amount), t, w) == -Delta(u, s, caller, Upgrade(token, amount), t, w);
    }
    forall t ensures Supply(s2.ledger, t) == Supply(s.ledger, t) {
      assert SupplyDelta(Downgrade(token, amount), t) == -SupplyDelta(Upgrade(token, amount), t);
    }
  }

  /** Downgrading what was just upgraded succeeds and restores every balance of every account. */
  lemma {:induction false} UpgradeThenDowngrade(u: Setup, s: State, caller: Address, token: Address, amount: nat)
    requires WellFormed(u) && Step(u, s, caller, Upgrade(token, amount)).Some?
    ensures var s1 := Step(u, s, caller, Upgrade(token, amount)).value;
            && Step(u, s1, caller, Downgrade(token, amount)).Some?
            && var s2 := Step(u, s1, caller, Downgrade(token, amount)).value;
               && (forall t, w :: Balance(s2.ledger, t, w) == Balance(s.ledger, t, w))
               && (forall t :: Supply(s2.ledger, t) == Supply(s.ledger, t))
  {
    hide Supply, Moved, Pulled, Upgraded, Downgraded;
    var s1 := Step(u, s, caller, Upgrade(token, amount)).value;
    SucceedsExactly(u, s, caller, Upgrade(token, amount));
    StepEffect(u, s, caller, Upgrade(token, amount));
    assert Delta(u, s, caller, Upgrade(token, amount), token, s.agent) == amount;
    assert Delta(u, s, caller, Upgrade(token, amount), u.underlying[token], token) == amount;
    SucceedsExactly(u, s1, caller, Downgrade(token, amount));
    StepEffect(u, s1, caller, Downgrade(token, amount));
    EffectsCancel(u, s, s1, Step(u, s1, caller, Downgrade(token, amount)).value, caller, token, amount);
  }

  // ---------------------------------------------------------------- lifecycle

  /** The i-th call of a run is an initialisation that succeeds. */
  ghost predicate InitializesAt(u: Setup, s: State, txs: seq<Tx>, i: nat)
    requires i < |txs|
  {
    txs[i].call.Initialize? && Step(u, Run(u, s, txs[..i]), txs[i].caller, txs[i].call).Some?
  }

  /** What one successful call does to the app's own storage. */
  lemma {:induction false} StorageStep(u: Setup, s: State, caller: Address, call: Call)
    requires Step(u, s, caller, call).Some?
    ensures var s' := Step(u, s, caller, call).value;
            && s'.initialized && (s.initialized <==> !call.Initialize?)
            && (s.initialized ==> s'.host == s.host && s'.cfa == s.cfa)
            && (call.Initialize? ==>
                  s'.agent == call.newAgent && s'.host == call.newHost && s'.cfa == call.newCfa
                  && s'.agent in u.contracts && s'.host in u.contracts && s'.cfa in u.contracts)
            && (call.SetAgent? ==> s'.agent == call.newAgent && s'.agent in u.contracts)
            && (!call.Initialize? && !call.SetAgent? ==> s'.agent == s.agent)
  {
    hide Moved, Pulled, Upgraded, Downgraded;
  }

  /** Once the app is initialised, no initialisation succeeds, host and agreement never change, and the
      agent stays a contract. */
  lemma {:induction false} FixedOnceInitialized(u: Setup, s: State, txs: seq<Tx>)
    requires s.initialized && s.agent in u.contracts
    ensures var s' := Run(u, s, txs);
            s'.initialized && s'.host == s.host && s'.cfa == s.cfa && s'.agent in u.contracts
    ensures forall i :: 0 <= i < |txs| ==> !InitializesAt(u, s, txs, i)
    decreases |txs|
  {
    hide Step;
    if txs != [] {
      var init, tx := txs[..|txs| - 1], txs[|txs| - 1];
      FixedOnceInitialized(u, s, init);
      if Step(u, Run(u, s, init), tx.caller, tx.call).Some? {
        StorageStep(u, Run(u, s, init), tx.caller, tx.call);
      }
      forall i | 0 <= i < |txs| ensures !InitializesAt(u, s, txs, i) {
        FixedOnceInitialized(u, s, txs[..i]);
        if InitializesAt(u, s, txs, i) {
          StorageStep(u, Run(u, s, txs[..i]), txs[i].caller, txs[i].call);
        }
      }
    }
  }

  /** Before initialisation nothing else succeeds: a run either leaves the state untouched or starts by
      an initialisation, with contracts for agent, host and agreement. */
  lemma {:induction false} NothingBeforeInitialize(u: Setup, s: State, txs: seq<Tx>)
    requires !s.initialized
    ensures var s' := Run(u, s, txs);
            && (!s'.initialized ==> s' == s)
            && (s'.initialized ==> s'.agent in u.contracts && s'.host in u.contracts && s'.cfa in u.contracts)
  {
    hide Step;
    if txs != [] {
      var init, tx := txs[..|txs| - 1], txs[|txs| - 1];
      NothingBeforeInitialize(u, s, init);
      if Step(u, Run(u, s, init), tx.caller, tx.call).Some? {
        StorageStep(u, Run(u, s, init), tx.caller, tx.call);
      }
    }
  }

  lemma {:induction false} StaysInitialized(u: Setup, s: State, txs: seq<Tx>, i: nat)
    requires i < |txs| && InitializesAt(u, s, txs, i)
    ensures Run(u, s, txs).initialized
    decreases |txs|
  {
    hide Step;
    var init, tx := txs[..|txs| - 1], txs[|txs| - 1];
    if i < |init| {
      assert init[..i] == txs[..i];
      StaysInitialized(u, s, init, i);
    } else {
      assert txs[..i] == init;
    }
    if Step(u, Run(u, s, init), tx.caller, tx.call).Some? {
      StorageStep(u, Run(u, s, init), tx.caller, tx.call);
    }
  }

  /** In every run initialisation succeeds at most once. */
  lemma {:induction false} InitializesOnce(u: Setup, s: State, txs: seq<Tx>, i: nat, j: nat)
    requires i < j < |txs| && InitializesAt(u, s, txs, i)
    ensures !InitializesAt(u, s, txs, j)
  {
    hide Step;
    var init := txs[..j];
    assert init[..i] == txs[..i];
    StaysInitialized(u, s, init, i);
    if InitializesAt(u, s, txs, j) {
      StorageStep(u, Run(u, s, init), txs[j].caller, txs[j].call);
    }
  }

  // ---------------------------------------------------------------- which addresses the app works with

  /** An initialisation succeeds exactly once and with three contracts, a replacement of the agent exactly
      on an initialised app, by a caller with the role for it, and with a contract; each sets the
      addresses it was given and nothing else. */
  lemma {:induction false} AdministrationExactly(u: Setup, s: State, caller: Address, call: Call)
    ensures call.Initialize? ==>
              && (Step(u, s, caller, call).Some? <==>
                  !s.initialized && {call.newAgent, call.newHost, call.newCfa} <= u.contracts)
              && (Step(u, s, caller, call).Some? ==>
                    Step(u, s, caller, call).value ==
                    State(true, call.newAgent, call.newHost, call.newCfa, s.ledger, s.flows, s.guards))
    ensures call.SetAgent? ==>
              && (Step(u, s, caller, call).Some? <==>
                  s.initialized && Permission(caller, u.app, SetAgentRole) in u.acl && call.newAgent in u.contracts)
              && (Step(u, s, caller, call).Some? ==> Step(u, s, caller, call).value == s.(agent := call.newAgent))
  {
  }

  /** A replacement of the agent that has the role for it and names a contract. */
  predicate ReplacesAgent(u: Setup, tx: Tx) {
    && tx.call.SetAgent?
    && Permission(tx.caller, u.app, SetAgentRole) in u.acl
    && tx.call.newAgent in u.contracts
  }

  /** The agent that the last such replacement names, or the given one if there is none. */
  function AgentAfter(u: Setup, agent: Address, txs: seq<Tx>): Address {
    if txs == [] then agent
    else if ReplacesAgent(u, txs[|txs| - 1]) then txs[|txs| - 1].call.newAgent
    else AgentAfter(u, agent, txs[..|txs| - 1])
  }

  lemma {:induction false} AgentStep(u: Setup, s: State, tx: Tx)
    requires s.initialized
    ensures var r := Step(u, s, tx.caller, tx.call);
            var s' := if r.Some? then r.value else s;
            && s'.initialized && s'.host == s.host && s'.cfa == s.cfa
            && s'.agent == if ReplacesAgent(u, tx) then tx.call.newAgent else s.agent
  {
    hide Step;
    AdministrationExactly(u, s, tx.caller, tx.call);
    if Step(u, s, tx.caller, tx.call).Some? {
      StorageStep(u, s, tx.caller, tx.call);
    }
  }

  /** Once initialised, the app keeps its host and agreement, and over every run its agent is the one that
      the last replacement by a role holder names: without one, it never changes. */
  lemma {:induction false} AgentOverRuns(u: Setup, s: State, txs: seq<Tx>)
    requires s.initialized
    ensures var s' := Run(u, s, txs);
            s'.initialized && s'.host == s.host && s'.cfa == s.cfa && s'.agent == AgentAfter(u, s.agent, txs)
    ensures (forall tx :: tx in txs && tx.call.SetAgent? ==> Permission(tx.caller, u.app, SetAgentRole) !in u.acl) ==>
              Run(u, s, txs).agent == s.agent
  {
    hide Step;
    if txs != [] {
      var init, tx := txs[..|txs| - 1], txs[|txs| - 1];
      assert tx in txs && forall x :: x in init ==> x in txs;
      AgentOverRuns(u, s, init);
      AgentStep(u, Run(u, s, init), tx);
    }
  }

  lemma {:induction false} RunSplits(u: Setup, s: State, txs: seq<Tx>, i: nat)
    requires i <= |txs|
    ensures Run(u, s, txs) == Run(u, Run(u, s, txs[..i]), txs[i..])
    decreases |txs|
  {
    hide Step;
    if i == |txs| {
      assert txs[..i] == txs;
    } else {
      var init := txs[..|txs| - 1];
      RunSplits(u, s, init, i);
      assert init[..i] == txs[..i];
      assert txs[i..][..|txs| - i - 1] == init[i..];
    }
  }

  /** After the initialisation of a run, whatever is called later, host and agreement are the ones it was
      given, and the agent is the one it was given or the last replacement names. */
  lemma {:induction false} AddressesOverRuns(u: Setup, s: State, txs: seq<Tx>, i: nat)
    requires i < |txs| && InitializesAt(u, s, txs, i)
    ensures var s', call := Run(u, s, txs), txs[i].call;
            && s'.initialized && s'.host == call.newHost && s'.cfa == call.newCfa
            && s'.agent == AgentAfter(u, call.newAgent, txs[i + 1..])
  {
    hide Step;
    assert txs[..i + 1][..i] == txs[..i];
    StorageStep(u, Run(u, s, txs[..i]), txs[i].caller, txs[i].call);
    RunSplits(u, s, txs, i + 1);
    AgentOverRuns(u, Run(u, s, txs[..i + 1]), txs[i + 1..]);
  }

  // ---------------------------------------------------------------- callers without a role

  ghost predicate NoRole(u: Setup, who: Address) {
    forall role :: Permission(who, u.app, role) !in u.acl
  }

  /** A caller with no role lowers no balance of the agent and closes at most the flow paid to itself. */
  lemma {:induction false} RolelessStep(u: Setup, s: State, caller: Address, call: Call)
    requires WellFormed(u) && Genuine(u) && s.initialized && NoRole(u, caller) && Step(u, s, caller, call).Some?
    ensures var s' := Step(u, s, caller, call).value;
            && s' == s.(ledger := s'.ledger, flows := s'.flows)
            && (forall t :: Balance(s'.ledger, t, s.agent) >= Balance(s.ledger, t, s.agent))
            && s'.flows == (if call.DeleteOwnFlow? then s.flows - {Key(call.token, s.agent, caller)} else s.flows)
  {
    hide Genuine, AgreementCalled;
    GenuineIsQuiet(u);
    StepEffect(u, s, caller, call);
    StepOnFlows(u, s, caller, call);
  }

  lemma {:induction false} GenuineIsQuiet(u: Setup)
    requires Genuine(u)
    ensures QuietHost(u)
  {
  }

  /** Over any run of callers without a role, the agent's balances only grow, and only flows from the
      agent to those callers are closed. */
  lemma {:induction false} RolelessRuns(u: Setup, s: State, txs: seq<Tx>)
    requires WellFormed(u) && Genuine(u) && s.initialized && forall tx :: tx in txs ==> NoRole(u, tx.caller)
    ensures var s' := Run(u, s, txs);
            && s'.initialized && s'.agent == s.agent
            && (forall t :: Balance(s'.ledger, t, s.agent) >= Balance(s.ledger, t, s.agent))
            && (forall k :: k in s'.flows ==> k in s.flows && s'.flows[k] == s.flows[k])
            && (forall k :: k in s.flows && k !in s'.flows ==>
                  k.sender == s.agent && exists tx :: tx in txs && tx.caller == k.receiver)
  {
    if txs != [] {
      var init, tx := txs[..|txs| - 1], txs[|txs| - 1];
      assert txs == init + [tx] && tx in txs;
      RolelessRuns(u, s, init);
      var before := Run(u, s, init);
      if Step(u, before, tx.caller, tx.call).Some? {
        RolelessStep(u, before, tx.caller, tx.call);
      }
    }
  }
}
