/** The parts together: the app's calls and everybody else's drive the agreement, the store mirrors it,
    and the interface shows the amounts and rates the records mean. */
module EndToEnd {
  import opened Vocabulary
  import opened FlowRecords
  import opened Agreement
  import opened Store
  import opened Mirror
  import opened StoreRuns
  import opened StoreTheorems
  import Streaming
  import Reducer
  import Tokens
  import ProtectedTokens
  import App = SuperfluidApp
  import Custody

  // ---------------------------------------------------------------- the chain

  /** A call of the app, or an operation on the agreement by anyone else. */
  datatype Happening = ByApp(tx: Custody.Tx) | ByOthers(op: Op)

  /** One happening; a call or an operation that is not allowed reverts. */
  function Happened(u: App.Setup, s: App.State, h: Happening): App.State {
    match h
    case ByApp(tx) =>
      var r := App.Step(u, s, tx.caller, tx.call);
      if r.Some? then r.value else s
    case ByOthers(op) => if Allowed(s.flows, op) then s.(flows := After(s.flows, op)) else s
  }

  /** The operation on the agreement that a happening comes to, if any. */
  function OpBy(u: App.Setup, s: App.State, h: Happening): Option<Op> {
    match h
    case ByApp(tx) => if App.Step(u, s, tx.caller, tx.call).Some? then Custody.OpOf(s, tx.caller, tx.call) else None
    case ByOthers(op) => Some(op)
  }

  function Chain(u: App.Setup, s: App.State, hs: seq<Happening>): App.State {
    if hs == [] then s else Happened(u, Chain(u, s, hs[..|hs| - 1]), hs[|hs| - 1])
  }

  /** All operations on the agreement, in chain order. */
  function OpsOf(u: App.Setup, s: App.State, hs: seq<Happening>): seq<Op> {
    if hs == [] then []
    else
      var op := OpBy(u, Chain(u, s, hs[..|hs| - 1]), hs[|hs| - 1]);
      OpsOf(u, s, hs[..|hs| - 1]) + if op.Some? then [op.value] else []
  }

  lemma {:induction false} OutcomeSnoc(m: Agreed, ops: seq<Op>, op: Op)
    ensures var before := Outcome(m, ops);
            Outcome(m, ops + [op]) == if Allowed(before, op) then After(before, op) else before
  {
    assert (ops + [op])[..|ops|] == ops;
  }

  /** The app changes the agreement only through the operations that its successful flow calls ask for,
      all of which the agreement allows, however others act on the agreement in between. */
  lemma {:induction false} AppDrivesAgreement(u: App.Setup, s: App.State, hs: seq<Happening>)
    requires Custody.Genuine(u)
    ensures Chain(u, s, hs).flows == Outcome(s.flows, OpsOf(u, s, hs))
  {
    hide Custody.Genuine, App.Step, Custody.OpOf;
    if hs != [] {
      var init, h := hs[..|hs| - 1], hs[|hs| - 1];
      AppDrivesAgreement(u, s, init);
      var before, ops := Chain(u, s, init), OpsOf(u, s, init);
      if h.ByApp? {
        Custody.StepOnFlows(u, before, h.tx.caller, h.tx.call);
      }
      var op := OpBy(u, before, h);
      if op.Some? {
        OutcomeSnoc(s.flows, ops, op.value);
      } else {
        assert ops + [] == ops;
      }
    }
  }

  /** After any chain of app calls and other parties' operations, a fresh store that is delivered a merge
      of the two streams of emitted events, over any number of sessions, has open records for exactly
      the agent's live flows, incoming and outgoing, at their rates and times. */
  lemma {:induction false} StoreMirrorsApp(
    u: App.Setup, s: App.State, hs: seq<Happening>, st: State, d: seq<StoreEvent>)
    requires Custody.Genuine(u) && Fresh(st) && AgentIsNew(s.flows, st.agent)
    requires Run(st, d).Some?
    requires SameStreams(AgentEvents(d, st.agent), Emitted(s.flows, OpsOf(u, s, hs), st.agent), st.agent)
    ensures Mirrors(Chain(u, s, hs).flows, Run(st, d).value.flows, st.agent)
  {
    hide Mirrors, Custody.Genuine;
    var ops := OpsOf(u, s, hs);
    AppDrivesAgreement(u, s, hs);
    RunFacts(st, d);
    RunsStayInStep(s.flows, ops, st.agent);
    MirrorsMerged(Outcome(s.flows, ops), AgentEvents(d, st.agent), Emitted(s.flows, ops, st.agent), st.agent);
  }

  // ---------------------------------------------------------------- the vault events of the app's calls

  /** The token of the vault event that a successful call makes the agent emit: a deposit into the vault,
      or the first transfer out of it. */
  function VaultToken(u: App.Setup, call: App.Call): Option<Address> {
    match call
    case Deposit(token, _, _) => Some(token)
    case Withdraw(token, _, _) => Some(token)
    case Upgrade(token, _) => if token in u.underlying then Some(u.underlying[token]) else None
    case Downgrade(token, _) => Some(token)
    case _ => None
  }

  /** The vault event that a happening makes a given agent emit, if any. */
  function VaultTokenBy(u: App.Setup, s: App.State, h: Happening, agent: Address): Option<Address> {
    if h.ByApp? && s.agent == agent && App.Step(u, s, h.tx.caller, h.tx.call).Some? then VaultToken(u, h.tx.call)
    else None
  }

  /** The tokens of all vault events that the app's calls make an agent emit, in chain order. */
  function VaultTokens(u: App.Setup, s: App.State, hs: seq<Happening>, agent: Address): seq<Address> {
    if hs == [] then []
    else
      var a := VaultTokenBy(u, Chain(u, s, hs[..|hs| - 1]), hs[|hs| - 1], agent);
      VaultTokens(u, s, hs[..|hs| - 1], agent) + if a.Some? then [a.value] else []
  }

  predicate IsVaultEvent(x: StoreEvent) {
    x.VaultTransfer? || x.VaultDeposit?
  }

  /** The tokens of the delivered vault events. */
  function VaultTokensIn(d: seq<StoreEvent>): seq<Address> {
    if d == [] then []
    else
      var x := d[|d| - 1];
      VaultTokensIn(d[..|d| - 1]) + if IsVaultEvent(x) then [x.token] else []
  }

  lemma {:induction false} VaultTokensInMembers(d: seq<StoreEvent>, a: Address)
    ensures a in VaultTokensIn(d) <==> exists x :: x in d && IsVaultEvent(x) && x.token == a
  {
    if d != [] {
      var init, x := d[..|d| - 1], d[|d| - 1];
      assert d == init + [x];
      VaultTokensInMembers(init, a);
      assert x in d;
    }
  }

  ghost predicate EmitsAt(u: App.Setup, s: App.State, hs: seq<Happening>, agent: Address, i: nat, a: Address) {
    i < |hs| && VaultTokenBy(u, Chain(u, s, hs[..i]), hs[i], agent) == Some(a)
  }

  lemma {:induction false} VaultTokensMembers(
    u: App.Setup, s: App.State, hs: seq<Happening>, agent: Address, a: Address)
    ensures a in VaultTokens(u, s, hs, agent) <==> exists i: nat :: EmitsAt(u, s, hs, agent, i, a)
  {
    hide Chain, VaultTokenBy;
    if hs != [] {
      var init, n := hs[..|hs| - 1], |hs| - 1;
      VaultTokensMembers(u, s, init, agent, a);
      forall i: nat ensures EmitsAt(u, s, hs, agent, i, a) <==>
                            EmitsAt(u, s, init, agent, i, a)
                            || (i == n && VaultTokenBy(u, Chain(u, s, init), hs[n], agent) == Some(a)) {
        if i < n {
          assert hs[..i] == init[..i];
        }
      }
      if VaultTokenBy(u, Chain(u, s, init), hs[n], agent) == Some(a) {
        assert EmitsAt(u, s, hs, agent, n, a);
      }
      if i: nat :| EmitsAt(u, s, init, agent, i, a) {
        assert EmitsAt(u, s, hs, agent, i, a);
      }
    }
  }

  /** The store is delivered the vault events of the app's calls on its agent. A token's data and balance
      can be read exactly if it is a super token; flows, presets and listed tokens are super tokens. */
  ghost predicate Observes(u: App.Setup, s: App.State, hs: seq<Happening>, st: State, d: seq<StoreEvent>) {
    && VaultTokensIn(d) == VaultTokens(u, s, hs, st.agent)
    && (forall x, a :: x in d && (x.Restarted? || (NeedsTokenRead(x, st.agent) && TokenOf(x) == a)) ==>
          (Reading(x, a).Some? <==> a in u.superTokens))
    && (forall x :: x in d && IsAgentEvent(x, st.agent) ==> x.flow.token in u.superTokens)
    && (forall x, a :: x in d && x.Restarted? && a in x.presets ==> a in u.superTokens)
    && (st.superTokens.Some? ==> forall a :: Listed(st.superTokens.value, a) ==> a in u.superTokens)
  }

  /** The i-th happening is a successful upgrade through the agent whose underlying is no super token. */
  ghost predicate UpgradesPlainToken(u: App.Setup, s: App.State, hs: seq<Happening>, agent: Address, i: nat) {
    && i < |hs| && hs[i].ByApp? && hs[i].tx.call.Upgrade?
    && exists a :: EmitsAt(u, s, hs, agent, i, a) && a !in u.superTokens
  }

  lemma {:induction false} OnlyUpgradesNamePlainTokens(
    u: App.Setup, s: App.State, hs: seq<Happening>, agent: Address, i: nat, a: Address)
    requires EmitsAt(u, s, hs, agent, i, a) && a !in u.superTokens
    ensures UpgradesPlainToken(u, s, hs, agent, i)
  {
    hide Chain;
    var before, tx := Chain(u, s, hs[..i]), hs[i].tx;
    assert App.Step(u, before, tx.caller, tx.call).Some?;
    assert tx.call.Upgrade? by {
      ValidTokenMoved(u, before, tx.caller, tx.call);
    }
  }

  lemma {:induction false} ValidTokenMoved(u: App.Setup, s: App.State, caller: Address, call: App.Call)
    requires App.Step(u, s, caller, call).Some? && Custody.MovesTokens(call)
    ensures call.token in u.superTokens
  {
  }

  lemma {:induction false} VaultReads(u: App.Setup, s: App.State, hs: seq<Happening>, st: State, d: seq<StoreEvent>)
    requires Observes(u, s, hs, st, d) && st.superTokens.Some?
    ensures AllTokenReadsAnswered(st, d) <==> forall a :: a in VaultTokensIn(d) ==> a in u.superTokens
  {
    if forall a :: a in VaultTokensIn(d) ==> a in u.superTokens {
      forall x, a | x in d && Reads(x, st.agent, a, false) ensures a in u.superTokens {
        VaultTokensInMembers(d, a);
      }
      forall i | 0 <= i < |d| ensures TokenReadsAnswered(st, d[..i], d[i]) {
        assert d[i] in d;
      }
    } else {
      var a :| a in VaultTokensIn(d) && a !in u.superTokens;
      VaultTokensInMembers(d, a);
      var x :| x in d && IsVaultEvent(x) && x.token == a;
      var i :| 0 <= i < |d| && d[i] == x;
      assert Reads(x, st.agent, a, Known(st, d[..i], a)) && Reading(x, a).None?;
      assert !TokenReadsAnswered(st, d[..i], d[i]);
    }
  }

  /** The token list survives the app's own calls exactly if no successful upgrade through the agent has
      an underlying that is no super token: that transfer out of the vault makes the script look the
      underlying up as a super token. */
  lemma {:induction false} UpgradesLoseTheList(
    u: App.Setup, s: App.State, hs: seq<Happening>, st: State, d: seq<StoreEvent>)
    requires Observes(u, s, hs, st, d) && st.superTokens.Some? && Run(st, d).Some?
    ensures Run(st, d).value.superTokens.Some? <==> !exists i: nat :: UpgradesPlainToken(u, s, hs, st.agent, i)
  {
    hide Observes, EmitsAt, Run;
    TokensSurvive(st, d);
    VaultReads(u, s, hs, st, d);
    assert VaultTokensIn(d) == VaultTokens(u, s, hs, st.agent) by {
      ObservedTokens(u, s, hs, st, d);
    }
    if i: nat :| UpgradesPlainToken(u, s, hs, st.agent, i) {
      var a :| EmitsAt(u, s, hs, st.agent, i, a) && a !in u.superTokens;
      VaultTokensMembers(u, s, hs, st.agent, a);
    } else {
      forall a | a in VaultTokensIn(d) ensures a in u.superTokens {
        VaultTokensMembers(u, s, hs, st.agent, a);
        var i: nat :| EmitsAt(u, s, hs, st.agent, i, a);
        if a !in u.superTokens {
          OnlyUpgradesNamePlainTokens(u, s, hs, st.agent, i, a);
        }
      }
    }
  }

  lemma {:induction false} ObservedTokens(u: App.Setup, s: App.State, hs: seq<Happening>, st: State, d: seq<StoreEvent>)
    requires Observes(u, s, hs, st, d)
    ensures VaultTokensIn(d) == VaultTokens(u, s, hs, st.agent)
  {
  }

  /** The agent's balance of t is another after the call. */
  ghost predicate BalanceChanges(u: App.Setup, s: App.State, tx: Custody.Tx, t: Address)
    requires App.Step(u, s, tx.caller, tx.call).Some?
  {
    Tokens.Balance(App.Step(u, s, tx.caller, tx.call).value.ledger, t, s.agent) !=
    Tokens.Balance(s.ledger, t, s.agent)
  }

  /** Every call that moves tokens makes the agent announce one token. A change of the agent's balance goes
      unannounced exactly for what wrapping creates: the super token of an upgrade and the underlying of a
      downgrade come back without a vault event. */
  lemma {:induction false} UnannouncedChanges(u: App.Setup, s: App.State, tx: Custody.Tx, t: Address)
    requires Custody.WellFormed(u) && Custody.QuietHost(u) && App.Step(u, s, tx.caller, tx.call).Some?
    ensures var a := VaultTokenBy(u, s, ByApp(tx), s.agent);
            && (a.Some? <==> Custody.MovesTokens(tx.call))
            && (BalanceChanges(u, s, tx, t) && a != Some(t) <==>
                || (tx.call.Upgrade? && t == tx.call.token)
                || (tx.call.Downgrade? && t == u.underlying[tx.call.token]))
  {
    Custody.StepEffect(u, s, tx.caller, tx.call);
    if Custody.MovesTokens(tx.call) {
      Custody.SucceedsExactly(u, s, tx.caller, tx.call);
    }
    assert BalanceChanges(u, s, tx, t) <==> Custody.Delta(u, s, tx.caller, tx.call, t, s.agent) != 0;
  }

  /** An organisation whose agent 2 holds ten units of the plain token 4, which super token 3 wraps. */
  ghost function PlainSetup(): App.Setup {
    var upgrader := App.Permission(5, 1, App.ManageSuperTokens);
    var payer := App.Permission(1, 2, App.Transfer);
    var silent := (c: App.HostCall, h: ProtectedTokens.Holdings) => None;
    App.Setup(1, {2, 3, 6}, {3}, map[3 := 4], {2}, {upgrader, payer}, silent)
  }

  ghost function PlainState(): App.State {
    App.State(true, 2, 6, 6, Tokens.Ledger(map[Tokens.Account(4, 2) := 10], map[]), map[], map[])
  }

  lemma {:induction false} PlainUpgradeSucceeds(call: App.Call)
    requires call == App.Upgrade(3, 10)
    ensures App.Step(PlainSetup(), PlainState(), 5, call).Some?
  {
    Custody.SucceedsExactly(PlainSetup(), PlainState(), 5, call);
  }

  ghost predicate LosesTheList(u: App.Setup, s: App.State, hs: seq<Happening>, st: State, d: seq<StoreEvent>) {
    && Observes(u, s, hs, st, d) && st.superTokens.Some?
    && Run(st, d).Some? && Run(st, d).value.superTokens.None?
  }

  /** One upgrade of a plain token, observed by a fresh store. */
  lemma {:induction false} UpgradeCanLoseTheList()
    ensures exists u, s, hs, st, d :: LosesTheList(u, s, hs, st, d)
  {
    hide App.Step;
    var u, s, call := PlainSetup(), PlainState(), App.Upgrade(3, 10);
    var h, x := ByApp(Custody.Tx(5, call)), VaultTransfer(4, 0, Answers(true, None, None));
    var hs, st, d := [h], State(2, Some([]), [], map[], 1, None, true), [x];
    PlainUpgradeSucceeds(call);
    assert hs[..0] == [] && d[..0] == [];
    assert VaultTokens(u, s, [], 2) == [] && VaultTokenBy(u, s, h, 2) == Some(4);
    assert VaultTokens(u, s, hs, 2) == [4] == VaultTokensIn(d);
    assert Run(st, []) == Some(st);
    assert LosesTheList(u, s, hs, st, d);
  }

  // ---------------------------------------------------------------- what the interface shows

  /** Its balance or debt is worth so much of its outflow that no number holds the milliseconds. */
  predicate LastsTooLong(x: SuperToken, now: int) {
    var current := Streaming.CurrentAmount(x.balance, x.netFlow, 1000 * x.lastUpdate, now);
    && x.netFlow < 0
    && (current >= Streaming.FAR_SECONDS * (-x.netFlow) || current <= -(Streaming.FAR_SECONDS * (-x.netFlow)))
  }

  /** After any run the interface's reducer throws exactly if the token list was missing at the start, a
      balance read went unanswered on the way, or some listed token lasts too long. */
  lemma {:induction false} InterfaceAfterRun(s: State, d: seq<StoreEvent>, now: int)
    requires Run(s, d).Some?
    ensures var tokens := Run(s, d).value.superTokens;
            Reducer.FormatThrows(tokens, now) <==>
            || s.superTokens.None? || !AllTokenReadsAnswered(s, d)
            || (tokens.Some? && exists x :: x in tokens.value && LastsTooLong(x, now))
  {
    hide AllTokenReadsAnswered, Run, Streaming.CurrentAmount, Streaming.DepletionDate;
    TokensSurvive(s, d);
    var tokens := Run(s, d).value.superTokens;
    forall x: SuperToken ensures Reducer.DepletionOf(x, now).Throws? <==> LastsTooLong(x, now) {
      Streaming.DepletionThrowsExactly(x.balance, x.netFlow, now, 1000 * x.lastUpdate);
    }
    if tokens.Some? {
      if x :| x in tokens.value && LastsTooLong(x, now) {
        var i :| 0 <= i < |tokens.value| && tokens.value[i] == x;
        assert Reducer.DepletionOf(tokens.value[i], now).Throws?;
      }
    }
  }

  /** The total shown for a record at a clock reading: a cancelled record's own amount, an open one's
      extrapolation. */
  function Shown(f: Flow, clock: nat): int {
    if f.isCancelled then f.accumulated else Streaming.CurrentAmount(f.accumulated, f.rate, 1000 * f.last, clock)
  }

  /** With its sign, for the records of one token. */
  ghost function ShownAt(token: Address, clock: nat): Flow -> int {
    (f: Flow) => if f.token != token then 0 else if f.isIncoming then Shown(f, clock) else -Shown(f, clock)
  }

  lemma {:induction false} ShownIsAmount(f: Flow, clock: nat)
    requires f.last <= clock / 1000
    ensures Shown(f, clock) == Amount(f, clock / 1000)
  {
    assert Streaming.DifferenceInSeconds(clock, 1000 * f.last) == clock / 1000 - f.last;
  }

  lemma {:induction false} RecordsBy(s: State, d: seq<StoreEvent>, t: nat)
    requires s.flows == [] && Run(s, d).Some? && AllBy(d, t)
    ensures forall f :: f in Run(s, d).value.flows ==> f.last <= t
  {
    hide Reduced;
    if d != [] {
      var init, x := d[..|d| - 1], d[|d| - 1];
      assert x in d && forall y :: y in init ==> y in d;
      RecordsBy(s, init, t);
      ReducedFacts(Run(s, init).value, x);
    }
  }

  /** At every clock reading after the last event, the shown incoming totals of a token less the shown
      outgoing ones are the second-by-second sum of the net flow that the store has held for it. */
  lemma {:induction false} ShownTotalsAreHeld(
    m: Agreed, ops: seq<Op>, s: State, d: seq<StoreEvent>, token: Address, clock: nat)
    requires Fresh(s) && AgentIsNew(m, s.agent)
    requires Run(s, d).Some? && Run(s, d).value.superTokens.Some?
    requires AgentEvents(d, s.agent) == Emitted(m, ops, s.agent)
    requires Chronological(d) && AllBy(d, clock / 1000)
    ensures Sum(Run(s, d).value.flows, ShownAt(token, clock)) == HeldSum(s, d, token, clock / 1000)
  {
    hide Chronological, AllBy, HeldSum, Sum, Emitted;
    var flows, t := Run(s, d).value.flows, clock / 1000;
    ConservationOverRuns(m, ops, s, d, token, t);
    RecordsBy(s, d, t);
    forall i | 0 <= i < |flows|
      ensures ShownAt(token, clock)(flows[i]) == SignedAmountAt(token, t)(flows[i]) + 0 * NetOf(token)(flows[i])
    {
      assert flows[i] in flows;
      ShownIsAmount(flows[i], clock);
    }
    SumLinear(flows, ShownAt(token, clock), SignedAmountAt(token, t), NetOf(token), 0);
  }

  /** The rates that the records show under any merge are those of the delivery in chain order. */
  lemma {:induction false} RatesMerged(m: Agreed, ops: seq<Op>, s: State, d: seq<StoreEvent>, token: Address)
    requires Fresh(s) && AgentIsNew(m, s.agent) && Run(s, d).Some?
    requires SameStreams(AgentEvents(d, s.agent), Emitted(m, ops, s.agent), s.agent)
    ensures var flows, m' := Run(s, d).value.flows, Outcome(m, ops);
            && InflowRate(flows, token) == ReceivedRate(m', token, s.agent)
            && OutflowRate(flows, token) == SentRate(m', token, s.agent)
  {
    hide InflowRate, OutflowRate, ReceivedRate, SentRate, Mirrors, Stream;
    var es, es', agent := AgentEvents(d, s.agent), Emitted(m, ops, s.agent), s.agent;
    RunFacts(s, d);
    RunsStayInStep(m, ops, agent);
    InterleavingIndependence(es, es', agent, true);
    InterleavingIndependence(es, es', agent, false);
    RatesOfOneDirection(Ledger(es, agent), token);
    RatesOfOneDirection(Ledger(es', agent), token);
    DirectionsOverRuns(m, ops, agent, token);
  }

  /** What the interface is given for the i-th token after a run. */
  ghost function FormattedAt(s: State, d: seq<StoreEvent>, i: nat, now: int): Reducer.FormattedToken
    requires Run(s, d).Some? && Run(s, d).value.superTokens.Some? && i < |Run(s, d).value.superTokens.value|
  {
    Reducer.Formatted(Run(s, d).value.superTokens.value[i], Run(s, d).value.flows, now)
  }

  /** The entry at a position of a list with one entry per address is the one a lookup finds. */
  lemma {:induction false} EntryAt(tokens: seq<SuperToken>, i: nat)
    requires UniqueAddresses(tokens) && i < |tokens|
    ensures Entry(tokens, tokens[i].address) == Some(tokens[i])
    ensures NetFlowOf(tokens, tokens[i].address) == tokens[i].netFlow
  {
    assert FindToken(tokens, tokens[i].address) == i;
  }

  /** However the events were merged, every token is shown with the rate that the agent receives and the
      rate that it sends in the agreement, and with the balance and date of the last read. Its net flow is
      the difference of the two rates exactly as the merge-order theorem says. */
  lemma {:induction false} FormattedTokensAreTrue(
    m: Agreed, ops: seq<Op>, s: State, d: seq<StoreEvent>, i: nat, now: int)
    requires Fresh(s) && Integrity(s) && AgentIsNew(m, s.agent)
    requires Run(s, d).Some? && Run(s, d).value.superTokens.Some? && i < |Run(s, d).value.superTokens.value|
    requires SameStreams(AgentEvents(d, s.agent), Emitted(m, ops, s.agent), s.agent)
    ensures var f, m' := FormattedAt(s, d, i, now), Outcome(m, ops);
            && f.address == Run(s, d).value.superTokens.value[i].address
            && f.inflowRate == ReceivedRate(m', f.address, s.agent)
            && f.outflowRate == SentRate(m', f.address, s.agent)
            && (f.netFlow == f.inflowRate - f.outflowRate <==>
                OtherRateKept(AgentEvents(d, s.agent), Emitted(m, ops, s.agent), s.agent, f.address))
            && var last := LastRead(s, d, f.address);
               last.Some? ==> f.balance == last.value.0 && f.lastUpdateDate == 1000 * last.value.1
  {
    hide OtherRateKept, ReceivedRate, SentRate, InflowRate, OutflowRate, Mirrors, LastRead, Run;
    var s' := Run(s, d).value;
    var tokens, a := s'.superTokens.value, s'.superTokens.value[i].address;
    RatesMerged(m, ops, s, d, a);
    MergeOrderMatters(m, ops, s, d, a);
    IntegrityOverRuns(s, d);
    EntryAt(tokens, i);
    TokensAreNeverLost(s, d, a);
    RunEntry(s, d, a);
  }

  /** The shown depletion date is about the shown values: there is none exactly if the shown net flow is not
      negative, and at it less than a second of flow is left of the shown balance. */
  lemma {:induction false} FormattedDepletion(x: SuperToken, flows: seq<Flow>, now: int)
    ensures var f := Reducer.Formatted(x, flows, now);
            && (f.depletion.Never? <==> f.netFlow >= 0)
            && (f.depletion.On? && f.lastUpdateDate <= now
                && Streaming.CurrentAmount(f.balance, f.netFlow, f.lastUpdateDate, now) >= 0 ==>
                  && now <= f.depletion.ms
                  && 0 <= Streaming.CurrentAmount(f.balance, f.netFlow, f.lastUpdateDate, f.depletion.ms) < -f.netFlow)
  {
    hide Streaming.CurrentAmount, Streaming.DepletionDate;
    var f := Reducer.Formatted(x, flows, now);
    Streaming.DepletionCases(x.balance, x.netFlow, now, 1000 * x.lastUpdate);
    if f.depletion.On? && f.lastUpdateDate <= now
       && Streaming.CurrentAmount(f.balance, f.netFlow, f.lastUpdateDate, now) >= 0 {
      Streaming.OnThatDate(x.balance, x.netFlow, now, 1000 * x.lastUpdate);
    }
  }

  /** With events in chain order, every token is shown with a net flow that is its shown inflow less its
      shown outflow. */
  lemma {:induction false} ListedNetFlowsAgree(
    m: Agreed, ops: seq<Op>, s: State, d: seq<StoreEvent>, i: nat, now: int)
    requires Fresh(s) && Integrity(s) && AgentIsNew(m, s.agent)
    requires Run(s, d).Some? && Run(s, d).value.superTokens.Some? && i < |Run(s, d).value.superTokens.value|
    requires AgentEvents(d, s.agent) == Emitted(m, ops, s.agent)
    ensures var f := FormattedAt(s, d, i, now);
            && f.netFlow == f.inflowRate - f.outflowRate
            && f.inflowRate == ReceivedRate(Outcome(m, ops), f.address, s.agent)
            && f.outflowRate == SentRate(Outcome(m, ops), f.address, s.agent)
  {
    hide OtherRateKept, ReceivedRate, SentRate, InflowRate, OutflowRate, Mirrors, Run;
    StoreMirrorsAgreement(m, ops, s, d);
    IntegrityOverRuns(s, d);
    EntryAt(Run(s, d).value.superTokens.value, i);
    FormattedTokensAreTrue(m, ops, s, d, i, now);
  }
}
