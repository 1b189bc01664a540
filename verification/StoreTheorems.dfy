/** The store against the chain, over any number of sessions: mirroring, merge order, conservation. */
module StoreTheorems {
  import opened Vocabulary
  import opened FlowRecords
  import opened Agreement
  import opened Store
  import opened Mirror
  import opened StoreRuns

  // ---------------------------------------------------------------- mirror

  /** After every prefix of agreement steps, with the agent's events delivered in chain order among
      any other events, the open records mirror the agent's live flows one to one, and each token's
      stored net flow is the reducer's inflow less outflow and the agreement's net rate. */
  lemma {:induction false} StoreMirrorsAgreement(m: Agreed, ops: seq<Op>, s: State, d: seq<StoreEvent>)
    requires Fresh(s) && AgentIsNew(m, s.agent) && Run(s, d).Some?
    requires AgentEvents(d, s.agent) == Emitted(m, ops, s.agent)
    ensures var m', s' := Outcome(m, ops), Run(s, d).value;
            && Mirrors(m', s'.flows, s.agent)
            && forall token ::
                 && InflowRate(s'.flows, token) - OutflowRate(s'.flows, token) == NetRate(m', token, s.agent)
                 && (s'.superTokens.Some? ==>
                       NetFlowOf(s'.superTokens.value, token) == NetRate(m', token, s.agent))
  {
    RunFacts(s, d);
    RunsStayInStep(m, ops, s.agent);
    forall token {
      NetIsInLessOut(Run(s, d).value.flows, token);
    }
  }

  // ---------------------------------------------------------------- merge order

  lemma {:induction false} OnlySnoc(flows: seq<Flow>, f: Flow, incoming: bool)
    ensures Only(flows + [f], incoming) ==
            if f.isIncoming == incoming then Only(flows, incoming) + [f] else Only(flows, incoming)
  {
    if flows == [] {
      OnlyCons(f, [], incoming);
      assert [f] + [] == [] + [f] == [f];
    } else {
      var g, rest := flows[0], flows[1..];
      assert flows == [g] + rest && flows + [f] == [g] + (rest + [f]);
      OnlySnoc(rest, f, incoming);
      OnlyMiddle(g, rest, f, incoming);
    }
  }

  lemma {:induction false} OnlyMiddle(g: Flow, rest: seq<Flow>, f: Flow, incoming: bool)
    requires Only(rest + [f], incoming) ==
             if f.isIncoming == incoming then Only(rest, incoming) + [f] else Only(rest, incoming)
    ensures Only([g] + (rest + [f]), incoming) ==
            if f.isIncoming == incoming then Only([g] + rest, incoming) + [f] else Only([g] + rest, incoming)
  {
    hide Only;
    OnlyCons(g, rest, incoming);
    OnlyCons(g, rest + [f], incoming);
    assert [g] + (Only(rest, incoming) + [f]) == ([g] + Only(rest, incoming)) + [f];
  }

  lemma {:induction false} RatesOfOneMore(flows: seq<Flow>, f: Flow, token: Address)
    requires InflowRate(flows, token) == InflowRate(Only(flows, true), token)
    requires OutflowRate(flows, token) == OutflowRate(Only(flows, false), token)
    ensures InflowRate(flows + [f], token) == InflowRate(Only(flows + [f], true), token)
    ensures OutflowRate(flows + [f], token) == OutflowRate(Only(flows + [f], false), token)
  {
    hide Only, Sum;
    OnlySnoc(flows, f, true);
    OnlySnoc(flows, f, false);
    SumSnoc(flows, f, InOf(token));
    SumSnoc(flows, f, OutOf(token));
    if f.isIncoming {
      SumSnoc(Only(flows, true), f, InOf(token));
    } else {
      SumSnoc(Only(flows, false), f, OutOf(token));
    }
  }

  /** A token's rates only look at the records of their own direction. */
  lemma {:induction false} RatesOfOneDirection(flows: seq<Flow>, token: Address)
    ensures InflowRate(flows, token) == InflowRate(Only(flows, true), token)
    ensures OutflowRate(flows, token) == OutflowRate(Only(flows, false), token)
  {
    if flows != [] {
      var init, f := flows[..|flows| - 1], flows[|flows| - 1];
      RatesOfOneDirection(init, token);
      RatesOfOneMore(init, f, token);
      assert flows == init + [f];
    }
  }

  /** The last event about a token. */
  function LastAbout(es: seq<FlowUpdated>, token: Address): Option<FlowUpdated> {
    if es == [] then None
    else if es[|es| - 1].token == token then Some(es[|es| - 1])
    else LastAbout(es[..|es| - 1], token)
  }

  predicate IsOf(e: FlowUpdated, agent: Address, token: Address, incoming: bool) {
    e.token == token && IsIncoming(e, agent) == incoming
  }

  /** The events up to the last one about a token in one direction. */
  function UpToLast(es: seq<FlowUpdated>, agent: Address, token: Address, incoming: bool): seq<FlowUpdated> {
    if es == [] || IsOf(es[|es| - 1], agent, token, incoming) then es
    else UpToLast(es[..|es| - 1], agent, token, incoming)
  }

  /** The rate of one direction in a token. */
  ghost function RateOf(flows: seq<Flow>, token: Address, incoming: bool): int {
    if incoming then InflowRate(flows, token) else OutflowRate(flows, token)
  }

  lemma {:induction false} LastTotalIsOfLast(es: seq<FlowUpdated>, agent: Address, token: Address)
    ensures var x := LastAbout(es, token);
            LastTotal(es, agent, token) == if x.Some? then AgentTotal(x.value, agent) else 0
  {
    if es != [] {
      LastTotalIsOfLast(es[..|es| - 1], agent, token);
    }
  }

  lemma {:induction false} LastAboutSnoc(es: seq<FlowUpdated>, e: FlowUpdated, token: Address)
    ensures LastAbout(es + [e], token) == if e.token == token then Some(e) else LastAbout(es, token)
  {
    assert (es + [e])[..|es|] == es;
  }

  /** The last event about a token is the last one about it in the stream of its own direction. */
  lemma {:induction false} LastIsLastOfItsStream(es: seq<FlowUpdated>, agent: Address, token: Address)
    ensures var x := LastAbout(es, token);
            if x.Some? then x == LastAbout(Stream(es, agent, IsIncoming(x.value, agent)), token)
            else forall dir :: LastAbout(Stream(es, agent, dir), token).None?
  {
    if es != [] {
      var init, e := es[..|es| - 1], es[|es| - 1];
      LastIsLastOfItsStream(init, agent, token);
      LastAboutSnoc(Stream(init, agent, IsIncoming(e, agent)), e, token);
    }
  }

  /** Cut off at the last event about a token in one direction, the events end with the last one about
      the token in that direction's stream. */
  lemma {:induction false} UpToLastEnds(es: seq<FlowUpdated>, agent: Address, token: Address, incoming: bool)
    ensures LastAbout(UpToLast(es, agent, token, incoming), token) == LastAbout(Stream(es, agent, incoming), token)
  {
    if es != [] {
      var init, e := es[..|es| - 1], es[|es| - 1];
      UpToLastEnds(init, agent, token, incoming);
      LastAboutSnoc(Stream(init, agent, incoming), e, token);
    }
  }

  /** An event about another token or direction leaves a direction's rate in a token alone. */
  lemma {:induction false} RateKept(flows: seq<Flow>, e: FlowUpdated, agent: Address, token: Address, incoming: bool)
    requires NoSelfEntity(flows, agent) && Touches(e, agent) && e.sender != e.receiver
    requires !IsOf(e, agent, token, incoming)
    ensures RateOf(Updated(flows, e, agent), token, incoming) == RateOf(flows, token, incoming)
  {
    var i, g := FirstMatch(flows, e), if incoming then InOf(token) else OutOf(token);
    if i == |flows| {
      SumSnoc(flows, NewFlow(e, agent), g);
    } else {
      assert flows[i] in flows;
      MatchIsById(flows[i], e, agent);
      SumUpdate(flows, i, Touched(flows[i], e), g);
    }
  }

  /** After the cut that direction's rate in the token does not change any more. */
  lemma {:induction false} RateSinceLast(es: seq<FlowUpdated>, agent: Address, token: Address, incoming: bool)
    requires Proper(es, agent)
    ensures RateOf(Ledger(UpToLast(es, agent, token, incoming), agent), token, incoming) ==
            RateOf(Ledger(es, agent), token, incoming)
  {
    hide RateOf, Updated;
    if es != [] && !IsOf(es[|es| - 1], agent, token, incoming) {
      var init, e := es[..|es| - 1], es[|es| - 1];
      RateSinceLast(init, agent, token, incoming);
      OpenRecordIsUnique(init, agent);
      RateKept(Ledger(init, agent), e, agent, token, incoming);
    }
  }

  lemma {:induction false} TotalAtCut(es: seq<FlowUpdated>, agent: Address, token: Address, incoming: bool)
    requires Consistent(es, agent)
    ensures var p := UpToLast(es, agent, token, incoming);
            InflowRate(Ledger(p, agent), token) - OutflowRate(Ledger(p, agent), token) == LastTotal(p, agent, token)
  {
    if es == [] || IsOf(es[|es| - 1], agent, token, incoming) {
      NetIsInLessOut(Ledger(es, agent), token);
    } else {
      TotalAtCut(es[..|es| - 1], agent, token, incoming);
    }
  }

  /** Whether the other direction's rate in the token is, at the end, still what it was when the event
      that was delivered last was emitted. */
  ghost predicate OtherRateKept(d: seq<FlowUpdated>, es: seq<FlowUpdated>, agent: Address, token: Address) {
    var x := LastAbout(d, token);
    x.Some? ==>
      var incoming := IsIncoming(x.value, agent);
      RateOf(Ledger(UpToLast(es, agent, token, incoming), agent), token, !incoming) ==
      RateOf(Ledger(es, agent), token, !incoming)
  }

  /** The last delivered total is the true one exactly if the other direction's rate was kept. */
  lemma {:induction false} LastTotalIsTrue(d: seq<FlowUpdated>, es: seq<FlowUpdated>, agent: Address, token: Address)
    requires Proper(es, agent) && Consistent(es, agent) && SameStreams(d, es, agent)
    ensures LastTotal(d, agent, token) == InflowRate(Ledger(es, agent), token) - OutflowRate(Ledger(es, agent), token)
            <==> OtherRateKept(d, es, agent, token)
  {
    hide InflowRate, OutflowRate, Ledger, Consistent, Stream;
    var x := LastAbout(d, token);
    LastTotalIsOfLast(d, agent, token);
    LastIsLastOfItsStream(d, agent, token);
    if x.Some? {
      var incoming := IsIncoming(x.value, agent);
      var p := UpToLast(es, agent, token, incoming);
      UpToLastEnds(es, agent, token, incoming);
      LastTotalIsOfLast(p, agent, token);
      TotalAtCut(es, agent, token, incoming);
      RateSinceLast(es, agent, token, incoming);
    } else {
      NothingAbout(es, agent, token);
    }
  }

  lemma {:induction false} NothingAbout(es: seq<FlowUpdated>, agent: Address, token: Address)
    requires Consistent(es, agent)
    requires forall dir :: LastAbout(Stream(es, agent, dir), token).None?
    ensures InflowRate(Ledger(es, agent), token) - OutflowRate(Ledger(es, agent), token) == 0
  {
    LastIsLastOfItsStream(es, agent, token);
    LastTotalIsOfLast(es, agent, token);
    NetIsInLessOut(Ledger(es, agent), token);
  }

  /** If the last delivered and the last emitted event about the token have the same direction, nothing
      about the token comes after the cut. */
  lemma {:induction false} SameDirectionSuffices(
    d: seq<FlowUpdated>, es: seq<FlowUpdated>, agent: Address, token: Address)
    requires Proper(es, agent)
    requires var x, y := LastAbout(d, token), LastAbout(es, token);
             x.Some? && y.Some? && IsIncoming(x.value, agent) == IsIncoming(y.value, agent)
    ensures OtherRateKept(d, es, agent, token)
  {
    hide RateOf, Updated;
    var init, e := es[..|es| - 1], es[|es| - 1];
    var incoming := IsIncoming(LastAbout(d, token).value, agent);
    if e.token != token {
      SameDirectionSuffices(d, init, agent, token);
      OpenRecordIsUnique(init, agent);
      RateKept(Ledger(init, agent), e, agent, token, !incoming);
    }
  }

  /** A merged delivery has the records of the delivery in chain order, in another order. */
  lemma {:induction false} MirrorsMerged(m: Agreed, d: seq<FlowUpdated>, es: seq<FlowUpdated>, agent: Address)
    requires Proper(es, agent) && SameStreams(d, es, agent) && Mirrors(m, Ledger(es, agent), agent)
    ensures Mirrors(m, Ledger(d, agent), agent)
  {
    hide Ledger, Stream, Only;
    var flows, flows' := Ledger(es, agent), Ledger(d, agent);
    forall f ensures f in flows <==> f in flows' {
      InterleavingIndependence(d, es, agent, f.isIncoming);
      OnlyMembers(flows, f);
      OnlyMembers(flows', f);
    }
    ProperMerged(d, es, agent);
    OpenRecordIsUnique(d, agent);
    forall i, j | 0 <= i < j < |flows'| && !flows'[i].isCancelled && !flows'[j].isCancelled
      ensures KeyOf(flows'[i], agent) != KeyOf(flows'[j], agent)
    {
      assert flows'[i] in flows' && flows'[j] in flows';
    }
  }

  /** The receiver and sender subscriptions are merged in any order. The records, up to their order, and
      the rates derived from them do not depend on that order; the stored net flow does. It agrees with
      them exactly when no event is about the token, or the rate of the other direction than that of the
      last delivered event has not changed, in chain order, since that event. It has not if the last
      delivered and the last emitted event about the token have the same direction. */
  lemma {:induction false} MergeOrderMatters(m: Agreed, ops: seq<Op>, s: State, d: seq<StoreEvent>, token: Address)
    requires Fresh(s) && AgentIsNew(m, s.agent)
    requires Run(s, d).Some? && Run(s, d).value.superTokens.Some?
    requires SameStreams(AgentEvents(d, s.agent), Emitted(m, ops, s.agent), s.agent)
    ensures var s', es := Run(s, d).value, Emitted(m, ops, s.agent);
            var x, y := LastAbout(AgentEvents(d, s.agent), token), LastAbout(es, token);
            && Mirrors(Outcome(m, ops), s'.flows, s.agent)
            && InflowRate(s'.flows, token) - OutflowRate(s'.flows, token) ==
               NetRate(Outcome(m, ops), token, s.agent)
            && (NetFlowOf(s'.superTokens.value, token) ==
                InflowRate(s'.flows, token) - OutflowRate(s'.flows, token)
                <==> OtherRateKept(AgentEvents(d, s.agent), es, s.agent, token))
            && (x.Some? && y.Some? && IsIncoming(x.value, s.agent) == IsIncoming(y.value, s.agent) ==>
                  OtherRateKept(AgentEvents(d, s.agent), es, s.agent, token))
  {
    hide OtherRateKept, InflowRate, OutflowRate, Mirrors;
    var es, agent := Emitted(m, ops, s.agent), s.agent;
    var flows, inChainOrder := Run(s, d).value.flows, Ledger(es, agent);
    RunFacts(s, d);
    RunsStayInStep(m, ops, agent);
    InterleavingIndependence(AgentEvents(d, agent), es, agent, true);
    InterleavingIndependence(AgentEvents(d, agent), es, agent, false);
    MirrorsMerged(Outcome(m, ops), AgentEvents(d, agent), es, agent);
    RatesOfOneDirection(flows, token);
    RatesOfOneDirection(inChainOrder, token);
    NetIsInLessOut(inChainOrder, token);
    LastTotalIsTrue(AgentEvents(d, agent), es, agent, token);
    var x, y := LastAbout(AgentEvents(d, agent), token), LastAbout(es, token);
    if x.Some? && y.Some? && IsIncoming(x.value, agent) == IsIncoming(y.value, agent) {
      SameDirectionSuffices(AgentEvents(d, agent), es, agent, token);
    }
  }

  // ---------------------------------------------------------------- conservation

  ghost predicate Chronological(d: seq<StoreEvent>) {
    forall i, j :: 0 <= i < j < |d| && Timed(d[i]) && Timed(d[j]) ==> TimeOf(d[i]) <= TimeOf(d[j])
  }

  ghost predicate AllBy(d: seq<StoreEvent>, t: nat) {
    forall x :: x in d && Timed(x) ==> TimeOf(x) <= t
  }

  /** What has been delivered by second t. */
  function UpTo(d: seq<StoreEvent>, t: nat): seq<StoreEvent> {
    if d == [] || (Timed(d[|d| - 1]) && TimeOf(d[|d| - 1]) <= t) then d else UpTo(d[..|d| - 1], t)
  }

  /** The net flow the store holds for a token during second t. */
  function HeldNetFlow(s: State, d: seq<StoreEvent>, token: Address, t: nat): int {
    match Run(s, UpTo(d, t))
    case Some(State(_, Some(tokens), _, _, _, _, _)) => NetFlowOf(tokens, token)
    case _ => 0
  }

  /** The second-by-second sum of the net flow held before second end. */
  function HeldSum(s: State, d: seq<StoreEvent>, token: Address, end: nat): int {
    if end == 0 then 0 else HeldSum(s, d, token, end - 1) + HeldNetFlow(s, d, token, end - 1)
  }

  /** A record's signed amount at time t: incoming counts up, outgoing counts down. */
  function SignedAmount(f: Flow, token: Address, t: nat): int {
    if f.token != token then 0 else if f.isIncoming then Amount(f, t) else -Amount(f, t)
  }

  ghost function SignedAmountAt(token: Address, t: nat): Flow -> int {
    (f: Flow) => SignedAmount(f, token, t)
  }

  lemma {:induction false} HeldSumUntimed(s: State, d: seq<StoreEvent>, x: StoreEvent, token: Address, end: nat)
    requires !Timed(x) || end <= TimeOf(x)
    ensures HeldSum(s, d + [x], token, end) == HeldSum(s, d, token, end)
  {
    if end > 0 {
      HeldSumUntimed(s, d, x, token, end - 1);
      assert (d + [x])[..|d|] == d;
    }
  }

  lemma {:induction false} HeldSumSince(s: State, d: seq<StoreEvent>, x: StoreEvent, token: Address, end: nat)
    requires Timed(x) && TimeOf(x) <= end
    ensures HeldSum(s, d + [x], token, end) ==
            HeldSum(s, d, token, TimeOf(x)) + (end - TimeOf(x)) * HeldNetFlow(s, d + [x], token, TimeOf(x))
    decreases end
  {
    var t, held := TimeOf(x), HeldNetFlow(s, d + [x], token, TimeOf(x));
    if end == t {
      HeldSumUntimed(s, d, x, token, end);
    } else {
      HeldSumSince(s, d, x, token, end - 1);
      assert UpTo(d + [x], end - 1) == d + [x] == UpTo(d + [x], t);
      OneMore(end - 1 - t, held);
    }
  }

  lemma {:induction false} OneMore(n: int, h: int)
    ensures (n + 1) * h == n * h + h
  {
  }

  /** As time passes the signed amounts grow by the net rate. */
  lemma {:induction false} AmountsGrowByNetRate(flows: seq<Flow>, token: Address, t: nat, t': nat)
    requires t <= t'
    ensures Sum(flows, SignedAmountAt(token, t')) ==
            Sum(flows, SignedAmountAt(token, t)) + (t' - t) * Sum(flows, NetOf(token))
  {
    forall f ensures SignedAmount(f, token, t') ==
                     SignedAmount(f, token, t) + (t' - t) * (RateIn(f, token) - RateOut(f, token)) {
      assert f.rate * (t' - f.last) == f.rate * (t - f.last) + (t' - t) * f.rate;
    }
    SumLinear(flows, SignedAmountAt(token, t'), SignedAmountAt(token, t), NetOf(token), t' - t);
  }

  /** An event changes no amount at its own instant. */
  lemma {:induction false} AmountsAreContinuous(flows: seq<Flow>, e: FlowUpdated, agent: Address, token: Address)
    ensures Sum(Updated(flows, e, agent), SignedAmountAt(token, e.timestamp)) ==
            Sum(flows, SignedAmountAt(token, e.timestamp))
  {
    var i, g := FirstMatch(flows, e), SignedAmountAt(token, e.timestamp);
    if i == |flows| {
      SumSnoc(flows, NewFlow(e, agent), g);
    } else {
      SumUpdate(flows, i, Touched(flows[i], e), g);
      TouchedKeepsAmount(flows[i], e);
    }
  }

  lemma {:induction false} TouchedKeepsAmount(f: Flow, e: FlowUpdated)
    requires !f.isCancelled
    ensures Amount(Touched(f, e), e.timestamp) == Amount(f, e.timestamp)
  {
    assert (e.timestamp - f.last) * f.rate == f.rate * (e.timestamp - f.last);
  }

  lemma {:induction false} HeldIsNetRate(s: State, d: seq<StoreEvent>, x: StoreEvent, token: Address)
    requires Fresh(s) && Run(s, d + [x]).Some? && Run(s, d + [x]).value.superTokens.Some? && Timed(x)
    requires Consistent(AgentEvents(d + [x], s.agent), s.agent)
    ensures HeldNetFlow(s, d + [x], token, TimeOf(x)) == Sum(Run(s, d + [x]).value.flows, NetOf(token))
  {
    assert UpTo(d + [x], TimeOf(x)) == d + [x];
    RunFlows(s, d + [x]);
    RunNetFlow(s, d + [x], token);
  }

  /** An event moves no amount at its own instant, whatever kind of event it is. */
  lemma {:induction false} EventsMoveNothing(s: State, x: StoreEvent, token: Address)
    requires Reduced(s, x).Some? && Timed(x)
    ensures Sum(Reduced(s, x).value.flows, SignedAmountAt(token, TimeOf(x))) ==
            Sum(s.flows, SignedAmountAt(token, TimeOf(x)))
  {
    ReducedFacts(s, x);
    if IsAgentEvent(x, s.agent) {
      AmountsAreContinuous(s.flows, x.flow, s.agent, token);
    }
  }

  lemma {:induction false} ConservationStep(s: State, d: seq<StoreEvent>, x: StoreEvent, token: Address, t: nat)
    requires Fresh(s) && Run(s, d + [x]).Some? && Run(s, d + [x]).value.superTokens.Some?
    requires Run(s, d).Some? && Timed(x) && TimeOf(x) <= t
    requires Consistent(AgentEvents(d + [x], s.agent), s.agent)
    requires Sum(Run(s, d).value.flows, SignedAmountAt(token, TimeOf(x))) == HeldSum(s, d, token, TimeOf(x))
    ensures Sum(Run(s, d + [x]).value.flows, SignedAmountAt(token, t)) == HeldSum(s, d + [x], token, t)
  {
    hide Sum, HeldSum, HeldNetFlow, Run, AgentEvents, Consistent;
    var flows' := Run(s, d + [x]).value.flows;
    assert Sum(flows', SignedAmountAt(token, TimeOf(x))) == HeldSum(s, d, token, TimeOf(x)) by {
      RunInit(s, d, x);
      EventsMoveNothing(Run(s, d).value, x, token);
    }
    var elapsed, net := t - TimeOf(x), Sum(flows', NetOf(token));
    assert Sum(flows', SignedAmountAt(token, t)) == Sum(flows', SignedAmountAt(token, TimeOf(x))) + elapsed * net by {
      AmountsGrowByNetRate(flows', token, TimeOf(x), t);
    }
    assert HeldSum(s, d + [x], token, t) == HeldSum(s, d, token, TimeOf(x)) + elapsed * net by {
      HeldIsNetRate(s, d, x, token);
      HeldSumSince(s, d, x, token, t);
    }
  }

  /** The two accounts of the same quantity agree: at any time after the last event, all incoming
      amounts less all outgoing amounts are the sum, second by second, of the net flow held. */
  lemma {:induction false} Conservation(s: State, d: seq<StoreEvent>, token: Address, t: nat)
    requires Fresh(s) && Run(s, d).Some? && Run(s, d).value.superTokens.Some?
    requires Chronological(d) && AllBy(d, t)
    requires Consistent(AgentEvents(d, s.agent), s.agent)
    ensures Sum(Run(s, d).value.flows, SignedAmountAt(token, t)) == HeldSum(s, d, token, t)
  {
    hide HeldNetFlow, HeldSum, Ledger, Reduced, Chronological, AllBy, Consistent;
    if d == [] {
      NothingHeld(s, token, t);
    } else {
      var init, x := d[..|d| - 1], d[|d| - 1];
      assert d == init + [x] && x in d;
      RunInit(s, init, x);
      ReducedFacts(Run(s, init).value, x);
      ConsistentInit(AgentEvents(init, s.agent), AgentEvents(d, s.agent), s.agent);
      ChronologicalInit(init, x, t);
      if Timed(x) {
        Conservation(s, init, token, TimeOf(x));
        ConservationStep(s, init, x, token, t);
      } else {
        Conservation(s, init, token, t);
        HeldSumUntimed(s, init, x, token, t);
      }
    }
  }

  lemma {:induction false} ConsistentInit(es: seq<FlowUpdated>, es': seq<FlowUpdated>, agent: Address)
    requires Consistent(es', agent)
    requires es' == es || (|es'| == |es| + 1 && es'[..|es|] == es)
    ensures Consistent(es, agent)
  {
  }

  lemma {:induction false} ChronologicalInit(d: seq<StoreEvent>, x: StoreEvent, t: nat)
    requires Chronological(d + [x]) && AllBy(d + [x], t)
    ensures Chronological(d) && AllBy(d, t)
    ensures Timed(x) ==> TimeOf(x) <= t && AllBy(d, TimeOf(x))
  {
    var d' := d + [x];
    assert x in d' && d'[|d|] == x;
    assert forall i :: 0 <= i < |d| ==> d'[i] == d[i];
    forall y | y in d && Timed(y) && Timed(x) ensures TimeOf(y) <= TimeOf(x) {
      var i :| 0 <= i < |d| && d[i] == y;
      assert d'[i] == y;
    }
  }

  lemma {:induction false} NothingHeld(s: State, token: Address, t: nat)
    requires Fresh(s) && s.superTokens.Some?
    ensures HeldSum(s, [], token, t) == 0
  {
    if t > 0 {
      NothingHeld(s, token, t - 1);
    }
  }

  /** Conservation on every run of the agreement, delivered in chain order. */
  lemma {:induction false} ConservationOverRuns(
    m: Agreed, ops: seq<Op>, s: State, d: seq<StoreEvent>, token: Address, t: nat)
    requires Fresh(s) && AgentIsNew(m, s.agent)
    requires Run(s, d).Some? && Run(s, d).value.superTokens.Some?
    requires AgentEvents(d, s.agent) == Emitted(m, ops, s.agent)
    requires Chronological(d) && AllBy(d, t)
    ensures Sum(Run(s, d).value.flows, SignedAmountAt(token, t)) == HeldSum(s, d, token, t)
  {
    RunsStayInStep(m, ops, s.agent);
    Conservation(s, d, token, t);
  }

  // ---------------------------------------------------------------- a misleading merge

  lemma {:induction false} EmittedTwo(m: Agreed, op1: Op, op2: Op, agent: Address)
    requires Allowed(m, op1) && Involves(op1.key, agent)
    requires Allowed(After(m, op1), op2) && Involves(op2.key, agent)
    ensures Emitted(m, [op1, op2], agent) == [Event(m, op1), Event(After(m, op1), op2)]
  {
    assert [op1, op2][..1] == [op1] && [op1][..0] == [];
    assert Outcome(m, [op1]) == After(m, op1);
    assert Emitted(m, [op1], agent) == [Event(m, op1)];
  }

  lemma {:induction false} SwappedStreams(a: FlowUpdated, b: FlowUpdated, agent: Address)
    requires IsIncoming(a, agent) != IsIncoming(b, agent)
    ensures SameStreams([b, a], [a, b], agent)
  {
    assert [b, a][..1] == [b] && [a, b][..1] == [a] && [a][..0] == [] && [b][..0] == [];
    forall dir ensures Stream([b, a], agent, dir) == Stream([a, b], agent, dir) {
      assert Stream([a], agent, dir) == if IsIncoming(a, agent) == dir then [a] else [];
      assert Stream([b], agent, dir) == if IsIncoming(b, agent) == dir then [b] else [];
    }
  }

  lemma {:induction false} RunTwo(s: State, a: FlowUpdated, b: FlowUpdated)
    requires Touches(a, s.agent) && Touches(b, s.agent) && s.superTokens.Some?
    requires a.userData.Some? && b.userData.Some?
    ensures var ok := Answers(true, Some(0), Some(0));
            var d := [FlowEvent(a, ok), FlowEvent(b, ok)];
            Run(s, d).Some? && Run(s, d).value.superTokens.Some? && AgentEvents(d, s.agent) == [a, b]
  {
    var ok := Answers(true, Some(0), Some(0));
    var x, y := FlowEvent(a, ok), FlowEvent(b, ok);
    AnsweredReadsSuffice(s, [x, y]);
    assert [x, y] == [x] + [y] && [x] == [] + [x];
    AgentEventsSnoc([x], y, s.agent);
    AgentEventsSnoc([], x, s.agent);
  }

  lemma {:induction false} TwoTotals(m: Agreed, op1: Op, op2: Op, token: Address, agent: Address)
    requires m == map[] && agent == 1
    requires op1 == Create(Key(token, 2, agent), 5, Some(""), 1)
    requires op2 == Create(Key(token, agent, 3), 3, Some(""), 2)
    ensures AgentTotal(Event(m, op1), agent) == 5 && AgentTotal(Event(After(m, op1), op2), agent) == 2
  {
    NetRateAfter(m, op1, token, agent);
    NetRateAfter(After(m, op1), op2, token, agent);
  }

  /** Every premise of MergeOrderMatters, and a stored net flow that is not the inflow less the outflow. */
  ghost predicate Misleads(m: Agreed, ops: seq<Op>, s: State, d: seq<StoreEvent>, token: Address) {
    && Fresh(s) && AgentIsNew(m, s.agent)
    && Run(s, d).Some? && Run(s, d).value.superTokens.Some?
    && SameStreams(AgentEvents(d, s.agent), Emitted(m, ops, s.agent), s.agent)
    && NetFlowOf(Run(s, d).value.superTokens.value, token) !=
       InflowRate(Run(s, d).value.flows, token) - OutflowRate(Run(s, d).value.flows, token)
  }

  /** Under any merge the store holds the last delivered total; the true net rate is the last emitted. */
  lemma {:induction false} StoredAndTrue(m: Agreed, ops: seq<Op>, s: State, d: seq<StoreEvent>, token: Address)
    requires Fresh(s) && AgentIsNew(m, s.agent)
    requires Run(s, d).Some? && Run(s, d).value.superTokens.Some?
    requires SameStreams(AgentEvents(d, s.agent), Emitted(m, ops, s.agent), s.agent)
    ensures var s' := Run(s, d).value;
            && NetFlowOf(s'.superTokens.value, token) == LastTotal(AgentEvents(d, s.agent), s.agent, token)
            && InflowRate(s'.flows, token) - OutflowRate(s'.flows, token) ==
               LastTotal(Emitted(m, ops, s.agent), s.agent, token)
  {
    MergeOrderMatters(m, ops, s, d, token);
    RunNetFlow(s, d, token);
    RunsStayInStep(m, ops, s.agent);
  }

  lemma {:induction false} LastTotalOfTwo(a: FlowUpdated, b: FlowUpdated, agent: Address, token: Address)
    requires b.token == token
    ensures LastTotal([a, b], agent, token) == AgentTotal(b, agent)
  {
  }

  /** Two flows of one token, opened in turn, with the sender stream delivered first. */
  lemma {:induction false} MergeOrderCanMislead()
    ensures exists m: Agreed, ops: seq<Op>, s: State, d: seq<StoreEvent>, token :: Misleads(m, ops, s, d, token)
  {
    hide Run, Emitted, AgentEvents, Stream, NetRate, InflowRate, OutflowRate, LastTotal;
    var token, agent, m: Agreed := 9, 1, map[];
    var op1, op2 := Create(Key(token, 2, agent), 5, Some(""), 1), Create(Key(token, agent, 3), 3, Some(""), 2);
    var e1, e2 := Event(m, op1), Event(After(m, op1), op2);
    TwoTotals(m, op1, op2, token, agent);
    EmittedTwo(m, op1, op2, agent);
    SwappedStreams(e1, e2, agent);
    var ok, s := Answers(true, Some(0), Some(0)), State(agent, Some([]), [], map[], 0, None, true);
    var d := [FlowEvent(e2, ok), FlowEvent(e1, ok)];
    RunTwo(s, e2, e1);
    StoredAndTrue(m, [op1, op2], s, d, token);
    LastTotalOfTwo(e1, e2, agent, token);
    LastTotalOfTwo(e2, e1, agent, token);
    assert Misleads(m, [op1, op2], s, d, token);
  }
}
