/** The store against the agreement it follows: what every run keeps. */
module Mirror {
  import opened Vocabulary
  import opened FlowRecords
  import opened Agreement
  import opened Store

  // ---------------------------------------------------------------- rates of the record list

  function RateIn(f: Flow, token: Address): int {
    if !f.isCancelled && f.token == token && f.isIncoming then f.rate else 0
  }

  function RateOut(f: Flow, token: Address): int {
    if !f.isCancelled && f.token == token && !f.isIncoming then f.rate else 0
  }

  ghost function InOf(token: Address): Flow -> int {
    (f: Flow) => RateIn(f, token)
  }

  ghost function OutOf(token: Address): Flow -> int {
    (f: Flow) => RateOut(f, token)
  }

  ghost function NetOf(token: Address): Flow -> int {
    (f: Flow) => RateIn(f, token) - RateOut(f, token)
  }

  ghost function InflowRate(flows: seq<Flow>, token: Address): int {
    Sum(flows, InOf(token))
  }

  ghost function OutflowRate(flows: seq<Flow>, token: Address): int {
    Sum(flows, OutOf(token))
  }

  lemma {:induction false} NetIsInLessOut(flows: seq<Flow>, token: Address)
    ensures Sum(flows, NetOf(token)) == InflowRate(flows, token) - OutflowRate(flows, token)
  {
    SumLinear(flows, NetOf(token), InOf(token), OutOf(token), -1);
  }

  /** The agent's total in a token as the last event about that token reports it. */
  function LastTotal(es: seq<FlowUpdated>, agent: Address, token: Address): int {
    if es == [] then 0
    else if es[|es| - 1].token == token then AgentTotal(es[|es| - 1], agent)
    else LastTotal(es[..|es| - 1], agent, token)
  }

  // ---------------------------------------------------------------- records mirror live flows

  function KeyOf(f: Flow, agent: Address): Key {
    if f.isIncoming then Key(f.token, f.entity, agent) else Key(f.token, agent, f.entity)
  }

  /** Open records and the agent's live flows correspond one to one, with equal rate and time. */
  ghost predicate Mirrors(m: Agreed, flows: seq<Flow>, agent: Address) {
    && (forall f :: f in flows && !f.isCancelled ==>
          KeyOf(f, agent) in m && m[KeyOf(f, agent)] == Live(f.last, f.rate))
    && (forall k :: k in m && Involves(k, agent) ==>
          exists f :: f in flows && !f.isCancelled && KeyOf(f, agent) == k)
    && (forall i, j :: 0 <= i < j < |flows| && !flows[i].isCancelled && !flows[j].isCancelled ==>
          KeyOf(flows[i], agent) != KeyOf(flows[j], agent))
  }

  /** The record list and the reported totals agree after every prefix of es. */
  ghost predicate Consistent(es: seq<FlowUpdated>, agent: Address) {
    es == [] ||
    (&& Consistent(es[..|es| - 1], agent)
     && forall token :: Sum(Ledger(es, agent), NetOf(token)) == LastTotal(es, agent, token))
  }

  ghost predicate InStep(m: Agreed, es: seq<FlowUpdated>, agent: Address) {
    && Proper(es, agent)
    && Consistent(es, agent)
    && Mirrors(m, Ledger(es, agent), agent)
    && (forall token :: LastTotal(es, agent, token) == NetRate(m, token, agent))
    && (forall token :: Sum(Ledger(es, agent), NetOf(token)) == NetRate(m, token, agent))
  }

  /** e says what op did, whatever totals and text it carries. */
  ghost predicate Reports(e: FlowUpdated, op: Op) {
    && Key(e.token, e.sender, e.receiver) == op.key
    && e.rate == (if op.Delete? then 0 else op.rate)
    && e.timestamp == op.now
  }

  lemma {:induction false} MatchIsByKey(f: Flow, e: FlowUpdated, agent: Address)
    requires f.entity != agent && Touches(e, agent) && e.sender != e.receiver
    ensures IsFlowEqual(f, e) <==> !f.isCancelled && KeyOf(f, agent) == Key(e.token, e.sender, e.receiver)
  {
  }

  lemma {:induction false} SearchFindsLiveFlow(m: Agreed, k: Key, flows: seq<Flow>, e: FlowUpdated, agent: Address)
    requires Involves(k, agent) && k.sender != k.receiver && Key(e.token, e.sender, e.receiver) == k
    requires NoSelfEntity(flows, agent) && Mirrors(m, flows, agent)
    ensures var i := FirstMatch(flows, e);
            && (i < |flows| <==> k in m)
            && (i < |flows| ==> !flows[i].isCancelled && KeyOf(flows[i], agent) == k)
  {
    var i := FirstMatch(flows, e);
    if k in m {
      var f :| f in flows && !f.isCancelled && KeyOf(f, agent) == k;
      MatchIsByKey(f, e, agent);
    }
    if i < |flows| {
      assert flows[i] in flows;
      MatchIsByKey(flows[i], e, agent);
    }
  }

  lemma {:induction false} MirrorsAppended(m: Agreed, k: Key, live: Live, flows: seq<Flow>, f: Flow, agent: Address)
    requires Mirrors(m, flows, agent) && k !in m
    requires !f.isCancelled && KeyOf(f, agent) == k && live == Live(f.last, f.rate)
    ensures Mirrors(m[k := live], flows + [f], agent)
  {
    var flows' := flows + [f];
    assert f in flows';
    forall j | j in m && Involves(j, agent)
      ensures exists g :: g in flows' && !g.isCancelled && KeyOf(g, agent) == j
    {
      var g :| g in flows && !g.isCancelled && KeyOf(g, agent) == j;
      assert g in flows';
    }
    forall g | g in flows && !g.isCancelled ensures KeyOf(g, agent) != k {
    }
  }

  lemma {:induction false} MirrorsTouched(m: Agreed, op: Op, flows: seq<Flow>, e: FlowUpdated, agent: Address, i: nat)
    requires Allowed(m, op) && Involves(op.key, agent) && op.key in m && Reports(e, op)
    requires Mirrors(m, flows, agent)
    requires i < |flows| && !flows[i].isCancelled && KeyOf(flows[i], agent) == op.key
    ensures Mirrors(After(m, op), flows[i := Touched(flows[i], e)], agent)
  {
    var f' := Touched(flows[i], e);
    var flows' := flows[i := f'];
    assert flows'[i] == f';
    forall k | k in After(m, op) && Involves(k, agent)
      ensures exists f :: f in flows' && !f.isCancelled && KeyOf(f, agent) == k
    {
      if k != op.key {
        var j :| 0 <= j < |flows| && !flows[j].isCancelled && KeyOf(flows[j], agent) == k;
        assert flows'[j] == flows[j];
      } else {
        assert f' in flows';
      }
    }
    forall f | f in flows' && !f.isCancelled
      ensures KeyOf(f, agent) in After(m, op) && After(m, op)[KeyOf(f, agent)] == Live(f.last, f.rate)
    {
      var j :| 0 <= j < |flows| && flows'[j] == f;
      if j != i {
        assert flows[j] in flows;
        assert KeyOf(flows[j], agent) != op.key;
      }
    }
  }

  lemma {:induction false} MirrorsUpdated(m: Agreed, op: Op, flows: seq<Flow>, e: FlowUpdated, agent: Address)
    requires Allowed(m, op) && Involves(op.key, agent) && Reports(e, op)
    requires NoSelfEntity(flows, agent) && Mirrors(m, flows, agent)
    ensures Mirrors(After(m, op), Updated(flows, e, agent), agent)
  {
    SearchFindsLiveFlow(m, op.key, flows, e, agent);
    var i := FirstMatch(flows, e);
    if i < |flows| {
      MirrorsTouched(m, op, flows, e, agent, i);
    } else {
      MirrorsAppended(m, op.key, Live(op.now, op.rate), flows, NewFlow(e, agent), agent);
    }
  }

  lemma {:induction false} SignedIsNet(f: Flow, token: Address, agent: Address)
    requires !f.isCancelled && f.entity != agent
    ensures SignedRate(KeyOf(f, agent), Live(f.last, f.rate), token, agent) == RateIn(f, token) - RateOut(f, token)
  {
  }

  lemma {:induction false} RatesUpdated(
    m: Agreed, op: Op, flows: seq<Flow>, e: FlowUpdated, agent: Address, token: Address)
    requires Allowed(m, op) && Involves(op.key, agent) && Reports(e, op)
    requires NoSelfEntity(flows, agent) && Mirrors(m, flows, agent)
    requires Sum(flows, NetOf(token)) == NetRate(m, token, agent)
    ensures Sum(Updated(flows, e, agent), NetOf(token)) == NetRate(After(m, op), token, agent)
  {
    var i := FirstMatch(flows, e);
    SearchFindsLiveFlow(m, op.key, flows, e, agent);
    NetRateAfter(m, op, token, agent);
    if i == |flows| {
      var f := NewFlow(e, agent);
      SumSnoc(flows, f, NetOf(token));
      SignedIsNet(f, token, agent);
    } else {
      var f, f' := flows[i], Touched(flows[i], e);
      assert f in flows;
      SumUpdate(flows, i, f', NetOf(token));
      SignedIsNet(f, token, agent);
      if !op.Delete? {
        SignedIsNet(f', token, agent);
      }
    }
  }

  lemma {:induction false} RunsStayInStep(m: Agreed, ops: seq<Op>, agent: Address)
    requires AgentIsNew(m, agent)
    ensures InStep(Outcome(m, ops), Emitted(m, ops, agent), agent)
  {
    if ops == [] {
      forall token ensures NetRate(m, token, agent) == 0 {
        MapSumZero(m, Signed(token, agent));
      }
    } else {
      var before, op := Outcome(m, ops[..|ops| - 1]), ops[|ops| - 1];
      RunsStayInStep(m, ops[..|ops| - 1], agent);
      if Allowed(before, op) {
        if Involves(op.key, agent) {
          StepsInStep(before, op, Emitted(m, ops[..|ops| - 1], agent), agent);
        } else {
          forall token ensures NetRate(After(before, op), token, agent) == NetRate(before, token, agent) {
            NetRateAfter(before, op, token, agent);
          }
        }
      }
    }
  }

  lemma {:induction false} TotalsUpdated(m: Agreed, op: Op, es: seq<FlowUpdated>, agent: Address, token: Address)
    requires Allowed(m, op) && Involves(op.key, agent)
    requires LastTotal(es, agent, token) == NetRate(m, token, agent)
    ensures LastTotal(es + [Event(m, op)], agent, token) == NetRate(After(m, op), token, agent)
  {
    assert (es + [Event(m, op)])[..|es|] == es;
    NetRateAfter(m, op, token, agent);
  }

  lemma {:induction false} StepsInStep(m: Agreed, op: Op, es: seq<FlowUpdated>, agent: Address)
    requires Allowed(m, op) && Involves(op.key, agent) && InStep(m, es, agent)
    ensures InStep(After(m, op), es + [Event(m, op)], agent)
  {
    var e, flows := Event(m, op), Ledger(es, agent);
    var es', m' := es + [e], After(m, op);
    OpenRecordIsUnique(es, agent);
    LedgerSnoc(es, e, agent);
    MirrorsUpdated(m, op, flows, e, agent);
    assert es'[..|es|] == es;
    assert Proper(es', agent);
    forall token
      ensures LastTotal(es', agent, token) == NetRate(m', token, agent)
      ensures Sum(Ledger(es', agent), NetOf(token)) == NetRate(m', token, agent)
    {
      RatesUpdated(m, op, flows, e, agent, token);
      TotalsUpdated(m, op, es, agent, token);
    }
  }

  // ---------------------------------------------------------------- rates by direction

  /** What the live flow of an open record adds to the agent's received and sent rates. */
  lemma {:induction false} DirectionOfRate(f: Flow, token: Address, agent: Address)
    requires !f.isCancelled && f.entity != agent
    ensures var k, v := KeyOf(f, agent), Live(f.last, f.rate);
            Received(token, agent)(k, v) == RateIn(f, token) && Sent(token, agent)(k, v) == RateOut(f, token)
  {
  }

  lemma {:induction false} DirectionsUpdated(
    m: Agreed, op: Op, flows: seq<Flow>, e: FlowUpdated, agent: Address, token: Address)
    requires Allowed(m, op) && Involves(op.key, agent) && Reports(e, op)
    requires NoSelfEntity(flows, agent) && Mirrors(m, flows, agent)
    requires InflowRate(flows, token) == ReceivedRate(m, token, agent)
    requires OutflowRate(flows, token) == SentRate(m, token, agent)
    ensures InflowRate(Updated(flows, e, agent), token) == ReceivedRate(After(m, op), token, agent)
    ensures OutflowRate(Updated(flows, e, agent), token) == SentRate(After(m, op), token, agent)
  {
    hide Sum, MapSum;
    var i := FirstMatch(flows, e);
    SearchFindsLiveFlow(m, op.key, flows, e, agent);
    MapSumAfter(m, op, Received(token, agent));
    MapSumAfter(m, op, Sent(token, agent));
    if i == |flows| {
      var f := NewFlow(e, agent);
      SumSnoc(flows, f, InOf(token));
      SumSnoc(flows, f, OutOf(token));
      DirectionOfRate(f, token, agent);
    } else {
      var f, f' := flows[i], Touched(flows[i], e);
      assert f in flows;
      SumUpdate(flows, i, f', InOf(token));
      SumUpdate(flows, i, f', OutOf(token));
      DirectionOfRate(f, token, agent);
      if !op.Delete? {
        DirectionOfRate(f', token, agent);
      }
    }
  }

  /** An operation between others changes neither of the agent's rates. */
  lemma {:induction false} OthersKeepDirections(m: Agreed, op: Op, agent: Address, token: Address)
    requires Allowed(m, op) && !Involves(op.key, agent)
    ensures ReceivedRate(After(m, op), token, agent) == ReceivedRate(m, token, agent)
    ensures SentRate(After(m, op), token, agent) == SentRate(m, token, agent)
  {
    MapSumAfter(m, op, Received(token, agent));
    MapSumAfter(m, op, Sent(token, agent));
  }

  /** After every run of the agreement the inflow of the records is what the agent receives, and their
      outflow what it sends, token by token. */
  lemma {:induction false} DirectionsOverRuns(m: Agreed, ops: seq<Op>, agent: Address, token: Address)
    requires AgentIsNew(m, agent)
    ensures var flows, m' := Ledger(Emitted(m, ops, agent), agent), Outcome(m, ops);
            && InflowRate(flows, token) == ReceivedRate(m', token, agent)
            && OutflowRate(flows, token) == SentRate(m', token, agent)
  {
    hide ReceivedRate, SentRate, InflowRate, OutflowRate, Updated, Event;
    if ops == [] {
      NothingFlows(m, agent, token);
    } else {
      var init, op := ops[..|ops| - 1], ops[|ops| - 1];
      var before, es := Outcome(m, init), Emitted(m, init, agent);
      DirectionsOverRuns(m, init, agent, token);
      if Allowed(before, op) {
        EventReports(before, op, agent);
        if Involves(op.key, agent) {
          RunsStayInStep(m, init, agent);
          OpenRecordIsUnique(es, agent);
          LedgerSnoc(es, Event(before, op), agent);
          DirectionsUpdated(before, op, Ledger(es, agent), Event(before, op), agent, token);
        } else {
          OthersKeepDirections(before, op, agent, token);
        }
      }
    }
  }

  lemma {:induction false} EventReports(m: Agreed, op: Op, agent: Address)
    requires Allowed(m, op)
    ensures Reports(Event(m, op), op) && (Touches(Event(m, op), agent) <==> Involves(op.key, agent))
  {
  }

  lemma {:induction false} NothingFlows(m: Agreed, agent: Address, token: Address)
    requires AgentIsNew(m, agent)
    ensures ReceivedRate(m, token, agent) == 0 && SentRate(m, token, agent) == 0
    ensures InflowRate([], token) == 0 && OutflowRate([], token) == 0
  {
    MapSumZero(m, Received(token, agent));
    MapSumZero(m, Sent(token, agent));
  }
}
