/** The list of flow records and the updater that folds one FlowUpdated event into it. */
module FlowRecords {
  import opened Vocabulary

  /** An integer as JavaScript holds it: event values arrive as text or as numbers. */
  datatype JsInt = Text(n: int) | Number(n: int)

  /** A FlowUpdated event together with the timestamp of its block. Its user data is any bytes the flow's
      author chose: the text they decode to, the empty text for no bytes, or None if they do not decode. */
  datatype FlowUpdated = FlowUpdated(
    token: Address, sender: Address, receiver: Address, rate: int,
    senderTotal: JsInt, receiverTotal: int, userData: Option<string>, timestamp: nat)

  datatype Flow = Flow(
    isCancelled: bool, isIncoming: bool, entity: Address, token: Address,
    accumulated: int, created: nat, last: nat, rate: int, description: string)

  /** What a record is about; it never changes during the record's life. */
  datatype FlowId = FlowId(token: Address, isIncoming: bool, entity: Address)

  function Id(f: Flow): FlowId {
    FlowId(f.token, f.isIncoming, f.entity)
  }

  predicate IsIncoming(e: FlowUpdated, agent: Address) {
    e.receiver == agent
  }

  function Entity(e: FlowUpdated, incoming: bool): Address {
    if incoming then e.sender else e.receiver
  }

  function EventId(e: FlowUpdated, agent: Address): FlowId {
    FlowId(e.token, IsIncoming(e, agent), Entity(e, IsIncoming(e, agent)))
  }

  /** The record test of the store: it looks at the record's direction, never at the event's. */
  predicate IsFlowEqual(f: Flow, e: FlowUpdated) {
    && !f.isCancelled
    && f.token == e.token
    && f.entity == Entity(e, f.isIncoming)
  }

  function NewAccumulated(f: Flow, now: nat): int {
    (now - f.last) * f.rate + f.accumulated
  }

  /** Index of the first matching record, or the length of the list. */
  function FirstMatch(flows: seq<Flow>, e: FlowUpdated): (i: nat)
    ensures i <= |flows|
    ensures i < |flows| ==> IsFlowEqual(flows[i], e)
    ensures forall j :: 0 <= j < i ==> !IsFlowEqual(flows[j], e)
  {
    if flows == [] then 0
    else if IsFlowEqual(flows[0], e) then 0
    else
      var i := FirstMatch(flows[1..], e);
      assert forall j :: 0 < j < i + 1 ==> flows[j] == flows[1..][j - 1];
      i + 1
  }

  /** The text of an event whose user data decodes. */
  function Description(e: FlowUpdated): string {
    if e.userData.Some? then e.userData.value else ""
  }

  function NewFlow(e: FlowUpdated, agent: Address): Flow {
    var incoming := IsIncoming(e, agent);
    Flow(false, incoming, Entity(e, incoming), e.token, 0, e.timestamp, e.timestamp, e.rate, Description(e))
  }

  function Touched(f: Flow, e: FlowUpdated): Flow {
    var settled := f.(accumulated := NewAccumulated(f, e.timestamp), last := e.timestamp);
    if e.rate > 0 then settled.(rate := e.rate, description := Description(e))
    else settled.(isCancelled := true)
  }

  function Updated(flows: seq<Flow>, e: FlowUpdated, agent: Address): seq<Flow> {
    var i := FirstMatch(flows, e);
    if i == |flows| then flows + [NewFlow(e, agent)] else flows[i := Touched(flows[i], e)]
  }

  /** The updater: copies the list, looks for the record, decodes the user data, which may throw, then
      pushes or assigns by index. */
  method UpdateFlows(flows: seq<Flow>, e: FlowUpdated, agent: Address) returns (r: Option<seq<Flow>>)
    ensures r == if e.userData.None? then None else Some(Updated(flows, e, agent))
  {
    var newFlows := flows;
    var isIncoming := e.receiver == agent;
    var flowIndex := -1;
    var k := 0;
    while k < |newFlows| && flowIndex == -1
      invariant 0 <= k <= |newFlows|
      invariant flowIndex == -1 ==> forall j :: 0 <= j < k ==> !IsFlowEqual(newFlows[j], e)
      invariant flowIndex != -1 ==> 0 <= flowIndex < |newFlows| && flowIndex == FirstMatch(newFlows, e)
      decreases |newFlows| - k
    {
      if IsFlowEqual(newFlows[k], e) {
        flowIndex := k;
      }
      k := k + 1;
    }

    if e.userData.None? {
      return None;
    }
    var description := e.userData.value;

    if flowIndex == -1 {
      newFlows := newFlows +
        [Flow(false, isIncoming, Entity(e, isIncoming), e.token, 0, e.timestamp, e.timestamp, e.rate, description)];
    } else if e.rate > 0 {
      newFlows := newFlows[flowIndex := newFlows[flowIndex].(
        accumulated := NewAccumulated(flows[flowIndex], e.timestamp),
        last := e.timestamp, rate := e.rate, description := description)];
    } else {
      newFlows := newFlows[flowIndex := newFlows[flowIndex].(
        accumulated := NewAccumulated(flows[flowIndex], e.timestamp),
        last := e.timestamp, isCancelled := true)];
    }
    return Some(newFlows);
  }

  /** The records after a sequence of events, starting from none. */
  function Ledger(es: seq<FlowUpdated>, agent: Address): seq<Flow> {
    if es == [] then [] else Updated(Ledger(es[..|es| - 1], agent), es[|es| - 1], agent)
  }

  lemma {:induction false} LedgerSnoc(es: seq<FlowUpdated>, e: FlowUpdated, agent: Address)
    ensures Ledger(es + [e], agent) == Updated(Ledger(es, agent), e, agent)
  {
    assert (es + [e])[..|es|] == es;
  }

  // ---------------------------------------------------------------- redelivery

  /** Delivering an event twice in a row is harmless exactly when its rate is positive. */
  lemma {:induction false} RedeliveryIsIdempotent(flows: seq<Flow>, e: FlowUpdated, agent: Address)
    ensures Updated(Updated(flows, e, agent), e, agent) == Updated(flows, e, agent) <==> e.rate > 0
  {
    var once := Updated(flows, e, agent);
    var i := FirstMatch(flows, e);
    if e.rate > 0 || i == |flows| {
      assert IsFlowEqual(once[i], e);
      assert forall j :: 0 <= j < i ==> once[j] == flows[j];
      assert FirstMatch(once, e) == i;
      if e.rate <= 0 {
        assert Updated(once, e, agent)[i].isCancelled;
      }
    } else {
      var k := FirstMatch(once, e);
      if k < |once| {
        assert Updated(once, e, agent)[k].isCancelled;
      }
    }
  }

  // ---------------------------------------------------------------- history

  /** A later list extends an earlier one: nothing is dropped, re-identified or re-dated, and
      cancelled records are frozen. */
  ghost predicate Extends(earlier: seq<Flow>, later: seq<Flow>) {
    && |earlier| <= |later|
    && forall i :: 0 <= i < |earlier| ==>
         && Id(later[i]) == Id(earlier[i])
         && later[i].created == earlier[i].created
         && (earlier[i].isCancelled ==> later[i] == earlier[i])
  }

  /** A record's amount at time t: open records are extrapolated, cancelled ones are frozen. */
  function Amount(f: Flow, t: nat): int {
    if f.isCancelled then f.accumulated else f.accumulated + f.rate * (t - f.last)
  }

  /** f is what open became when an event at time now cancelled it: it shows for ever the amount that
      open had reached, and keeps its rate and description. */
  ghost predicate Freezes(open: Flow, now: nat, f: Flow) {
    && !open.isCancelled && f.isCancelled
    && f.rate == open.rate && f.description == open.description && f.last == now
    && forall t :: Amount(f, t) == Amount(open, now)
  }

  /** The k-th of the later events cancelled record i, which has not changed since. */
  ghost predicate FrozenBy(es: seq<FlowUpdated>, more: seq<FlowUpdated>, agent: Address, i: nat, k: nat) {
    && k < |more|
    && i < |Ledger(es + more[..k], agent)| && i < |Ledger(es + more, agent)|
    && Freezes(Ledger(es + more[..k], agent)[i], more[k].timestamp, Ledger(es + more, agent)[i])
  }

  lemma {:induction false} UpdatedExtends(flows: seq<Flow>, e: FlowUpdated, agent: Address)
    ensures Extends(flows, Updated(flows, e, agent))
    ensures forall i :: 0 <= i < |flows| && !flows[i].isCancelled && Updated(flows, e, agent)[i].isCancelled ==>
              Freezes(flows[i], e.timestamp, Updated(flows, e, agent)[i])
  {
    var i := FirstMatch(flows, e);
    if i < |flows| {
      assert NewAccumulated(flows[i], e.timestamp) == Amount(flows[i], e.timestamp);
    }
  }

  /** Over any run, in whatever order the events come, history is append-only, and a record that is
      cancelled on the way is frozen as it stood at one of the events. */
  lemma {:induction false} HistoryIsAppendOnly(es: seq<FlowUpdated>, more: seq<FlowUpdated>, agent: Address)
    ensures Extends(Ledger(es, agent), Ledger(es + more, agent))
    ensures forall i :: 0 <= i < |Ledger(es, agent)|
                        && !Ledger(es, agent)[i].isCancelled && Ledger(es + more, agent)[i].isCancelled ==>
              exists k: nat :: FrozenBy(es, more, agent, i, k)
  {
    hide Ledger, Updated, Freezes;
    if more == [] {
      assert es + more == es;
    } else {
      var init, e := more[..|more| - 1], more[|more| - 1];
      HistoryIsAppendOnly(es, init, agent);
      assert es + more == (es + init) + [e];
      LedgerSnoc(es + init, e, agent);
      UpdatedExtends(Ledger(es + init, agent), e, agent);
      forall i | 0 <= i < |Ledger(es, agent)|
                 && !Ledger(es, agent)[i].isCancelled && Ledger(es + more, agent)[i].isCancelled
        ensures exists k: nat :: FrozenBy(es, more, agent, i, k)
      {
        if Ledger(es + init, agent)[i].isCancelled {
          var k: nat :| FrozenBy(es, init, agent, i, k);
          assert more[..k] == init[..k];
          assert FrozenBy(es, more, agent, i, k);
        } else {
          assert FrozenBy(es, more, agent, i, |init|);
        }
      }
    }
  }

  ghost predicate Ordered(es: seq<FlowUpdated>) {
    forall i, j :: 0 <= i < j < |es| ==> es[i].timestamp <= es[j].timestamp
  }

  lemma {:induction false} OrderedInit(es: seq<FlowUpdated>, e: FlowUpdated)
    requires Ordered(es + [e])
    ensures Ordered(es)
    ensures es != [] ==> es[|es| - 1].timestamp <= e.timestamp
  {
    assert forall i :: 0 <= i < |es| ==> es[i] == (es + [e])[i];
    assert (es + [e])[|es|] == e;
  }

  ghost predicate LastBy(flows: seq<Flow>, now: nat) {
    forall i :: 0 <= i < |flows| ==> flows[i].created <= flows[i].last <= now
  }

  lemma {:induction false} LedgerLastBy(es: seq<FlowUpdated>, agent: Address, now: nat)
    requires Ordered(es)
    requires es != [] ==> es[|es| - 1].timestamp <= now
    ensures LastBy(Ledger(es, agent), now)
  {
    if es != [] {
      LedgerLastBy(es[..|es| - 1], agent, es[|es| - 1].timestamp);
    }
  }

  lemma {:induction false} RatesStayNonNegative(es: seq<FlowUpdated>, agent: Address)
    requires forall e :: e in es ==> e.rate >= 0
    ensures forall f :: f in Ledger(es, agent) ==> f.rate >= 0
  {
    if es != [] {
      RatesStayNonNegative(es[..|es| - 1], agent);
    }
  }

  // ---------------------------------------------------------------- at most one open record

  predicate Touches(e: FlowUpdated, agent: Address) {
    agent == e.sender || agent == e.receiver
  }

  /** What the agreement guarantees of every event delivered for the agent: no self-flows. */
  ghost predicate Proper(es: seq<FlowUpdated>, agent: Address) {
    forall e :: e in es ==> Touches(e, agent) && e.sender != e.receiver
  }

  ghost predicate NoSelfEntity(flows: seq<Flow>, agent: Address) {
    forall f :: f in flows ==> f.entity != agent
  }

  ghost predicate UniqueOpen(flows: seq<Flow>) {
    forall i, j :: 0 <= i < j < |flows| && !flows[i].isCancelled && !flows[j].isCancelled ==>
      Id(flows[i]) != Id(flows[j])
  }

  /** Although the record test never compares directions, it selects by full identity. */
  lemma {:induction false} MatchIsById(f: Flow, e: FlowUpdated, agent: Address)
    requires f.entity != agent && Touches(e, agent) && e.sender != e.receiver
    ensures IsFlowEqual(f, e) <==> !f.isCancelled && Id(f) == EventId(e, agent)
  {
  }

  /** For an open record the test, which ignores the event's direction, selects by full identity on all
      events about the agent exactly when the record's entity is not the agent itself. */
  lemma {:induction false} SelectionIsByIdentity(f: Flow, agent: Address)
    requires !f.isCancelled
    ensures (forall e :: Touches(e, agent) && e.sender != e.receiver ==>
               (IsFlowEqual(f, e) <==> Id(f) == EventId(e, agent)))
            <==> f.entity != agent
  {
    if f.entity == agent {
      var other: Address := if agent == 0 then 1 else 0;
      var sender, receiver := if f.isIncoming then agent else other, if f.isIncoming then other else agent;
      var opposite := FlowUpdated(f.token, sender, receiver, 1, Text(0), 0, Some(""), 0);
      assert Touches(opposite, agent) && IsFlowEqual(f, opposite) && Id(f) != EventId(opposite, agent);
    } else {
      forall e | Touches(e, agent) && e.sender != e.receiver
        ensures IsFlowEqual(f, e) <==> Id(f) == EventId(e, agent)
      {
        MatchIsById(f, e, agent);
      }
    }
  }

  /** An event about the agent keeps the agent out of the entities exactly when it is no self-flow. */
  lemma {:induction false} SelfFlowsAloneNameTheAgent(flows: seq<Flow>, e: FlowUpdated, agent: Address)
    requires NoSelfEntity(flows, agent) && Touches(e, agent)
    ensures NoSelfEntity(Updated(flows, e, agent), agent) <==> e.sender != e.receiver
  {
    var i := FirstMatch(flows, e);
    if e.sender == e.receiver {
      assert NewFlow(e, agent) in Updated(flows, e, agent);
    } else {
      forall f | f in Updated(flows, e, agent) ensures f.entity != agent {
        assert i < |flows| ==> flows[i] in flows;
        assert f in flows || f == NewFlow(e, agent) || (i < |flows| && f == Touched(flows[i], e));
      }
    }
  }

  /** In every reachable list each identity has at most one open record, and the record test
      holds of exactly the one that the search returns. */
  lemma {:induction false} OpenRecordIsUnique(es: seq<FlowUpdated>, agent: Address)
    requires Proper(es, agent)
    ensures NoSelfEntity(Ledger(es, agent), agent)
    ensures UniqueOpen(Ledger(es, agent))
    ensures forall e, i :: Touches(e, agent) && e.sender != e.receiver && 0 <= i < |Ledger(es, agent)| ==>
              (IsFlowEqual(Ledger(es, agent)[i], e) <==> i == FirstMatch(Ledger(es, agent), e))
  {
    if es != [] {
      var init, e := es[..|es| - 1], es[|es| - 1];
      OpenRecordIsUnique(init, agent);
      SelfFlowsAloneNameTheAgent(Ledger(init, agent), e, agent);
      OneMoreIsUnique(Ledger(init, agent), e, agent);
    }
    SearchFindsIt(Ledger(es, agent), agent);
  }

  lemma {:induction false} OneMoreIsUnique(flows: seq<Flow>, e: FlowUpdated, agent: Address)
    requires NoSelfEntity(flows, agent) && UniqueOpen(flows)
    requires Touches(e, agent) && e.sender != e.receiver
    ensures UniqueOpen(Updated(flows, e, agent))
  {
    forall f | f in flows {
      MatchIsById(f, e, agent);
    }
  }

  lemma {:induction false} SearchFindsIt(flows: seq<Flow>, agent: Address)
    requires NoSelfEntity(flows, agent) && UniqueOpen(flows)
    ensures forall e, i :: Touches(e, agent) && e.sender != e.receiver && 0 <= i < |flows| ==>
              (IsFlowEqual(flows[i], e) <==> i == FirstMatch(flows, e))
  {
    forall e, i | Touches(e, agent) && e.sender != e.receiver && 0 <= i < |flows|
      ensures IsFlowEqual(flows[i], e) <==> i == FirstMatch(flows, e)
    {
      var k := FirstMatch(flows, e);
      MatchIsById(flows[i], e, agent);
      if k < |flows| {
        MatchIsById(flows[k], e, agent);
      }
    }
  }

  // ---------------------------------------------------------------- open records and the latest events

  /** The latest event about id. */
  function LatestFor(es: seq<FlowUpdated>, agent: Address, id: FlowId): Option<FlowUpdated> {
    if es == [] then None
    else if EventId(es[|es| - 1], agent) == id then Some(es[|es| - 1])
    else LatestFor(es[..|es| - 1], agent, id)
  }

  ghost predicate Carries(f: Flow, e: FlowUpdated) {
    f.rate == e.rate && f.description == Description(e) && f.last == e.timestamp
  }

  /** An open record carries the rate, description and time of the latest event about its flow, and a
      flow whose latest event has a positive rate has an open record. */
  lemma {:induction false} OpenRecordIsLatest(es: seq<FlowUpdated>, agent: Address)
    requires Proper(es, agent)
    ensures forall f :: f in Ledger(es, agent) && !f.isCancelled ==>
              LatestFor(es, agent, Id(f)).Some? && Carries(f, LatestFor(es, agent, Id(f)).value)
    ensures forall id :: LatestFor(es, agent, id).Some? && LatestFor(es, agent, id).value.rate > 0 ==>
              exists f :: f in Ledger(es, agent) && !f.isCancelled && Id(f) == id
  {
    if es != [] {
      var init, e := es[..|es| - 1], es[|es| - 1];
      OpenRecordIsLatest(init, agent);
      OpenRecordIsUnique(init, agent);
      var flows, flows' := Ledger(init, agent), Ledger(es, agent);
      var i := FirstMatch(flows, e);
      assert i < |flows'| && (e.rate > 0 || i == |flows|) ==> !flows'[i].isCancelled;
      forall f | f in flows' && !f.isCancelled
        ensures LatestFor(es, agent, Id(f)).Some? && Carries(f, LatestFor(es, agent, Id(f)).value)
      {
        var k :| 0 <= k < |flows'| && flows'[k] == f;
        if k < |flows| {
          assert flows[k] in flows;
          MatchIsById(flows[k], e, agent);
        }
      }
      forall id | LatestFor(es, agent, id).Some? && LatestFor(es, agent, id).value.rate > 0
        ensures exists f :: f in flows' && !f.isCancelled && Id(f) == id
      {
        if EventId(e, agent) == id {
          if i < |flows| {
            assert flows[i] in flows;
            MatchIsById(flows[i], e, agent);
          }
          assert flows'[i] in flows' && Id(flows'[i]) == id;
        } else {
          assert LatestFor(init, agent, id) == LatestFor(es, agent, id);
          var f :| f in flows && !f.isCancelled && Id(f) == id;
          MatchIsById(f, e, agent);
          var k :| 0 <= k < |flows| && flows[k] == f;
          assert flows'[k] == f;
        }
      }
    }
  }

  // ---------------------------------------------------------------- interleaving

  /** The records of one direction, in list order. */
  function Only(flows: seq<Flow>, incoming: bool): seq<Flow> {
    if flows == [] then []
    else (if flows[0].isIncoming == incoming then [flows[0]] else []) + Only(flows[1..], incoming)
  }

  /** The events of one direction, in delivery order: one of the two subscriptions. */
  function Stream(es: seq<FlowUpdated>, agent: Address, incoming: bool): seq<FlowUpdated> {
    if es == [] then []
    else
      var rest := Stream(es[..|es| - 1], agent, incoming);
      if IsIncoming(es[|es| - 1], agent) == incoming then rest + [es[|es| - 1]] else rest
  }

  /** d and es are two mergings of the same receiver stream and the same sender stream. */
  ghost predicate SameStreams(d: seq<FlowUpdated>, es: seq<FlowUpdated>, agent: Address) {
    forall dir :: Stream(d, agent, dir) == Stream(es, agent, dir)
  }

  /** Every event is in the stream of its own direction. */
  lemma {:induction false} StreamMembers(es: seq<FlowUpdated>, agent: Address, e: FlowUpdated)
    ensures e in es <==> e in Stream(es, agent, IsIncoming(e, agent))
  {
    if es != [] {
      assert es == es[..|es| - 1] + [es[|es| - 1]];
      StreamMembers(es[..|es| - 1], agent, e);
    }
  }

  lemma {:induction false} UpdatedCons(f: Flow, rest: seq<Flow>, e: FlowUpdated, agent: Address)
    ensures Updated([f] + rest, e, agent) ==
            if IsFlowEqual(f, e) then [Touched(f, e)] + rest else [f] + Updated(rest, e, agent)
  {
    assert ([f] + rest)[1..] == rest;
  }

  lemma {:induction false} OnlyCons(f: Flow, rest: seq<Flow>, incoming: bool)
    ensures Only([f] + rest, incoming) ==
            if f.isIncoming == incoming then [f] + Only(rest, incoming) else Only(rest, incoming)
  {
    assert ([f] + rest)[1..] == rest;
  }

  lemma {:induction false} EventsActOnTheirDirection(
    flows: seq<Flow>, e: FlowUpdated, agent: Address, incoming: bool)
    requires NoSelfEntity(flows, agent) && Touches(e, agent) && e.sender != e.receiver
    ensures Only(Updated(flows, e, agent), incoming) ==
            if IsIncoming(e, agent) == incoming then Updated(Only(flows, incoming), e, agent)
            else Only(flows, incoming)
  {
    if flows == [] {
      OnlyCons(NewFlow(e, agent), [], incoming);
      assert [NewFlow(e, agent)] + [] == [] + [NewFlow(e, agent)];
    } else {
      var f, rest := flows[0], flows[1..];
      assert flows == [f] + rest && f in flows;
      MatchIsById(f, e, agent);
      UpdatedCons(f, rest, e, agent);
      OnlyCons(f, rest, incoming);
      UpdatedCons(f, Only(rest, incoming), e, agent);
      if IsFlowEqual(f, e) {
        OnlyCons(Touched(f, e), rest, incoming);
      } else {
        OnlyCons(f, Updated(rest, e, agent), incoming);
        assert NoSelfEntity(rest, agent);
        EventsActOnTheirDirection(rest, e, agent, incoming);
      }
    }
  }

  lemma {:induction false} OneDirectionIsItsStream(es: seq<FlowUpdated>, agent: Address, incoming: bool)
    requires Proper(es, agent)
    ensures Only(Ledger(es, agent), incoming) == Ledger(Stream(es, agent, incoming), agent)
  {
    if es != [] {
      var init, e := es[..|es| - 1], es[|es| - 1];
      OneDirectionIsItsStream(init, agent, incoming);
      OpenRecordIsUnique(init, agent);
      EventsActOnTheirDirection(Ledger(init, agent), e, agent, incoming);
      LedgerSnoc(Stream(init, agent, incoming), e, agent);
    }
  }

  lemma {:induction false} ProperMerged(d: seq<FlowUpdated>, es: seq<FlowUpdated>, agent: Address)
    requires Proper(es, agent) && SameStreams(d, es, agent)
    ensures Proper(d, agent)
  {
    forall e | e in d ensures Touches(e, agent) && e.sender != e.receiver {
      StreamMembers(d, agent, e);
      StreamMembers(es, agent, e);
    }
  }

  /** However the two subscriptions are merged, the records of each direction are those that its
      own stream produces alone. */
  lemma {:induction false} InterleavingIndependence(
    d: seq<FlowUpdated>, es: seq<FlowUpdated>, agent: Address, incoming: bool)
    requires Proper(es, agent) && SameStreams(d, es, agent)
    ensures Only(Ledger(d, agent), incoming) == Ledger(Stream(es, agent, incoming), agent)
    ensures Only(Ledger(d, agent), incoming) == Only(Ledger(es, agent), incoming)
  {
    ProperMerged(d, es, agent);
    OneDirectionIsItsStream(d, agent, incoming);
    OneDirectionIsItsStream(es, agent, incoming);
  }

  // ---------------------------------------------------------------- amounts as integrals

  /** The rate that the latest event about id, among those up to second s, has set. */
  ghost function RateAt(es: seq<FlowUpdated>, agent: Address, id: FlowId, s: nat): int {
    if es == [] then 0
    else
      var e := es[|es| - 1];
      if EventId(e, agent) == id && e.timestamp <= s then e.rate else RateAt(es[..|es| - 1], agent, id, s)
  }

  /** The second-by-second sum of that rate over [start, end). */
  ghost function Streamed(es: seq<FlowUpdated>, agent: Address, id: FlowId, start: nat, end: nat): int
    decreases end
  {
    if end <= start then 0 else Streamed(es, agent, id, start, end - 1) + RateAt(es, agent, id, end - 1)
  }

  lemma {:induction false} StreamedUnaffected(
    es: seq<FlowUpdated>, e: FlowUpdated, agent: Address, id: FlowId, start: nat, end: nat)
    requires EventId(e, agent) != id || end <= e.timestamp
    ensures Streamed(es + [e], agent, id, start, end) == Streamed(es, agent, id, start, end)
    decreases end
  {
    if start < end {
      StreamedUnaffected(es, e, agent, id, start, end - 1);
      assert (es + [e])[..|es|] == es;
    }
  }

  lemma {:induction false} StreamedSince(es: seq<FlowUpdated>, e: FlowUpdated, agent: Address, start: nat, end: nat)
    requires start <= e.timestamp <= end
    ensures var id := EventId(e, agent);
            Streamed(es + [e], agent, id, start, end) ==
            Streamed(es, agent, id, start, e.timestamp) + e.rate * (end - e.timestamp)
    decreases end
  {
    if end == e.timestamp {
      StreamedUnaffected(es, e, agent, EventId(e, agent), start, end);
    } else {
      StreamedSince(es, e, agent, start, end - 1);
      assert e.rate * (end - e.timestamp) == e.rate * (end - 1 - e.timestamp) + e.rate;
    }
  }

  ghost predicate IsIntegral(f: Flow, es: seq<FlowUpdated>, agent: Address, t: nat) {
    Amount(f, t) == Streamed(es, agent, Id(f), f.created, if f.isCancelled then f.last else t)
  }

  lemma {:induction false} TouchedIsIntegral(f: Flow, es: seq<FlowUpdated>, e: FlowUpdated, agent: Address, t: nat)
    requires !f.isCancelled && Id(f) == EventId(e, agent)
    requires f.created <= e.timestamp <= t
    requires IsIntegral(f, es, agent, e.timestamp)
    ensures IsIntegral(Touched(f, e), es + [e], agent, t)
  {
    StreamedSince(es, e, agent, f.created, t);
    StreamedUnaffected(es, e, agent, Id(f), f.created, e.timestamp);
    assert NewAccumulated(f, e.timestamp) == Amount(f, e.timestamp);
  }

  lemma {:induction false} UntouchedIsIntegral(f: Flow, es: seq<FlowUpdated>, e: FlowUpdated, agent: Address, t: nat)
    requires f.isCancelled || Id(f) != EventId(e, agent)
    requires f.last <= e.timestamp <= t
    requires IsIntegral(f, es, agent, t)
    ensures IsIntegral(f, es + [e], agent, t)
  {
    StreamedUnaffected(es, e, agent, Id(f), f.created, if f.isCancelled then f.last else t);
  }

  lemma {:induction false} NewIsIntegral(es: seq<FlowUpdated>, e: FlowUpdated, agent: Address, t: nat)
    requires e.timestamp <= t
    ensures IsIntegral(NewFlow(e, agent), es + [e], agent, t)
  {
    StreamedSince(es, e, agent, e.timestamp, t);
  }

  /** The integral of a record, for events in time order. */
  lemma {:induction false} IntegralInOrder(es: seq<FlowUpdated>, agent: Address, t: nat)
    requires Proper(es, agent) && Ordered(es)
    requires es != [] ==> es[|es| - 1].timestamp <= t
    ensures forall f :: f in Ledger(es, agent) ==> IsIntegral(f, es, agent, t)
  {
    hide IsIntegral;
    if es != [] {
      var init, e := es[..|es| - 1], es[|es| - 1];
      assert es == init + [e];
      var flows := Ledger(init, agent);
      IntegralInOrder(init, agent, e.timestamp);
      IntegralInOrder(init, agent, t);
      OpenRecordIsUnique(init, agent);
      LedgerLastBy(init, agent, e.timestamp);
      var i := FirstMatch(flows, e);
      forall f | f in Ledger(es, agent) ensures IsIntegral(f, es, agent, t) {
        var k :| 0 <= k < |Ledger(es, agent)| && f == Ledger(es, agent)[k];
        if k == |flows| {
          NewIsIntegral(init, e, agent, t);
        } else {
          MatchIsById(flows[k], e, agent);
          if k == i {
            TouchedIsIntegral(flows[k], init, e, agent, t);
          } else {
            UntouchedIsIntegral(flows[k], init, e, agent, t);
          }
        }
      }
    }
  }

  // ---------------------------------------------------------------- merged deliveries

  lemma {:induction false} OnlyMembers(flows: seq<Flow>, f: Flow)
    ensures f in flows <==> f in Only(flows, f.isIncoming)
  {
    if flows != [] {
      assert flows == [flows[0]] + flows[1..];
      OnlyMembers(flows[1..], f);
    }
  }

  /** What is said about a flow is all said in the stream of its direction. */
  lemma {:induction false} RateAtInStream(es: seq<FlowUpdated>, agent: Address, id: FlowId, s: nat)
    ensures RateAt(Stream(es, agent, id.isIncoming), agent, id, s) == RateAt(es, agent, id, s)
  {
    if es != [] {
      var init, e := es[..|es| - 1], es[|es| - 1];
      RateAtInStream(init, agent, id, s);
      var stream := Stream(init, agent, id.isIncoming);
      assert (stream + [e])[..|stream|] == stream;
    }
  }

  lemma {:induction false} StreamedInStream(es: seq<FlowUpdated>, agent: Address, id: FlowId, start: nat, end: nat)
    ensures Streamed(Stream(es, agent, id.isIncoming), agent, id, start, end) == Streamed(es, agent, id, start, end)
    decreases end
  {
    if start < end {
      StreamedInStream(es, agent, id, start, end - 1);
      RateAtInStream(es, agent, id, end - 1);
    }
  }

  /** Each record's amount is the exact integral, from its creation on, of the rate that the events
      about its flow have set; a cancelled record's integral stops at its cancellation. The two
      subscriptions need only be in time order each, however they are merged. */
  lemma {:induction false} RecordIsIntegral(d: seq<FlowUpdated>, agent: Address, t: nat)
    requires Proper(d, agent) && InOrder(d, agent)
    requires forall e :: e in d ==> e.timestamp <= t
    ensures forall f :: f in Ledger(d, agent) ==> IsIntegral(f, d, agent, t)
  {
    hide IsIntegral;
    forall f | f in Ledger(d, agent) ensures IsIntegral(f, d, agent, t) {
      var stream := Stream(d, agent, f.isIncoming);
      forall e | e in stream ensures e in d {
        StreamIsPart(d, agent, f.isIncoming, e);
      }
      OnlyMembers(Ledger(d, agent), f);
      OneDirectionIsItsStream(d, agent, f.isIncoming);
      IntegralInOrder(stream, agent, t);
      IntegralOfStream(f, d, agent, t);
    }
  }

  lemma {:induction false} StreamIsPart(es: seq<FlowUpdated>, agent: Address, incoming: bool, e: FlowUpdated)
    requires e in Stream(es, agent, incoming)
    ensures e in es
  {
    if e !in Stream(es[..|es| - 1], agent, incoming) {
      assert e == es[|es| - 1];
    } else {
      StreamIsPart(es[..|es| - 1], agent, incoming, e);
    }
  }

  lemma {:induction false} IntegralOfStream(f: Flow, d: seq<FlowUpdated>, agent: Address, t: nat)
    requires IsIntegral(f, Stream(d, agent, f.isIncoming), agent, t)
    ensures IsIntegral(f, d, agent, t)
  {
    StreamedInStream(d, agent, Id(f), f.created, if f.isCancelled then f.last else t);
  }

  lemma {:induction false} StreamConcat(a: seq<FlowUpdated>, b: seq<FlowUpdated>, agent: Address, incoming: bool)
    ensures Stream(a + b, agent, incoming) == Stream(a, agent, incoming) + Stream(b, agent, incoming)
  {
    if b == [] {
      assert a + b == a;
    } else {
      assert (a + b)[..|a + b| - 1] == a + b[..|b| - 1];
      StreamConcat(a, b[..|b| - 1], agent, incoming);
    }
  }

  ghost predicate InOrder(es: seq<FlowUpdated>, agent: Address) {
    forall dir :: Ordered(Stream(es, agent, dir))
  }

  lemma {:induction false} InOrderInit(es: seq<FlowUpdated>, e: FlowUpdated, agent: Address)
    requires InOrder(es + [e], agent)
    ensures InOrder(es, agent)
    ensures var stream := Stream(es, agent, IsIncoming(e, agent));
            stream != [] ==> stream[|stream| - 1].timestamp <= e.timestamp
  {
    assert (es + [e])[..|es|] == es;
    var dir := IsIncoming(e, agent);
    assert Ordered(Stream(es + [e], agent, dir));
    OrderedInit(Stream(es, agent, dir), e);
    forall other ensures Ordered(Stream(es, agent, other)) {
      assert Ordered(Stream(es + [e], agent, other));
    }
  }

  /** No record of the next event's direction is dated after that event. */
  lemma {:induction false} DirectionLastBy(es: seq<FlowUpdated>, agent: Address, incoming: bool, now: nat)
    requires Proper(es, agent) && InOrder(es, agent)
    requires var stream := Stream(es, agent, incoming); stream != [] ==> stream[|stream| - 1].timestamp <= now
    ensures forall f :: f in Ledger(es, agent) && f.isIncoming == incoming ==> f.last <= now
  {
    var stream := Stream(es, agent, incoming);
    assert Ordered(stream);
    LedgerLastBy(stream, agent, now);
    OneDirectionIsItsStream(es, agent, incoming);
    forall f | f in Ledger(es, agent) && f.isIncoming == incoming ensures f.last <= now {
      OnlyMembers(Ledger(es, agent), f);
    }
  }

  lemma {:induction false} SettledAmountGrows(flows: seq<Flow>, e: FlowUpdated, agent: Address)
    requires NoSelfEntity(flows, agent) && Touches(e, agent) && e.sender != e.receiver
    requires forall f :: f in flows ==> f.rate >= 0
    requires forall f :: f in flows && f.isIncoming == IsIncoming(e, agent) ==> f.last <= e.timestamp
    ensures |flows| <= |Updated(flows, e, agent)|
    ensures forall i :: 0 <= i < |flows| ==> flows[i].accumulated <= Updated(flows, e, agent)[i].accumulated
  {
    var i := FirstMatch(flows, e);
    if i < |flows| {
      assert flows[i] in flows;
      MatchIsById(flows[i], e, agent);
      assert (e.timestamp - flows[i].last) * flows[i].rate >= 0;
    }
  }

  /** However the two subscriptions are merged, settled amounts never decrease when each of them is in
      time order and no rate is negative. */
  lemma {:induction false} AmountsNeverDecrease(es: seq<FlowUpdated>, more: seq<FlowUpdated>, agent: Address)
    requires Proper(es + more, agent) && InOrder(es + more, agent)
    requires forall e :: e in es + more ==> e.rate >= 0
    ensures var before, after := Ledger(es, agent), Ledger(es + more, agent);
            && |before| <= |after|
            && forall i :: 0 <= i < |before| ==> before[i].accumulated <= after[i].accumulated
  {
    hide Updated, InOrder, Ledger;
    if more == [] {
      assert es + more == es;
    } else {
      var all, e := es + more[..|more| - 1], more[|more| - 1];
      assert es + more == all + [e];
      InOrderInit(all, e, agent);
      AmountsNeverDecrease(es, more[..|more| - 1], agent);
      RatesStayNonNegative(all, agent);
      OpenRecordIsUnique(all, agent);
      DirectionLastBy(all, agent, IsIncoming(e, agent), e.timestamp);
      SettledAmountGrows(Ledger(all, agent), e, agent);
      LedgerSnoc(all, e, agent);
    }
  }

  // ---------------------------------------------------------------- redelivery of a block

  /** Grows with every record and every cancellation. */
  function Weight(flows: seq<Flow>): nat {
    if flows == [] then 0 else Weight(flows[..|flows| - 1]) + if flows[|flows| - 1].isCancelled then 2 else 1
  }

  lemma {:induction false} WeightSnoc(flows: seq<Flow>, f: Flow)
    ensures Weight(flows + [f]) == Weight(flows) + if f.isCancelled then 2 else 1
  {
    assert (flows + [f])[..|flows|] == flows;
  }

  lemma {:induction false} WeightSet(flows: seq<Flow>, i: nat, f: Flow)
    requires i < |flows| && !flows[i].isCancelled
    ensures Weight(flows[i := f]) == Weight(flows) + if f.isCancelled then 1 else 0
  {
    var init := flows[..|flows| - 1];
    if i == |flows| - 1 {
      assert flows[i := f][..|flows| - 1] == init;
    } else {
      assert flows[i := f][..|flows| - 1] == init[i := f];
      WeightSet(init, i, f);
    }
  }

  lemma {:induction false} UpdatedWeight(flows: seq<Flow>, e: FlowUpdated, agent: Address)
    ensures Weight(Updated(flows, e, agent)) >= Weight(flows) + if e.rate > 0 then 0 else 1
  {
    hide Weight;
    var i := FirstMatch(flows, e);
    if i < |flows| {
      WeightSet(flows, i, Touched(flows[i], e));
    } else {
      WeightSnoc(flows, NewFlow(e, agent));
    }
  }

  lemma {:induction false} LedgerWeight(es: seq<FlowUpdated>, more: seq<FlowUpdated>, agent: Address)
    ensures Weight(Ledger(es + more, agent)) >= Weight(Ledger(es, agent))
    ensures (exists e :: e in more && e.rate <= 0) ==> Weight(Ledger(es + more, agent)) > Weight(Ledger(es, agent))
  {
    hide Weight, Updated, Ledger;
    if more == [] {
      assert es + more == es;
    } else {
      var init, e := more[..|more| - 1], more[|more| - 1];
      assert more == init + [e] && es + more == (es + init) + [e];
      LedgerWeight(es, init, agent);
      LedgerSnoc(es + init, e, agent);
      UpdatedWeight(Ledger(es + init, agent), e, agent);
    }
  }

  lemma {:induction false} LatestOfConcat(a: seq<FlowUpdated>, b: seq<FlowUpdated>, agent: Address, id: FlowId)
    ensures LatestFor(a + b, agent, id) ==
            if LatestFor(b, agent, id).Some? then LatestFor(b, agent, id) else LatestFor(a, agent, id)
  {
    if b == [] {
      assert a + b == a;
    } else {
      assert (a + b)[..|a + b| - 1] == a + b[..|b| - 1];
      LatestOfConcat(a, b[..|b| - 1], agent, id);
    }
  }

  lemma {:induction false} LatestIsMember(es: seq<FlowUpdated>, agent: Address, id: FlowId)
    ensures var x := LatestFor(es, agent, id);
            && (x.Some? ==> x.value in es && EventId(x.value, agent) == id)
            && (x.None? ==> forall e :: e in es ==> EventId(e, agent) != id)
  {
    if es != [] {
      assert es == es[..|es| - 1] + [es[|es| - 1]];
      LatestIsMember(es[..|es| - 1], agent, id);
    }
  }

  lemma {:induction false} LatestInStream(es: seq<FlowUpdated>, agent: Address, id: FlowId)
    ensures LatestFor(Stream(es, agent, id.isIncoming), agent, id) == LatestFor(es, agent, id)
  {
    if es != [] {
      var init, e := es[..|es| - 1], es[|es| - 1];
      LatestInStream(init, agent, id);
      var stream := Stream(init, agent, id.isIncoming);
      assert (stream + [e])[..|stream|] == stream;
    }
  }

  /** Delivering a block again, merged in any way, changes no latest event. */
  lemma {:induction false} LatestTwice(
    es: seq<FlowUpdated>, b: seq<FlowUpdated>, again: seq<FlowUpdated>, agent: Address, id: FlowId)
    requires SameStreams(again, b, agent)
    ensures LatestFor(es + b + again, agent, id) == LatestFor(es + b, agent, id)
  {
    LatestOfConcat(es + b, again, agent, id);
    LatestOfConcat(es, b, agent, id);
    LatestInStream(again, agent, id);
    LatestInStream(b, agent, id);
  }

  /** Equal but for the rates and descriptions of open records. */
  ghost predicate SameShape(flows: seq<Flow>, flows': seq<Flow>) {
    && |flows'| == |flows|
    && forall i :: 0 <= i < |flows| ==>
         && flows'[i] == flows[i].(rate := flows'[i].rate, description := flows'[i].description)
         && (flows[i].isCancelled ==> flows'[i] == flows[i])
  }

  /** Every event of the block has its open record, settled at the block's time. */
  ghost predicate Settled(flows: seq<Flow>, b: seq<FlowUpdated>, agent: Address, t: nat) {
    forall e :: e in b ==>
      exists i :: 0 <= i < |flows| && !flows[i].isCancelled && Id(flows[i]) == EventId(e, agent) && flows[i].last == t
  }

  lemma {:induction false} BlockIsSettled(es: seq<FlowUpdated>, b: seq<FlowUpdated>, agent: Address, t: nat)
    requires Proper(es + b, agent) && forall e :: e in b ==> e.timestamp == t && e.rate > 0
    ensures Settled(Ledger(es + b, agent), b, agent, t)
  {
    hide Ledger;
    OpenRecordIsLatest(es + b, agent);
    forall e | e in b
      ensures exists i :: 0 <= i < |Ledger(es + b, agent)| && !Ledger(es + b, agent)[i].isCancelled
                          && Id(Ledger(es + b, agent)[i]) == EventId(e, agent) && Ledger(es + b, agent)[i].last == t
    {
      var id := EventId(e, agent);
      LatestOfConcat(es, b, agent, id);
      LatestIsMember(b, agent, id);
      assert LatestFor(es + b, agent, id).value in b;
      var f :| f in Ledger(es + b, agent) && !f.isCancelled && Id(f) == id;
      assert Carries(f, LatestFor(es + b, agent, id).value);
    }
  }

  lemma {:induction false} UpdatedKeepsShape(
    flows: seq<Flow>, now: seq<Flow>, b: seq<FlowUpdated>, e: FlowUpdated, agent: Address, t: nat)
    requires NoSelfEntity(flows, agent) && UniqueOpen(flows) && SameShape(flows, now) && Settled(flows, b, agent, t)
    requires e in b && e.timestamp == t && e.rate > 0 && Touches(e, agent) && e.sender != e.receiver
    ensures SameShape(flows, Updated(now, e, agent))
  {
    var k :| 0 <= k < |flows| && !flows[k].isCancelled && Id(flows[k]) == EventId(e, agent) && flows[k].last == t;
    assert flows[k] in flows;
    MatchIsById(now[k], e, agent);
    var i := FirstMatch(now, e);
    assert i <= k;
    assert flows[i] in flows;
    MatchIsById(now[i], e, agent);
    assert i == k;
    assert NewAccumulated(now[i], t) == now[i].accumulated;
  }

  lemma {:induction false} BlockKeepsShape(
    es: seq<FlowUpdated>, b: seq<FlowUpdated>, again: seq<FlowUpdated>, agent: Address, t: nat)
    requires Proper(es + b, agent) && forall e :: e in b ==> e.timestamp == t && e.rate > 0
    requires forall e :: e in again ==> e in b
    ensures SameShape(Ledger(es + b, agent), Ledger(es + b + again, agent))
  {
    hide Ledger, Updated, Settled;
    if again == [] {
      assert es + b + again == es + b;
    } else {
      var init, e := again[..|again| - 1], again[|again| - 1];
      assert es + b + again == (es + b + init) + [e];
      assert e in again && e in b && e in es + b;
      BlockKeepsShape(es, b, init, agent, t);
      OpenRecordIsUnique(es + b, agent);
      BlockIsSettled(es, b, agent, t);
      LedgerSnoc(es + b + init, e, agent);
      UpdatedKeepsShape(Ledger(es + b, agent), Ledger(es + b + init, agent), b, e, agent, t);
    }
  }

  lemma {:induction false} PositiveBlockIsIdempotent(
    es: seq<FlowUpdated>, b: seq<FlowUpdated>, again: seq<FlowUpdated>, agent: Address, t: nat)
    requires Proper(es + b, agent) && forall e :: e in b ==> e.timestamp == t && e.rate > 0
    requires SameStreams(again, b, agent) && forall e :: e in again ==> e in b
    ensures Ledger(es + b + again, agent) == Ledger(es + b, agent)
  {
    hide Ledger, LatestFor, Stream;
    var flows, flows' := Ledger(es + b, agent), Ledger(es + b + again, agent);
    BlockKeepsShape(es, b, again, agent, t);
    OpenRecordIsLatest(es + b, agent);
    assert Proper(es + b + again, agent);
    OpenRecordIsLatest(es + b + again, agent);
    forall i | 0 <= i < |flows| ensures flows'[i] == flows[i] {
      assert flows[i] in flows && flows'[i] in flows';
      LatestTwice(es, b, again, agent, Id(flows[i]));
    }
  }

  /** A session whose bound does not grow delivers the events of one block again, merged in some order.
      That is harmless exactly when none of them has closed a flow. */
  lemma {:induction false} BlockRedelivery(
    es: seq<FlowUpdated>, b: seq<FlowUpdated>, again: seq<FlowUpdated>, agent: Address, t: nat)
    requires Proper(es + b, agent) && forall e :: e in b ==> e.timestamp == t
    requires SameStreams(again, b, agent)
    ensures Ledger(es + b + again, agent) == Ledger(es + b, agent) <==> forall e :: e in b ==> e.rate > 0
  {
    hide Ledger, Stream;
    forall e ensures e in again <==> e in b {
      StreamMembers(again, agent, e);
      StreamMembers(b, agent, e);
    }
    if e :| e in b && e.rate <= 0 {
      LedgerWeight(es + b, again, agent);
    } else {
      PositiveBlockIsIdempotent(es, b, again, agent, t);
    }
  }
}
