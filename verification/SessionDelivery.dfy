/** What sessions deliver: each block range is a merge of the subscriptions, in any order. Over one
    session and over many, the delivered events keep the streams of the chain. */
module SessionDelivery {
  import opened Vocabulary
  import opened FlowRecords
  import opened Agreement
  import opened Store
  import opened Mirror
  import opened StoreRuns
  import opened StoreTheorems
  import opened BlockRanges

  type Log = seq<LogEntry<FlowUpdated>>

  /** What a part of the log says, without the blocks. */
  function Whats(log: Log): (es: seq<FlowUpdated>)
    ensures |es| == |log|
    ensures forall i :: 0 <= i < |log| ==> es[i] == log[i].what
  {
    seq(|log|, i requires 0 <= i < |log| => log[i].what)
  }

  /** d delivers a part of the agent's log with its two flow subscriptions merged in some order. */
  ghost predicate Merges(d: seq<FlowUpdated>, part: Log, agent: Address) {
    SameStreams(d, Whats(part), agent)
  }

  /** Merging range by range is a merge of the whole. */
  lemma {:induction false} MergesConcat(
    d: seq<FlowUpdated>, part: Log, d': seq<FlowUpdated>, part': Log, agent: Address)
    requires Merges(d, part, agent) && Merges(d', part', agent)
    ensures Merges(d + d', part + part', agent)
  {
    hide Stream;
    assert Whats(part + part') == Whats(part) + Whats(part');
    forall dir ensures Stream(d + d', agent, dir) == Stream(Whats(part + part'), agent, dir) {
      StreamConcat(d, d', agent, dir);
      StreamConcat(Whats(part), Whats(part'), agent, dir);
    }
  }

  /** What is delivered up to a session's cached bound, then its other two ranges. */
  lemma {:induction false} RestOfSession(
    log: Log, lo: int, cachedBlock: Option<nat>, currentBlock: nat, initialBlock: nat,
    head: seq<FlowUpdated>, past: seq<FlowUpdated>, live: seq<FlowUpdated>, agent: Address)
    requires BlockOrdered(log) && initialBlock <= currentBlock - 2
    requires var p := PlanSession(cachedBlock, currentBlock, initialBlock);
             && lo <= p.cachedTo + 1
             && Merges(head, Between(log, lo, p.cachedTo), agent)
             && Merges(past, Between(log, p.pastFrom, p.pastTo), agent)
             && Merges(live, Since(log, p.liveFrom), agent)
    ensures Merges(head + past + live, Since(log, lo), agent)
  {
    hide Merges;
    var p := PlanSession(cachedBlock, currentBlock, initialBlock);
    SplitRange(log, lo, p.cachedTo, p.pastTo);
    SplitTail(log, lo, p.pastTo);
    MergesConcat(head, Between(log, lo, p.cachedTo), past, Between(log, p.pastFrom, p.pastTo), agent);
    MergesConcat(head + past, Between(log, lo, p.pastTo), live, Since(log, p.liveFrom), agent);
  }

  /** However each of a session's three ranges is merged, the session delivers a merge of the log from
      the resume point on: the same receiver stream and the same sender stream. */
  lemma {:induction false} SessionKeepsStreams(
    log: Log, cachedBlock: Option<nat>, currentBlock: nat, initialBlock: nat,
    cached: seq<FlowUpdated>, past: seq<FlowUpdated>, live: seq<FlowUpdated>, agent: Address)
    requires BlockOrdered(log) && initialBlock <= currentBlock - 2
    requires var p := PlanSession(cachedBlock, currentBlock, initialBlock);
             && Merges(cached, Between(log, p.cachedFrom, p.cachedTo), agent)
             && Merges(past, Between(log, p.pastFrom, p.pastTo), agent)
             && Merges(live, Since(log, p.liveFrom), agent)
    ensures var p := PlanSession(cachedBlock, currentBlock, initialBlock);
            SameStreams(cached + past + live, Whats(Since(log, p.cachedFrom)), agent)
  {
    var p := PlanSession(cachedBlock, currentBlock, initialBlock);
    RestOfSession(log, p.cachedFrom, cachedBlock, currentBlock, initialBlock, cached, past, live, agent);
  }

  // ---------------------------------------------------------------- the resume point

  /** The plan that a start of the script subscribes with. */
  function PlanOfStart(cached: Option<State>, start: StartAnswers): Option<Plan> {
    var initialBlock :- StartBlock(cached, start);
    var currentBlock :- start.currentBlock;
    Some(PlanSession(if cached.Some? then cached.value.cachedBlockNumber else None, currentBlock, initialBlock))
  }

  /** A first start reads the chain from the agent's initialisation block on. A restart after any run reads
      it from the block after the last sync bound on, as far as that is old enough, or again from the
      initial block if there was no bound; nothing from its resume point on is left out. */
  lemma {:induction false} StartReadsOn(s: State, d: seq<StoreEvent>, start: StartAnswers)
    requires Run(s, d).Some? && s.cachedBlockNumber.None? && s.initialBlock != 0
    requires start.currentBlock.Some? && start.initializationBlock.Some?
    requires s.initialBlock <= start.currentBlock.value
    ensures PlanOfStart(None, start).value.cachedFrom == start.initializationBlock.value
    ensures var p, bound := PlanOfStart(Some(Run(s, d).value), start).value, LastSync(d);
            && p.cachedFrom ==
               (if bound.Some? && bound.value != 0 then Min(bound.value + 1, p.cachedTo) else s.initialBlock)
            && forall b :: p.cachedFrom <= b ==> InCached(p, b) || InPast(p, b) || InLive(p, b)
  {
    RunResumePoint(s, d);
    RangesCoverAndSeparate(Run(s, d).value.cachedBlockNumber, start.currentBlock.value, s.initialBlock);
  }

  // ---------------------------------------------------------------- many sessions

  /** All parts, one after the other. */
  function Concat(parts: seq<seq<FlowUpdated>>): seq<FlowUpdated> {
    if parts == [] then [] else Concat(parts[..|parts| - 1]) + parts[|parts| - 1]
  }

  /** Session by session, a merge of that session's cached range. */
  ghost predicate CachesMerge(caches: seq<seq<FlowUpdated>>, log: Log, plans: seq<Plan>, agent: Address) {
    && |caches| == |plans|
    && forall k :: 0 <= k < |plans| ==> Merges(caches[k], Between(log, plans[k].cachedFrom, plans[k].cachedTo), agent)
  }

  lemma {:induction false} ChainedInit(plans: seq<Plan>, initialBlock: nat)
    requires Chained(plans, initialBlock) && BoundsGrow(plans) && |plans| > 1
    ensures Chained(plans[..|plans| - 1], initialBlock) && BoundsGrow(plans[..|plans| - 1])
    ensures plans[|plans| - 1].cachedFrom == plans[|plans| - 2].cachedTo + 1
    ensures initialBlock <= plans[|plans| - 2].cachedTo <= plans[|plans| - 1].cachedTo
  {
    var n := |plans|;
    assert Follows(plans[n - 2], plans[n - 1], initialBlock);
    assert plans[n - 2].cachedTo < plans[n - 1].cachedTo;
  }

  lemma {:induction false} CachesKeepStreams(
    caches: seq<seq<FlowUpdated>>, log: Log, plans: seq<Plan>, initialBlock: nat, agent: Address)
    requires BlockOrdered(log) && Chained(plans, initialBlock) && BoundsGrow(plans) && plans != []
    requires CachesMerge(caches, log, plans, agent)
    ensures Merges(Concat(caches), Between(log, initialBlock, plans[|plans| - 1].cachedTo), agent)
  {
    hide Merges, Between, Chained, BoundsGrow;
    var n := |plans|;
    if n == 1 {
      assert caches[..0] == [] && [] + caches[0] == caches[0];
      assert plans[0].cachedFrom == initialBlock by {
        FirstPlan(plans, initialBlock);
      }
    } else {
      ChainedInit(plans, initialBlock);
      CachesKeepStreams(caches[..n - 1], log, plans[..n - 1], initialBlock, agent);
      var p, q := plans[n - 2], plans[n - 1];
      SplitRange(log, initialBlock, p.cachedTo, q.cachedTo);
      MergesConcat(
        Concat(caches[..n - 1]), Between(log, initialBlock, p.cachedTo),
        caches[n - 1], Between(log, q.cachedFrom, q.cachedTo), agent);
    }
  }

  lemma {:induction false} FirstPlan(plans: seq<Plan>, initialBlock: nat)
    requires Chained(plans, initialBlock) && plans != []
    ensures plans[0].cachedFrom == initialBlock
  {
  }

  lemma {:induction false} SinceStart(log: Log, initialBlock: nat)
    requires forall i :: 0 <= i < |log| ==> initialBlock <= log[i].block
    ensures Since(log, initialBlock) == log
  {
    if log != [] {
      SinceStart(log[1..], initialBlock);
    }
  }

  /** The sessions at the given current blocks, with growing bounds, delivered this: a merge of each
      session's cached range, and of the last session's other two ranges. */
  ghost predicate DeliveredBy(
    currents: seq<nat>, initialBlock: nat, log: Log, agent: Address,
    caches: seq<seq<FlowUpdated>>, past: seq<FlowUpdated>, live: seq<FlowUpdated>)
  {
    var plans := Sessions(currents, initialBlock);
    && currents != [] && initialBlock + 2 <= currents[|currents| - 1]
    && BoundsGrow(plans) && CachesMerge(caches, log, plans, agent)
    && Merges(past, Between(log, plans[|plans| - 1].pastFrom, plans[|plans| - 1].pastTo), agent)
    && Merges(live, Since(log, plans[|plans| - 1].liveFrom), agent)
  }

  /** The log of the agent's flow events: in block order, none before the initial block. */
  ghost predicate IsLog(log: Log, initialBlock: nat) {
    BlockOrdered(log) && forall i :: 0 <= i < |log| ==> initialBlock <= log[i].block
  }

  /** Over any number of sessions with growing bounds, each resuming where the cached range of the one
      before ended, the cached deliveries of all sessions and the last session's other two ranges are
      together a merge of the whole log: nothing is lost, repeated, or reordered within a stream. */
  lemma {:induction false} SessionsKeepStreams(
    log: Log, currents: seq<nat>, initialBlock: nat, caches: seq<seq<FlowUpdated>>,
    past: seq<FlowUpdated>, live: seq<FlowUpdated>, agent: Address)
    requires IsLog(log, initialBlock) && DeliveredBy(currents, initialBlock, log, agent, caches, past, live)
    ensures SameStreams(Concat(caches) + past + live, Whats(log), agent)
  {
    hide Merges, BoundsGrow, CachesMerge, Chained;
    var plans, n := Sessions(currents, initialBlock), |currents|;
    SessionsAreChained(currents, initialBlock);
    CachesKeepStreams(caches, log, plans, initialBlock, agent);
    var resume := Resume(Sessions(currents[..n - 1], initialBlock));
    assert plans[n - 1] == PlanSession(resume, currents[n - 1], initialBlock);
    RestOfSession(log, initialBlock, resume, currents[n - 1], initialBlock, Concat(caches), past, live, agent);
    SinceStart(log, initialBlock);
    MergesIsSameStreams(Concat(caches) + past + live, log, agent);
  }

  lemma {:induction false} MergesIsSameStreams(d: seq<FlowUpdated>, log: Log, agent: Address)
    requires Merges(d, log, agent)
    ensures SameStreams(d, Whats(log), agent)
  {
  }

  /** The block ranges supply the premise of the merge-order theorem. After any number of sessions the open
      records mirror the agent's live flows and the derived rates are the agreement's; a stored net flow is
      right exactly when the other direction's rate has not changed since the last delivered event about
      the token. */
  lemma {:induction false} StoreAcrossSessions(
    m: Agreed, ops: seq<Op>, log: Log, currents: seq<nat>, initialBlock: nat, caches: seq<seq<FlowUpdated>>,
    past: seq<FlowUpdated>, live: seq<FlowUpdated>, s: State, d: seq<StoreEvent>, token: Address)
    requires Fresh(s) && AgentIsNew(m, s.agent) && Whats(log) == Emitted(m, ops, s.agent)
    requires Run(s, d).Some? && Run(s, d).value.superTokens.Some?
    requires AgentEvents(d, s.agent) == Concat(caches) + past + live
    requires IsLog(log, initialBlock) && DeliveredBy(currents, initialBlock, log, s.agent, caches, past, live)
    ensures var s' := Run(s, d).value;
            var rate := InflowRate(s'.flows, token) - OutflowRate(s'.flows, token);
            && Mirrors(Outcome(m, ops), s'.flows, s.agent)
            && rate == NetRate(Outcome(m, ops), token, s.agent)
            && (NetFlowOf(s'.superTokens.value, token) == rate <==>
                OtherRateKept(AgentEvents(d, s.agent), Whats(log), s.agent, token))
  {
    hide DeliveredBy, OtherRateKept, Mirrors;
    SessionsKeepStreams(log, currents, initialBlock, caches, past, live, s.agent);
    MergeOrderMatters(m, ops, s, d, token);
  }
}
