/** The block ranges a session subscribes to: cached past, non-cached past, live. */
module BlockRanges {
  import opened Vocabulary

  const REORG_SAFETY_BLOCK_AGE: int := 100

  /** Inclusive bounds; the live range has no upper bound. */
  datatype Plan = Plan(cachedFrom: int, cachedTo: int, pastFrom: int, pastTo: int, liveFrom: int)

  function Max(a: int, b: int): int {
    if a >= b then a else b
  }

  function Min(a: int, b: int): int {
    if a <= b then a else b
  }

  /** An absent or zero cached block number is falsy: the session then starts at the initial block. */
  function PlanSession(cachedBlock: Option<nat>, currentBlock: nat, initialBlock: nat): Plan {
    var cachedTo := Max(currentBlock - REORG_SAFETY_BLOCK_AGE, initialBlock);
    var cachedFrom :=
      if cachedBlock.Some? && cachedBlock.value != 0 then Min(cachedBlock.value + 1, cachedTo) else initialBlock;
    var pastTo := currentBlock - 1;
    Plan(cachedFrom, cachedTo, Min(cachedTo + 1, pastTo), pastTo, currentBlock)
  }

  predicate InCached(p: Plan, b: int) {
    p.cachedFrom <= b <= p.cachedTo
  }

  predicate InPast(p: Plan, b: int) {
    p.pastFrom <= b <= p.pastTo
  }

  predicate InLive(p: Plan, b: int) {
    p.liveFrom <= b
  }

  ghost predicate PairwiseDisjoint(p: Plan) {
    forall b ::
      && !(InCached(p, b) && InPast(p, b))
      && !(InCached(p, b) && InLive(p, b))
      && !(InPast(p, b) && InLive(p, b))
  }

  /** The three ranges leave no gap from the resume point on, and never overlap exactly when the
      initial block is at least two blocks old. */
  lemma {:induction false} RangesCoverAndSeparate(cachedBlock: Option<nat>, currentBlock: nat, initialBlock: nat)
    requires initialBlock <= currentBlock
    ensures var p := PlanSession(cachedBlock, currentBlock, initialBlock);
            && p.cachedFrom <= p.cachedTo
            && (forall b :: p.cachedFrom <= b ==> InCached(p, b) || InPast(p, b) || InLive(p, b))
            && (PairwiseDisjoint(p) <==> initialBlock <= currentBlock - 2)
  {
    var p := PlanSession(cachedBlock, currentBlock, initialBlock);
    if initialBlock == currentBlock - 1 {
      assert InCached(p, initialBlock) && InPast(p, initialBlock);
    } else if initialBlock == currentBlock {
      assert InCached(p, initialBlock) && InLive(p, initialBlock);
    }
  }

  /** What a session caches is old enough that no reorganisation reverts it: at least 100 blocks, except for
      the initial block itself and what comes before it; and all that is old enough is cached. */
  lemma {:induction false} CachedIsSettled(cachedBlock: Option<nat>, currentBlock: nat, initialBlock: nat)
    requires initialBlock <= currentBlock
    ensures var p := PlanSession(cachedBlock, currentBlock, initialBlock);
            && (forall b :: InCached(p, b) ==> b <= currentBlock - 100 || b <= initialBlock)
            && (forall b :: p.cachedFrom <= b <= currentBlock - 100 ==> InCached(p, b))
            && p.liveFrom == currentBlock && p.pastTo == currentBlock - 1
  {
  }

  // ---------------------------------------------------------------- delivery of one subscription's log

  /** A log entry: its block and what happened. */
  datatype LogEntry<T> = LogEntry(block: int, what: T)

  ghost predicate BlockOrdered<T>(log: seq<LogEntry<T>>) {
    forall i, j :: 0 <= i < j < |log| ==> log[i].block <= log[j].block
  }

  /** The entries of the log whose block lies in [lo, hi]. */
  function Between<T>(log: seq<LogEntry<T>>, lo: int, hi: int): seq<LogEntry<T>> {
    if log == [] then []
    else (if lo <= log[0].block <= hi then [log[0]] else []) + Between(log[1..], lo, hi)
  }

  /** The entries of the log at block lo or later. */
  function Since<T>(log: seq<LogEntry<T>>, lo: int): seq<LogEntry<T>> {
    if log == [] then []
    else (if lo <= log[0].block then [log[0]] else []) + Since(log[1..], lo)
  }

  /** What a session delivers of one subscription's log: the three ranges, one after the other. */
  function Delivered<T>(log: seq<LogEntry<T>>, p: Plan): seq<LogEntry<T>> {
    Between(log, p.cachedFrom, p.cachedTo) + Between(log, p.pastFrom, p.pastTo) + Since(log, p.liveFrom)
  }

  lemma {:induction false} SplitRange<T>(log: seq<LogEntry<T>>, lo: int, mid: int, hi: int)
    requires BlockOrdered(log) && lo <= mid + 1 && mid <= hi
    ensures Between(log, lo, mid) + Between(log, mid + 1, hi) == Between(log, lo, hi)
  {
    if log != [] {
      SplitRange(log[1..], lo, mid, hi);
      if log[0].block > mid {
        NothingBelow(log, lo, mid);
      }
    }
  }

  lemma {:induction false} SplitTail<T>(log: seq<LogEntry<T>>, lo: int, mid: int)
    requires BlockOrdered(log) && lo <= mid + 1
    ensures Between(log, lo, mid) + Since(log, mid + 1) == Since(log, lo)
  {
    if log != [] {
      SplitTail(log[1..], lo, mid);
      if log[0].block > mid {
        NothingBelow(log, lo, mid);
      }
    }
  }

  lemma {:induction false} NothingBelow<T>(log: seq<LogEntry<T>>, lo: int, hi: int)
    requires BlockOrdered(log) && (log != [] ==> hi < log[0].block)
    ensures Between(log, lo, hi) == []
  {
    if log != [] {
      NothingBelow(log[1..], lo, hi);
    }
  }

  /** With disjoint ranges a session delivers each entry of one subscription's log from the resume point
      on exactly once and in chain order. Within a range the subscriptions are merged in any order. */
  lemma {:induction false} SubscriptionDeliversOnceInOrder<T>(
    log: seq<LogEntry<T>>, cachedBlock: Option<nat>, currentBlock: nat, initialBlock: nat)
    requires BlockOrdered(log) && initialBlock <= currentBlock - 2
    ensures var p := PlanSession(cachedBlock, currentBlock, initialBlock);
            Delivered(log, p) == Since(log, p.cachedFrom)
  {
    var p := PlanSession(cachedBlock, currentBlock, initialBlock);
    SplitRange(log, p.cachedFrom, p.cachedTo, p.pastTo);
    SplitTail(log, p.cachedFrom, p.pastTo);
  }

  // ---------------------------------------------------------------- sessions

  /** The plans of successive sessions, each resuming from the cached bound of the one before. */
  function Sessions(currents: seq<nat>, initialBlock: nat): (plans: seq<Plan>)
    ensures |plans| == |currents|
  {
    if currents == [] then []
    else
      var before := Sessions(currents[..|currents| - 1], initialBlock);
      before + [PlanSession(Resume(before), currents[|currents| - 1], initialBlock)]
  }

  function Resume(plans: seq<Plan>): Option<nat> {
    if plans == [] || plans[|plans| - 1].cachedTo < 0 then None else Some(plans[|plans| - 1].cachedTo)
  }

  /** Every session but the last leaves a larger bound behind than the one before, and none leaves 0. */
  ghost predicate BoundsGrow(plans: seq<Plan>) {
    && (forall i :: 0 < i < |plans| ==> plans[i - 1].cachedTo < plans[i].cachedTo)
    && (forall i :: 0 <= i < |plans| - 1 ==> plans[i].cachedTo != 0)
  }

  /** Block b is in the cached range of one of the first count sessions. */
  ghost predicate CachedBy(plans: seq<Plan>, b: int, count: nat) {
    exists i :: 0 <= i < count <= |plans| && InCached(plans[i], b)
  }

  /** The cached ranges together are the chain from the initial block to the last bound. */
  ghost predicate Covers(plans: seq<Plan>, initialBlock: nat) {
    forall b :: CachedBy(plans, b, |plans|) <==>
                plans != [] && initialBlock <= b <= plans[|plans| - 1].cachedTo
  }

  ghost predicate CachedOnce(plans: seq<Plan>) {
    forall b, i, j :: 0 <= i < j < |plans| ==> !(InCached(plans[i], b) && InCached(plans[j], b))
  }

  /** How a session's cached range starts after another's; a bound of 0 is falsy and starts over. */
  predicate Follows(p: Plan, q: Plan, initialBlock: nat) {
    q.cachedFrom == if p.cachedTo == 0 then initialBlock else Min(p.cachedTo + 1, q.cachedTo)
  }

  ghost predicate Chained(plans: seq<Plan>, initialBlock: nat) {
    && (plans != [] ==> plans[0].cachedFrom == initialBlock)
    && (forall i :: 0 <= i < |plans| ==> initialBlock <= plans[i].cachedTo && plans[i].cachedFrom <= plans[i].cachedTo)
    && (forall i :: 0 < i < |plans| ==> Follows(plans[i - 1], plans[i], initialBlock))
  }

  lemma {:induction false} SessionsAreChained(currents: seq<nat>, initialBlock: nat)
    ensures Chained(Sessions(currents, initialBlock), initialBlock)
  {
    if currents != [] {
      SessionsAreChained(currents[..|currents| - 1], initialBlock);
    }
  }

  lemma {:induction false} BoundsIncrease(plans: seq<Plan>, i: nat, j: nat)
    requires BoundsGrow(plans) && i <= j < |plans|
    ensures plans[i].cachedTo <= plans[j].cachedTo
    decreases j - i
  {
    if i < j {
      BoundsIncrease(plans, i, j - 1);
      assert plans[j - 1].cachedTo < plans[j].cachedTo;
    }
  }

  /** Every block from the initial one to a session's bound was cached by that session or earlier. */
  lemma {:induction false} CachedByThen(plans: seq<Plan>, b: int, last: nat, initialBlock: nat)
    requires Chained(plans, initialBlock) && last < |plans| && initialBlock <= b <= plans[last].cachedTo
    ensures CachedBy(plans, b, last + 1)
  {
    if plans[last].cachedFrom <= b {
      assert InCached(plans[last], b);
    } else {
      assert Follows(plans[last - 1], plans[last], initialBlock);
      CachedByThen(plans, b, last - 1, initialBlock);
    }
  }

  lemma {:induction false} GrowingBoundsTile(plans: seq<Plan>, initialBlock: nat)
    requires Chained(plans, initialBlock) && BoundsGrow(plans)
    ensures Covers(plans, initialBlock) && CachedOnce(plans)
  {
    forall b, i, j | 0 <= i < j < |plans| ensures !(InCached(plans[i], b) && InCached(plans[j], b)) {
      BoundsIncrease(plans, i, j - 1);
      assert Follows(plans[j - 1], plans[j], initialBlock) && plans[j - 1].cachedTo < plans[j].cachedTo;
    }
    forall b ensures CachedBy(plans, b, |plans|) <==>
                     plans != [] && initialBlock <= b <= plans[|plans| - 1].cachedTo {
      if CachedBy(plans, b, |plans|) {
        var i :| 0 <= i < |plans| && InCached(plans[i], b);
        BoundsIncrease(plans, i, |plans| - 1);
        assert i > 0 ==> Follows(plans[i - 1], plans[i], initialBlock);
      } else if plans != [] && initialBlock <= b <= plans[|plans| - 1].cachedTo {
        CachedByThen(plans, b, |plans| - 1, initialBlock);
      }
    }
  }

  /** Over any sequence of sessions whose cached bound is persisted as the next resume point, the
      cached ranges tile the chain from the initial block to the last bound, each block once, if and
      only if the bounds strictly grow and none that is resumed from is 0. */
  lemma {:induction false} SessionsTile(currents: seq<nat>, initialBlock: nat)
    ensures var plans := Sessions(currents, initialBlock);
            Covers(plans, initialBlock) && CachedOnce(plans) <==> BoundsGrow(plans)
  {
    var plans := Sessions(currents, initialBlock);
    SessionsAreChained(currents, initialBlock);
    if BoundsGrow(plans) {
      GrowingBoundsTile(plans, initialBlock);
    } else if i :| 0 < i < |plans| && plans[i].cachedTo <= plans[i - 1].cachedTo {
      assert InCached(plans[i], plans[i].cachedTo);
      CachedByThen(plans, plans[i].cachedTo, i - 1, initialBlock);
    } else {
      var i :| 0 <= i < |plans| - 1 && plans[i].cachedTo == 0;
      assert Follows(plans[i], plans[i + 1], initialBlock);
      assert initialBlock == 0 && plans[i + 1].cachedTo > 0;
      assert InCached(plans[i + 1], 0);
      CachedByThen(plans, 0, i, initialBlock);
    }
  }

  lemma {:induction false} SessionPlan(currents: seq<nat>, initialBlock: nat, i: nat)
    requires i < |currents|
    ensures var plans := Sessions(currents, initialBlock);
            plans[i] == PlanSession(Resume(plans[..i]), currents[i], initialBlock)
    decreases |currents|
  {
    var init := currents[..|currents| - 1];
    if i < |init| {
      SessionPlan(init, initialBlock, i);
      assert Sessions(currents, initialBlock)[..i] == Sessions(init, initialBlock)[..i];
    } else {
      assert Sessions(currents, initialBlock)[..i] == Sessions(init, initialBlock);
    }
  }

  /** Whatever was younger than 100 blocks in one session, and so may have been reverted since, is delivered
      again by the next. */
  lemma {:induction false} YoungBlocksAreReadAgain(currents: seq<nat>, initialBlock: nat, i: nat, b: int)
    requires i + 1 < |currents| && initialBlock <= currents[i] && initialBlock <= currents[i + 1]
    requires initialBlock < b && currents[i] - 100 < b
    ensures var q := Sessions(currents, initialBlock)[i + 1];
            InCached(q, b) || InPast(q, b) || InLive(q, b)
  {
    var plans := Sessions(currents, initialBlock);
    SessionPlan(currents, initialBlock, i);
    SessionPlan(currents, initialBlock, i + 1);
    CachedIsSettled(Resume(plans[..i]), currents[i], initialBlock);
    RangesCoverAndSeparate(Resume(plans[..i]), currents[i], initialBlock);
    assert InCached(plans[i], plans[i].cachedTo);
    assert plans[..i + 1][i] == plans[i];
    RangesCoverAndSeparate(Resume(plans[..i + 1]), currents[i + 1], initialBlock);
  }
}
