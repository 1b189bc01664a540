/** The Constant Flow Agreement as the store's environment: live flows, the operations on them,
    and the FlowUpdated event each successful operation emits. */
module Agreement {
  import opened Vocabulary
  import opened FlowRecords

  datatype Key = Key(token: Address, sender: Address, receiver: Address)
  datatype Live = Live(since: nat, rate: int)
  type Agreed = map<Key, Live>

  datatype Op =
    | Create(key: Key, rate: int, userData: Option<string>, now: nat)
    | Update(key: Key, rate: int, userData: Option<string>, now: nat)
    | Delete(key: Key, userData: Option<string>, now: nat)

  predicate Allowed(m: Agreed, op: Op) {
    && op.key.sender != op.key.receiver
    && (op.Create? <==> op.key !in m)
    && (!op.Delete? ==> op.rate > 0)
  }

  function After(m: Agreed, op: Op): Agreed
    requires Allowed(m, op)
  {
    if op.Delete? then m - {op.key} else m[op.key := Live(op.now, op.rate)]
  }

  /** What one live flow adds to an account's net rate in a token. */
  function SignedRate(k: Key, v: Live, token: Address, who: Address): int {
    if k.token != token then 0
    else (if k.receiver == who then v.rate else 0) - (if k.sender == who then v.rate else 0)
  }

  ghost function Signed(token: Address, who: Address): (Key, Live) -> int {
    (k: Key, v: Live) => SignedRate(k, v, token, who)
  }

  /** The net rate of an account in a token: all it receives less all it sends. */
  ghost function NetRate(m: Agreed, token: Address, who: Address): int {
    MapSum(m, Signed(token, who))
  }

  ghost function Received(token: Address, who: Address): (Key, Live) -> int {
    (k: Key, v: Live) => if k.token == token && k.receiver == who then v.rate else 0
  }

  ghost function Sent(token: Address, who: Address): (Key, Live) -> int {
    (k: Key, v: Live) => if k.token == token && k.sender == who then v.rate else 0
  }

  /** The sum of the rates of the live flows in a token that an account receives. */
  ghost function ReceivedRate(m: Agreed, token: Address, who: Address): int {
    MapSum(m, Received(token, who))
  }

  /** The sum of the rates of the live flows in a token that an account sends. */
  ghost function SentRate(m: Agreed, token: Address, who: Address): int {
    MapSum(m, Sent(token, who))
  }

  /** The event of a successful operation; its totals are the two parties' new net rates. */
  ghost function Event(m: Agreed, op: Op): FlowUpdated
    requires Allowed(m, op)
  {
    var m', k := After(m, op), op.key;
    FlowUpdated(
      k.token, k.sender, k.receiver, if op.Delete? then 0 else op.rate,
      Text(NetRate(m', k.token, k.sender)), NetRate(m', k.token, k.receiver),
      op.userData, op.now)
  }

  /** The live flows after a run; an operation that is not allowed reverts. */
  function Outcome(m: Agreed, ops: seq<Op>): Agreed {
    if ops == [] then m
    else
      var before := Outcome(m, ops[..|ops| - 1]);
      var op := ops[|ops| - 1];
      if Allowed(before, op) then After(before, op) else before
  }

  /** The events of a run that reach the agent's subscriptions, in chain order. */
  ghost function Emitted(m: Agreed, ops: seq<Op>, agent: Address): seq<FlowUpdated> {
    if ops == [] then []
    else
      var before, op := Outcome(m, ops[..|ops| - 1]), ops[|ops| - 1];
      var es := Emitted(m, ops[..|ops| - 1], agent);
      if Allowed(before, op) && Touches(Event(before, op), agent) then es + [Event(before, op)] else es
  }

  predicate Involves(k: Key, agent: Address) {
    agent == k.sender || agent == k.receiver
  }

  ghost predicate AgentIsNew(m: Agreed, agent: Address) {
    forall k :: k in m ==> !Involves(k, agent)
  }

  /** An operation moves any sum over the live flows by the change of the one flow it is about. */
  lemma {:induction false} MapSumAfter(m: Agreed, op: Op, g: (Key, Live) -> int)
    requires Allowed(m, op)
    ensures var k := op.key;
            MapSum(After(m, op), g) ==
            MapSum(m, g) - (if k in m then g(k, m[k]) else 0) + (if op.Delete? then 0 else g(k, Live(op.now, op.rate)))
  {
    var k := op.key;
    if k in m {
      MapSumRemove(m, k, g);
    } else {
      assert m - {k} == m;
    }
    if !op.Delete? {
      MapSumPut(m, k, Live(op.now, op.rate), g);
    }
  }

  /** An operation moves an account's net rate by the change of the one flow it is about. */
  lemma {:induction false} NetRateAfter(m: Agreed, op: Op, token: Address, who: Address)
    requires Allowed(m, op)
    ensures var k := op.key;
            NetRate(After(m, op), token, who) ==
            NetRate(m, token, who)
            - (if k in m then SignedRate(k, m[k], token, who) else 0)
            + (if op.Delete? then 0 else SignedRate(k, Live(op.now, op.rate), token, who))
  {
    MapSumAfter(m, op, Signed(token, who));
  }
}
