/** The application reducer's derivation of what is shown per token. */
module Reducer {
  import opened Vocabulary
  import opened FlowRecords
  import opened Store
  import opened Mirror
  import opened Streaming

  /** Dates are in milliseconds. */
  datatype FormattedToken = FormattedToken(
    address: Address, balance: int, lastUpdateDate: int, netFlow: int, inflowRate: int, outflowRate: int,
    depletion: Depletion)

  /** The pair of running totals of a token, updated in place if the dictionary already has it. */
  method CalculateInOutRate(inOutRates: map<Address, array<int>>, token: Address, rate: int, incoming: bool)
    returns (inOutRate: array<int>)
    requires token in inOutRates ==> inOutRates[token].Length == 2
    modifies if token in inOutRates then {inOutRates[token]} else {}
    ensures if token in inOutRates then inOutRate == inOutRates[token] else fresh(inOutRate)
    ensures inOutRate.Length == 2
    ensures inOutRate[0] ==
            (if token in inOutRates then old(inOutRates[token][0]) else 0) + if incoming then rate else 0
    ensures inOutRate[1] ==
            (if token in inOutRates then old(inOutRates[token][1]) else 0) + if incoming then 0 else rate
  {
    if token in inOutRates {
      inOutRate := inOutRates[token];
    } else {
      inOutRate := new int[2](_ => 0);
    }
    var index := if incoming then 0 else 1;
    inOutRate[index] := inOutRate[index] + rate;
  }

  /** The dictionary holds, for the tokens it has, exactly the rates of the open records. */
  ghost predicate Tallies(inOutRates: map<Address, array<int>>, flows: seq<Flow>)
    reads inOutRates.Values
  {
    && (forall a :: a in inOutRates ==>
          && inOutRates[a].Length == 2
          && inOutRates[a][0] == InflowRate(flows, a)
          && inOutRates[a][1] == OutflowRate(flows, a))
    && (forall a :: a !in inOutRates ==> InflowRate(flows, a) == 0 && OutflowRate(flows, a) == 0)
  }

  lemma {:induction false} TallySnoc(flows: seq<Flow>, f: Flow, a: Address)
    ensures InflowRate(flows + [f], a) == InflowRate(flows, a) + RateIn(f, a)
    ensures OutflowRate(flows + [f], a) == OutflowRate(flows, a) + RateOut(f, a)
  {
    SumSnoc(flows, f, InOf(a));
    SumSnoc(flows, f, OutOf(a));
  }

  lemma {:induction false} NothingTallied()
    ensures forall a :: InflowRate([], a) == 0 && OutflowRate([], a) == 0
  {
  }

  method InOutRates(flows: seq<Flow>) returns (inOutRates: map<Address, array<int>>)
    ensures Tallies(inOutRates, flows)
    ensures fresh(inOutRates.Values)
  {
    hide InflowRate, OutflowRate;
    inOutRates := map[];
    assert Tallies(inOutRates, []) by {
      NothingTallied();
    }
    for i := 0 to |flows|
      invariant forall a :: a in inOutRates ==> fresh(inOutRates[a])
      invariant forall a, b :: a in inOutRates && b in inOutRates && a != b ==> inOutRates[a] != inOutRates[b]
      invariant Tallies(inOutRates, flows[..i])
    {
      var f := flows[i];
      assert flows[..i + 1] == flows[..i] + [f];
      forall a {
        TallySnoc(flows[..i], f, a);
      }
      if !f.isCancelled {
        var updated := CalculateInOutRate(inOutRates, f.token, f.rate, f.isIncoming);
        inOutRates := inOutRates[f.token := updated];
      }
    }
    assert flows[..|flows|] == flows;
  }

  function DepletionOf(x: SuperToken, now: int): Depletion {
    DepletionDate(x.balance, x.netFlow, now, 1000 * x.lastUpdate)
  }

  /** What the interface gets for a stored token at a clock reading. */
  ghost function Formatted(x: SuperToken, flows: seq<Flow>, now: int): FormattedToken {
    FormattedToken(
      x.address, x.balance, 1000 * x.lastUpdate, x.netFlow, InflowRate(flows, x.address), OutflowRate(flows, x.address),
      DepletionOf(x, now))
  }

  /** The reducer maps over the token list without looking whether it is there, and computes every
      depletion date outside any catch clause. */
  ghost predicate FormatThrows(tokens: Option<seq<SuperToken>>, now: int) {
    tokens.None? || exists i :: 0 <= i < |tokens.value| && DepletionOf(tokens.value[i], now).Throws?
  }

  /** Each formatted token shows its stored balance, date and net flow, the inflow and outflow of the
      open records in it, and the depletion date. A lost token list, or one token whose depletion is too
      far off to be a number, makes the whole reducer throw. */
  method FormatSuperTokens(tokens: Option<seq<SuperToken>>, flows: seq<Flow>, now: int)
    returns (r: Option<seq<FormattedToken>>)
    ensures r.None? <==> FormatThrows(tokens, now)
    ensures r.Some? ==>
              && |r.value| == |tokens.value|
              && forall i :: 0 <= i < |r.value| ==> r.value[i] == Formatted(tokens.value[i], flows, now)
  {
    var inOutRates := InOutRates(flows);
    if tokens.None? {
      return None;
    }
    var superTokens := tokens.value;
    var formatted: seq<FormattedToken> := [];
    for i := 0 to |superTokens|
      invariant |formatted| == i
      invariant Tallies(inOutRates, flows)
      invariant forall j :: 0 <= j < i ==> !DepletionOf(superTokens[j], now).Throws?
      invariant forall j :: 0 <= j < i ==> formatted[j] == Formatted(superTokens[j], flows, now)
    {
      var x := superTokens[i];
      var lastUpdateDate := 1000 * x.lastUpdate;
      var inflowRate, outflowRate := 0, 0;
      if x.address in inOutRates {
        inflowRate, outflowRate := inOutRates[x.address][0], inOutRates[x.address][1];
      }
      var depletion := DepletionDate(x.balance, x.netFlow, now, lastUpdateDate);
      if depletion.Throws? {
        assert DepletionOf(superTokens[i], now).Throws?;
        return None;
      }
      formatted := formatted +
        [FormattedToken(x.address, x.balance, lastUpdateDate, x.netFlow, inflowRate, outflowRate, depletion)];
    }
    return Some(formatted);
  }
}
