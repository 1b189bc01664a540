/** What every run of the store keeps, over any number of sessions: when it succeeds, what it lists,
    and which events its entries come from. */
module StoreRuns {
  import opened Vocabulary
  import opened FlowRecords
  import opened Store
  import opened Mirror

  /** The agent's flow events among those delivered, in delivery order. */
  function AgentEvents(d: seq<StoreEvent>, agent: Address): seq<FlowUpdated> {
    if d == [] then []
    else
      var es, x := AgentEvents(d[..|d| - 1], agent), d[|d| - 1];
      if x.FlowEvent? && Touches(x.flow, agent) then es + [x.flow] else es
  }

  ghost predicate IsAgentEvent(x: StoreEvent, agent: Address) {
    x.FlowEvent? && Touches(x.flow, agent)
  }

  lemma {:induction false} AgentEventsSnoc(d: seq<StoreEvent>, x: StoreEvent, agent: Address)
    ensures AgentEvents(d + [x], agent) == AgentEvents(d, agent) + if IsAgentEvent(x, agent) then [x.flow] else []
  {
    assert (d + [x])[..|d|] == d;
  }

  lemma {:induction false} RunInit(s: State, d: seq<StoreEvent>, x: StoreEvent)
    ensures Run(s, d + [x]) == if Run(s, d).Some? then Reduced(Run(s, d).value, x) else None
  {
    assert (d + [x])[..|d|] == d;
  }

  // ---------------------------------------------------------------- token entries

  /** The lookup by address that the interface makes finds an entry. */
  predicate Listed(tokens: seq<SuperToken>, a: Address) {
    FindToken(tokens, a) < |tokens|
  }

  /** The entry that a lookup by address finds. */
  function Entry(tokens: seq<SuperToken>, a: Address): Option<SuperToken> {
    if Listed(tokens, a) then Some(tokens[FindToken(tokens, a)]) else None
  }

  /** The net flow the token list holds for a token; 0 for a token not listed. */
  function NetFlowOf(tokens: seq<SuperToken>, a: Address): int {
    if Listed(tokens, a) then tokens[FindToken(tokens, a)].netFlow else 0
  }

  /** A state before any event: no records, and every listed token at net flow 0. */
  ghost predicate Fresh(s: State) {
    && s.flows == []
    && s.senders == map[]
    && (s.superTokens.Some? ==> forall a :: NetFlowOf(s.superTokens.value, a) == 0)
  }

  lemma {:induction false} EntrySnoc(tokens: seq<SuperToken>, x: SuperToken, a: Address)
    ensures Entry(tokens + [x], a) ==
            if Listed(tokens, a) then Entry(tokens, a) else if x.address == a then Some(x) else None
  {
    var all := tokens + [x];
    var i, j := FindToken(tokens, a), FindToken(all, a);
    assert forall k :: 0 <= k < |tokens| ==> all[k] == tokens[k];
    assert all[|tokens|] == x;
  }

  lemma {:induction false} UpdatedTokensEntry(
    tokens: seq<SuperToken>, a: Address, t: nat, netFlow: Option<int>, balance: int, b: Address)
    ensures Entry(UpdatedTokens(Some(tokens), a, t, netFlow, Some(balance)).value, b) ==
            if b != a then Entry(tokens, b)
            else Some(SuperToken(a, balance, if netFlow.Some? then netFlow.value else NetFlowOf(tokens, a), t))
  {
    var tokens' := UpdatedTokens(Some(tokens), a, t, netFlow, Some(balance)).value;
    var i, j, j' := FindToken(tokens, a), FindToken(tokens, b), FindToken(tokens', b);
    assert forall k :: 0 <= k < |tokens| ==> tokens'[k].address == tokens[k].address;
    assert tokens'[i].address == a;
  }

  /** Loading succeeds exactly when every read does; it refreshes the given addresses, lists no others,
      and changes no net flow. */
  lemma {:induction false} LoadedFacts(
    tokens: seq<SuperToken>, addresses: seq<Address>, t: nat, balances: map<Address, int>, b: Address)
    ensures var r := Loaded(Some(tokens), addresses, t, balances);
            && (r.Some? <==> forall a :: a in addresses ==> a in balances)
            && (r.Some? ==>
                  Entry(r.value, b) ==
                  if b in addresses then Some(SuperToken(b, balances[b], NetFlowOf(tokens, b), t))
                  else Entry(tokens, b))
  {
    if addresses != [] {
      var init, a := addresses[..|addresses| - 1], addresses[|addresses| - 1];
      assert addresses == init + [a];
      LoadedFacts(tokens, init, t, balances, b);
      LoadedFacts(tokens, init, t, balances, a);
      var before := Loaded(Some(tokens), init, t, balances);
      if before.Some? && a in balances {
        UpdatedTokensEntry(before.value, a, t, None, balances[a], b);
      }
    }
  }

  // ---------------------------------------------------------------- what an event reads

  ghost predicate NeedsTokenRead(x: StoreEvent, agent: Address) {
    x.VaultTransfer? || x.VaultDeposit? || IsAgentEvent(x, agent)
  }

  predicate Timed(x: StoreEvent) {
    x.FlowEvent? || x.VaultTransfer? || x.VaultDeposit?
  }

  function TimeOf(x: StoreEvent): nat
    requires Timed(x)
  {
    if x.FlowEvent? then x.flow.timestamp else x.timestamp
  }

  function TokenOf(x: StoreEvent): Address
    requires Timed(x)
  {
    if x.FlowEvent? then x.flow.token else x.token
  }

  /** Handling x makes the script read the agent's balance of a, which is listed or not: an event about
      a does, and a restart does for every listed and every preset token. */
  ghost predicate Reads(x: StoreEvent, agent: Address, a: Address, listed: bool) {
    if x.Restarted? then listed || a in x.presets else NeedsTokenRead(x, agent) && TokenOf(x) == a
  }

  /** What that read answers. */
  ghost function Reading(x: StoreEvent, a: Address): Option<int> {
    if x.Restarted? then Read(x.start.balances, a) else if Timed(x) then x.answers.token else None
  }

  /** The time it is dated by. */
  ghost function ReadTime(x: StoreEvent): nat {
    if x.Restarted? then (if x.start.now.Some? then x.start.now.value else 0) else if Timed(x) then TimeOf(x) else 0
  }

  lemma {:induction false} ReducedFacts(s: State, x: StoreEvent)
    requires Reduced(s, x).Some?
    ensures var s' := Reduced(s, x).value;
            && s'.agent == s.agent && s'.initialBlock == s.initialBlock
            && s'.flows == (if IsAgentEvent(x, s.agent) then Updated(s.flows, x.flow, s.agent) else s.flows)
            && (s'.superTokens.Some? ==> s.superTokens.Some?)
            && s'.senders == if IsAgentEvent(x, s.agent)
                             then UpdatedSenders(s.senders, s.agent, x.flow, x.answers.sender).value else s.senders
  {
  }

  /** The entry that a token has after x has been handled, from the one it had. */
  ghost function EntryAfter(tokens: seq<SuperToken>, x: StoreEvent, agent: Address, a: Address): Option<SuperToken> {
    var balance := Reading(x, a);
    if !Reads(x, agent, a, Listed(tokens, a)) || balance.None? then Entry(tokens, a)
    else
      var netFlow := if x.FlowEvent? then AgentTotal(x.flow, agent) else NetFlowOf(tokens, a);
      Some(SuperToken(a, balance.value, netFlow, ReadTime(x)))
  }

  /** The addresses that a load goes through are the listed ones and the presets. */
  lemma {:induction false} LoadsListed(tokens: seq<SuperToken>, presets: seq<Address>, b: Address)
    ensures b in Distinct(Addresses(tokens) + presets) <==> Listed(tokens, b) || b in presets
  {
    var i := FindToken(tokens, b);
    assert i < |tokens| ==> Addresses(tokens)[i] == b;
  }

  lemma {:induction false} RestartedTokens(s: State, x: StoreEvent, a: Address)
    requires x.Restarted? && Reduced(s, x).Some?
    ensures s.superTokens.Some?
    ensures var s', tokens := Reduced(s, x).value, s.superTokens.value;
            && (s'.superTokens.Some? <==> forall b :: Reads(x, s.agent, b, Listed(tokens, b)) ==> Reading(x, b).Some?)
            && (s'.superTokens.Some? ==> Entry(s'.superTokens.value, a) == EntryAfter(tokens, x, s.agent, a))
  {
    hide Loaded, Distinct, Addresses, Listed, Entry, NetFlowOf;
    var tokens := s.superTokens.value;
    var addresses := Distinct(Addresses(tokens) + x.presets);
    forall b ensures b in addresses <==> Reads(x, s.agent, b, Listed(tokens, b)) {
      LoadsListed(tokens, x.presets, b);
    }
    LoadedFacts(tokens, addresses, x.start.now.value, x.start.balances, a);
    assert forall b :: Reading(x, b).Some? <==> b in x.start.balances;
  }

  /** After x the token list is there exactly when it was there before and every balance read that x
      needs is answered; and then every entry is as EntryAfter says. */
  lemma {:induction false} ReducedTokens(s: State, x: StoreEvent, a: Address)
    requires Reduced(s, x).Some? && s.superTokens.Some?
    ensures var s', tokens := Reduced(s, x).value, s.superTokens.value;
            && (s'.superTokens.Some? <==> forall b :: Reads(x, s.agent, b, Listed(tokens, b)) ==> Reading(x, b).Some?)
            && (s'.superTokens.Some? ==> Entry(s'.superTokens.value, a) == EntryAfter(tokens, x, s.agent, a))
  {
    if x.Restarted? {
      RestartedTokens(s, x, a);
    } else if NeedsTokenRead(x, s.agent) {
      assert Reads(x, s.agent, TokenOf(x), Listed(s.superTokens.value, TokenOf(x)));
      if x.answers.token.Some? {
        var netFlow := if x.FlowEvent? then Some(AgentTotal(x.flow, s.agent)) else None;
        UpdatedTokensEntry(s.superTokens.value, TokenOf(x), TimeOf(x), netFlow, x.answers.token.value, a);
      }
    }
  }

  // ---------------------------------------------------------------- records and net flows

  /** A run's records are those of the agent's events. */
  lemma {:induction false} RunFlows(s: State, d: seq<StoreEvent>)
    requires s.flows == [] && Run(s, d).Some?
    ensures Run(s, d).value.agent == s.agent
    ensures Run(s, d).value.flows == Ledger(AgentEvents(d, s.agent), s.agent)
  {
    if d != [] {
      var init, x := d[..|d| - 1], d[|d| - 1];
      RunFlows(s, init);
      ReducedFacts(Run(s, init).value, x);
      if IsAgentEvent(x, s.agent) {
        LedgerSnoc(AgentEvents(init, s.agent), x.flow, s.agent);
      }
    }
  }

  lemma {:induction false} LastTotalSnoc(es: seq<FlowUpdated>, e: FlowUpdated, agent: Address, a: Address)
    ensures LastTotal(es + [e], agent, a) == if e.token == a then AgentTotal(e, agent) else LastTotal(es, agent, a)
  {
    assert (es + [e])[..|es|] == es;
  }

  lemma {:induction false} ReducedNetFlow(s: State, x: StoreEvent, a: Address)
    requires Reduced(s, x).Some? && s.superTokens.Some? && Reduced(s, x).value.superTokens.Some?
    ensures NetFlowOf(Reduced(s, x).value.superTokens.value, a) ==
            if IsAgentEvent(x, s.agent) && x.flow.token == a then AgentTotal(x.flow, s.agent)
            else NetFlowOf(s.superTokens.value, a)
  {
    hide Reduced;
    ReducedTokens(s, x, a);
    assert Reads(x, s.agent, a, Listed(s.superTokens.value, a)) ==> Reading(x, a).Some?;
  }

  lemma {:induction false} NothingListed(s: State, a: Address)
    requires Fresh(s) && s.superTokens.Some?
    ensures NetFlowOf(s.superTokens.value, a) == 0
  {
  }

  /** A run's stored net flow of a token is the total that the last event about it reported. */
  lemma {:induction false} RunNetFlow(s: State, d: seq<StoreEvent>, a: Address)
    requires Fresh(s) && Run(s, d).Some? && Run(s, d).value.superTokens.Some?
    ensures NetFlowOf(Run(s, d).value.superTokens.value, a) == LastTotal(AgentEvents(d, s.agent), s.agent, a)
  {
    hide Reduced, NetFlowOf, Ledger, Updated;
    if d == [] {
      NothingListed(s, a);
    } else {
      var init, x := d[..|d| - 1], d[|d| - 1];
      var before := Run(s, init).value;
      RunFlows(s, init);
      ReducedFacts(before, x);
      RunNetFlow(s, init, a);
      ReducedNetFlow(before, x, a);
      if IsAgentEvent(x, s.agent) {
        LastTotalSnoc(AgentEvents(init, s.agent), x.flow, s.agent, a);
      }
    }
  }

  lemma {:induction false} RunFacts(s: State, d: seq<StoreEvent>)
    requires Fresh(s) && Run(s, d).Some?
    ensures Run(s, d).value.agent == s.agent
    ensures Run(s, d).value.flows == Ledger(AgentEvents(d, s.agent), s.agent)
    ensures Run(s, d).value.superTokens.Some? ==>
              forall a :: NetFlowOf(Run(s, d).value.superTokens.value, a) ==
                          LastTotal(AgentEvents(d, s.agent), s.agent, a)
  {
    RunFlows(s, d);
    if Run(s, d).value.superTokens.Some? {
      forall a {
        RunNetFlow(s, d, a);
      }
    }
  }

  // ---------------------------------------------------------------- listed tokens

  /** Token a was listed at the start, an event was about it, or a restart had it as a preset. */
  ghost predicate Known(s: State, d: seq<StoreEvent>, a: Address) {
    || (s.superTokens.Some? && Listed(s.superTokens.value, a))
    || exists x :: x in d && Reads(x, s.agent, a, false)
  }

  lemma {:induction false} KnownSnoc(s: State, d: seq<StoreEvent>, x: StoreEvent, a: Address)
    ensures Known(s, d + [x], a) <==> Known(s, d, a) || Reads(x, s.agent, a, false)
  {
    assert x in d + [x];
  }

  /** No listed token is ever lost, and no other token gets listed than those that events or presets
      name. */
  lemma {:induction false} TokensAreNeverLost(s: State, d: seq<StoreEvent>, a: Address)
    requires Run(s, d).Some? && Run(s, d).value.superTokens.Some?
    ensures Run(s, d).value.agent == s.agent && s.superTokens.Some?
    ensures Listed(Run(s, d).value.superTokens.value, a) <==> Known(s, d, a)
  {
    if d != [] {
      var init, x := d[..|d| - 1], d[|d| - 1];
      assert d == init + [x];
      var before := Run(s, init).value;
      ReducedFacts(before, x);
      TokensAreNeverLost(s, init, a);
      ReducedTokens(before, x, a);
      KnownSnoc(s, init, x, a);
      assert Reads(x, s.agent, a, Listed(before.superTokens.value, a)) ==> Reading(x, a).Some?;
    }
  }

  /** Every balance of the agent that x makes the script read, after d, is answered. */
  ghost predicate TokenReadsAnswered(s: State, d: seq<StoreEvent>, x: StoreEvent) {
    forall a :: Reads(x, s.agent, a, Known(s, d, a)) ==> Reading(x, a).Some?
  }

  ghost predicate AllTokenReadsAnswered(s: State, d: seq<StoreEvent>) {
    forall i :: 0 <= i < |d| ==> TokenReadsAnswered(s, d[..i], d[i])
  }

  lemma {:induction false} AllTokenReadsSnoc(s: State, d: seq<StoreEvent>, x: StoreEvent)
    ensures AllTokenReadsAnswered(s, d + [x]) <==> AllTokenReadsAnswered(s, d) && TokenReadsAnswered(s, d, x)
  {
    hide TokenReadsAnswered;
    var d' := d + [x];
    assert forall i :: 0 <= i < |d| ==> d'[..i] == d[..i] && d'[i] == d[i];
    assert d'[..|d|] == d && d'[|d|] == x;
  }

  /** The token list survives a run exactly when it was there and every read it needed was answered. */
  lemma {:induction false} TokensSurvive(s: State, d: seq<StoreEvent>)
    requires Run(s, d).Some?
    ensures Run(s, d).value.agent == s.agent
    ensures Run(s, d).value.superTokens.Some? <==> s.superTokens.Some? && AllTokenReadsAnswered(s, d)
  {
    if d != [] {
      var init, x := d[..|d| - 1], d[|d| - 1];
      assert d == init + [x];
      var before := Run(s, init).value;
      TokensSurvive(s, init);
      ReducedFacts(before, x);
      AllTokenReadsSnoc(s, init, x);
      if before.superTokens.Some? {
        ReducedTokens(before, x, 0);
        forall a ensures Listed(before.superTokens.value, a) <==> Known(s, init, a) {
          TokensAreNeverLost(s, init, a);
        }
      }
    }
  }

  /** Every entry of the earlier list is at the same place in the later one. */
  ghost predicate SamePlaces(tokens: seq<SuperToken>, tokens': seq<SuperToken>) {
    |tokens| <= |tokens'| && forall i :: 0 <= i < |tokens| ==> tokens'[i].address == tokens[i].address
  }

  lemma {:induction false} LoadedPlaces(
    tokens: seq<SuperToken>, addresses: seq<Address>, t: nat, balances: map<Address, int>)
    requires Loaded(Some(tokens), addresses, t, balances).Some?
    ensures SamePlaces(tokens, Loaded(Some(tokens), addresses, t, balances).value)
  {
    if addresses != [] {
      LoadedPlaces(tokens, addresses[..|addresses| - 1], t, balances);
    }
  }

  lemma {:induction false} ReducedPlaces(s: State, x: StoreEvent)
    requires Reduced(s, x).Some? && Reduced(s, x).value.superTokens.Some? && s.superTokens.Some?
    ensures SamePlaces(s.superTokens.value, Reduced(s, x).value.superTokens.value)
  {
    hide Loaded;
    if x.Restarted? {
      var addresses := Distinct(Addresses(s.superTokens.value) + x.presets);
      LoadedPlaces(s.superTokens.value, addresses, x.start.now.value, x.start.balances);
    }
  }

  /** Over any run entries are updated in place and new ones come behind the others. */
  lemma {:induction false} TokensKeepTheirPlaces(s: State, d: seq<StoreEvent>)
    requires Run(s, d).Some? && Run(s, d).value.superTokens.Some?
    ensures s.superTokens.Some?
    ensures SamePlaces(s.superTokens.value, Run(s, d).value.superTokens.value)
  {
    hide Reduced;
    if d != [] {
      var init, x := d[..|d| - 1], d[|d| - 1];
      ReducedFacts(Run(s, init).value, x);
      TokensKeepTheirPlaces(s, init);
      ReducedPlaces(Run(s, init).value, x);
    }
  }

  // ---------------------------------------------------------------- when a run succeeds

  ghost predicate HasSent(es: seq<FlowUpdated>, agent: Address, q: Address) {
    exists e :: e in es && IsIncoming(e, agent) && e.sender == q
  }

  lemma {:induction false} HasSentSnoc(es: seq<FlowUpdated>, e: FlowUpdated, agent: Address, q: Address)
    ensures HasSent(es + [e], agent, q) <==> HasSent(es, agent, q) || (IsIncoming(e, agent) && e.sender == q)
  {
    assert e in es + [e];
  }

  /** Senders with a list: those of the start, and those that have sent. */
  lemma {:induction false} RunSenderKeys(s: State, d: seq<StoreEvent>, q: Address)
    requires Run(s, d).Some?
    ensures Run(s, d).value.agent == s.agent
    ensures q in Run(s, d).value.senders <==> q in s.senders || HasSent(AgentEvents(d, s.agent), s.agent, q)
  {
    if d != [] {
      var init, x := d[..|d| - 1], d[|d| - 1];
      RunSenderKeys(s, init, q);
      ReducedFacts(Run(s, init).value, x);
      if IsAgentEvent(x, s.agent) {
        HasSentSnoc(AgentEvents(init, s.agent), x.flow, s.agent, q);
      }
    }
  }

  /** An incoming event stores an entry for its sender, and so reads the sender's balance, if its total
      is not the number 0 or it is the first from that sender. */
  ghost predicate ReadsSender(s: State, d: seq<StoreEvent>, e: FlowUpdated) {
    && IsIncoming(e, s.agent)
    && (e.senderTotal != Number(0) || !(e.sender in s.senders || HasSent(AgentEvents(d, s.agent), s.agent, e.sender)))
  }

  /** What handling x after d needs in order not to reject. */
  ghost predicate Handled(s: State, d: seq<StoreEvent>, x: StoreEvent) {
    match x
    case FlowEvent(e, answers) =>
      Touches(e, s.agent) ==>
        answers.block && (ReadsSender(s, d, e) ==> answers.sender.Some?) && e.userData.Some?
    case VaultTransfer(_, _, answers) => answers.block
    case VaultDeposit(_, _, answers) => answers.block
    case Restarted(_, start) =>
      && (s.initialBlock == 0 ==> start.initializationBlock.Some?) && start.currentBlock.Some? && start.now.Some?
      && s.superTokens.Some? && AllTokenReadsAnswered(s, d)
    case _ => true
  }

  lemma {:induction false} HandledExactly(s: State, d: seq<StoreEvent>, x: StoreEvent)
    requires Run(s, d).Some?
    ensures Reduced(Run(s, d).value, x).Some? <==> Handled(s, d, x)
  {
    TokensSurvive(s, d);
    if x.FlowEvent? {
      RunSenderKeys(s, d, x.flow.sender);
    } else if x.Restarted? {
      RunInitialBlock(s, d);
    }
  }

  lemma {:induction false} RunInitialBlock(s: State, d: seq<StoreEvent>)
    requires Run(s, d).Some?
    ensures Run(s, d).value.initialBlock == s.initialBlock
  {
    hide Reduced;
    if d != [] {
      RunInitialBlock(s, d[..|d| - 1]);
      ReducedFacts(Run(s, d[..|d| - 1]).value, d[|d| - 1]);
    }
  }

  /** A run succeeds exactly when the block of every handled event is read, the sender's balance is
      read for every incoming event that stores an entry, the user data of every agent event decodes,
      and each restart reads its blocks and finds a token list that no failing read has lost. */
  lemma {:induction false} RunSucceeds(s: State, d: seq<StoreEvent>)
    ensures Run(s, d).Some? <==> forall i :: 0 <= i < |d| ==> Handled(s, d[..i], d[i])
  {
    hide Handled, Reduced;
    if d != [] {
      var init, x := d[..|d| - 1], d[|d| - 1];
      assert d == init + [x];
      RunSucceeds(s, init);
      assert forall i :: 0 <= i < |init| ==> d[..i] == init[..i] && d[i] == init[i];
      assert d[..|init|] == init && d[|init|] == x;
      if Run(s, init).Some? {
        HandledExactly(s, init, x);
      }
    }
  }

  /** Every read that x can make is answered; a restart's, for all that the whole run makes known. */
  ghost predicate Answered(s: State, d: seq<StoreEvent>, x: StoreEvent) {
    match x
    case FlowEvent(_, answers) => answers.block && answers.token.Some? && answers.sender.Some?
    case VaultTransfer(_, _, answers) => answers.block && answers.token.Some?
    case VaultDeposit(_, _, answers) => answers.block && answers.token.Some?
    case Restarted(_, start) =>
      && start.initializationBlock.Some? && start.currentBlock.Some? && start.now.Some?
      && forall a :: Known(s, d, a) ==> a in start.balances
    case _ => true
  }

  ghost predicate Decodes(x: StoreEvent, agent: Address) {
    IsAgentEvent(x, agent) ==> x.flow.userData.Some?
  }

  lemma {:induction false} AnsweredInTime(s: State, d: seq<StoreEvent>, i: nat)
    requires i < |d| && Answered(s, d, d[i])
    ensures TokenReadsAnswered(s, d[..i], d[i])
  {
    forall a | Reads(d[i], s.agent, a, Known(s, d[..i], a)) ensures Reading(d[i], a).Some? {
      if d[i].Restarted? {
        assert d[i] in d;
        assert Known(s, d, a);
      }
    }
  }

  /** If every read is answered, a run succeeds exactly when the user data of every agent event decodes;
      and then the token list is there. */
  lemma {:induction false} AnsweredReadsSuffice(s: State, d: seq<StoreEvent>)
    requires s.superTokens.Some? && forall i :: 0 <= i < |d| ==> Answered(s, d, d[i])
    ensures Run(s, d).Some? <==> forall i :: 0 <= i < |d| ==> Decodes(d[i], s.agent)
    ensures Run(s, d).Some? ==> Run(s, d).value.superTokens.Some?
  {
    hide TokenReadsAnswered, Known, ReadsSender;
    forall i | 0 <= i < |d| ensures TokenReadsAnswered(s, d[..i], d[i]) {
      AnsweredInTime(s, d, i);
    }
    forall i | 0 <= i < |d| ensures Handled(s, d[..i], d[i]) <==> Decodes(d[i], s.agent) {
      assert forall j :: 0 <= j < i ==> d[..i][..j] == d[..j] && d[..i][j] == d[j];
    }
    RunSucceeds(s, d);
    if Run(s, d).Some? {
      TokensSurvive(s, d);
    }
  }

  /** In every state some event of a new incoming flow, with all reads answered, rejects. */
  lemma {:induction false} UndecodableUserDataRejects(s: State, token: Address, sender: Address)
    requires s.superTokens.Some? && sender != s.agent
    ensures var e := FlowUpdated(token, sender, s.agent, 1, Text(-1), 1, None, 0);
            var x := FlowEvent(e, Answers(true, Some(0), Some(0)));
            Answered(s, [x], x) && Run(s, [x]).None?
  {
    var e := FlowUpdated(token, sender, s.agent, 1, Text(-1), 1, None, 0);
    var x := FlowEvent(e, Answers(true, Some(0), Some(0)));
    AnsweredReadsSuffice(s, [x]);
    assert !Decodes([x][0], s.agent);
  }

  // ---------------------------------------------------------------- referential integrity

  ghost predicate UniqueAddresses(tokens: seq<SuperToken>) {
    forall i, j :: 0 <= i < j < |tokens| ==> tokens[i].address != tokens[j].address
  }

  ghost predicate OneEntryPerToken(s: State) {
    forall q :: q in s.senders ==> UniqueAddresses(s.senders[q])
  }

  /** Every record's and every sender entry's token is in a list with one entry per address. */
  ghost predicate Complete(s: State, tokens: seq<SuperToken>) {
    && UniqueAddresses(tokens)
    && (forall f :: f in s.flows ==> Listed(tokens, f.token))
    && (forall q, x :: q in s.senders && x in s.senders[q] ==> Listed(tokens, x.address))
  }

  ghost predicate Integrity(s: State) {
    && OneEntryPerToken(s)
    && (s.superTokens.Some? ==> Complete(s, s.superTokens.value))
  }

  lemma {:induction false} UpdatedTokensUnique(
    tokens: seq<SuperToken>, a: Address, t: nat, netFlow: Option<int>, balance: int)
    requires UniqueAddresses(tokens)
    ensures UniqueAddresses(UpdatedTokens(Some(tokens), a, t, netFlow, Some(balance)).value)
  {
  }

  lemma {:induction false} LoadedUnique(
    tokens: seq<SuperToken>, addresses: seq<Address>, t: nat, balances: map<Address, int>)
    requires UniqueAddresses(tokens) && Loaded(Some(tokens), addresses, t, balances).Some?
    ensures UniqueAddresses(Loaded(Some(tokens), addresses, t, balances).value)
  {
    if addresses != [] {
      var init, a := addresses[..|addresses| - 1], addresses[|addresses| - 1];
      LoadedUnique(tokens, init, t, balances);
      UpdatedTokensUnique(Loaded(Some(tokens), init, t, balances).value, a, t, None, balances[a]);
    }
  }

  lemma {:induction false} WithoutUnique(entries: seq<SuperToken>, a: Address)
    requires UniqueAddresses(entries)
    ensures UniqueAddresses(Without(entries, a))
  {
    if entries != [] {
      var init, x := entries[..|entries| - 1], entries[|entries| - 1];
      WithoutUnique(init, a);
      assert forall y :: y in Without(init, a) ==> y in init;
      assert forall y :: y in init ==> y.address != x.address;
    }
  }

  lemma {:induction false} SendersKeepOneEntry(s: State, e: FlowUpdated, balance: Option<int>)
    requires OneEntryPerToken(s) && UpdatedSenders(s.senders, s.agent, e, balance).Some?
    ensures var senders' := UpdatedSenders(s.senders, s.agent, e, balance).value;
            && (forall q :: q in senders' ==> UniqueAddresses(senders'[q]))
            && (forall q, x :: q in senders' && x in senders'[q] ==>
                  x.address == e.token || (q in s.senders && x in s.senders[q]))
  {
    if StoresSender(s.senders, s.agent, e) && e.sender in s.senders {
      WithoutUnique(s.senders[e.sender], e.token);
    }
  }

  lemma {:induction false} FlowsKeepTokens(flows: seq<Flow>, e: FlowUpdated, agent: Address)
    ensures forall f :: f in Updated(flows, e, agent) ==>
              f.token == e.token || exists g :: g in flows && g.token == f.token
  {
    var i := FirstMatch(flows, e);
    forall f | f in Updated(flows, e, agent) && f.token != e.token
      ensures exists g :: g in flows && g.token == f.token
    {
      var k :| 0 <= k < |Updated(flows, e, agent)| && Updated(flows, e, agent)[k] == f;
      assert k < |flows| && k != i && flows[k] == f;
    }
  }

  /** Once listed, a token stays listed through any event. */
  lemma {:induction false} StaysListed(s: State, x: StoreEvent, a: Address)
    requires Reduced(s, x).Some? && Reduced(s, x).value.superTokens.Some? && s.superTokens.Some?
    requires Listed(s.superTokens.value, a) || (NeedsTokenRead(x, s.agent) && TokenOf(x) == a)
    ensures Listed(Reduced(s, x).value.superTokens.value, a)
  {
    ReducedTokens(s, x, a);
    assert Reads(x, s.agent, a, Listed(s.superTokens.value, a)) ==> Reading(x, a).Some?;
  }

  lemma {:induction false} ReducedUnique(s: State, x: StoreEvent)
    requires Reduced(s, x).Some? && Reduced(s, x).value.superTokens.Some?
    requires s.superTokens.Some? && UniqueAddresses(s.superTokens.value)
    ensures UniqueAddresses(Reduced(s, x).value.superTokens.value)
  {
    if x.Restarted? {
      var addresses := Distinct(Addresses(s.superTokens.value) + x.presets);
      LoadedUnique(s.superTokens.value, addresses, x.start.now.value, x.start.balances);
    } else if NeedsTokenRead(x, s.agent) {
      var netFlow := if x.FlowEvent? then Some(AgentTotal(x.flow, s.agent)) else None;
      UpdatedTokensUnique(s.superTokens.value, TokenOf(x), TimeOf(x), netFlow, x.answers.token.value);
    }
  }

  lemma {:induction false} ReducedKeepsIntegrity(s: State, x: StoreEvent)
    requires Integrity(s) && Reduced(s, x).Some?
    ensures Integrity(Reduced(s, x).value)
  {
    hide Reduced, UniqueAddresses;
    var s' := Reduced(s, x).value;
    ReducedFacts(s, x);
    if IsAgentEvent(x, s.agent) {
      SendersStored(s, x);
      SendersKeepOneEntry(s, x.flow, x.answers.sender);
      FlowsKeepTokens(s.flows, x.flow, s.agent);
    }
    if s'.superTokens.Some? {
      ReducedUnique(s, x);
      forall a | Listed(s.superTokens.value, a) || (NeedsTokenRead(x, s.agent) && TokenOf(x) == a)
        ensures Listed(s'.superTokens.value, a)
      {
        StaysListed(s, x, a);
      }
    }
  }

  lemma {:induction false} SendersStored(s: State, x: StoreEvent)
    requires IsAgentEvent(x, s.agent) && Reduced(s, x).Some?
    ensures UpdatedSenders(s.senders, s.agent, x.flow, x.answers.sender).Some?
  {
  }

  /** Over every run the token list keeps one entry per address and covers every record and sender
      entry, so the lookups by address never miss; and no sender has two entries for a token. */
  lemma {:induction false} IntegrityOverRuns(s: State, d: seq<StoreEvent>)
    requires Integrity(s) && Run(s, d).Some?
    ensures Integrity(Run(s, d).value)
  {
    hide Integrity, Reduced;
    if d != [] {
      var init, x := d[..|d| - 1], d[|d| - 1];
      IntegrityOverRuns(s, init);
      ReducedKeepsIntegrity(Run(s, init).value, x);
    }
  }

  /** A first start, if its reads are answered, gives a state from which every run theorem applies, with
      exactly the presets listed. */
  lemma {:induction false} FirstStartIsSound(
    agent: Address, presets: seq<Address>, start: StartAnswers)
    ensures var r := Started(agent, None, presets, start);
            && (r.Some? <==> start.initializationBlock.Some? && start.currentBlock.Some? && start.now.Some?)
            && (r.Some? ==>
                  && Fresh(r.value) && Integrity(r.value) && r.value.agent == agent
                  && Some(r.value.initialBlock) == start.initializationBlock
                  && r.value.cachedBlockNumber.None? && r.value.isSyncing
                  && (r.value.superTokens.Some? <==> forall a :: a in presets ==> a in start.balances)
                  && (r.value.superTokens.Some? ==>
                        forall a :: Listed(r.value.superTokens.value, a) <==> a in presets))
  {
    hide InitialLoad, Integrity;
    var x := Restarted(presets, start);
    if start.initializationBlock.Some? {
      var s := InitialState(agent, None, start.initializationBlock.value);
      assert Reduced(s, x) == Started(agent, None, presets, start);
      RestartSucceeds(s, x);
      if Reduced(s, x).Some? {
        FirstTokens(s, x);
        ReducedFacts(s, x);
        assert Integrity(s) by {
          EmptyHasIntegrity(s);
        }
        ReducedKeepsIntegrity(s, x);
      }
    }
  }

  lemma {:induction false} RestartSucceeds(s: State, x: StoreEvent)
    requires x.Restarted?
    ensures Reduced(s, x).Some? <==>
            && (s.initialBlock == 0 ==> x.start.initializationBlock.Some?)
            && x.start.currentBlock.Some? && x.start.now.Some? && s.superTokens.Some?
    ensures Reduced(s, x).Some? ==>
              Reduced(s, x).value.cachedBlockNumber == s.cachedBlockNumber && Reduced(s, x).value.isSyncing
  {
  }

  lemma {:induction false} EmptyHasIntegrity(s: State)
    requires s.flows == [] && s.senders == map[] && s.superTokens == Some([])
    ensures Integrity(s)
  {
  }

  lemma {:induction false} FirstTokens(s: State, x: StoreEvent)
    requires x.Restarted? && Reduced(s, x).Some? && s.superTokens == Some([])
    ensures var s' := Reduced(s, x).value;
            && (s'.superTokens.Some? <==> forall a :: a in x.presets ==> a in x.start.balances)
            && (s'.superTokens.Some? ==>
                  forall a :: NetFlowOf(s'.superTokens.value, a) == 0
                              && (Listed(s'.superTokens.value, a) <==> a in x.presets))
  {
    hide Reduced;
    var s' := Reduced(s, x).value;
    RestartedTokens(s, x, 0);
    assert forall b :: b in x.presets <==> Reads(x, s.agent, b, Listed([], b));
    assert forall b :: b in x.start.balances <==> Reading(x, b).Some?;
    if s'.superTokens.Some? {
      forall a
        ensures NetFlowOf(s'.superTokens.value, a) == 0 && (Listed(s'.superTokens.value, a) <==> a in x.presets)
      {
        RestartedTokens(s, x, a);
        assert Reads(x, s.agent, a, Listed([], a)) ==> Reading(x, a).Some?;
        assert Entry(s'.superTokens.value, a) == EntryAfter([], x, s.agent, a);
      }
    }
  }

  // ---------------------------------------------------------------- a restart under another agent

  lemma {:induction false} NoAgentEventsNoChange(s: State, d: seq<StoreEvent>)
    requires Run(s, d).Some? && forall x :: x in d ==> !IsAgentEvent(x, s.agent)
    ensures var s' := Run(s, d).value; s'.agent == s.agent && s'.flows == s.flows && s'.senders == s.senders
  {
    hide Reduced;
    if d != [] {
      var init, x := d[..|d| - 1], d[|d| - 1];
      assert x in d && forall y :: y in init ==> y in d;
      NoAgentEventsNoChange(s, init);
      ReducedFacts(Run(s, init).value, x);
    }
  }

  /** Addresses other than two given ones. */
  function Third(a: Address, b: Address): (c: Address)
    ensures c != a && c != b
  {
    if a != 0 && b != 0 then 0 else if a != 1 && b != 1 then 1 else 2
  }

  /** A restart subscribes for the app's current agent but keeps the cached one. It handles every event
      that its subscriptions can deliver exactly when the two are the same. Otherwise whatever is
      delivered that does not concern the old agent leaves records and sender entries as cached. */
  lemma {:induction false} RestartKeepsCachedAgent(
    agent: Address, cached: State, presets: seq<Address>, start: StartAnswers, d: seq<StoreEvent>)
    requires Started(agent, Some(cached), presets, start).Some?
    requires Run(Started(agent, Some(cached), presets, start).value, d).Some?
    ensures var s := Started(agent, Some(cached), presets, start).value;
            && ((forall e :: Touches(e, agent) && e.sender != e.receiver ==> Touches(e, s.agent)) <==>
                agent == cached.agent)
            && ((forall x :: x in d ==> !IsAgentEvent(x, cached.agent)) ==>
                  Run(s, d).value.flows == cached.flows && Run(s, d).value.senders == cached.senders)
  {
    hide Run;
    var s := Started(agent, Some(cached), presets, start).value;
    if agent != cached.agent {
      var e := FlowUpdated(0, agent, Third(agent, cached.agent), 1, Text(0), 0, Some(""), 0);
      assert Touches(e, agent) && !Touches(e, s.agent);
    }
    if forall x :: x in d ==> !IsAgentEvent(x, cached.agent) {
      NoAgentEventsNoChange(s, d);
    }
  }

  // ---------------------------------------------------------------- stored entries are the latest ones

  /** Balance and time of the last answered read of a token's balance. */
  ghost function LastRead(s: State, d: seq<StoreEvent>, a: Address): Option<(int, nat)> {
    if d == [] then None
    else
      var init, x := d[..|d| - 1], d[|d| - 1];
      if Reads(x, s.agent, a, Known(s, init, a)) && Reading(x, a).Some? then Some((Reading(x, a).value, ReadTime(x)))
      else LastRead(s, init, a)
  }

  /** A token's entry holds the balance and the time of the last read of it, by an event or a restart;
      a token that nothing made the script read keeps the entry it had. */
  lemma {:induction false} RunEntry(s: State, d: seq<StoreEvent>, a: Address)
    requires s.superTokens.Some? && Run(s, d).Some? && Run(s, d).value.superTokens.Some?
    ensures var x, last := Entry(Run(s, d).value.superTokens.value, a), LastRead(s, d, a);
            if last.None? then x == Entry(s.superTokens.value, a)
            else x.Some? && x.value.balance == last.value.0 && x.value.lastUpdate == last.value.1
  {
    if d != [] {
      var init, x := d[..|d| - 1], d[|d| - 1];
      var before := Run(s, init).value;
      ReducedFacts(before, x);
      ReducedTokens(before, x, a);
      TokensAreNeverLost(s, init, a);
      RunEntry(s, init, a);
    }
  }

  lemma {:induction false} WithoutEntry(entries: seq<SuperToken>, t: Address, a: Address)
    ensures Entry(Without(entries, t), a) == if a == t then None else Entry(entries, a)
  {
    if entries != [] {
      var init, x := entries[..|entries| - 1], entries[|entries| - 1];
      assert entries == init + [x];
      WithoutEntry(init, t, a);
      EntrySnoc(init, x, a);
      EntrySnoc(Without(init, t), x, a);
    }
  }

  /** The latest delivery that stored an entry for sender q and token a. The number 0 stores an entry
      only as the sender's first event. */
  ghost function LatestStored(d: seq<StoreEvent>, agent: Address, q: Address, a: Address): Option<StoreEvent> {
    if d == [] then None
    else
      var init, x := d[..|d| - 1], d[|d| - 1];
      if x.FlowEvent? && IsIncoming(x.flow, agent) && x.flow.sender == q && x.flow.token == a
         && (x.flow.senderTotal != Number(0) || !HasSent(AgentEvents(init, agent), agent, q))
      then Some(x)
      else LatestStored(init, agent, q, a)
  }

  /** The entry that the handling of x stored: the sender's balance as it was then read, and the total and
      the time that the event reports. */
  ghost predicate StoredBy(entry: SuperToken, x: StoreEvent) {
    && x.FlowEvent?
    && x.answers.sender == Some(entry.balance)
    && entry.netFlow == x.flow.senderTotal.n && entry.lastUpdate == x.flow.timestamp
  }

  /** A sender has a list exactly when it has sent; its entry for a token is that of the latest delivery
      that stored one. */
  ghost predicate SendersCurrent(
    senders: map<Address, seq<SuperToken>>, d: seq<StoreEvent>, agent: Address, q: Address, a: Address)
  {
    && (q in senders <==> HasSent(AgentEvents(d, agent), agent, q))
    && var x := LatestStored(d, agent, q, a);
       var entry := if q in senders then Entry(senders[q], a) else None;
       && (entry.Some? <==> x.Some?)
       && (entry.Some? ==> StoredBy(entry.value, x.value))
  }

  lemma {:induction false} SendersStep(
    senders: map<Address, seq<SuperToken>>, d: seq<StoreEvent>, x: StoreEvent, agent: Address, q: Address, a: Address)
    requires SendersCurrent(senders, d, agent, q, a) && IsAgentEvent(x, agent)
    requires UpdatedSenders(senders, agent, x.flow, x.answers.sender).Some?
    ensures SendersCurrent(UpdatedSenders(senders, agent, x.flow, x.answers.sender).value, d + [x], agent, q, a)
  {
    var e, balance := x.flow, x.answers.sender;
    assert (d + [x])[..|d|] == d;
    AgentEventsSnoc(d, x, agent);
    HasSentSnoc(AgentEvents(d, agent), e, agent, q);
    if StoresSender(senders, agent, e) && e.sender == q {
      var others := if q in senders then Without(senders[q], e.token) else [];
      if q in senders {
        WithoutEntry(senders[q], e.token, a);
      }
      EntrySnoc(others, SuperToken(e.token, balance.value, e.senderTotal.n, e.timestamp), a);
    }
  }

  lemma {:induction false} SendersKept(
    senders: map<Address, seq<SuperToken>>, d: seq<StoreEvent>, x: StoreEvent, agent: Address, q: Address, a: Address)
    requires SendersCurrent(senders, d, agent, q, a) && !IsAgentEvent(x, agent)
    ensures SendersCurrent(senders, d + [x], agent, q, a)
  {
    assert (d + [x])[..|d|] == d;
    AgentEventsSnoc(d, x, agent);
  }

  lemma {:induction false} RunSenders(s: State, d: seq<StoreEvent>, q: Address, a: Address)
    requires s.senders == map[] && Run(s, d).Some?
    ensures Run(s, d).value.agent == s.agent
    ensures SendersCurrent(Run(s, d).value.senders, d, s.agent, q, a)
  {
    if d != [] {
      hide SendersCurrent, UpdatedSenders, Reduced;
      var init, x := d[..|d| - 1], d[|d| - 1];
      assert d == init + [x];
      RunSenders(s, init, q, a);
      var before := Run(s, init).value;
      ReducedFacts(before, x);
      if IsAgentEvent(x, s.agent) {
        SendersStored(before, x);
        SendersStep(before.senders, init, x, s.agent, q, a);
      } else {
        SendersKept(before.senders, init, x, s.agent, q, a);
      }
    }
  }

  // ---------------------------------------------------------------- sync status

  function LastSync(d: seq<StoreEvent>): Option<nat> {
    if d == [] then None
    else if d[|d| - 1].SyncStatusSyncing? then Some(d[|d| - 1].upTo)
    else LastSync(d[..|d| - 1])
  }

  /** The resume point is the bound of the last sync event; every other event and every restart keeps it. */
  lemma {:induction false} RunResumePoint(s: State, d: seq<StoreEvent>)
    requires Run(s, d).Some?
    ensures Run(s, d).value.cachedBlockNumber == if LastSync(d).Some? then LastSync(d) else s.cachedBlockNumber
    ensures Run(s, d).value.initialBlock == s.initialBlock
  {
    if d != [] {
      RunResumePoint(s, d[..|d| - 1]);
    }
  }

  /** Starts a sync: the sync event, or a start of the script. */
  predicate StartsSync(x: StoreEvent) {
    x.SyncStatusSyncing? || x.Restarted?
  }

  /** The first n deliveries ended the sync, or there was none from the start, and no sync has begun since. */
  ghost predicate SyncedSince(s: State, d: seq<StoreEvent>, n: nat) {
    && n <= |d|
    && (if n == 0 then !s.isSyncing else d[n - 1].ExternalSubscriptionSynced?)
    && forall j :: n <= j < |d| ==> !StartsSync(d[j])
  }

  /** The store is done syncing exactly when the subscriptions' end was delivered, or it was done at the
      start, and no sync event and no restart came after that. */
  lemma {:induction false} RunSyncing(s: State, d: seq<StoreEvent>)
    requires Run(s, d).Some?
    ensures !Run(s, d).value.isSyncing <==> exists n: nat :: SyncedSince(s, d, n)
  {
    if d == [] {
      assert SyncedSince(s, d, 0) <==> !s.isSyncing;
    } else {
      var init, x := d[..|d| - 1], d[|d| - 1];
      RunSyncing(s, init);
      SyncStep(Run(s, init).value, x);
      if x.ExternalSubscriptionSynced? {
        assert SyncedSince(s, d, |d|);
      } else if !StartsSync(x) {
        if n: nat :| SyncedSince(s, init, n) {
          assert SyncedSince(s, d, n);
        }
        if n: nat :| SyncedSince(s, d, n) {
          assert n < |d| && SyncedSince(s, init, n);
        }
      } else {
        assert d[|d| - 1] == x;
      }
    }
  }

  lemma {:induction false} SyncStep(s: State, x: StoreEvent)
    requires Reduced(s, x).Some?
    ensures Reduced(s, x).value.isSyncing <==> StartsSync(x) || (s.isSyncing && !x.ExternalSubscriptionSynced?)
  {
  }

  // ---------------------------------------------------------------- ended sender entries

  ghost predicate HasEntry(senders: map<Address, seq<SuperToken>>, sender: Address, token: Address) {
    sender in senders && exists x :: x in senders[sender] && x.address == token
  }

  /** A sender whose total has fallen to zero is meant to lose its entry. It has none afterwards
      exactly when the zero came as a number and there was no entry to remove. */
  lemma {:induction false} EndedEntriesLinger(
    senders: map<Address, seq<SuperToken>>, agent: Address, e: FlowUpdated, balance: int)
    requires IsIncoming(e, agent) && e.senderTotal.n == 0
    ensures var senders' := UpdatedSenders(senders, agent, e, Some(balance)).value;
            !HasEntry(senders', e.sender, e.token) <==>
            e.senderTotal.Number? && e.sender in senders && !HasEntry(senders, e.sender, e.token)
  {
    if StoresSender(senders, agent, e) {
      var senders' := UpdatedSenders(senders, agent, e, Some(balance)).value;
      var x := SuperToken(e.token, balance, e.senderTotal.n, e.timestamp);
      assert x in senders'[e.sender];
    }
  }
}
