# A verified model of the Superfluid Aragon app

The app lets an Aragon organisation stream tokens through the Superfluid Constant Flow Agreement. This
project models its logic in Dafny and proves what it is relied on for:

- **The flow store.** A background script folds `FlowUpdated`, `VaultTransfer` and `VaultDeposit` events
  into flow records, super tokens and sender entries (`FlowRecords`, `Store`); a reducer derives rates
  from them (`Reducer`). The store is a replica of an on-chain agreement (`Agreement`). It keeps two
  separate accounts of the same quantity, and `Mirror` and `StoreTheorems` prove that they agree;
  `StoreRuns` proves when a run succeeds and what it lists. A run spans any number of sessions: a
  restart from the cached state is one of its steps.
- **Block ranges** (`BlockRanges`, `SessionDelivery`): which blocks a session subscribes to, and that one
  session and many deliver a merge of the chain's two event streams.
- **Exact numbers**: the decimal printer and parser (`Decimals`, `DecimalPrinting`), currency conversion
  (`Conversion`), stream extrapolation and the depletion date (`Streaming`).
- **The contract** (`Tokens`, `SuperfluidApp`, `Custody`): token moves through the agent, permissions,
  lifecycle, and flow calls through the agent's guarded call (`ProtectedTokens`) on any host.
- **EVM call scripts** (`EvmScript`): the encoder and the interpreter loop.
- **The parts together** (`EndToEnd`).

Conventions. Addresses are canonical numbers, because the code compares them after checksumming. Big
numbers are unbounded integers. A read of the chain is an input; `None` is a read that throws, a rejected
promise, or a revert, and a reverted call leaves the state unchanged. Environment facts are premises:

- the agreement forbids self-flows, event times do not decrease along the chain, and the agent has no
  flow before its initial block (`AgentIsNew`, `IsLog`);
- each subscription delivers its events in chain order (`SameStreams`, `Merges`), or, where a theorem
  says so, both together do;
- the app, its agents and the super tokens are different contracts, no token wraps itself (`WellFormed`),
  and for the reserves no super token contract itself calls the app (`NoTokenCalls`);
- an agent address that runs no initialised Agent reverts every call, although the app accepts any contract;
- what a host does with a flow operation is arbitrary. Theorems about balances take it to move no tokens
  (`QuietHost`), theorems about flows to perform the operation and nothing else (`Genuine`); those
  about the agent's guard (`GuardOverRuns`, `FlowCallsOnAnyHost`) take nothing.

Promises of the source that turn out not to hold are kept as the code has them, with the exact
condition under which they hold:

- `MergeOrderMatters`: the receiver and sender subscriptions are merged in any order. The records do not
  depend on that order; a token's stored net flow does. It is right exactly when the rate of the other
  direction has not changed on chain since the event about the token that was delivered last.
  `MergeOrderCanMislead` gives a run.
- `RunSucceeds`: the reducer's try/catch returns the handlers' promises without awaiting them, so it
  catches none of their rejections. A run goes through exactly when every block of a handled event is
  read, every sender balance that is to be stored is read, the user data of every agent event decodes as
  text, and each restart reads its blocks and finds a token list. `UndecodableUserDataRejects` gives an
  event that rejects although every read is answered.
- `RedeliveryIsIdempotent`, `BlockRedelivery`: delivering an event, or all events of a block, twice is
  harmless exactly for positive rates; a second delete opens a new record of rate 0. Hence
  `RangesCoverAndSeparate` and `SessionsTile` say exactly when no block is delivered twice.
- `RestartKeepsCachedAgent`: a restart subscribes for the app's current agent but keeps the cached agent
  address, so it handles all that is delivered exactly when the agent has not been replaced meanwhile.
- `EndedEntriesLinger`: a comment says that a sender entry is kept only while its net flow is not zero.
  The test is `!== 0`, so the text "0" is stored as an entry, and the number 0 leaves the old one.
- `ToDecimalsIsExact`: without truncation a proper fraction shifted by no decimals becomes 0.
- `DepletionIsLastSecond`: for a negative balance the division truncates toward now.
- `DepletionDatesExactly`: a draining stream whose end is further than 100,000,000 days from the epoch gets
  an invalid date.
- `DepletionThrowsExactly`: converting to a number throws once the balance lasts for 2^53 milliseconds, and
  one such token makes the whole reducer throw (`InterfaceAfterRun`).
- `TokensSurvive`: a failing read is caught, but the catch returns nothing, so one such event loses the
  whole token list for good, and `InterfaceAfterRun` shows that the interface's reducer then throws.
- `UpgradesLoseTheList`: an upgrade moves the underlying out of the vault, and the script looks that token
  up as a super token. The list survives the app's own calls exactly if every successful upgrade has an
  underlying that is itself a super token; `UpgradeCanLoseTheList` gives a run.
- `UnannouncedChanges`: the script refreshes a token's balance when a vault or flow event announces it. The
  super token of an upgrade and the underlying of a downgrade come back to the agent without one, and these
  are the only such changes that the app makes.
- `AppGainsOnlyByWithdrawal`: the app keeps tokens exactly when someone withdraws to the app itself.
- `SelectionIsByIdentity`: the record test ignores the event's direction. For an open record it selects
  by token, direction and counterparty exactly when the counterparty is not the agent itself, which
  `OpenRecordIsUnique` proves of every reachable record, because self-flows cannot occur.

## Model

| member | source | states |
|---|---|---|
| FlowRecords.UpdateFlows | app/src/store/updaters.js:65-110 | throws exactly if the user data does not decode; otherwise the loop and the three cases produce the specified list, whose meaning the rows below prove |
| FlowRecords.RedeliveryIsIdempotent | app/src/store/updaters.js:70-107 | delivering an event twice in a row changes nothing if and only if its rate is positive |
| FlowRecords.BlockRedelivery | app/src/store/helpers.js:112-115 | delivering the events of one block again, merged in any order, changes nothing if and only if all their rates are positive |
| FlowRecords.HistoryIsAppendOnly | app/src/store/updaters.js:65-110 | over any run no record is dropped, re-identified or re-dated, a cancelled record never changes again, and a record cancelled on the way is frozen at the amount, rate and description it had at one of the events |
| FlowRecords.AmountsNeverDecrease | app/src/store/helpers.js:212-219 | for every merge of two streams that are each in time order, with no negative rate, settled amounts never decrease |
| FlowRecords.SelectionIsByIdentity | app/src/store/helpers.js:204-210 | for an open record the test selects by full identity on every event about the agent if and only if the record's entity is not the agent |
| FlowRecords.OpenRecordIsUnique | app/src/store/helpers.js:204-210 | in every reachable list at most one open record exists per token, direction and counterparty, and the record test holds of exactly the one the search finds |
| FlowRecords.EventsActOnTheirDirection | app/src/store/updaters.js:70-107 | an event acts on the records of its own direction as if they were the whole list, and leaves the others alone |
| FlowRecords.InterleavingIndependence | app/src/script.js:118-137 | however the receiver and sender streams are merged, each direction's records are those of its own stream alone |
| FlowRecords.RecordIsIntegral | app/src/store/updaters.js:90-107 | each record's amount is the second-by-second sum, from creation, of the rate set by the latest event about its flow, up to its cancellation, for every merge of two streams that are each in time order |
| FlowRecords.OpenRecordIsLatest | app/src/store/updaters.js:76-98 | an open record carries the rate, description and time of the latest event about its flow, and a flow whose latest rate is positive has an open record |
| Agreement.NetRateAfter | contracts/interfaces/IConstantFlowAgreementV1.sol:6-14 | an operation moves an account's net rate, the sum over its live flows, by the change of the one flow it is about |
| Mirror.RunsStayInStep | app/src/store/event-handlers.js:4-39 | after every prefix of agreement steps the records mirror the live flows and their net rate equals the reported totals |
| Mirror.MirrorsUpdated | app/src/store/updaters.js:65-110 | create, update and delete each keep the one-to-one correspondence of open records and live flows |
| Mirror.DirectionsOverRuns | app/src/app-state-reducer.js:16-50 | after every run of the agreement the inflow of the records is the sum of the rates the agent receives, and their outflow the sum of those it sends, token by token |
| Store.BackgroundScript.GetSuperTokenContract | app/src/store/updaters.js:9-18 | the memo returns the right contract, and fails exactly for an unknown token without an app |
| Store.BackgroundScript.UpdateSuperTokens | app/src/store/updaters.js:20-63 | updates or appends the token's entry, keeps its net flow when none is given, fails with the reads, and always remembers the contract |
| Store.BackgroundScript.UpdateSendersSuperTokens | app/src/store/updaters.js:112-145 | replaces the sender's entry for the token as specified, and fails if an entry is to be stored and the contract is not remembered or the read throws; the memo is unchanged |
| Store.BackgroundScript.NewSuperTokenEntry | app/src/store/updaters.js:147-152 | fails exactly when the memo misses or the balance read throws |
| Store.BackgroundScript.HandleFlowUpdated | app/src/store/event-handlers.js:4-39 | the outcome never depends on the memo: the lookup without an app cannot miss; it rejects with the block read, a sender read it needs, or user data that does not decode |
| Store.BackgroundScript.HandleVaultEvent | app/src/store/event-handlers.js:41-49 | rejects with the block read; otherwise only the token list changes, and no net flow |
| Store.BackgroundScript.Reduce | app/src/script.js:46-79 | for every event the result is the transition that the run theorems below are about |
| Store.BackgroundScript.LoadInitialSuperTokens | app/src/store/helpers.js:221-253 | the loop over distinct addresses gives the list that LoadedFacts and FirstStartIsSound characterise |
| Store.BackgroundScript.InitializeState | app/src/script.js:86-144 | rejects with the reads of the initial block, the block number and the block; a restart is the transition that the run theorems take as a step, a first start the one that FirstStartIsSound characterises |
| StoreRuns.RunFlows | app/src/store/event-handlers.js:15-38 | whatever else is delivered and whatever the reads answer, the records are those of the agent's events |
| StoreRuns.RunNetFlow | app/src/store/event-handlers.js:21-29 | a token's stored net flow is the total that the last delivered event about it reported |
| StoreRuns.RunSucceeds | app/src/script.js:46-79 | a run succeeds if and only if each event's block and each sender balance to be stored are read, each agent event's user data decodes, and each restart's blocks are read and its token list is not lost: a condition on the inputs alone |
| StoreRuns.TokensSurvive | app/src/store/updaters.js:28-62 | the token list survives a run if and only if it was there and every read that the events, and the restarts for all tokens then known, needed was answered |
| StoreRuns.AnsweredReadsSuffice | app/src/store/updaters.js:28-73 | if every read is answered the run succeeds if and only if the user data of every agent event decodes, and then the token list is there |
| StoreRuns.UndecodableUserDataRejects | app/src/store/updaters.js:73 | in every state an event with all reads answered rejects |
| StoreRuns.RestartKeepsCachedAgent | app/src/script.js:97-137 | a restart handles every event its subscriptions can deliver if and only if the cached agent is the current one; otherwise events that do not concern the old agent leave records and senders as cached |
| StoreTheorems.StoreMirrorsAgreement | app/src/store/event-handlers.js:4-39 | in chain order, over any number of sessions, open records and the agent's live flows correspond one to one with equal rate and time, and each net flow is inflow less outflow and the agreement's net rate |
| StoreTheorems.MergeOrderMatters | app/src/store/helpers.js:129-140 | under any merge order the records mirror the live flows and the rates are right; the stored net flow is right if and only if the other direction's rate has not changed in chain order since the last delivered event about the token, as when the last delivered and last emitted event have the same direction |
| StoreTheorems.MergeOrderCanMislead | app/src/store/helpers.js:129-140 | a run with two flows whose merged delivery leaves a wrong net flow |
| StoreTheorems.Conservation | app/src/store/helpers.js:212-219 | at any time after the last event, incoming less outgoing amounts equal the second-by-second sum of the net flow held |
| StoreTheorems.ConservationOverRuns | app/src/helpers/superfluid.js:57-59 | the same on every run of the agreement delivered in chain order |
| StoreTheorems.AmountsAreContinuous | app/src/store/updaters.js:90-107 | an event changes no amount at its own instant |
| StoreRuns.IntegrityOverRuns | app/src/store/updaters.js:20-145 | over every run the token list has one entry per address and covers every record and sender entry, so lookups by address never miss, and no sender has two entries for a token |
| StoreRuns.TokensAreNeverLost | app/src/store/updaters.js:53-59 | after any run exactly those tokens are listed that were listed before, that an event was about, or that a restart had as preset |
| StoreRuns.TokensKeepTheirPlaces | app/src/store/updaters.js:53-57 | over any run entries are updated in place and new ones come behind the others |
| StoreRuns.LoadedFacts | app/src/store/helpers.js:236-250 | loading succeeds if and only if every read does, refreshes exactly the given addresses, and changes no net flow |
| StoreRuns.FirstStartIsSound | app/src/script.js:86-144 | a first start fails exactly with the reads of its initialisation block, block number and block, and gives a fresh, syncing state with integrity that begins at the initialisation block without a resume point, listing exactly the presets, if their reads are answered |
| StoreRuns.RunEntry | app/src/store/updaters.js:46-57 | after any run a token's entry holds the balance and time of the last read of it, by an event or a restart, and is untouched if there was none |
| StoreRuns.RunSenders | app/src/store/updaters.js:112-152 | after any run a sender has a list exactly if it has sent, and its entry for a token has the balance read, the total and the time of the latest event that stored one |
| StoreRuns.RunResumePoint | app/src/script.js:67-75 | after any run the resume point is the bound of the last sync event |
| StoreRuns.RunSyncing | app/src/script.js:67-75 | after any run the store is done syncing if and only if the end of the subscriptions was delivered after the last sync event or restart |
| StoreRuns.EndedEntriesLinger | app/src/store/updaters.js:124-142 | after a zero total no entry is left if and only if the zero was a number, the sender had a list and there was no entry in it to remove |
| Reducer.CalculateInOutRate | app/src/app-state-reducer.js:16-21 | the pair is updated in place or created, in the flow's direction |
| Reducer.InOutRates | app/src/app-state-reducer.js:28-50 | the dictionary holds exactly the inflow and outflow of the open records, token by token |
| Reducer.FormatSuperTokens | app/src/app-state-reducer.js:61-98 | the loop formats every token as FormattedTokensAreTrue and FormattedDepletion characterise; it throws if and only if the list is lost or some depletion date throws |
| BlockRanges.RangesCoverAndSeparate | app/src/store/helpers.js:112-120 | no gap from the resume point on; the ranges are disjoint if and only if the initial block is at least two blocks old |
| BlockRanges.CachedIsSettled | app/src/store/helpers.js:11-120 | no block younger than 100 blocks is cached, but the initial one; every older one from the resume point on is; the past range ends before the current block, where the live one begins |
| BlockRanges.YoungBlocksAreReadAgain | app/src/store/helpers.js:112-120 | every block that was younger than 100 blocks in one session is delivered again by the next |
| BlockRanges.SubscriptionDeliversOnceInOrder | app/src/store/helpers.js:112-189 | with disjoint ranges a session delivers every entry of one subscription's log from the resume point once, in chain order |
| SessionDelivery.SessionKeepsStreams | app/src/store/helpers.js:129-189 | however each of the three ranges merges the subscriptions, a session delivers the receiver stream and the sender stream of the log from the resume point on |
| SessionDelivery.StartReadsOn | app/src/script.js:93-137 | a first start reads from the initialisation block on; a restart after any run reads on from the last sync bound and leaves out nothing after its resume point |
| SessionDelivery.SessionsKeepStreams | app/src/script.js:130-137 | over any number of sessions with growing bounds, the cached deliveries and the last session's other ranges are together a merge of the whole log |
| SessionDelivery.StoreAcrossSessions | app/src/script.js:86-140 | after any number of sessions the records mirror the live flows, the rates are the agreement's, and each stored net flow is right exactly as MergeOrderMatters says |
| BlockRanges.SessionsTile | app/src/script.js:69-70 | over any sessions the cached ranges cover the chain once each block if and only if the persisted bounds strictly grow and none resumed from is 0 |
| Decimals.ToDecimalsIsFloor | app/src/helpers/math.js:79-115 | parsing denotes the floor of the numeral times 10^decimals, for every plain numeral |
| Decimals.ToDecimalsIsExact | app/src/helpers/math.js:102-114 | without truncation parsing is exact if and only if it is not a proper fraction shifted by no decimals |
| DecimalPrinting.ParsedForm | app/src/helpers/math.js:106-114 | truncating cuts off the fraction and the point; the whole part has the digits of the whole part and the decimals, the fraction no trailing zero |
| DecimalPrinting.ToDecimalsIsUnique | app/src/helpers/math.js:102-114 | a digit string is the parsed one if and only if it has that width and denotes the floor |
| DecimalPrinting.FromDecimalsTruncates | app/src/helpers/math.js:28-68 | printing gives the canonical numeral of the whole part over 10^decimals |
| DecimalPrinting.FromDecimalsDivides | app/src/helpers/math.js:56-59 | without truncation printing gives the canonical numeral of the exact quotient |
| DecimalPrinting.CanonicalIsUnique | app/src/helpers/math.js:11-17 | two canonical numerals of the same number are the same string |
| DecimalPrinting.PrintThenParse | app/src/helpers/math.js:28-115 | printing an amount and parsing the result gives the amount back, so submitting the maximum is exact |
| DecimalPrinting.PrintingIsInjective | app/src/helpers/math.js:46-67 | two amounts print the same if and only if they are equal |
| Streaming.DepletionIsLastSecond | app/src/helpers/superfluid.js:61-76 | less than a second of flow is left at the depletion date if and only if the current balance is not negative or a whole number of seconds of flow; a second later one second of flow less |
| Streaming.DepletionDatesExactly | app/src/helpers/superfluid.js:61-76 | no date if and only if the stream does not drain; if the balance is worth s whole seconds of flow and converting does not throw, there is a date if and only if s seconds from the clock reading is within 100,000,000 days of the epoch, and that is the date |
| Streaming.DepletionThrowsExactly | app/src/helpers/superfluid.js:61-76 | computing the date throws if and only if the stream drains and its balance, or debt, is worth at least 2^53 milliseconds of its flow |
| Streaming.DepletionOnAnyClock | app/src/helpers/superfluid.js:61-76 | for every draining balance not negative that lasts less than 2^53 milliseconds and not beyond the last day, from any clock reading there is a date, and it is the last second with a balance not negative |
| Streaming.DepletionIgnoresTheClock | app/src/helpers/superfluid.js:66-75 | the date falls in the same second whichever clock reading it is computed from |
| Conversion.ConversionIsTruncation | app/src/helpers/conversion.js:59-74 | the conversion is the truncation of the amount times the exact decimal rate |
| Conversion.ConvertedStreamDrift | app/src/hooks/useSuperTokenItems.js:47-50 | streaming the converted balance for t seconds differs from converting the streamed balance by at most t units |
| SuperfluidApp.Superfluid.Initialize | contracts/Superfluid.sol:52-66 | equals the specified call, whose exact condition and lasting effect AdministrationExactly and AddressesOverRuns prove |
| SuperfluidApp.Superfluid.Deposit | contracts/Superfluid.sol:74-91 | equals the specified call, whose net effect and exact success condition Custody proves; a failure after the pull restores every field |
| SuperfluidApp.Superfluid.Withdraw | contracts/Superfluid.sol:99-107 | equals the specified call; a failure changes nothing |
| SuperfluidApp.Superfluid.Upgrade | contracts/Superfluid.sol:114-128 | equals the specified call, whose net effect is a swap on the agent's account; a failure midway restores every field |
| SuperfluidApp.Superfluid.Downgrade | contracts/Superfluid.sol:135-147 | equals the specified call, the inverse of upgrading; a failure midway restores every field |
| SuperfluidApp.Superfluid.CreateFlow | contracts/Superfluid.sol:156-171 | equals the specified guarded call for a new flow from the agent, or changes nothing |
| SuperfluidApp.Superfluid.UpdateFlow | contracts/Superfluid.sol:180-195 | equals the specified guarded call for a new rate of the agent's flow, or changes nothing |
| SuperfluidApp.Superfluid.DeleteFlow | contracts/Superfluid.sol:202-216 | equals the specified guarded call to close the agent's flow, or changes nothing |
| SuperfluidApp.Superfluid.DeleteOwnFlow | contracts/Superfluid.sol:222-236 | anyone may ask, through the guarded call, to close the agent's flow to themselves, if there is one |
| SuperfluidApp.Superfluid.SetAgent | contracts/Superfluid.sol:238-243 | equals the specified call, whose role, contract guard and lasting effect AdministrationExactly and AgentOverRuns prove |
| SuperfluidApp.Superfluid.CallAgreement | contracts/Superfluid.sol:245-250 | runs the agent's own guarded call on the host: whatever the host does, no protected balance of the agent is lower afterwards, and a refused call changes nothing |
| Custody.StepEffect | contracts/Superfluid.sol:74-147 | the stepwise moves of any successful call come to one closed-form net effect on every balance and every token's total |
| Custody.SucceedsExactly | contracts/Superfluid.sol:74-147 | a token-moving call succeeds if and only if the app is initialised, the caller has the call's role, the token is a super token, the amount is positive and the funds are there at the start: no later step can fail |
| Custody.GuardOverRuns | contracts/Superfluid.sol:74-250 | over every run, whatever the host does and whoever asks for flows, while no role holder replaces the agent its balance of a protected token is at least what deposits, withdrawals and wrapping make it; without withdrawals or wrapping by a role holder it never falls |
| Custody.FlowCallSucceedsExactly | contracts/Superfluid.sol:156-250 | in every reachable state, on a genuine host: the exact condition for each flow call, in which the guard only matters for a protected host and the self-flow test only for opening; and the call changes that one flow and nothing else |
| Custody.CreateThenDelete | contracts/Superfluid.sol:156-236 | an opened flow can be closed at once by the manager and by its receiver, and either restores the whole state |
| Custody.NoAllowanceLeft | contracts/Superfluid.sol:88-90 | the app spends exactly what it approves |
| Custody.AppGainsOnlyByWithdrawal | contracts/Superfluid.sol:99-107 | the app gains a balance if and only if someone withdraws to it |
| Custody.ReserveStep | contracts/Superfluid.sol:121-127 | a wrapped token's uncovered total never grows, and is unchanged except by a withdrawal of its underlying to it |
| Custody.CustodyOverRuns | contracts/Superfluid.sol:74-147 | over every run: no allowance left, wrapped tokens never lose cover and keep exactly theirs unless their underlying is withdrawn to them, other totals conserved, and without withdrawals to the app no balance of the app grows |
| Custody.UpgradeThenDowngrade | contracts/Superfluid.sol:114-147 | downgrading what was just upgraded succeeds and restores every balance |
| Custody.NothingBeforeInitialize | contracts/Superfluid.sol:52-66 | a run leaves the state untouched until an initialisation, which puts contracts in all three fields |
| Custody.InitializesOnce | contracts/Superfluid.sol:52-66 | initialisation succeeds at most once in a run |
| Custody.FixedOnceInitialized | contracts/Superfluid.sol:238-243 | host and agreement never change afterwards and the agent stays a contract |
| Custody.AgentOverRuns | contracts/Superfluid.sol:238-243 | over every run the agent is the one the last replacement by a holder of the role for it names; without one it never changes |
| Custody.AddressesOverRuns | contracts/Superfluid.sol:52-66 | after a run's initialisation, whatever follows, host and agreement are the ones it was given, and the agent the one it was given or the last replacement names |
| Custody.RolelessStep | contracts/Superfluid.sol:222-236 | a caller with no role lowers no balance of the agent and closes at most the flow paid to itself |
| Custody.RolelessRuns | contracts/Superfluid.sol:222-236 | the same over any run of callers without a role |
| ProtectedTokens.AddedIsInsertion | deployments/gnosis/solcInputs/4f313973666c0352c0b738c6c772d29f.json:5 | adding puts exactly the token behind the others, and succeeds exactly below the cap of ten for a new ERC-20 token |
| ProtectedTokens.RemovedIsDeletion | deployments/gnosis/solcInputs/4f313973666c0352c0b738c6c772d29f.json:5 | the swap-removal deletes exactly the token and moves no other entry but the last |
| ProtectedTokens.ListStaysSound | deployments/gnosis/solcInputs/4f313973666c0352c0b738c6c772d29f.json:5 | over any run the list has no duplicates and at most ten entries |
| ProtectedTokens.Agent.AddProtectedToken | deployments/gnosis/solcInputs/4f313973666c0352c0b738c6c772d29f.json:5 | the token is added exactly with permission, below the cap, if new and ERC-20; otherwise the list is unchanged |
| ProtectedTokens.Agent.RemoveProtectedToken | deployments/gnosis/solcInputs/4f313973666c0352c0b738c6c772d29f.json:5 | the token is removed exactly with permission and if listed; otherwise the list is unchanged |
| ProtectedTokens.Agent.SafeExecute | deployments/gnosis/solcInputs/4f313973666c0352c0b738c6c772d29f.json:5 | for any behaviour of the called contract the snapshot and comparison loops stand if and only if the list is unchanged and no protected balance is lower, else everything is rolled back |
| EvmScript.ExecScript | deployments/gnosis/solcInputs/4f313973666c0352c0b738c6c772d29f.json:110 | the loop performs the framed calls in order on the world, or reverts |
| EvmScript.CallsAreTheFramedOnes | deployments/gnosis/solcInputs/4f313973666c0352c0b738c6c772d29f.json:110 | a script that goes through calls no blacklisted target; on a world that remembers its calls it makes exactly the framed ones in order, or none |
| EvmScript.ActionLayout | test/helpers/evmscript.ts:7-14 | an encoded action is its target and the last four bytes of its calldata's length, most significant byte first, then the calldata |
| EvmScript.ScriptIsIdAndBody | test/helpers/evmscript.ts:7-14 | the encoder's left fold is the id followed by the encoded actions |
| EvmScript.EncodedScriptRoundTrip | test/helpers/evmscript.ts:5-14 | interpreting an encoded script performs exactly its calls; the actions are read back if and only if every calldata is shorter than 2^32 |
| EvmScript.AcceptedExactlyEncodings | deployments/gnosis/solcInputs/4f313973666c0352c0b738c6c772d29f.json:110 | the framing accepts a script if and only if all of it after the id is an encoding, of one action list only |
| EndToEnd.AppDrivesAgreement | contracts/Superfluid.sol:156-250 | among any operations by others, the app changes the agreement only by the operations its successful flow calls ask for |
| EndToEnd.StoreMirrorsApp | app/src/store/event-handlers.js:4-39 | after any chain of app calls and other parties' operations, a store fed any merge of the emitted events mirrors the agent's live flows, incoming and outgoing |
| EndToEnd.UpgradesLoseTheList | contracts/Superfluid.sol:114-128 | with the vault events of the app's calls delivered and data readable for super tokens only, the token list survives if and only if no successful upgrade has an underlying that is no super token |
| EndToEnd.UpgradeCanLoseTheList | app/src/store/updaters.js:154-168 | one upgrade of a plain token that loses the list |
| EndToEnd.UnannouncedChanges | contracts/Superfluid.sol:74-147 | each token-moving call makes the agent announce one token; a change of its balance goes unannounced if and only if it is the super token of an upgrade or the underlying of a downgrade |
| EndToEnd.InterfaceAfterRun | app/src/app-state-reducer.js:61-98 | after any run the reducer throws if and only if the list was missing, a read went unanswered, or a listed token's balance is worth at least 2^53 milliseconds of its outflow |
| EndToEnd.ShownTotalsAreHeld | app/src/components/Flows/index.js:228-242 | at any clock reading after the last event, the shown incoming totals of a token less the outgoing ones are the second-by-second sum of the net flow the store has held |
| EndToEnd.FormattedTokensAreTrue | app/src/app-state-reducer.js:61-98 | under any merge each formatted token has the rate the agent receives as inflow, the rate it sends as outflow, and the balance and date of the last read; its net flow is their difference if and only if the other direction's rate was kept |
| EndToEnd.FormattedDepletion | app/src/app-state-reducer.js:90-95 | the shown depletion date is about the shown balance, net flow and date |
| EndToEnd.ListedNetFlowsAgree | app/src/app-state-reducer.js:66-90 | in chain order every formatted net flow is the shown inflow less the shown outflow, which are the agreement's |

## Left out

- User interface: React components, panels, filters and identity providers.
- Token metadata, token lists, prices and settings: network reads, which either succeed or throw here.
- Correctness of stored balances: a balance is read at call time and dated by its event, so it is opaque.
- Sorting of the formatted tokens by symbol, and the formatting of dates.
- Spelling of addresses: lookups by raw text and by checksum are not told apart.
- Networks without preset tokens: the initial load then looks up an undefined address.
- The cached block number is set from Aragon's own sync event; `SessionsTile` and `SessionDelivery` take it to be the bound of the cached range.
- When Aragon caches the state (a restart here resumes from the state of the run so far), and what its store does after a rejected promise.
- Floating-point helpers, scientific notation and negative inputs to the string functions.
- Subscription and retry timing.
- Revert reasons: a revert carries no message here.
- The bytes of user data: an event carries the text they decode to, or that they do not decode.
- Vault events of calls that the app does not make, in `UpgradesLoseTheList`.
- ABI encoding otherwise, gas, proxies, signatures, ether in the vault, and the ACL's parameter language.
- Buffer deposits and streaming inside token balances: the ledger holds settled balances, and a genuine host changes no balance.
- Changes to an agent's list of protected tokens between the app's calls: `ListStaysSound` covers them apart from the app's runs.
- Wrapping that is not one to one, and wrapped native assets, whose upgrade and downgrade revert here.
- Tokens that return false or charge fees, and 256-bit overflow of balances.
- Agreement callbacks and liquidation by third parties, except as further agreement operations.
