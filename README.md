# AlphaAgent pipeline and mock dispatcher, modelled in Dafny

AlphaAgent runs three analysis agents on a stock ticker: industry, news and quant. It then hands their results to a judge agent that makes the final call. This project models two pieces of it:

- **The orchestrator hook** (`services/orchestrator.ts`). It owns one `PipelineState` record: the stock, an `isRunning` flag and four fixed agent slots (`industry`, `news`, `quant`, `judge`). Each slot is `pending`, `success` or `error`. A run does the following:
  - resets the record;
  - lets each sub-agent's settle handler write its own slot as soon as that agent settles;
  - waits for all three (`Promise.allSettled`);
  - runs the judge only if all three fulfilled, and otherwise writes the synthetic error "Dependency agent failed" into the judge slot;
  - clears `isRunning` in a `finally`.
- **The mock service** (`services/mockService.ts`). With no API key this stands in for the model. It classifies a response schema by its top-level property names, taking the first of eight keys in a fixed order. It returns a canned record whose enum fields are drawn at random from fixed lists.

Files:

- `wrappers.dfy`: `Option` and `Result`.
- `types.dfy`: the records of `types.ts`. Agent payloads are kept abstract (`Payload`).
- `orchestrator.dfy`: two parts.
  - Pure specification: `FreshState`, `Updated`, `SettleSlot`, `SettleAll`, `JudgeInputOf`, `JudgeStep`, `RunResult`, with lemmas about them.
  - The class `AgentOrchestrator`: a mutable `state` field and a ghost log of slot writes. Its methods `ResetState`, `UpdateAgent`, `SettleAgent` and `RunPipeline` change the state step by step. Each is proved to end in the state the specification functions describe.
- `agent_schemas.dfy`: the seven response schemas of `services/agents.ts`, as data (property names, nesting, enum lists).
- `mock_service.dfy`: `GetRandom`, the dispatch chain `ResponseKind`, a reference first-match scan `FirstMatch`, the record builders and `MockGenerateTypedResponse`.

How nondeterminism enters the model:

- **Concurrency.** The settlement order is an input. It is a sequence holding each sub-agent once (`IsSettlementOrder`), with its outcome and the `Date.now()` value its handler reads.
- **Agent outcomes.** An outcome is `Fulfilled(payload)` or `Rejected(reason)`. A reason either has a `message` (possibly undefined) or is null/undefined. In the second case, reading `err.message` in the handler itself throws. The judge's outcome is input too, and is arbitrary.
- **`Math.random()`.** Each draw is a `Roll`, a real in [0, 1). The mock takes a stream of rolls. Roll 0 is the latency draw; the builder uses the following ones in evaluation order.

Behaviour of the code worth noting, which the model follows as written:

- Results are not tagged with the run that produced them. `updateAgent` always writes (services/orchestrator.ts:42-47), so a late settlement from an earlier run would land in the current one; nothing about stale results is claimed.
- The judge needs all three sub-agents to fulfil (line 80); there is no partial-analysis path.
- An error that escapes the body does not mark pending slots as failed. The outer catch only logs (line 98), and the `finally` only clears `isRunning`.
- "No slot is left pending" therefore holds only when no rejection is null or undefined. `NoSlotLeftPending` proves it under that hypothesis. `NullishRejectionLeavesPending` exhibits a run that leaves a slot pending. The real agents reject with `Error` objects, so this path is not reached in practice.
- A run ends only if every agent settles; nothing times out (see "Left out").

## Model

| member | source | states |
|---|---|---|
| `Orchestrator.InitialState` | services/orchestrator.ts:22-29 | the hook starts with no stock, not running, every slot pending under its own agent name |
| `Orchestrator.FreshState` | services/orchestrator.ts:31-40 | after a reset the stock is the input and `isRunning` is true; every slot is pending with its fixed name, no data, no error, timestamp 0; it depends on nothing of the previous state |
| `Orchestrator.Merge` | services/orchestrator.ts:45 | the object spread: each key the patch carries takes the patch's value (an `error` carried as undefined clears it), every other key keeps the old value, and the timestamp is the new clock |
| `Orchestrator.MergeComposes` | services/orchestrator.ts:43-46 | two merges in a row equal one merge of the overlaid patches at the later time |
| `Orchestrator.Updated` | services/orchestrator.ts:42-47 | `updateAgent(k, patch)` changes slot `k` to the merge and leaves the stock, the flag and the other three slots unchanged |
| `Orchestrator.SettleSlot` | services/orchestrator.ts:56-76 | a handler leaves its slot `success` with the payload, or `error` with the rejection's message, keeping name and data or error otherwise, stamped with its clock; a nullish rejection leaves the slot untouched |
| `Orchestrator.SettleAllSlots` | services/orchestrator.ts:55-77 | after any sequence of handlers, each slot is exactly what its own settlement made of it; the stock and the flag are unchanged |
| `Orchestrator.HandlerPatch` | services/orchestrator.ts:56-76 | the patch each `then`/`catch` handler passes to `updateAgent`, or none when reading `err.message` throws; characterized by `SettleSlot` |
| `Orchestrator.ApplySettlement` | services/orchestrator.ts:56-76 | one handler's effect on the whole state; characterized, slot by slot, by `SettleAllSlots` |
| `Orchestrator.SettleAll` | services/orchestrator.ts:55-77 | the handlers applied in settlement order; characterized by `SettleAllSlots`, `SettleOrderIndependent` and `RunOrderIndependent` |
| `Orchestrator.SettleOrderIndependent` | services/orchestrator.ts:55-77 | two settlement orders holding the same settlements, clock readings included, give the same state after all three settle |
| `Orchestrator.GateOpensIffAllFulfilled` | services/orchestrator.ts:80 | the judge is invoked if and only if all three sub-agents fulfilled |
| `Orchestrator.GateOpensIffEverySettlementFulfilled` | services/orchestrator.ts:80 | over a settlement order, the judge is invoked if and only if every settlement in it is a fulfilment |
| `Orchestrator.JudgeInputOf` | services/orchestrator.ts:80-87 | when invoked, the judge receives exactly the three fulfilled values; its first argument, always the run's `{ ticker }`, is not part of `JudgeInput` |
| `Orchestrator.JudgeStep` | services/orchestrator.ts:79-96 | the dependency error when the gate is closed, otherwise the judge's own handler; characterized by `DependencyFailure` and `JudgeOutcome` |
| `Orchestrator.Stopped` | services/orchestrator.ts:100-102 | the `finally` updater; characterized by `RunStopsRunning` |
| `Orchestrator.RunResult` | services/orchestrator.ts:49-103 | the state a run that finishes ends in; characterized by the lemmas below and reached by `RunPipeline` |
| `Orchestrator.RunStopsRunning` | services/orchestrator.ts:98-102 | after a run in which every agent settles, the stock is `{ ticker }` and `isRunning` is false, including when the judge's handler throws |
| `Orchestrator.RunSubAgentSlot` | services/orchestrator.ts:56-76 | each sub-agent's final slot is its own settlement applied to its pending slot: success with payload or error with message, the agent name kept |
| `Orchestrator.SiblingIsolation` | services/orchestrator.ts:55-77 | two runs that differ only in how one sub-agent settles (outcome or clock) end with the same slot for each of its siblings |
| `Orchestrator.SameOutcomesSameGate` | services/orchestrator.ts:80-83 | the gate and the judge's arguments depend only on how each sub-agent settled, not on when or in what order |
| `Orchestrator.RunJudgeSlot` | services/orchestrator.ts:79-96 | the judge slot after a run depends on the gate alone, never on the sub-agents' slots |
| `Orchestrator.RunSubAgentClock` | services/orchestrator.ts:45 | a sub-agent's final slot, timestamp aside, depends only on its outcome; its timestamp is the clock its own handler read, or 0 if the handler threw before writing |
| `Orchestrator.RunOrderIndependent` | services/orchestrator.ts:49-103 | two runs in which each sub-agent settles the same way, in any order and at any clock readings, call the judge with the same arguments and end in the same state up to timestamps; the judge slot is identical and each sub-agent's timestamp is its own handler's clock |
| `Orchestrator.DependencyFailure` | services/orchestrator.ts:93-96 | if any sub-agent did not fulfil, the judge is not called and ends `error` with "Dependency agent failed"; the three sub-agent slots are as their handlers left them |
| `Orchestrator.JudgeOutcome` | services/orchestrator.ts:85-91 | with the gate open, the judge slot ends `success` with the judge payload or `error` with its message; a nullish judge rejection leaves it pending |
| `Orchestrator.NoSlotLeftPending` | services/orchestrator.ts:53-102 | when no rejection is null or undefined, no slot ends pending |
| `Orchestrator.NullishRejectionLeavesPending` | services/orchestrator.ts:59-61 | a sub-agent rejecting with undefined leaves its slot pending, while the judge gets the dependency error and `isRunning` ends false |
| `Orchestrator.RunWritesOnce` | services/orchestrator.ts:55-96 | each sub-agent slot is written exactly once per run (none for a nullish rejection); the judge slot is written at most once, and only as the last write, after all three have settled |
| `Orchestrator.AgentOrchestrator.constructor` | services/orchestrator.ts:22-29 | the new hook holds the initial state and no writes |
| `Orchestrator.AgentOrchestrator.ResetState` | services/orchestrator.ts:31-40 | replaces the whole record with the fresh state for the stock, whatever it held before |
| `Orchestrator.AgentOrchestrator.UpdateAgent` | services/orchestrator.ts:42-47 | the new state is the updater applied to the old one, and the write is logged |
| `Orchestrator.AgentOrchestrator.SettleAgent` | services/orchestrator.ts:56-76 | runs one sub-agent's handler chain: writes its slot (unless reading the message throws) and reports the value `allSettled` sees |
| `Orchestrator.AgentOrchestrator.RunPipeline` | services/orchestrator.ts:49-103 | a run ends in the specified final state, calls the judge with the gate's arguments (none when closed), performs exactly the specified writes, and ends with `isRunning` false |
| `MockService.GetRandom` | services/mockService.ts:15 | on a non-empty array the draw is an element of it; on an empty array it is undefined |
| `MockService.GetRandomReachesEvery` | services/mockService.ts:15 | every element of a non-empty array is drawn for some roll |
| `MockService.FirstMatchSpec` | services/mockService.ts:29-38 | the reference scan finds nothing exactly when no key is present, and otherwise returns the kind of the first present key |
| `MockService.PropertyNames` | services/mockService.ts:26 | the keys of `schema?.properties || {}`; characterized by `MissingPropertiesThrow` |
| `MockService.ResponseKind` | services/mockService.ts:26-38 | the if-chain as written; characterized by `ResponseKindIsFirstMatch`, `ThrowsIffNoKnownKey` and `JudgeOnlyAsLastResort` |
| `MockService.ResponseKindIsFirstMatch` | services/mockService.ts:29-38 | the if-chain equals the first-match scan over sectorTrend, sentiment, trendSignal, topCompetitors, primaryStrategy, turns, lessons, decision, throwing when it finds nothing |
| `MockService.MissingPropertiesThrow` | services/mockService.ts:26-38 | a missing schema, or one without `properties`, reads as no properties, and the dispatcher throws "could not determine response type" |
| `MockService.ThrowsIffNoKnownKey` | services/mockService.ts:29-38 | the dispatcher throws exactly when none of the eight keys is present |
| `MockService.DispatchIsFirstMatch` | services/mockService.ts:29-36 | whenever entry `i` is the first present key, its kind is returned |
| `MockService.JudgeOnlyAsLastResort` | services/mockService.ts:29-36 | the judge mock is returned if and only if `decision` is present and none of the seven earlier keys is |
| `MockService.IndustryBeatsJudge` | services/mockService.ts:29-36 | a schema with both `sectorTrend` and `decision` yields the industry mock |
| `MockService.IndustrySchemaRoutesToOwnMock` | services/agents.ts:27-37 | the industry agent's schema routes to the industry mock |
| `MockService.NewsSchemaRoutesToOwnMock` | services/agents.ts:60-69 | the news agent's schema routes to the news mock |
| `MockService.QuantSchemaRoutesToOwnMock` | services/agents.ts:88-98 | the quant agent's schema routes to the quant mock |
| `MockService.CompetitorSchemaRoutesToOwnMock` | services/agents.ts:120-137 | the competitor agent's schema routes to the competitor mock |
| `MockService.HedgingSchemaRoutesToOwnMock` | services/agents.ts:156-178 | the hedging agent's schema routes to the hedging mock |
| `MockService.DebateSchemaRoutesToOwnMock` | services/agents.ts:196-213 | the debate agent's schema routes to the debate mock |
| `MockService.JudgeSchemaRoutesToOwnMock` | services/agents.ts:240-262 | the judge agent's schema routes to the judge mock |
| `MockService.IndustryMock` | services/mockService.ts:41-49 | an industry record whose sector trend and regulatory risk are drawn from their lists |
| `MockService.NewsMock` | services/mockService.ts:51-62 | a news record with drawn sentiment and horizon and three fixed events |
| `MockService.QuantMock` | services/mockService.ts:64-72 | a quant record whose four signals are drawn from their lists, after the roll spent on the price |
| `MockService.BacktestMock` | services/mockService.ts:74-85 | a backtest record with score 75, a drawn bias and three fixed lessons |
| `MockService.JudgeMock` | services/mockService.ts:87-114 | a judge record with drawn decision and valuation, and reasoning that is the template filled with the drawn decision |
| `MockService.CompetitorMock` | services/mockService.ts:116-125 | a competitor record with three fixed competitors and a drawn market position |
| `MockService.HedgingMock` | services/mockService.ts:127-141 | the fixed hedging record; characterized by `NestedMockEnumsConform` |
| `MockService.DebateMock` | services/mockService.ts:143-154 | the fixed debate record; characterized by `NestedMockEnumsConform` and `MockListShapes` |
| `MockService.Build` | services/mockService.ts:29-36 | the builder chosen for a kind returns a record of that kind |
| `MockService.MockGenerateTypedResponse` | services/mockService.ts:17-39 | a record is returned exactly when the dispatcher finds a kind, and it is of that kind; otherwise the result is the "could not determine" error |
| `MockService.ChoicesWithinSchemaEnums` | services/mockService.ts:43-123 | every list a builder draws from is contained in the corresponding schema enum |
| `MockService.MockEnumsConform` | services/mockService.ts:41-125 | for every sequence of rolls, each drawn enum field of each canned record is a member of its schema's enum |
| `MockService.NestedMockEnumsConform` | services/mockService.ts:127-154 | the debate speakers and the hedging costs are members of the enums the nested `turns` and strategy schemas declare |
| `MockService.MockEnumsProperSubset` | services/mockService.ts:87-124 | the mocks never produce `marketPosition` 'Laggard' or judge `valuation` UNKNOWN, though both schemas allow them |
| `MockService.MockListShapes` | services/mockService.ts:51-154 | news has three `topEvents`, competitor has three `topCompetitors`, and the debate has four turns alternating Bull, Bear, starting with Bull |

## Left out

- Prompt text, model calls and the `lang` argument of services/agents.ts. Every agent, the judge included, is an outcome given as input. The mismatch between the judge call at services/orchestrator.ts:87 (four arguments) and its eight parameters at services/agents.ts:230-239 is not encoded. The judge's outcome stays arbitrary.
- services/geminiService.ts (network client, API key, `JSON.parse`), and all UI components.
- Real concurrency, timing and randomness:
  - `Promise.allSettled` scheduling becomes the settlement-order input;
  - `Date.now()` becomes a clock value per write;
  - `Math.random()` becomes a `Roll`;
  - the simulated latency and the console log of the mock are not modelled.
- React's batching of `setState`. Updates are applied one at a time, in the order the code issues them.
- Runs in which a sub-agent or the judge never settles. No call has a timeout, so then `Promise.allSettled` (services/orchestrator.ts:55) or the judge's `await` (line 87) never resolves, and `isRunning` stays true. A settlement order holds all three sub-agents, and the judge's outcome is always given.
- Cross-run interleaving. One run is modelled at a time. A second `runPipeline` started while one is in flight is not modelled.
- Payload shapes. types.ts disagrees with the quant schema, so payloads are abstract.
- Fields holding floating-point numbers in the mocks: quant `currentPrice`, judge `confidence`, and the forecast prices. The rolls they consume are kept.
- MockService.GetRandom: `Math.floor(Math.random() * arr.length)` is computed on exact reals, not on binary floating point.
- The canned free text in the mocks is represented by the source line that holds it (`CannedText(line)`), not by its characters. The judge's reasoning is the template applied to the drawn decision (`JudgeReasoning(decision)`).
- MockService.PropertyNames: a property key counts as present whenever the schema lists it. The source tests the value for truthiness, and every schema in services/agents.ts gives each property an object value.
- The schemas' `type` and `required` entries. The dispatcher does not read them.
- The backtest agent's schema. No file of this model declares it; its mock is reachable through the `lessons` key.
