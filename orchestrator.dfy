/**
 * The agent pipeline of services/orchestrator.ts.
 *
 * The hook keeps one `PipelineState` cell. A run resets it, starts the
 * industry, news and quant agents, lets each settle handler write its own
 * slot, waits for all three, then either runs the judge (all three
 * fulfilled) or marks the judge as failed, and finally clears `isRunning`.
 *
 * Concurrency is replaced by a settlement order: a sequence holding each
 * sub-agent once, with its outcome and the `Date.now()` value its handler
 * reads. The pure part (functions below) is the specification; the class
 * `AgentOrchestrator` changes the state step by step as the source does and
 * is proved to end in the state the functions describe.
 */
module Orchestrator {
  import opened Wrappers
  import opened Types

  /** The template of every slot: no name, pending, timestamp 0. */
  const InitialAgentState: AgentResponse := AgentResponse("", Pending, None, None, 0)

  /** The synthetic reason written into the judge slot when the gate is closed. */
  const DependencyFailed: string := "Dependency agent failed"

  /** The four fixed slots of the state. */
  datatype AgentKey = Industry | News | Quant | Judge

  function AgentName(k: AgentKey): string
  {
    match k
    case Industry => "Industry Agent"
    case News => "News Agent"
    case Quant => "Quant Agent"
    case Judge => "Judge Agent"
  }

  /** A slot as a reset leaves it: the template with the slot's own name. */
  function PendingSlot(k: AgentKey): AgentResponse
  {
    InitialAgentState.(agentName := AgentName(k), status := Pending)
  }

  function Slot(s: PipelineState, k: AgentKey): AgentResponse
  {
    match k
    case Industry => s.industry
    case News => s.news
    case Quant => s.quant
    case Judge => s.judge
  }

  /** `{ ...s, [k]: v }`: replaces one slot. */
  function WithSlot(s: PipelineState, k: AgentKey, v: AgentResponse): (r: PipelineState)
    ensures Slot(r, k) == v
    ensures forall j :: j != k ==> Slot(r, j) == Slot(s, j)
    ensures r.stock == s.stock && r.isRunning == s.isRunning
  {
    match k
    case Industry => s.(industry := v)
    case News => s.(news := v)
    case Quant => s.(quant := v)
    case Judge => s.(judge := v)
  }

  /** Two states that agree on the input, the flag and every slot are equal. */
  lemma SameSlotsSameState(s: PipelineState, t: PipelineState)
    requires s.stock == t.stock && s.isRunning == t.isRunning
    requires forall k :: Slot(s, k) == Slot(t, k)
    ensures s == t
  {
    assert Slot(s, Industry) == Slot(t, Industry);
    assert Slot(s, News) == Slot(t, News);
    assert Slot(s, Quant) == Slot(t, Quant);
    assert Slot(s, Judge) == Slot(t, Judge);
  }

  /** The state the hook is created with: no input, not running, every slot pending. */
  function InitialState(): (r: PipelineState)
    ensures r.stock == None && !r.isRunning
    ensures forall k :: Slot(r, k) == PendingSlot(k)
  {
    PipelineState(None, false, PendingSlot(Industry), PendingSlot(News), PendingSlot(Quant), PendingSlot(Judge))
  }

  /** The record `resetState(stock)` installs. Nothing of the previous state is an argument. */
  function FreshState(stock: StockContext): (r: PipelineState)
    ensures r.stock == Some(stock) && r.isRunning
    ensures forall k ::
      && Slot(r, k).agentName == AgentName(k)
      && Slot(r, k).status == Pending
      && Slot(r, k).data == None
      && Slot(r, k).error == None
      && Slot(r, k).timestamp == 0
  {
    PipelineState(Some(stock), true, PendingSlot(Industry), PendingSlot(News), PendingSlot(Quant), PendingSlot(Judge))
  }

  /**
   * A `Partial<AgentResponse>`: a `Some` field is a key the patch carries.
   * `error` can be carried with the value undefined (`error: err.message`
   * when the rejection has no message), hence the nested option.
   */
  datatype Patch = Patch(
    agentName: Option<string>,
    status: Option<Status>,
    data: Option<Payload>,
    error: Option<Option<string>>)

  /** One key of an object spread: the later object's key wins when it is present. */
  function Spread<T>(base: T, over: Option<T>): T
  {
    if over.Some? then over.value else base
  }

  /** `{ ...prev, ...patch, timestamp: now }`. */
  function Merge(prev: AgentResponse, patch: Patch, now: int): (r: AgentResponse)
    ensures patch.agentName.Some? ==> r.agentName == patch.agentName.value
    ensures patch.agentName.None? ==> r.agentName == prev.agentName
    ensures patch.status.Some? ==> r.status == patch.status.value
    ensures patch.status.None? ==> r.status == prev.status
    ensures patch.data.Some? ==> r.data == patch.data
    ensures patch.data.None? ==> r.data == prev.data
    ensures patch.error.Some? ==> r.error == patch.error.value
    ensures patch.error.None? ==> r.error == prev.error
    ensures r.timestamp == now
  {
    AgentResponse(
      Spread(prev.agentName, patch.agentName),
      Spread(prev.status, patch.status),
      Spread(prev.data, if patch.data.Some? then Some(patch.data) else None),
      Spread(prev.error, patch.error),
      now)
  }

  /** The patch two spreads in a row amount to: `{ ...p, ...q }`. */
  function Overlay(p: Patch, q: Patch): Patch
  {
    Patch(
      if q.agentName.Some? then q.agentName else p.agentName,
      if q.status.Some? then q.status else p.status,
      if q.data.Some? then q.data else p.data,
      if q.error.Some? then q.error else p.error)
  }

  /** Merging `p` and then `q` is merging their overlay once, at the later time. */
  lemma MergeComposes(prev: AgentResponse, p: Patch, q: Patch, t1: int, t2: int)
    ensures Merge(Merge(prev, p, t1), q, t2) == Merge(prev, Overlay(p, q), t2)
  {
  }

  /** The updater of `updateAgent(k, patch)`: merges the patch into slot `k` only. */
  function Updated(s: PipelineState, k: AgentKey, patch: Patch, now: int): (r: PipelineState)
    ensures Slot(r, k) == Merge(Slot(s, k), patch, now)
    ensures forall j :: j != k ==> Slot(r, j) == Slot(s, j)
    ensures r.stock == s.stock && r.isRunning == s.isRunning
  {
    WithSlot(s, k, Merge(Slot(s, k), patch, now))
  }

  /** `{ status: 'success', data }` */
  function SuccessPatch(d: Payload): Patch
  {
    Patch(None, Some(Success), Some(d), None)
  }

  /** `{ status: 'error', error: message }` */
  function ErrorPatch(message: Option<string>): Patch
  {
    Patch(None, Some(Error), None, Some(message))
  }

  /**
   * What an agent's promise settles with. A rejection value either has a
   * `message` property (possibly undefined) or is null/undefined, in which
   * case reading `err.message` itself throws.
   */
  datatype Rejection = Thrown(message: Option<string>) | Nullish
  datatype Outcome = Fulfilled(value: Payload) | Rejected(reason: Rejection)

  /** One settlement: which agent, how it settled, and the clock its handler reads. */
  datatype Settlement = Settlement(agent: AgentKey, outcome: Outcome, at: int)

  /** The patch a settle handler writes; None when `err.message` throws before the write. */
  function HandlerPatch(o: Outcome): Option<Patch>
  {
    match o
    case Fulfilled(d) => Some(SuccessPatch(d))
    case Rejected(Thrown(m)) => Some(ErrorPatch(m))
    case Rejected(Nullish) => None
  }

  /** The slot a settle handler leaves behind, given the slot it found. */
  function SettleSlot(prev: AgentResponse, o: Outcome, at: int): (r: AgentResponse)
    ensures o.Fulfilled? ==> r == prev.(status := Success, data := Some(o.value), timestamp := at)
    ensures o.Rejected? && o.reason.Thrown? ==>
      r == prev.(status := Error, error := o.reason.message, timestamp := at)
    ensures o == Rejected(Nullish) ==> r == prev
  {
    match HandlerPatch(o)
    case None => prev
    case Some(p) => Merge(prev, p, at)
  }

  /** The effect of one settle handler on the whole state. */
  function ApplySettlement(s: PipelineState, e: Settlement): PipelineState
  {
    match HandlerPatch(e.outcome)
    case None => s
    case Some(p) => Updated(s, e.agent, p, e.at)
  }

  /** The handlers of `order`, run one after another. */
  function SettleAll(s: PipelineState, order: seq<Settlement>): PipelineState
  {
    if order == [] then s
    else ApplySettlement(SettleAll(s, order[..|order| - 1]), order[|order| - 1])
  }

  /** The settlement of agent `k` in `order`, searched from the end. */
  function Find(order: seq<Settlement>, k: AgentKey): Option<Settlement>
  {
    if order == [] then None
    else if order[|order| - 1].agent == k then Some(order[|order| - 1])
    else Find(order[..|order| - 1], k)
  }

  predicate DistinctSubAgents(order: seq<Settlement>)
  {
    && (forall i :: 0 <= i < |order| ==> order[i].agent != Judge)
    && (forall i, j :: 0 <= i < j < |order| ==> order[i].agent != order[j].agent)
  }

  /** A possible settlement order of `Promise.allSettled` over the three sub-agents. */
  predicate IsSettlementOrder(order: seq<Settlement>)
  {
    |order| == 3 && DistinctSubAgents(order)
  }

  lemma {:induction false} FindSpec(order: seq<Settlement>, k: AgentKey)
    ensures Find(order, k).Some? ==> Find(order, k).value in order && Find(order, k).value.agent == k
    ensures Find(order, k).None? <==> forall i :: 0 <= i < |order| ==> order[i].agent != k
  {
    if order != [] {
      var p := order[..|order| - 1];
      FindSpec(p, k);
      if order[|order| - 1].agent != k {
        assert forall i :: 0 <= i < |p| ==> p[i] == order[i];
      }
    }
  }

  /** In an order that names each agent at most once, an element is what `Find` returns for its agent. */
  lemma {:induction false} FindMember(order: seq<Settlement>, e: Settlement)
    requires DistinctSubAgents(order)
    requires e in order
    ensures Find(order, e.agent) == Some(e)
  {
    var p := order[..|order| - 1];
    if order[|order| - 1] != e {
      assert e in p;
      assert DistinctSubAgents(p);
      FindMember(p, e);
    } else {
      assert order[|order| - 1].agent == e.agent;
    }
  }

  /** Every sub-agent settles somewhere in a settlement order. */
  lemma OrderCovers(order: seq<Settlement>)
    requires IsSettlementOrder(order)
    ensures forall k :: k != Judge ==> Find(order, k).Some?
  {
    forall k | k != Judge
      ensures Find(order, k).Some?
    {
      FindSpec(order, k);
      var a, b, c := order[0].agent, order[1].agent, order[2].agent;
      assert k == a || k == b || k == c by {
        match k
        case Industry =>
        case News =>
        case Quant =>
      }
    }
  }

  /** The slot a handler run leaves, when the agent's settlement (if any) was found. */
  function SettledFrom(prev: AgentResponse, found: Option<Settlement>): AgentResponse
  {
    match found
    case None => prev
    case Some(e) => SettleSlot(prev, e.outcome, e.at)
  }

  /**
   * Per-slot isolation: after any sequence of handlers, each slot is what its
   * own settlement made of it, and the input, the flag and the untouched
   * slots are as before.
   */
  lemma {:induction false} SettleAllSlots(s: PipelineState, order: seq<Settlement>)
    requires DistinctSubAgents(order)
    ensures SettleAll(s, order).stock == s.stock
    ensures SettleAll(s, order).isRunning == s.isRunning
    ensures forall k :: Slot(SettleAll(s, order), k) == SettledFrom(Slot(s, k), Find(order, k))
  {
    if order != [] {
      var p, x := order[..|order| - 1], order[|order| - 1];
      assert DistinctSubAgents(p);
      SettleAllSlots(s, p);
      FindSpec(p, x.agent);
    }
  }

  /** Two orders that hold the same settlements end in the same state. */
  lemma SettleOrderIndependent(s: PipelineState, o1: seq<Settlement>, o2: seq<Settlement>)
    requires IsSettlementOrder(o1) && IsSettlementOrder(o2)
    requires multiset(o1) == multiset(o2)
    ensures SettleAll(s, o1) == SettleAll(s, o2)
    ensures forall k :: Find(o1, k) == Find(o2, k)
  {
    forall k
      ensures Find(o1, k) == Find(o2, k)
    {
      FindSpec(o1, k);
      FindSpec(o2, k);
      if k != Judge {
        OrderCovers(o1);
        var e := Find(o1, k).value;
        assert e in multiset(o2);
        FindMember(o2, e);
      }
    }
    SettleAllSlots(s, o1);
    SettleAllSlots(s, o2);
    SameSlotsSameState(SettleAll(s, o1), SettleAll(s, o2));
  }

  /** The value `Promise.allSettled` reports for a settlement: its payload if it fulfilled. */
  function FulfilledValue(found: Option<Settlement>): Option<Payload>
  {
    if found.Some? && found.value.outcome.Fulfilled? then Some(found.value.outcome.value) else None
  }

  /** The three payloads the judge is called with. */
  datatype JudgeInput = JudgeInput(industry: Payload, news: Payload, quant: Payload)

  /** The all-required gate: the judge's arguments, or None when some sub-agent did not fulfil. */
  function JudgeInputOf(order: seq<Settlement>): (r: Option<JudgeInput>)
    ensures r.Some? ==>
      && Some(r.value.industry) == FulfilledValue(Find(order, Industry))
      && Some(r.value.news) == FulfilledValue(Find(order, News))
      && Some(r.value.quant) == FulfilledValue(Find(order, Quant))
  {
    var i, n, q := FulfilledValue(Find(order, Industry)), FulfilledValue(Find(order, News)),
                   FulfilledValue(Find(order, Quant));
    if i.Some? && n.Some? && q.Some? then Some(JudgeInput(i.value, n.value, q.value))
    else None
  }

  /** The gate opens exactly when all three sub-agents fulfilled. */
  lemma GateOpensIffAllFulfilled(order: seq<Settlement>)
    ensures JudgeInputOf(order).Some? <==> forall k :: k != Judge ==> FulfilledValue(Find(order, k)).Some?
  {
    if JudgeInputOf(order).Some? {
      forall k | k != Judge
        ensures FulfilledValue(Find(order, k)).Some?
      {
        match k
        case Industry =>
        case News =>
        case Quant =>
      }
    } else {
      var bad := if FulfilledValue(Find(order, Industry)).None? then Industry
                 else if FulfilledValue(Find(order, News)).None? then News else Quant;
      assert bad != Judge && FulfilledValue(Find(order, bad)).None?;
    }
  }

  /** Over a settlement order: the judge runs exactly when every settlement in it is a fulfilment. */
  lemma GateOpensIffEverySettlementFulfilled(order: seq<Settlement>)
    requires IsSettlementOrder(order)
    ensures JudgeInputOf(order).Some? <==> forall i :: 0 <= i < |order| ==> order[i].outcome.Fulfilled?
  {
    if JudgeInputOf(order).Some? {
      forall i | 0 <= i < |order|
        ensures order[i].outcome.Fulfilled?
      {
        FindMember(order, order[i]);
        var k := order[i].agent;
        assert FulfilledValue(Find(order, k)).Some? by {
          match k
          case Industry =>
          case News =>
          case Quant =>
        }
      }
    } else if forall i :: 0 <= i < |order| ==> order[i].outcome.Fulfilled? {
      OrderCovers(order);
      FindSpec(order, Industry);
      FindSpec(order, News);
      FindSpec(order, Quant);
      assert false;
    }
  }

  /** Steps 2 and 3: the gate's error, or the judge's own handler. */
  function JudgeStep(s: PipelineState, gate: Option<JudgeInput>, judge: Outcome, at: int): PipelineState
  {
    if gate.None? then Updated(s, Judge, ErrorPatch(Some(DependencyFailed)), at)
    else ApplySettlement(s, Settlement(Judge, judge, at))
  }

  /** The `finally` updater. */
  function Stopped(s: PipelineState): PipelineState
  {
    s.(isRunning := false)
  }

  /** The input `runPipeline(ticker)` builds. */
  function StockOf(ticker: string): StockContext
  {
    StockContext(ticker, None)
  }

  /** The state a whole run ends in. */
  function RunResult(ticker: string, order: seq<Settlement>, judge: Outcome, judgeAt: int): PipelineState
  {
    var settled := SettleAll(FreshState(StockOf(ticker)), order);
    Stopped(JudgeStep(settled, JudgeInputOf(order), judge, judgeAt))
  }

  /** The slots a handler run writes, in order. */
  function SettledWrites(order: seq<Settlement>): seq<AgentKey>
  {
    if order == [] then []
    else
      var e := order[|order| - 1];
      SettledWrites(order[..|order| - 1]) + (if HandlerPatch(e.outcome).Some? then [e.agent] else [])
  }

  /** The slots a whole run writes through `updateAgent`, in order. */
  function RunWrites(order: seq<Settlement>, judge: Outcome): seq<AgentKey>
  {
    SettledWrites(order)
      + (if JudgeInputOf(order).None? || HandlerPatch(judge).Some? then [Judge] else [])
  }

  // ---------------------------------------------------------------------------
  // Properties of a run

  /** The input is installed and the flag ends false; it is false whichever way the body ends. */
  lemma RunStopsRunning(ticker: string, order: seq<Settlement>, judge: Outcome, judgeAt: int)
    requires DistinctSubAgents(order)
    ensures RunResult(ticker, order, judge, judgeAt).stock == Some(StockContext(ticker, None))
    ensures !RunResult(ticker, order, judge, judgeAt).isRunning
  {
    SettleAllSlots(FreshState(StockOf(ticker)), order);
  }

  /**
   * Each sub-agent's final slot is its own settlement applied to its pending
   * slot: `success` with the payload, or `error` with the rejection's message,
   * the agent name kept, stamped with the handler's clock.
   */
  lemma RunSubAgentSlot(ticker: string, order: seq<Settlement>, judge: Outcome, judgeAt: int, k: AgentKey)
    requires IsSettlementOrder(order) && k != Judge
    ensures Find(order, k).Some?
    ensures var e := Find(order, k).value;
      Slot(RunResult(ticker, order, judge, judgeAt), k) == SettleSlot(PendingSlot(k), e.outcome, e.at)
    ensures var r := Slot(RunResult(ticker, order, judge, judgeAt), k); var e := Find(order, k).value;
      && r.agentName == AgentName(k)
      && (e.outcome.Fulfilled? ==> r.status == Success && r.data == Some(e.outcome.value) && r.error == None)
      && (e.outcome.Rejected? && e.outcome.reason.Thrown? ==>
            r.status == Error && r.error == e.outcome.reason.message && r.data == None)
  {
    OrderCovers(order);
    SettleAllSlots(FreshState(StockOf(ticker)), order);
  }

  /**
   * Isolation: two runs that differ only in how sub-agent `k` settles (say,
   * success in one and failure in the other, at another time) end with the
   * same slot for every sibling of `k`.
   */
  lemma SiblingIsolation(ticker: string, o1: seq<Settlement>, o2: seq<Settlement>,
                         judge: Outcome, judgeAt: int, k: AgentKey)
    requires IsSettlementOrder(o1) && IsSettlementOrder(o2)
    requires forall j :: j != Judge && j != k ==> Find(o1, j) == Find(o2, j)
    ensures forall j :: j != Judge && j != k ==>
      Slot(RunResult(ticker, o1, judge, judgeAt), j) == Slot(RunResult(ticker, o2, judge, judgeAt), j)
  {
    forall j | j != Judge && j != k
      ensures Slot(RunResult(ticker, o1, judge, judgeAt), j) == Slot(RunResult(ticker, o2, judge, judgeAt), j)
    {
      RunSubAgentSlot(ticker, o1, judge, judgeAt, j);
      RunSubAgentSlot(ticker, o2, judge, judgeAt, j);
    }
  }

  /** How agent `k` settled in `order`, if it did. */
  function OutcomeIn(order: seq<Settlement>, k: AgentKey): Option<Outcome>
  {
    if Find(order, k).Some? then Some(Find(order, k).value.outcome) else None
  }

  /** The clock agent `k`'s handler read in `order`; 0 when it did not settle. */
  function ClockIn(order: seq<Settlement>, k: AgentKey): int
  {
    if Find(order, k).Some? then Find(order, k).value.at else 0
  }

  /** A state with every slot's timestamp cleared. */
  function Untimed(s: PipelineState): (r: PipelineState)
    ensures r.stock == s.stock && r.isRunning == s.isRunning
    ensures forall k :: Slot(r, k) == Slot(s, k).(timestamp := 0)
  {
    s.(industry := s.industry.(timestamp := 0), news := s.news.(timestamp := 0),
       quant := s.quant.(timestamp := 0), judge := s.judge.(timestamp := 0))
  }

  /** The gate reads only how each sub-agent settled. */
  lemma SameOutcomesSameGate(o1: seq<Settlement>, o2: seq<Settlement>)
    requires forall k :: OutcomeIn(o1, k) == OutcomeIn(o2, k)
    ensures JudgeInputOf(o1) == JudgeInputOf(o2)
  {
    assert OutcomeIn(o1, Industry) == OutcomeIn(o2, Industry);
    assert OutcomeIn(o1, News) == OutcomeIn(o2, News);
    assert OutcomeIn(o1, Quant) == OutcomeIn(o2, Quant);
  }

  /** The judge slot after a run depends on the gate alone, not on the sub-agents' slots. */
  lemma RunJudgeSlot(ticker: string, order: seq<Settlement>, judge: Outcome, judgeAt: int)
    requires IsSettlementOrder(order)
    ensures Slot(RunResult(ticker, order, judge, judgeAt), Judge) ==
      Slot(JudgeStep(FreshState(StockOf(ticker)), JudgeInputOf(order), judge, judgeAt), Judge)
  {
    SettleAllSlots(FreshState(StockOf(ticker)), order);
    FindSpec(order, Judge);
  }

  /**
   * A sub-agent's final slot, timestamp aside, depends on its outcome alone;
   * its timestamp is the clock its handler read, or 0 if the handler threw.
   */
  lemma RunSubAgentClock(ticker: string, order: seq<Settlement>, judge: Outcome, judgeAt: int, k: AgentKey)
    requires IsSettlementOrder(order) && k != Judge
    ensures OutcomeIn(order, k).Some?
    ensures Slot(RunResult(ticker, order, judge, judgeAt), k).(timestamp := 0) ==
      SettleSlot(PendingSlot(k), OutcomeIn(order, k).value, 0)
    ensures Slot(RunResult(ticker, order, judge, judgeAt), k).timestamp ==
      if OutcomeIn(order, k) == Some(Rejected(Nullish)) then 0 else ClockIn(order, k)
  {
    RunSubAgentSlot(ticker, order, judge, judgeAt, k);
  }

  /**
   * Order independence: two runs in which each sub-agent settles the same
   * way, in whatever order and whatever the clock reads meanwhile, call the
   * judge with the same arguments and end in the same state up to
   * timestamps. The judge slot is identical, and each sub-agent's timestamp
   * is the clock its own handler read (its pending 0 when reading the
   * rejection's message threw before the write).
   */
  lemma RunOrderIndependent(ticker: string, o1: seq<Settlement>, o2: seq<Settlement>, judge: Outcome, judgeAt: int)
    requires IsSettlementOrder(o1) && IsSettlementOrder(o2)
    requires forall k :: OutcomeIn(o1, k) == OutcomeIn(o2, k)
    ensures JudgeInputOf(o1) == JudgeInputOf(o2)
    ensures Untimed(RunResult(ticker, o1, judge, judgeAt)) == Untimed(RunResult(ticker, o2, judge, judgeAt))
    ensures Slot(RunResult(ticker, o1, judge, judgeAt), Judge) == Slot(RunResult(ticker, o2, judge, judgeAt), Judge)
    ensures forall k :: k != Judge ==>
      && Slot(RunResult(ticker, o1, judge, judgeAt), k).timestamp ==
           (if OutcomeIn(o1, k) == Some(Rejected(Nullish)) then 0 else ClockIn(o1, k))
      && Slot(RunResult(ticker, o2, judge, judgeAt), k).timestamp ==
           (if OutcomeIn(o2, k) == Some(Rejected(Nullish)) then 0 else ClockIn(o2, k))
  {
    var r1, r2 := RunResult(ticker, o1, judge, judgeAt), RunResult(ticker, o2, judge, judgeAt);
    SameOutcomesSameGate(o1, o2);
    RunJudgeSlot(ticker, o1, judge, judgeAt);
    RunJudgeSlot(ticker, o2, judge, judgeAt);
    RunStopsRunning(ticker, o1, judge, judgeAt);
    RunStopsRunning(ticker, o2, judge, judgeAt);
    forall k | k != Judge
      ensures Slot(r1, k).(timestamp := 0) == Slot(r2, k).(timestamp := 0)
      ensures Slot(r1, k).timestamp == (if OutcomeIn(o1, k) == Some(Rejected(Nullish)) then 0 else ClockIn(o1, k))
      ensures Slot(r2, k).timestamp == (if OutcomeIn(o2, k) == Some(Rejected(Nullish)) then 0 else ClockIn(o2, k))
    {
      RunSubAgentClock(ticker, o1, judge, judgeAt, k);
      RunSubAgentClock(ticker, o2, judge, judgeAt, k);
    }
    SameSlotsSameState(Untimed(r1), Untimed(r2));
  }

  /**
   * A closed gate: when some sub-agent did not fulfil, the judge ends `error`
   * with the dependency reason, and the sub-agent slots stay as their
   * handlers left them.
   */
  lemma DependencyFailure(ticker: string, order: seq<Settlement>, judge: Outcome, judgeAt: int)
    requires IsSettlementOrder(order)
    requires exists k :: k != Judge && FulfilledValue(Find(order, k)).None?
    ensures JudgeInputOf(order) == None
    ensures var r := Slot(RunResult(ticker, order, judge, judgeAt), Judge);
      && r.status == Error && r.error == Some(DependencyFailed) && r.data == None
      && r.agentName == AgentName(Judge) && r.timestamp == judgeAt
    ensures forall k :: k != Judge ==>
      Slot(RunResult(ticker, order, judge, judgeAt), k) == Slot(SettleAll(FreshState(StockOf(ticker)), order), k)
  {
    OrderCovers(order);
    SettleAllSlots(FreshState(StockOf(ticker)), order);
    FindSpec(order, Judge);
  }

  /**
   * An open gate: the judge slot is `success` with the judge's payload,
   * `error` with its message, or, when reading the message throws, still
   * pending (the throw escapes to the outer catch).
   */
  lemma JudgeOutcome(ticker: string, order: seq<Settlement>, judge: Outcome, judgeAt: int)
    requires IsSettlementOrder(order)
    requires forall k :: k != Judge ==> FulfilledValue(Find(order, k)).Some?
    ensures JudgeInputOf(order).Some?
    ensures var r := Slot(RunResult(ticker, order, judge, judgeAt), Judge);
      && r.agentName == AgentName(Judge)
      && (judge.Fulfilled? ==> r.status == Success && r.data == Some(judge.value) && r.error == None)
      && (judge.Rejected? && judge.reason.Thrown? ==>
            r.status == Error && r.error == judge.reason.message && r.data == None)
      && (judge == Rejected(Nullish) ==> r == PendingSlot(Judge))
  {
    OrderCovers(order);
    SettleAllSlots(FreshState(StockOf(ticker)), order);
    FindSpec(order, Judge);
  }

  /** On the normal path, where no rejection is null or undefined, no slot is left pending. */
  lemma NoSlotLeftPending(ticker: string, order: seq<Settlement>, judge: Outcome, judgeAt: int)
    requires IsSettlementOrder(order)
    requires forall i :: 0 <= i < |order| ==> order[i].outcome != Rejected(Nullish)
    requires judge != Rejected(Nullish)
    ensures forall k :: Slot(RunResult(ticker, order, judge, judgeAt), k).status != Pending
  {
    forall k
      ensures Slot(RunResult(ticker, order, judge, judgeAt), k).status != Pending
    {
      if k == Judge {
        SettleAllSlots(FreshState(StockOf(ticker)), order);
      } else {
        RunSubAgentSlot(ticker, order, judge, judgeAt, k);
        FindSpec(order, k);
      }
    }
  }

  /**
   * The liveness promise has an exception: a sub-agent whose promise rejects
   * with `undefined` leaves its slot pending, although the run still ends
   * with `isRunning` false.
   */
  lemma NullishRejectionLeavesPending(ticker: string, d: Payload, judge: Outcome, judgeAt: int)
    ensures var order := [Settlement(Industry, Rejected(Nullish), 1), Settlement(News, Fulfilled(d), 2),
                          Settlement(Quant, Fulfilled(d), 3)];
      && IsSettlementOrder(order)
      && Slot(RunResult(ticker, order, judge, judgeAt), Industry).status == Pending
      && Slot(RunResult(ticker, order, judge, judgeAt), Judge).error == Some(DependencyFailed)
      && !RunResult(ticker, order, judge, judgeAt).isRunning
  {
    var order := [Settlement(Industry, Rejected(Nullish), 1), Settlement(News, Fulfilled(d), 2),
                  Settlement(Quant, Fulfilled(d), 3)];
    SettleAllSlots(FreshState(StockOf(ticker)), order);
    FindMember(order, order[0]);
  }

  /** A handler run never writes the judge slot, and writes each sub-agent at most once. */
  lemma {:induction false} SettledWritesCount(order: seq<Settlement>, k: AgentKey)
    requires DistinctSubAgents(order)
    ensures Judge !in SettledWrites(order)
    ensures multiset(SettledWrites(order))[k] ==
      if Find(order, k).Some? && HandlerPatch(Find(order, k).value.outcome).Some? then 1 else 0
  {
    if order != [] {
      var p := order[..|order| - 1];
      assert DistinctSubAgents(p);
      SettledWritesCount(p, k);
      var x := order[|order| - 1];
      if x.agent == k {
        FindSpec(p, k);
      }
    }
  }

  /**
   * Each sub-agent slot is written exactly once per run unless its rejection
   * is nullish; the judge slot is written at most once, and only as the last
   * write, after all three sub-agents have settled.
   */
  lemma RunWritesOnce(order: seq<Settlement>, judge: Outcome)
    requires IsSettlementOrder(order)
    ensures forall i :: 0 <= i < |order| ==>
      multiset(RunWrites(order, judge))[order[i].agent] == if order[i].outcome == Rejected(Nullish) then 0 else 1
    ensures multiset(RunWrites(order, judge))[Judge] <= 1
    ensures forall i :: 0 <= i < |RunWrites(order, judge)| && RunWrites(order, judge)[i] == Judge ==>
      i == |RunWrites(order, judge)| - 1
  {
    var w := SettledWrites(order);
    var last: seq<AgentKey> := if JudgeInputOf(order).None? || HandlerPatch(judge).Some? then [Judge] else [];
    assert RunWrites(order, judge) == w + last;
    assert multiset(w + last) == multiset(w) + multiset(last);
    SettledWritesCount(order, Judge);
    forall i | 0 <= i < |order|
      ensures multiset(w + last)[order[i].agent] == if order[i].outcome == Rejected(Nullish) then 0 else 1
    {
      FindMember(order, order[i]);
      SettledWritesCount(order, order[i].agent);
    }
  }

  // ---------------------------------------------------------------------------
  // The hook

  /** `useAgentOrchestrator`: the state cell and the operations that change it. */
  class AgentOrchestrator {
    var state: PipelineState
    /** The slots written through `updateAgent` since the last reset, in order. */
    ghost var writes: seq<AgentKey>

    constructor ()
      ensures state == InitialState() && writes == []
    {
      state := PipelineState(None, false, PendingSlot(Industry), PendingSlot(News),
                             PendingSlot(Quant), PendingSlot(Judge));
      writes := [];
    }

    /** Replaces the whole record: every slot pending, `isRunning` true. */
    method ResetState(stock: StockContext)
      modifies this
      ensures state == FreshState(stock) && writes == []
    {
      state := PipelineState(Some(stock), true, PendingSlot(Industry), PendingSlot(News),
                             PendingSlot(Quant), PendingSlot(Judge));
      writes := [];
    }

    /** Merges `patch` into slot `agent` and stamps it with `now`. */
    method UpdateAgent(agent: AgentKey, patch: Patch, now: int)
      modifies this
      ensures state == Updated(old(state), agent, patch, now)
      ensures writes == old(writes) + [agent]
    {
      var prev := Slot(state, agent);
      var next := AgentResponse(
        Spread(prev.agentName, patch.agentName),
        Spread(prev.status, patch.status),
        if patch.data.Some? then patch.data else prev.data,
        Spread(prev.error, patch.error),
        now);
      match agent {
        case Industry => state := state.(industry := next);
        case News => state := state.(news := next);
        case Quant => state := state.(quant := next);
        case Judge => state := state.(judge := next);
      }
      writes := writes + [agent];
    }

    /**
     * The `.then`/`.catch` handlers of one sub-agent. Returns the payload
     * when the handler chain fulfils, None when it rejects (rethrown error,
     * or the TypeError of reading `message` on a nullish rejection).
     */
    method SettleAgent(e: Settlement) returns (fulfilled: Option<Payload>)
      modifies this
      ensures state == ApplySettlement(old(state), e)
      ensures writes == old(writes) + (if HandlerPatch(e.outcome).Some? then [e.agent] else [])
      ensures fulfilled == FulfilledValue(Some(e))
    {
      match e.outcome
      case Fulfilled(d) =>
        UpdateAgent(e.agent, SuccessPatch(d), e.at);
        fulfilled := Some(d);
      case Rejected(Thrown(m)) =>
        UpdateAgent(e.agent, ErrorPatch(m), e.at);
        fulfilled := None;
      case Rejected(Nullish) =>
        fulfilled := None;
    }

    /**
     * One run: reset, the three handlers in settlement order, the gate, the
     * judge, and the `finally`. Returns the arguments the judge was called
     * with, None when it was not called.
     */
    method RunPipeline(ticker: string, order: seq<Settlement>, judge: Outcome, judgeAt: int)
      returns (judgeCall: Option<JudgeInput>)
      requires IsSettlementOrder(order)
      modifies this
      ensures state == RunResult(ticker, order, judge, judgeAt)
      ensures judgeCall == JudgeInputOf(order)
      ensures writes == RunWrites(order, judge)
      ensures !state.isRunning
    {
      var stock := StockContext(ticker, None);
      ResetState(stock);

      // 1. the sub-agents settle, each handler writing its own slot at once
      var settled: map<AgentKey, Option<Payload>> := map[];
      var i := 0;
      while i < |order|
        invariant 0 <= i <= |order|
        invariant state == SettleAll(FreshState(stock), order[..i])
        invariant writes == SettledWrites(order[..i])
        invariant forall k :: k in settled <==> Find(order[..i], k).Some?
        invariant forall k :: k in settled ==> settled[k] == FulfilledValue(Find(order[..i], k))
      {
        assert order[..i + 1][..i] == order[..i];
        var fulfilled := SettleAgent(order[i]);
        settled := settled[order[i].agent := fulfilled];
        i := i + 1;
      }
      assert order[..i] == order;
      OrderCovers(order);
      assert Industry in settled && News in settled && Quant in settled;

      // 2. the all-required gate
      if settled[Industry].Some? && settled[News].Some? && settled[Quant].Some? {
        judgeCall := Some(JudgeInput(settled[Industry].value, settled[News].value, settled[Quant].value));
        // 3. the judge; a TypeError from `err.message` escapes to the outer catch
        match judge
        case Fulfilled(d) =>
          UpdateAgent(Judge, SuccessPatch(d), judgeAt);
        case Rejected(Thrown(m)) =>
          UpdateAgent(Judge, ErrorPatch(m), judgeAt);
        case Rejected(Nullish) =>
      } else {
        judgeCall := None;
        UpdateAgent(Judge, ErrorPatch(Some(DependencyFailed)), judgeAt);
      }

      // finally
      state := state.(isRunning := false);
    }
  }
}
