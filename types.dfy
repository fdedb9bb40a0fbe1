/**
 * The records shared by the orchestrator and its observers (types.ts).
 * Agent payloads are parsed JSON of varying shape; the model keeps them abstract.
 */
module Types {
  import opened Wrappers

  /** The three states an agent card can show. */
  datatype Status = Pending | Success | Error

  /** An agent's structured output, compared only for identity. */
  datatype Payload = Payload(json: string)

  /** One agent slot: `data` and `error` are optional keys, `timestamp` is milliseconds. */
  datatype AgentResponse = AgentResponse(
    agentName: string,
    status: Status,
    data: Option<Payload>,
    error: Option<string>,
    timestamp: int)

  datatype StockContext = StockContext(ticker: string, market: Option<string>)

  /** The single state cell of the orchestrator hook: the input, the running flag and four fixed slots. */
  datatype PipelineState = PipelineState(
    stock: Option<StockContext>,
    isRunning: bool,
    industry: AgentResponse,
    news: AgentResponse,
    quant: AgentResponse,
    judge: AgentResponse)
}
