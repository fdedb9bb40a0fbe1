/**
 * The response schemas the agents of services/agents.ts declare, as data.
 * Only the shape the mock dispatcher reads is kept: the property names, the
 * nesting, and the enum lists of string properties. Prompts and model calls
 * are not part of this model.
 */
module AgentSchemas {
  import opened Wrappers

  /** One property of a schema. `enumValues` is None when the string is free text. */
  datatype PropertySchema =
    | StringProp(enumValues: Option<seq<string>>)
    | NumberProp
    | ArrayProp(items: PropertySchema)
    | ObjectProp(properties: map<string, PropertySchema>)

  /** A schema as the dispatcher receives it; `properties` may be missing. */
  datatype Schema = Schema(properties: Option<map<string, PropertySchema>>)

  /** The enum list of string property `name` among `props`, empty when it has none. */
  function PropEnum(props: map<string, PropertySchema>, name: string): seq<string>
  {
    if name in props && props[name].StringProp? && props[name].enumValues.Some?
    then props[name].enumValues.value
    else []
  }

  /** The enum list of a top-level string property, empty when it has none. */
  function EnumOf(schema: Schema, name: string): seq<string>
  {
    if schema.properties.Some? then PropEnum(schema.properties.value, name) else []
  }

  /**
   * The enum list of string property `inner` of the object property `outer`,
   * or of the objects an array property `outer` holds; empty when it has none.
   */
  function NestedEnumOf(schema: Schema, outer: string, inner: string): seq<string>
  {
    if schema.properties.Some? && outer in schema.properties.value then
      match schema.properties.value[outer]
      case ObjectProp(props) => PropEnum(props, inner)
      case ArrayProp(ObjectProp(props)) => PropEnum(props, inner)
      case _ => []
    else []
  }

  function FreeText(): PropertySchema { StringProp(None) }

  // Enum lists, in the order the schemas give them.
  const SectorTrendEnum: seq<string> := ["Bullish", "Neutral", "Bearish"]
  const RiskLevelEnum: seq<string> := ["Low", "Medium", "High"]
  const SentimentEnum: seq<string> := ["POSITIVE", "NEUTRAL", "NEGATIVE"]
  const ImpactHorizonEnum: seq<string> := ["Short", "Medium", "Long"]
  const TrendSignalEnum: seq<string> := ["Strong Uptrend", "Weak Uptrend", "Neutral", "Downtrend"]
  const VolatilitySignalEnum: seq<string> := ["Low (Stable)", "Medium", "High (Risky)"]
  const VolumeSignalEnum: seq<string> := ["High (Confirmed)", "Neutral", "Low (Diverging)"]
  const ValuationSignalEnum: seq<string> := ["Cheap", "Fair", "Expensive"]
  const MarketPositionEnum: seq<string> := ["Leader", "Challenger", "Laggard", "Niche Player"]
  const SpeakerEnum: seq<string> := ["Bull", "Bear"]
  const DecisionEnum: seq<string> := ["BUY", "HOLD", "AVOID", "WATCH"]
  const ValuationEnum: seq<string> := ["UNDERPRICED", "FAIR", "OVERPRICED", "UNKNOWN"]

  const IndustrySchema: Schema := Schema(Some(map[
    "sectorTrend" := StringProp(Some(SectorTrendEnum)),
    "marketOutlook" := FreeText(),
    "industryGrowth" := FreeText(),
    "regulatoryRisk" := StringProp(Some(RiskLevelEnum)),
    "summary" := FreeText()]))

  const NewsSchema: Schema := Schema(Some(map[
    "sentiment" := StringProp(Some(SentimentEnum)),
    "topEvents" := ArrayProp(FreeText()),
    "impactHorizon" := StringProp(Some(ImpactHorizonEnum)),
    "summary" := FreeText()]))

  const QuantSchema: Schema := Schema(Some(map[
    "currentPrice" := NumberProp,
    "trendSignal" := StringProp(Some(TrendSignalEnum)),
    "volatilitySignal" := StringProp(Some(VolatilitySignalEnum)),
    "volumeSignal" := StringProp(Some(VolumeSignalEnum)),
    "valuationSignal" := StringProp(Some(ValuationSignalEnum))]))

  const CompetitorSchema: Schema := Schema(Some(map[
    "topCompetitors" := ArrayProp(ObjectProp(map[
      "name" := FreeText(),
      "ticker" := FreeText(),
      "comparison" := FreeText()])),
    "marketPosition" := StringProp(Some(MarketPositionEnum))]))

  /** The shape of one hedging strategy. */
  const StrategyProperties: map<string, PropertySchema> := map[
    "type" := FreeText(),
    "description" := FreeText(),
    "cost" := StringProp(Some(RiskLevelEnum))]

  const HedgingSchema: Schema := Schema(Some(map[
    "primaryStrategy" := ObjectProp(StrategyProperties),
    "alternativeStrategy" := ObjectProp(StrategyProperties),
    "rationale" := FreeText()]))

  /** The shape of one debate turn. */
  const TurnProperties: map<string, PropertySchema> := map[
    "speaker" := StringProp(Some(SpeakerEnum)),
    "argument" := FreeText()]

  const DebateSchema: Schema := Schema(Some(map[
    "topic" := FreeText(),
    "turns" := ArrayProp(ObjectProp(TurnProperties)),
    "conclusion" := FreeText()]))

  const JudgeSchema: Schema := Schema(Some(map[
    "decision" := StringProp(Some(DecisionEnum)),
    "confidence" := NumberProp,
    "valuation" := StringProp(Some(ValuationEnum)),
    "keyDrivers" := ArrayProp(FreeText()),
    "risks" := ArrayProp(FreeText()),
    "reasoning" := FreeText(),
    "forecast" := ObjectProp(map[
      "currentPrice" := NumberProp,
      "targetPrice" := NumberProp,
      "bullCase" := NumberProp,
      "bearCase" := NumberProp,
      "timeframe" := FreeText()])]))
}
