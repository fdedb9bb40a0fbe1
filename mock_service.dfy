/**
 * The offline stand-in for the text-generation service (services/mockService.ts).
 *
 * `mockGenerateTypedResponse` guesses which agent is asking from the top-level
 * property names of the schema, first match in a fixed order of eight keys,
 * and returns a canned record whose enum fields are drawn at random.
 * `Math.random()` becomes a stream of rolls in [0, 1): roll 0 is spent on the
 * simulated latency, the builder consumes the following ones in the order
 * its record literal evaluates them. Fields holding floating-point numbers
 * are not modelled, but the rolls they consume are.
 */
module MockService {
  import opened Wrappers
  import opened AgentSchemas

  /** A value of `Math.random()`. */
  type Roll = r: real | 0.0 <= r < 1.0 witness 0.0

  /** `arr[Math.floor(Math.random() * arr.length)]`: undefined on an empty array. */
  function GetRandom<T>(arr: seq<T>, roll: Roll): (r: Option<T>)
    ensures r.None? <==> |arr| == 0
    ensures r.Some? ==> r.value in arr
  {
    if |arr| == 0 then None
    else
      var n := |arr| as real;
      assert roll * n < n by {
        assert (1.0 - roll) * n > 0.0;
      }
      Some(arr[(roll * n).Floor])
  }

  /** Every element of a non-empty array is drawn for some roll. */
  lemma GetRandomReachesEvery<T>(arr: seq<T>, i: nat)
    requires i < |arr|
    ensures exists roll: Roll :: GetRandom(arr, roll) == Some(arr[i])
  {
    var n := |arr| as real;
    var roll: Roll := i as real / n;
    assert roll * n == i as real;
    assert GetRandom(arr, roll) == Some(arr[i]);
  }

  // ---------------------------------------------------------------------------
  // Dispatch

  /** Which canned record a schema asks for. */
  datatype MockKind = IndustryKind | NewsKind | QuantKind | CompetitorKind
                    | HedgingKind | DebateKind | BacktestKind | JudgeKind

  const UndeterminedType: string := "Mock service could not determine response type from schema"

  /** `schema?.properties || {}`: a missing schema or missing properties read as none. */
  function PropertyNames(schema: Option<Schema>): set<string>
  {
    if schema.Some? && schema.value.properties.Some? then schema.value.properties.value.Keys else {}
  }

  /** The if-chain of `mockGenerateTypedResponse`, as written. */
  function ResponseKind(schema: Option<Schema>): Result<MockKind, string>
  {
    var p := PropertyNames(schema);
    if "sectorTrend" in p then Ok(IndustryKind)
    else if "sentiment" in p then Ok(NewsKind)
    else if "trendSignal" in p then Ok(QuantKind)
    else if "topCompetitors" in p then Ok(CompetitorKind)
    else if "primaryStrategy" in p then Ok(HedgingKind)
    else if "turns" in p then Ok(DebateKind)
    else if "lessons" in p then Ok(BacktestKind)
    else if "decision" in p then Ok(JudgeKind)
    else Err(UndeterminedType)
  }

  /** The priority order of the dispatch, as data. */
  const DispatchOrder: seq<(string, MockKind)> := [
    ("sectorTrend", IndustryKind), ("sentiment", NewsKind), ("trendSignal", QuantKind),
    ("topCompetitors", CompetitorKind), ("primaryStrategy", HedgingKind), ("turns", DebateKind),
    ("lessons", BacktestKind), ("decision", JudgeKind)]

  /** Entry `i` of `order` is the first whose key is among `names`. */
  ghost predicate FirstMatchAt(order: seq<(string, MockKind)>, names: set<string>, i: int)
  {
    && 0 <= i < |order|
    && order[i].0 in names
    && forall j :: 0 <= j < i ==> order[j].0 !in names
  }

  /** A reference dispatcher: scan `order` from the front. */
  function FirstMatch(order: seq<(string, MockKind)>, names: set<string>): Option<MockKind>
  {
    if order == [] then None
    else if order[0].0 in names then Some(order[0].1)
    else FirstMatch(order[1..], names)
  }

  /** The scan returns the kind of the first entry whose key is present, and nothing when none is. */
  lemma {:induction false} FirstMatchSpec(order: seq<(string, MockKind)>, names: set<string>)
    ensures FirstMatch(order, names).None? <==> forall i :: 0 <= i < |order| ==> order[i].0 !in names
    ensures forall i :: FirstMatchAt(order, names, i) ==> FirstMatch(order, names) == Some(order[i].1)
  {
    if order != [] {
      FirstMatchSpec(order[1..], names);
      if order[0].0 !in names {
        forall i | FirstMatchAt(order, names, i)
          ensures FirstMatch(order, names) == Some(order[i].1)
        {
          assert FirstMatchAt(order[1..], names, i - 1);
        }
      }
    }
  }

  /** The if-chain is the first-match scan over the fixed priority order. */
  lemma ResponseKindIsFirstMatch(schema: Option<Schema>)
    ensures ResponseKind(schema) ==
      match FirstMatch(DispatchOrder, PropertyNames(schema))
      case Some(k) => Ok(k)
      case None => Err(UndeterminedType)
  {
    var o, p := DispatchOrder, PropertyNames(schema);
    assert o[8..] == [];
    assert FirstMatch(o[7..], p) == if "decision" in p then Some(JudgeKind) else FirstMatch(o[8..], p);
    assert FirstMatch(o[6..], p) == if "lessons" in p then Some(BacktestKind) else FirstMatch(o[7..], p);
    assert FirstMatch(o[5..], p) == if "turns" in p then Some(DebateKind) else FirstMatch(o[6..], p);
    assert FirstMatch(o[4..], p) == if "primaryStrategy" in p then Some(HedgingKind) else FirstMatch(o[5..], p);
    assert FirstMatch(o[3..], p) == if "topCompetitors" in p then Some(CompetitorKind) else FirstMatch(o[4..], p);
    assert FirstMatch(o[2..], p) == if "trendSignal" in p then Some(QuantKind) else FirstMatch(o[3..], p);
    assert FirstMatch(o[1..], p) == if "sentiment" in p then Some(NewsKind) else FirstMatch(o[2..], p);
  }

  /** With no schema, or a schema without properties, the dispatcher throws. */
  lemma MissingPropertiesThrow(schema: Option<Schema>)
    requires schema.None? || schema.value.properties.None?
    ensures ResponseKind(schema) == Err(UndeterminedType)
  {
  }

  /** The dispatcher throws exactly when none of the eight keys is present. */
  lemma ThrowsIffNoKnownKey(schema: Option<Schema>)
    ensures ResponseKind(schema).Err? <==>
      forall i :: 0 <= i < |DispatchOrder| ==> DispatchOrder[i].0 !in PropertyNames(schema)
    ensures ResponseKind(schema).Err? ==> ResponseKind(schema).error == UndeterminedType
  {
    ResponseKindIsFirstMatch(schema);
    FirstMatchSpec(DispatchOrder, PropertyNames(schema));
  }

  /** Dispatch is first-match: the kind of any first present key wins over later keys. */
  lemma DispatchIsFirstMatch(schema: Option<Schema>, i: int)
    requires FirstMatchAt(DispatchOrder, PropertyNames(schema), i)
    ensures ResponseKind(schema) == Ok(DispatchOrder[i].1)
  {
    ResponseKindIsFirstMatch(schema);
    FirstMatchSpec(DispatchOrder, PropertyNames(schema));
  }

  /** The judge mock is chosen exactly when `decision` is present and none of the seven earlier keys is. */
  lemma JudgeOnlyAsLastResort(schema: Option<Schema>)
    ensures ResponseKind(schema) == Ok(JudgeKind) <==>
      && "decision" in PropertyNames(schema)
      && forall i :: 0 <= i < 7 ==> DispatchOrder[i].0 !in PropertyNames(schema)
  {
    var p := PropertyNames(schema);
    if "decision" in p && forall i :: 0 <= i < 7 ==> DispatchOrder[i].0 !in p {
      assert FirstMatchAt(DispatchOrder, p, 7);
      DispatchIsFirstMatch(schema, 7);
    }
  }

  /** A schema with both `sectorTrend` and `decision` yields the industry mock. */
  lemma IndustryBeatsJudge(props: map<string, PropertySchema>)
    requires "sectorTrend" in props && "decision" in props
    ensures ResponseKind(Some(Schema(Some(props)))) == Ok(IndustryKind)
  {
  }

  // Each schema the agents declare routes to its own mock.

  lemma IndustrySchemaRoutesToOwnMock()
    ensures ResponseKind(Some(IndustrySchema)) == Ok(IndustryKind)
  {
  }

  lemma NewsSchemaRoutesToOwnMock()
    ensures ResponseKind(Some(NewsSchema)) == Ok(NewsKind)
  {
  }

  lemma QuantSchemaRoutesToOwnMock()
    ensures ResponseKind(Some(QuantSchema)) == Ok(QuantKind)
  {
  }

  lemma CompetitorSchemaRoutesToOwnMock()
    ensures ResponseKind(Some(CompetitorSchema)) == Ok(CompetitorKind)
  {
  }

  lemma HedgingSchemaRoutesToOwnMock()
    ensures ResponseKind(Some(HedgingSchema)) == Ok(HedgingKind)
  {
  }

  lemma DebateSchemaRoutesToOwnMock()
    ensures ResponseKind(Some(DebateSchema)) == Ok(DebateKind)
  {
  }

  lemma JudgeSchemaRoutesToOwnMock()
    ensures ResponseKind(Some(JudgeSchema)) == Ok(JudgeKind)
  {
  }

  // ---------------------------------------------------------------------------
  // The canned records (fields holding floating-point numbers left out)

  /**
   * Canned free text, named by the line of services/mockService.ts that holds
   * it; the judge's `reasoning` is a template with the drawn decision spliced in.
   */
  datatype Text = CannedText(line: nat) | JudgeReasoning(decision: string)

  datatype Competitor = Competitor(name: string, ticker: string, comparison: Text)
  datatype Strategy = Strategy(kind: string, description: Text, cost: string)
  datatype Turn = Turn(speaker: string, argument: Text)

  datatype MockResponse =
    | IndustryOutput(sectorTrend: string, marketOutlook: Text, industryGrowth: Text,
                     regulatoryRisk: string, industrySummary: Text)
    | NewsOutput(sentiment: string, topEvents: seq<Text>, impactHorizon: string, newsSummary: Text)
    | QuantOutput(trendSignal: string, volatilitySignal: string, volumeSignal: string, valuationSignal: string)
    | BacktestOutput(score: int, bias: string, lessons: seq<Text>, pastPrediction: Text)
    | JudgeOutput(decision: string, valuation: string, marketConsensus: Text, uniqueInsight: Text,
                  keyDrivers: seq<string>, risks: seq<string>, reasoning: Text, timeframe: string)
    | CompetitorOutput(topCompetitors: seq<Competitor>, marketPosition: string)
    | HedgingOutput(primaryStrategy: Strategy, alternativeStrategy: Strategy, rationale: Text)
    | DebateOutput(topic: Text, turns: seq<Turn>, conclusion: Text)

  /** The kind a canned record belongs to. */
  function KindOf(m: MockResponse): MockKind
  {
    match m
    case IndustryOutput(_, _, _, _, _) => IndustryKind
    case NewsOutput(_, _, _, _) => NewsKind
    case QuantOutput(_, _, _, _) => QuantKind
    case BacktestOutput(_, _, _, _) => BacktestKind
    case JudgeOutput(_, _, _, _, _, _, _, _) => JudgeKind
    case CompetitorOutput(_, _) => CompetitorKind
    case HedgingOutput(_, _, _) => HedgingKind
    case DebateOutput(_, _, _) => DebateKind
  }

  // The lists the builders draw from.
  const SectorTrendChoices: seq<string> := ["Bullish", "Neutral", "Bearish"]
  const RegulatoryRiskChoices: seq<string> := ["Low", "Medium", "High"]
  const SentimentChoices: seq<string> := ["POSITIVE", "NEUTRAL", "NEGATIVE"]
  const ImpactHorizonChoices: seq<string> := ["Short", "Medium", "Long"]
  const TrendSignalChoices: seq<string> := ["Strong Uptrend", "Weak Uptrend", "Neutral", "Downtrend"]
  const VolatilitySignalChoices: seq<string> := ["Low (Stable)", "Medium", "High (Risky)"]
  const VolumeSignalChoices: seq<string> := ["High (Confirmed)", "Neutral", "Low (Diverging)"]
  const ValuationSignalChoices: seq<string> := ["Cheap", "Fair", "Expensive"]
  const BiasChoices: seq<string> := ["Optimistic", "Neutral", "Pessimistic"]
  const DecisionChoices: seq<string> := ["BUY", "HOLD", "AVOID", "WATCH"]
  const ValuationChoices: seq<string> := ["UNDERPRICED", "FAIR", "OVERPRICED"]
  const MarketPositionChoices: seq<string> := ["Leader", "Challenger", "Niche Player"]

  /** `getIndustryMock()`: both enum fields drawn from their lists. */
  function IndustryMock(rand: nat -> Roll): (r: MockResponse)
    ensures r.IndustryOutput?
    ensures r.sectorTrend in SectorTrendChoices && r.regulatoryRisk in RegulatoryRiskChoices
  {
    IndustryOutput(
      GetRandom(SectorTrendChoices, rand(0)).value,
      CannedText(44),
      CannedText(45),
      GetRandom(RegulatoryRiskChoices, rand(1)).value,
      CannedText(47))
  }

  /** `getNewsMock()`: drawn sentiment and horizon, three fixed events. */
  function NewsMock(rand: nat -> Roll): (r: MockResponse)
    ensures r.NewsOutput?
    ensures r.sentiment in SentimentChoices && r.impactHorizon in ImpactHorizonChoices
    ensures |r.topEvents| == 3
  {
    NewsOutput(
      GetRandom(SentimentChoices, rand(0)).value,
      [CannedText(55), CannedText(56), CannedText(57)],
      GetRandom(ImpactHorizonChoices, rand(1)).value,
      CannedText(60))
  }

  /** Roll 0 is spent on `currentPrice`, a float the model leaves out. */
  function QuantMock(rand: nat -> Roll): (r: MockResponse)
    ensures r.QuantOutput?
    ensures r.trendSignal in TrendSignalChoices && r.volatilitySignal in VolatilitySignalChoices
    ensures r.volumeSignal in VolumeSignalChoices && r.valuationSignal in ValuationSignalChoices
  {
    QuantOutput(
      GetRandom(TrendSignalChoices, rand(1)).value,
      GetRandom(VolatilitySignalChoices, rand(2)).value,
      GetRandom(VolumeSignalChoices, rand(3)).value,
      GetRandom(ValuationSignalChoices, rand(4)).value)
  }

  /** `getBacktestMock()`: a fixed score of 75, a drawn bias, three fixed lessons. */
  function BacktestMock(rand: nat -> Roll): (r: MockResponse)
    ensures r.BacktestOutput?
    ensures r.score == 75 && r.bias in BiasChoices && |r.lessons| == 3
  {
    BacktestOutput(
      75,
      GetRandom(BiasChoices, rand(0)).value,
      [CannedText(79), CannedText(80), CannedText(81)],
      CannedText(83))
  }

  /** Roll 1 is spent on `confidence`, a float the model leaves out; so are the forecast prices. */
  function JudgeMock(rand: nat -> Roll): (r: MockResponse)
    ensures r.JudgeOutput?
    ensures r.decision in DecisionChoices && r.valuation in ValuationChoices
    ensures r.reasoning == JudgeReasoning(r.decision)
  {
    var decision := GetRandom(DecisionChoices, rand(0)).value;
    JudgeOutput(
      decision,
      GetRandom(ValuationChoices, rand(2)).value,
      CannedText(94),
      CannedText(95),
      ["Strong earnings momentum", "Favorable industry tailwinds", "Attractive relative valuation"],
      ["Macroeconomic volatility", "Potential regulatory headwinds"],
      JudgeReasoning(decision),
      "3 Months")
  }

  /** `getCompetitorMock()`: three fixed competitors and a drawn market position. */
  function CompetitorMock(rand: nat -> Roll): (r: MockResponse)
    ensures r.CompetitorOutput?
    ensures r.marketPosition in MarketPositionChoices && |r.topCompetitors| == 3
  {
    CompetitorOutput(
      [Competitor("MegaCorp Inc", "MCORP", CannedText(119)),
       Competitor("InnovateTech", "INNO", CannedText(120)),
       Competitor("Legacy Systems", "LGCY", CannedText(121))],
      GetRandom(MarketPositionChoices, rand(0)).value)
  }

  /** `getHedgingMock()`: no draws. */
  function HedgingMock(): MockResponse
  {
    HedgingOutput(
      Strategy("Protective Put", CannedText(131), "Medium"),
      Strategy("Covered Call", CannedText(136), "Low"),
      CannedText(139))
  }

  /** `getDebateMock()`: no draws. */
  function DebateMock(): MockResponse
  {
    DebateOutput(
      CannedText(145),
      [Turn("Bull", CannedText(147)), Turn("Bear", CannedText(148)),
       Turn("Bull", CannedText(149)), Turn("Bear", CannedText(150))],
      CannedText(152))
  }

  /** The builder for a kind, given the rolls left after the latency draw. */
  function Build(kind: MockKind, rand: nat -> Roll): (r: MockResponse)
    ensures KindOf(r) == kind
  {
    match kind
    case IndustryKind => IndustryMock(rand)
    case NewsKind => NewsMock(rand)
    case QuantKind => QuantMock(rand)
    case CompetitorKind => CompetitorMock(rand)
    case HedgingKind => HedgingMock()
    case DebateKind => DebateMock()
    case BacktestKind => BacktestMock(rand)
    case JudgeKind => JudgeMock(rand)
  }

  /**
   * `mockGenerateTypedResponse(model, prompt, schema)`: the record of the
   * schema's kind, or the "could not determine" error.
   */
  function MockGenerateTypedResponse(schema: Option<Schema>, rand: nat -> Roll): (r: Result<MockResponse, string>)
    ensures r.Ok? <==> ResponseKind(schema).Ok?
    ensures r.Ok? ==> KindOf(r.value) == ResponseKind(schema).value
    ensures r.Err? ==> r.error == UndeterminedType
  {
    match ResponseKind(schema)
    case Ok(kind) => Ok(Build(kind, (i: nat) => rand(i + 1)))
    case Err(e) => Err(e)
  }

  // ---------------------------------------------------------------------------
  // Conformance of the canned records to the schemas

  /** Every value a builder may draw is allowed by the schema's enum. */
  lemma ChoicesWithinSchemaEnums()
    ensures forall x :: x in SectorTrendChoices ==> x in EnumOf(IndustrySchema, "sectorTrend")
    ensures forall x :: x in RegulatoryRiskChoices ==> x in EnumOf(IndustrySchema, "regulatoryRisk")
    ensures forall x :: x in SentimentChoices ==> x in EnumOf(NewsSchema, "sentiment")
    ensures forall x :: x in ImpactHorizonChoices ==> x in EnumOf(NewsSchema, "impactHorizon")
    ensures forall x :: x in TrendSignalChoices ==> x in EnumOf(QuantSchema, "trendSignal")
    ensures forall x :: x in VolatilitySignalChoices ==> x in EnumOf(QuantSchema, "volatilitySignal")
    ensures forall x :: x in VolumeSignalChoices ==> x in EnumOf(QuantSchema, "volumeSignal")
    ensures forall x :: x in ValuationSignalChoices ==> x in EnumOf(QuantSchema, "valuationSignal")
    ensures forall x :: x in MarketPositionChoices ==> x in EnumOf(CompetitorSchema, "marketPosition")
    ensures forall x :: x in DecisionChoices ==> x in EnumOf(JudgeSchema, "decision")
    ensures forall x :: x in ValuationChoices ==> x in EnumOf(JudgeSchema, "valuation")
  {
  }

  /** Whatever the rolls, the enum fields of every record are members of the schema enums. */
  lemma MockEnumsConform(rand: nat -> Roll)
    ensures IndustryMock(rand).sectorTrend in EnumOf(IndustrySchema, "sectorTrend")
    ensures IndustryMock(rand).regulatoryRisk in EnumOf(IndustrySchema, "regulatoryRisk")
    ensures NewsMock(rand).sentiment in EnumOf(NewsSchema, "sentiment")
    ensures NewsMock(rand).impactHorizon in EnumOf(NewsSchema, "impactHorizon")
    ensures QuantMock(rand).trendSignal in EnumOf(QuantSchema, "trendSignal")
    ensures QuantMock(rand).volatilitySignal in EnumOf(QuantSchema, "volatilitySignal")
    ensures QuantMock(rand).volumeSignal in EnumOf(QuantSchema, "volumeSignal")
    ensures QuantMock(rand).valuationSignal in EnumOf(QuantSchema, "valuationSignal")
    ensures CompetitorMock(rand).marketPosition in EnumOf(CompetitorSchema, "marketPosition")
    ensures JudgeMock(rand).decision in EnumOf(JudgeSchema, "decision")
    ensures JudgeMock(rand).valuation in EnumOf(JudgeSchema, "valuation")
  {
    ChoicesWithinSchemaEnums();
  }

  /** The fixed enum fields nested in objects conform to the enums of the nested schemas. */
  lemma NestedMockEnumsConform()
    ensures forall t :: t in DebateMock().turns ==> t.speaker in NestedEnumOf(DebateSchema, "turns", "speaker")
    ensures HedgingMock().primaryStrategy.cost in NestedEnumOf(HedgingSchema, "primaryStrategy", "cost")
    ensures HedgingMock().alternativeStrategy.cost in NestedEnumOf(HedgingSchema, "alternativeStrategy", "cost")
  {
  }

  /** The mocks use a proper subset of two enums: never 'Laggard', never UNKNOWN. */
  lemma MockEnumsProperSubset(rand: nat -> Roll)
    ensures CompetitorMock(rand).marketPosition != "Laggard"
    ensures "Laggard" in EnumOf(CompetitorSchema, "marketPosition")
    ensures JudgeMock(rand).valuation != "UNKNOWN"
    ensures "UNKNOWN" in EnumOf(JudgeSchema, "valuation")
  {
  }

  /** The fixed lists: three events, three competitors, four turns alternating Bull and Bear from Bull. */
  lemma MockListShapes(rand: nat -> Roll)
    ensures |NewsMock(rand).topEvents| == 3
    ensures |CompetitorMock(rand).topCompetitors| == 3
    ensures |DebateMock().turns| == 4
    ensures forall i :: 0 <= i < |DebateMock().turns| ==>
      DebateMock().turns[i].speaker == if i % 2 == 0 then "Bull" else "Bear"
  {
  }
}
