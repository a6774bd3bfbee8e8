/** The financial analyst: the `FinancialAnalysis` record and `FinancialSustainabilityAgent.analyze`. */
module FinancialSustainability {
  import opened Wrappers
  import opened Python
  import opened Service
  import opened Agent

  datatype FinancialAnalysis = FinancialAnalysis(
    unitEconomics: Value,
    operationalCosts: Value,
    revenueStreams: Value,
    financialStability: Value,
    riskLevel: Value,
    confidenceScore: Value)

  /** The keys read from the response, in field order, with their defaults. */
  const Fields: Schema := [
    ("unit_economics", Blank),
    ("operational_costs", Blank),
    ("revenue_streams", Blank),
    ("financial_stability", Blank),
    ("risk_level", Medium),
    ("confidence_score", DefaultConfidence)
  ]

  /**
   * The record built from the parsed response: a present key is copied as it
   * is (whatever its type or value), an absent one takes its default, other
   * keys are ignored, and nothing here can fail.
   */
  function FromObject(obj: Object): (r: FinancialAnalysis)
    ensures "unit_economics" in obj ==> r.unitEconomics == obj["unit_economics"]
    ensures "operational_costs" in obj ==> r.operationalCosts == obj["operational_costs"]
    ensures "revenue_streams" in obj ==> r.revenueStreams == obj["revenue_streams"]
    ensures "financial_stability" in obj ==> r.financialStability == obj["financial_stability"]
    ensures "risk_level" in obj ==> r.riskLevel == obj["risk_level"]
    ensures "confidence_score" in obj ==> r.confidenceScore == obj["confidence_score"]
    ensures "unit_economics" !in obj ==> r.unitEconomics == Blank
    ensures "operational_costs" !in obj ==> r.operationalCosts == Blank
    ensures "revenue_streams" !in obj ==> r.revenueStreams == Blank
    ensures "financial_stability" !in obj ==> r.financialStability == Blank
    ensures "risk_level" !in obj ==> r.riskLevel == Medium
    ensures "confidence_score" !in obj ==> r.confidenceScore == DefaultConfidence
  {
    var v := Fill(obj, Fields);
    FinancialAnalysis(v[0], v[1], v[2], v[3], v[4], v[5])
  }

  /** The record's values in field order. */
  function Values(r: FinancialAnalysis): (vs: seq<Value>)
    ensures |vs| == |Fields|
  {
    [r.unitEconomics, r.operationalCosts, r.revenueStreams, r.financialStability, r.riskLevel, r.confidenceScore]
  }

  /** `asdict(financial_analysis)`, as the web handler returns it. */
  function ToObject(r: FinancialAnalysis): (d: Object)
    ensures d.Keys == Keys(Fields)
  {
    AsDict(Fields, Values(r))
  }

  /** Reading a record back from its own `asdict` gives the same record. */
  lemma RoundTrip(r: FinancialAnalysis)
    ensures FromObject(ToObject(r)) == r
  {
    FillAsDict(Fields, Values(r));
  }

  /** Responses that agree on the six keys give the same record: extra keys never matter. */
  lemma ExtraKeysIgnored(o1: Object, o2: Object)
    requires forall k :: k in Keys(Fields) ==> (k in o1 <==> k in o2)
    requires forall k :: k in Keys(Fields) && k in o1 ==> o1[k] == o2[k]
    ensures FromObject(o1) == FromObject(o2)
  {
    FillIgnoresOtherKeys(o1, o2, Fields);
  }

  /** Placeholders for the prompt's fixed wording, which the model does not reproduce. */
  const Preamble := "[financial analyst; the idea:]"
  const Questions := "[financial questions, as JSON]"

  function Prompt(idea: Value): Prompt {
    AnalystPrompt(Preamble, idea, Questions)
  }

  function AnalystRequest(idea: Value): Request {
    Service.Request(AnalystModel, Prompt(idea))
  }

  /**
   * `FinancialSustainabilityAgent.analyze`: one call with the analyst model, then the
   * default-fill.
   */
  function Analyze(backend: Backend, idea: Value): Result<FinancialAnalysis, Error> {
    var obj :- ParseObject(backend.chat(AnalystRequest(idea)), backend.loads);
    Success(FromObject(obj))
  }

  /** Only the call and the parse can fail; a parsed dict always yields its default-filled record. */
  lemma AnalyzeFailsOnlyOnParse(backend: Backend, idea: Value)
    ensures var parsed := ParseObject(backend.chat(AnalystRequest(idea)), backend.loads);
      && (Analyze(backend, idea).Failure? <==> parsed.Failure?)
      && (parsed.Failure? ==> Analyze(backend, idea) == Failure(parsed.error))
      && (parsed.Success? ==> Analyze(backend, idea) == Success(FromObject(parsed.value)))
  {
  }

  /** A well-formed reply yields a record whose confidence the synthesis prompt can show as a percentage. */
  lemma WellFormedReplyAnalyzes(backend: Backend, idea: Value)
    requires WellFormed(backend.chat(AnalystRequest(idea)), backend.loads)
    ensures Analyze(backend, idea).Success?
    ensures TimesHundredError(Analyze(backend, idea).value.confidenceScore).None?
  {
  }

  /** The same call made through the shared client, which records the request. */
  method Ask(client: Client, idea: Value) returns (r: Result<FinancialAnalysis, Error>)
    modifies client
    ensures client.log == old(client.log) + [AnalystRequest(idea)]
    ensures r == Analyze(client.backend, idea)
  {
    var reply := client.Complete(AnalystRequest(idea));
    var obj :- ParseObject(reply, client.backend.loads);
    r := Success(FromObject(obj));
  }
}
