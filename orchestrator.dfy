/**
 * `AIConsultantOrchestrator`: the fixed sequence market, financial,
 * competitive, synthesis with no exception handling, and the two colour rules
 * of the dashboard it shows before returning the memo. The web handler runs
 * the same four stages, so their specification (`Stages`) lives here.
 */
module Orchestrator {
  import opened Wrappers
  import opened Python
  import opened Service
  import opened Agent
  import MarketLogic
  import FinancialSustainability
  import CompetitiveDurability
  import StrategicSynthesizer

  /** The four records one run produces. */
  datatype Findings = Findings(
    market: MarketLogic.MarketAnalysis,
    financial: FinancialSustainability.FinancialAnalysis,
    competitive: CompetitiveDurability.CompetitiveAnalysis,
    memo: StrategicSynthesizer.StrategicMemo)

  /** What running the stages gives: the records or the first exception, and the requests sent. */
  datatype Run = Run(outcome: Result<Findings, Error>, requests: seq<Request>)

  /** `run` preceded by one more request. */
  function After(request: Request, run: Run): Run {
    Run(run.outcome, [request] + run.requests)
  }

  /**
   * The four stages in order, each with the same idea. The first exception
   * ends the run: no later request is sent and the exception is the outcome.
   */
  function Stages(backend: Backend, idea: Value): Run {
    match MarketLogic.Analyze(backend, idea)
    case Failure(e) => Run(Failure(e), [MarketLogic.AnalystRequest(idea)])
    case Success(market) => After(MarketLogic.AnalystRequest(idea), FinancialOnward(backend, idea, market))
  }

  function FinancialOnward(backend: Backend, idea: Value, market: MarketLogic.MarketAnalysis): Run {
    match FinancialSustainability.Analyze(backend, idea)
    case Failure(e) => Run(Failure(e), [FinancialSustainability.AnalystRequest(idea)])
    case Success(financial) =>
      After(FinancialSustainability.AnalystRequest(idea), CompetitiveOnward(backend, idea, market, financial))
  }

  function CompetitiveOnward(
    backend: Backend,
    idea: Value,
    market: MarketLogic.MarketAnalysis,
    financial: FinancialSustainability.FinancialAnalysis): Run
  {
    match CompetitiveDurability.Analyze(backend, idea)
    case Failure(e) => Run(Failure(e), [CompetitiveDurability.AnalystRequest(idea)])
    case Success(competitive) =>
      After(CompetitiveDurability.AnalystRequest(idea), Synthesis(backend, idea, market, financial, competitive))
  }

  /** The synthesis stage: no request at all when its prompt cannot be built. */
  function Synthesis(
    backend: Backend,
    idea: Value,
    market: MarketLogic.MarketAnalysis,
    financial: FinancialSustainability.FinancialAnalysis,
    competitive: CompetitiveDurability.CompetitiveAnalysis): Run
  {
    match StrategicSynthesizer.SynthesisRequest(idea, market, financial, competitive)
    case Failure(e) => Run(Failure(e), [])
    case Success(request) =>
      match StrategicSynthesizer.Synthesize(backend, idea, market, financial, competitive)
      case Failure(e) => Run(Failure(e), [request])
      case Success(memo) => Run(Success(Findings(market, financial, competitive, memo)), [request])
  }

  /** Each analyst request uses the analyst model and carries the idea as its only value. */
  lemma AnalystRequests(idea: Value)
    ensures MarketLogic.AnalystRequest(idea).model == AnalystModel
    ensures FinancialSustainability.AnalystRequest(idea).model == AnalystModel
    ensures CompetitiveDurability.AnalystRequest(idea).model == AnalystModel
    ensures Holes(MarketLogic.AnalystRequest(idea).prompt) == [idea]
    ensures Holes(FinancialSustainability.AnalystRequest(idea).prompt) == [idea]
    ensures Holes(CompetitiveDurability.AnalystRequest(idea).prompt) == [idea]
  {
    AnalystPromptEmbedsIdea(MarketLogic.Preamble, MarketLogic.Questions, idea, idea);
    AnalystPromptEmbedsIdea(FinancialSustainability.Preamble, FinancialSustainability.Questions, idea, idea);
    AnalystPromptEmbedsIdea(CompetitiveDurability.Preamble, CompetitiveDurability.Questions, idea, idea);
  }

  lemma FinancialOnwardRequests(backend: Backend, idea: Value, market: MarketLogic.MarketAnalysis)
    ensures var rs := FinancialOnward(backend, idea, market).requests;
      && 1 <= |rs| <= 3
      && rs[0] == FinancialSustainability.AnalystRequest(idea)
      && (|rs| >= 2 ==> rs[1] == CompetitiveDurability.AnalystRequest(idea))
  {
    match FinancialSustainability.Analyze(backend, idea)
    case Failure(_) =>
    case Success(financial) =>
      match CompetitiveDurability.Analyze(backend, idea)
      case Failure(_) =>
      case Success(competitive) =>
        assert |Synthesis(backend, idea, market, financial, competitive).requests| <= 1;
  }

  /** The analysts are called first, in the order market, financial, competitive, all with the analyst model and the unmodified idea. */
  lemma AnalystsCalledInOrder(backend: Backend, idea: Value)
    ensures var rs := Stages(backend, idea).requests;
      && 1 <= |rs| <= 4
      && rs[0] == MarketLogic.AnalystRequest(idea)
      && (|rs| >= 2 ==> rs[1] == FinancialSustainability.AnalystRequest(idea))
      && (|rs| >= 3 ==> rs[2] == CompetitiveDurability.AnalystRequest(idea))
      && (forall i :: 0 <= i < |rs| && i < 3 ==> rs[i].model == AnalystModel && Holes(rs[i].prompt) == [idea])
  {
    AnalystRequests(idea);
    match MarketLogic.Analyze(backend, idea)
    case Failure(_) =>
    case Success(market) =>
      FinancialOnwardRequests(backend, idea, market);
      assert Stages(backend, idea).requests == [MarketLogic.AnalystRequest(idea)] + FinancialOnward(backend, idea, market).requests;
  }

  /**
   * The synthesizer is called only once all three analysts have returned, and
   * then with exactly their three records and the idea, on its own model.
   */
  lemma SynthesisNeedsAllThree(backend: Backend, idea: Value)
    ensures var rs := Stages(backend, idea).requests;
      var market := MarketLogic.Analyze(backend, idea);
      var financial := FinancialSustainability.Analyze(backend, idea);
      var competitive := CompetitiveDurability.Analyze(backend, idea);
      && (|rs| == 4 <==>
            market.Success? && financial.Success? && competitive.Success? &&
            StrategicSynthesizer.SynthesisRequest(idea, market.value, financial.value, competitive.value).Success?)
      && (|rs| == 4 ==>
            rs[3] == StrategicSynthesizer.SynthesisRequest(idea, market.value, financial.value, competitive.value).value &&
            rs[3].model == StrategicSynthesizer.Model)
  {
  }

  /** An exception in any stage is the run's outcome, unchanged, and no later stage is called. */
  lemma FailureStopsLaterStages(backend: Backend, idea: Value)
    ensures var run := Stages(backend, idea);
      var market := MarketLogic.Analyze(backend, idea);
      var financial := FinancialSustainability.Analyze(backend, idea);
      var competitive := CompetitiveDurability.Analyze(backend, idea);
      && (market.Failure? ==>
            run == Run(Failure(market.error), [MarketLogic.AnalystRequest(idea)]))
      && (market.Success? && financial.Failure? ==>
            run == Run(Failure(financial.error), [MarketLogic.AnalystRequest(idea), FinancialSustainability.AnalystRequest(idea)]))
      && (market.Success? && financial.Success? && competitive.Failure? ==>
            run.outcome == Failure(competitive.error) && |run.requests| == 3)
      && (market.Success? && financial.Success? && competitive.Success? ==>
            var memo := StrategicSynthesizer.Synthesize(backend, idea, market.value, financial.value, competitive.value);
            memo.Failure? ==> run.outcome == Failure(memo.error))
  {
  }

  /** A successful run holds the three analysts' records and the memo the synthesizer built from them. */
  lemma SuccessHoldsEveryStage(backend: Backend, idea: Value)
    ensures var run := Stages(backend, idea);
      run.outcome.Success? ==>
        var findings := run.outcome.value;
        && |run.requests| == 4
        && MarketLogic.Analyze(backend, idea) == Success(findings.market)
        && FinancialSustainability.Analyze(backend, idea) == Success(findings.financial)
        && CompetitiveDurability.Analyze(backend, idea) == Success(findings.competitive)
        && StrategicSynthesizer.Synthesize(backend, idea, findings.market, findings.financial, findings.competitive)
           == Success(findings.memo)
  {
    match MarketLogic.Analyze(backend, idea)
    case Failure(_) =>
    case Success(market) =>
      match FinancialSustainability.Analyze(backend, idea)
      case Failure(_) =>
      case Success(financial) =>
        match CompetitiveDurability.Analyze(backend, idea)
        case Failure(_) =>
        case Success(competitive) =>
          var last := Synthesis(backend, idea, market, financial, competitive);
          assert Stages(backend, idea).outcome == last.outcome;
          assert |Stages(backend, idea).requests| == 3 + |last.requests|;
  }

  /**
   * The stages add no failure of their own: the idea is not validated (an
   * empty idea included) and missing keys are defaulted, so when the service
   * answers every request with such a dict all four stages run and succeed.
   */
  lemma WellFormedRepliesRunAllStages(backend: Backend, idea: Value)
    requires forall request :: WellFormed(backend.chat(request), backend.loads)
    ensures Stages(backend, idea).outcome.Success?
    ensures |Stages(backend, idea).requests| == 4
  {
    MarketLogic.WellFormedReplyAnalyzes(backend, idea);
    FinancialSustainability.WellFormedReplyAnalyzes(backend, idea);
    CompetitiveDurability.WellFormedReplyAnalyzes(backend, idea);
    var market := MarketLogic.Analyze(backend, idea).value;
    var financial := FinancialSustainability.Analyze(backend, idea).value;
    var competitive := CompetitiveDurability.Analyze(backend, idea).value;
    StrategicSynthesizer.ParsedReplySynthesizes(backend, idea, market, financial, competitive);
    assert Synthesis(backend, idea, market, financial, competitive).outcome.Success?;
    assert CompetitiveOnward(backend, idea, market, financial).outcome.Success?;
  }


  // The dashboard's two colour rules.

  datatype Colour = Red | Yellow | Green

  /** The colour order the dashboard uses: red below yellow below green. */
  function Rank(c: Colour): nat {
    match c
    case Red => 0
    case Yellow => 1
    case Green => 2
  }

  /** The overall risk colour: red for "high", yellow for "medium", green for any other value. */
  function RiskColour(level: Value): Colour {
    if level == High then Red else if level == Medium then Yellow else Green
  }

  /** The confidence colour through `>= 0.7` and `>= 0.4`; comparing a non-number raises. */
  function ConfidenceColour(score: Value): Result<Colour, Error> {
    var high :- AtLeast(score, 0.7);
    if high then Success(Green)
    else
      var medium :- AtLeast(score, 0.4);
      Success(if medium then Yellow else Red)
  }

  /** Only the two exact labels are singled out: "low", and any unexpected value, show green. */
  lemma RiskColourRule(level: Value)
    ensures RiskColour(level) == Red <==> level == High
    ensures RiskColour(level) == Yellow <==> level == Medium
    ensures RiskColour(level) == Green <==> level != High && level != Medium
    ensures RiskColour(Low) == Green
  {
  }

  /** Both sides of each threshold, and the TypeError for anything that is not a number. */
  lemma ConfidenceThresholds(score: Value)
    ensures ConfidenceColour(score).Success? <==> IsNumber(score)
    ensures IsNumber(score) ==>
      && (ConfidenceColour(score) == Success(Green) <==> NumberValue(score) >= 0.7)
      && (ConfidenceColour(score) == Success(Yellow) <==> 0.4 <= NumberValue(score) < 0.7)
      && (ConfidenceColour(score) == Success(Red) <==> NumberValue(score) < 0.4)
    ensures !IsNumber(score) ==> ConfidenceColour(score).error.kind == TypeError
  {
  }

  /** A higher score never gets a worse colour. */
  lemma ConfidenceColourMonotone(a: Value, b: Value)
    requires IsNumber(a) && IsNumber(b) && NumberValue(a) <= NumberValue(b)
    ensures ConfidenceColour(a).Success? && ConfidenceColour(b).Success?
    ensures Rank(ConfidenceColour(a).value) <= Rank(ConfidenceColour(b).value)
  {
  }

  datatype Colours = Colours(risk: Colour, confidence: Colour)

  /**
   * What `_display_dashboard` computes, and whether it raises. The tables
   * format each analyst's confidence as `score * 100:.1f`; then the colours
   * compare the memo's confidence with 0.7 and 0.4; then its panel formats
   * that confidence the same way.
   */
  function Dashboard(findings: Findings): (r: Result<Colours, Error>)
    ensures r.Success? <==>
      && PercentFormatError(findings.market.confidenceScore).None?
      && PercentFormatError(findings.financial.confidenceScore).None?
      && PercentFormatError(findings.competitive.confidenceScore).None?
      && PercentFormatError(findings.memo.overallConfidenceScore).None?
    ensures r.Success? ==>
      && r.value.risk == RiskColour(findings.memo.overallRiskLevel)
      && ConfidenceColour(findings.memo.overallConfidenceScore) == Success(r.value.confidence)
    ensures
      && PercentFormatError(findings.market.confidenceScore).None?
      && PercentFormatError(findings.financial.confidenceScore).None?
      && PercentFormatError(findings.competitive.confidenceScore).None?
      && !IsNumber(findings.memo.overallConfidenceScore)
      ==> r.Failure? && r.error.kind == TypeError
  {
    var market := PercentFormatError(findings.market.confidenceScore);
    var financial := PercentFormatError(findings.financial.confidenceScore);
    var competitive := PercentFormatError(findings.competitive.confidenceScore);
    if market.Some? then Failure(market.value)
    else if financial.Some? then Failure(financial.value)
    else if competitive.Some? then Failure(competitive.value)
    else
      var confidence :- ConfidenceColour(findings.memo.overallConfidenceScore);
      var shown := PercentFormatError(findings.memo.overallConfidenceScore);
      if shown.Some? then Failure(shown.value)
      else Success(Colours(RiskColour(findings.memo.overallRiskLevel), confidence))
  }

  /** `AIConsultantOrchestrator.analyze`: the stages, then the dashboard, then the memo. */
  function Outcome(backend: Backend, idea: string): Result<StrategicSynthesizer.StrategicMemo, Error> {
    var findings :- Stages(backend, Str(idea)).outcome;
    var colours :- Dashboard(findings);
    Success(findings.memo)
  }

  /**
   * `analyze` returns exactly the synthesizer's memo; an exception from a
   * stage reaches the caller unchanged; a successful run fails only when the
   * dashboard cannot show one of the four confidences as a percentage.
   */
  lemma AnalyzeReturnsTheMemo(backend: Backend, idea: string)
    ensures var run := Stages(backend, Str(idea)).outcome;
      && (run.Failure? ==> Outcome(backend, idea) == Failure(run.error))
      && (Outcome(backend, idea).Success? ==> run.Success? && Outcome(backend, idea).value == run.value.memo)
      && (run.Success? ==>
            (Outcome(backend, idea).Success? <==>
               && PercentFormatError(run.value.market.confidenceScore).None?
               && PercentFormatError(run.value.financial.confidenceScore).None?
               && PercentFormatError(run.value.competitive.confidenceScore).None?
               && PercentFormatError(run.value.memo.overallConfidenceScore).None?))
  {
  }

  /**
   * The four calls in order, binding each record before the next call; the
   * first exception returns at once. `analyze` runs this and so does the web
   * handler's try block.
   */
  method RunStages(client: Client, idea: Value) returns (r: Result<Findings, Error>)
    modifies client
    ensures client.log == old(client.log) + Stages(client.backend, idea).requests
    ensures r == Stages(client.backend, idea).outcome
  {
    ghost var before := client.log;
    var market :- MarketLogic.Ask(client, idea);
    r := RunFinancialOnward(client, idea, market);
    AppendAssociative(before, [MarketLogic.AnalystRequest(idea)], FinancialOnward(client.backend, idea, market).requests);
  }

  /** The stages after a successful market analysis, against `FinancialOnward`. */
  method RunFinancialOnward(client: Client, idea: Value, market: MarketLogic.MarketAnalysis)
    returns (r: Result<Findings, Error>)
    modifies client
    ensures client.log == old(client.log) + FinancialOnward(client.backend, idea, market).requests
    ensures r == FinancialOnward(client.backend, idea, market).outcome
  {
    ghost var before := client.log;
    var financial :- FinancialSustainability.Ask(client, idea);
    r := RunCompetitiveOnward(client, idea, market, financial);
    AppendAssociative(
      before, [FinancialSustainability.AnalystRequest(idea)],
      CompetitiveOnward(client.backend, idea, market, financial).requests);
  }

  /** The stages after a successful financial analysis, against `CompetitiveOnward`. */
  method RunCompetitiveOnward(
    client: Client,
    idea: Value,
    market: MarketLogic.MarketAnalysis,
    financial: FinancialSustainability.FinancialAnalysis)
    returns (r: Result<Findings, Error>)
    modifies client
    ensures client.log == old(client.log) + CompetitiveOnward(client.backend, idea, market, financial).requests
    ensures r == CompetitiveOnward(client.backend, idea, market, financial).outcome
  {
    ghost var before := client.log;
    var competitive :- CompetitiveDurability.Ask(client, idea);
    var memo := StrategicSynthesizer.Ask(client, idea, market, financial, competitive);
    AppendAssociative(
      before, [CompetitiveDurability.AnalystRequest(idea)],
      Synthesis(client.backend, idea, market, financial, competitive).requests);
    if memo.Failure? {
      return Failure(memo.error);
    }
    r := Success(Findings(market, financial, competitive, memo.value));
  }

  /** The orchestrator object; the agents it constructs hold no state, so only the client is kept. */
  class Consultant {
    const client: Client

    constructor (client: Client)
      ensures this.client == client
    {
      this.client := client;
    }

    /** `analyze`: run the stages, show the dashboard, return the memo. */
    method Analyze(idea: string) returns (r: Result<StrategicSynthesizer.StrategicMemo, Error>)
      modifies client
      ensures client.log == old(client.log) + Stages(client.backend, Str(idea)).requests
      ensures r == Outcome(client.backend, idea)
    {
      var findings :- RunStages(client, Str(idea));
      var colours :- Dashboard(findings);
      r := Success(findings.memo);
    }
  }
}
