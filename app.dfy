/**
 * The `/analyze` request handler of the web front end: it reads the idea from
 * the request's JSON body, rejects a missing or falsy idea, runs the four
 * stages inside one try block and turns the outcome into a JSON body and an
 * HTTP status. Routing and serialisation belong to the framework and are not
 * modelled.
 */
module App {
  import opened Wrappers
  import opened Python
  import opened Service
  import MarketLogic
  import FinancialSustainability
  import CompetitiveDurability
  import StrategicSynthesizer
  import opened Orchestrator

  /** What the handler does: return a body with a status, or raise outside the try block. */
  datatype Handled = Responded(body: Value, status: int) | Unhandled(error: Error)

  /** The handler's result together with the requests it sent. */
  datatype Exchange = Exchange(handled: Handled, requests: seq<Request>)

  const MissingIdeaMessage := "لم يتم تقديم فكرة مشروع"

  function ErrorBody(message: string): Value {
    Dict(map["status" := Str("error"), "message" := Str(message)])
  }

  function SuccessBody(findings: Findings): Value {
    Dict(map[
      "status" := Str("success"),
      "market_analysis" := Dict(MarketLogic.ToObject(findings.market)),
      "financial_analysis" := Dict(FinancialSustainability.ToObject(findings.financial)),
      "competitive_analysis" := Dict(CompetitiveDurability.ToObject(findings.competitive)),
      "strategic_memo" := Dict(StrategicSynthesizer.ToObject(findings.memo))
    ])
  }

  /**
   * The handler on the parsed request body `data`: `data.get('idea')` raises
   * unless the body is a dict; a falsy idea is answered with 400 before any
   * agent runs; otherwise the stages run, success gives 200 with the four
   * records and any exception gives 500 with its message.
   */
  function Route(backend: Backend, data: Value): Exchange {
    if !data.Dict? then
      Exchange(Unhandled(Error(AttributeError, "'" + TypeName(data) + "' object has no attribute 'get'")), [])
    else
      var idea := Get(data.fields, "idea", Null);
      if !Truthy(idea) then
        Exchange(Responded(ErrorBody(MissingIdeaMessage), 400), [])
      else
        var run := Stages(backend, idea);
        match run.outcome
        case Success(findings) => Exchange(Responded(SuccessBody(findings), 200), run.requests)
        case Failure(e) => Exchange(Responded(ErrorBody(e.message), 500), run.requests)
  }

  /** A missing, null, empty or otherwise falsy idea gets the 400 error body, and no agent is called. */
  lemma MissingIdeaRejected(backend: Backend, data: Value)
    requires data.Dict? && !Truthy(Get(data.fields, "idea", Null))
    ensures Route(backend, data) == Exchange(Responded(ErrorBody(MissingIdeaMessage), 400), [])
  {
  }

  /**
   * Any truthy idea, a whitespace-only string included, is passed unchanged to
   * the stages, which send exactly their requests.
   */
  lemma TruthyIdeaRunsStages(backend: Backend, data: Value)
    requires data.Dict? && Truthy(Get(data.fields, "idea", Null))
    ensures Route(backend, data).requests == Stages(backend, Get(data.fields, "idea", Null)).requests
    ensures Route(backend, data).requests[0] == MarketLogic.AnalystRequest(Get(data.fields, "idea", Null))
    ensures Route(backend, data).handled.Responded?
    ensures Route(backend, data).handled.status != 400
  {
    AnalystsCalledInOrder(backend, Get(data.fields, "idea", Null));
  }

  lemma WhitespaceIdeaAccepted(backend: Backend)
    ensures Route(backend, Dict(map["idea" := Str(" ")])).requests[0] == MarketLogic.AnalystRequest(Str(" "))
  {
    TruthyIdeaRunsStages(backend, Dict(map["idea" := Str(" ")]));
  }

  /** The success body: status "success" and the `asdict` of each record under its key. */
  lemma SuccessBodyFields(findings: Findings)
    ensures var body := SuccessBody(findings);
      && body.Dict?
      && body.fields.Keys ==
           {"status", "market_analysis", "financial_analysis", "competitive_analysis", "strategic_memo"}
      && body.fields["status"] == Str("success")
      && body.fields["market_analysis"] == Dict(MarketLogic.ToObject(findings.market))
      && body.fields["financial_analysis"] == Dict(FinancialSustainability.ToObject(findings.financial))
      && body.fields["competitive_analysis"] == Dict(CompetitiveDurability.ToObject(findings.competitive))
      && body.fields["strategic_memo"] == Dict(StrategicSynthesizer.ToObject(findings.memo))
  {
  }

  /** Reading each record back from the success body gives the record the stages produced. */
  lemma SuccessBodyHoldsTheRecords(findings: Findings)
    ensures var fields := SuccessBody(findings).fields;
      && MarketLogic.FromObject(fields["market_analysis"].fields) == findings.market
      && FinancialSustainability.FromObject(fields["financial_analysis"].fields) == findings.financial
      && CompetitiveDurability.FromObject(fields["competitive_analysis"].fields) == findings.competitive
      && StrategicSynthesizer.FromObject(fields["strategic_memo"].fields) == findings.memo
  {
    SuccessBodyFields(findings);
    MarketLogic.RoundTrip(findings.market);
    FinancialSustainability.RoundTrip(findings.financial);
    CompetitiveDurability.RoundTrip(findings.competitive);
    StrategicSynthesizer.RoundTrip(findings.memo);
  }

  /** A successful run is answered with 200 and the success body of exactly its records. */
  lemma SuccessResponse(backend: Backend, data: Value)
    requires data.Dict? && Truthy(Get(data.fields, "idea", Null))
    requires Stages(backend, Get(data.fields, "idea", Null)).outcome.Success?
    ensures Route(backend, data).handled ==
      Responded(SuccessBody(Stages(backend, Get(data.fields, "idea", Null)).outcome.value), 200)
  {
  }

  /** Any exception from any stage answers 500 with `str(e)`; later stages were not called. */
  lemma FailureResponseCarriesMessage(backend: Backend, data: Value)
    requires data.Dict? && Truthy(Get(data.fields, "idea", Null))
    requires Stages(backend, Get(data.fields, "idea", Null)).outcome.Failure?
    ensures var e := Stages(backend, Get(data.fields, "idea", Null)).outcome.error;
      Route(backend, data).handled == Responded(ErrorBody(e.message), 500)
  {
  }

  /** A body that is not a JSON object fails at `data.get` outside the try block: no response body, no call. */
  lemma NonObjectBodyUnhandled(backend: Backend, data: Value)
    requires !data.Dict?
    ensures Route(backend, data).handled.Unhandled?
    ensures Route(backend, data).handled.error.kind == AttributeError
    ensures Route(backend, data).requests == []
  {
  }

  /** The handler, sending each request through the shared client. */
  method HandleAnalyze(client: Client, data: Value) returns (handled: Handled)
    modifies client
    ensures client.log == old(client.log) + Route(client.backend, data).requests
    ensures handled == Route(client.backend, data).handled
  {
    if !data.Dict? {
      return Unhandled(Error(AttributeError, "'" + TypeName(data) + "' object has no attribute 'get'"));
    }
    var idea := Get(data.fields, "idea", Null);
    if !Truthy(idea) {
      return Responded(ErrorBody(MissingIdeaMessage), 400);
    }
    var run := Orchestrator.RunStages(client, idea);
    match run {
      case Success(findings) =>
        handled := Responded(SuccessBody(findings), 200);
      case Failure(e) =>
        handled := Responded(ErrorBody(e.message), 500);
    }
  }
}
