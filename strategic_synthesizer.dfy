/** The synthesizer: the `StrategicMemo` record and `StrategicSynthesizerAgent.synthesize`. */
module StrategicSynthesizer {
  import opened Wrappers
  import opened Python
  import opened Service
  import opened Agent
  import MarketLogic
  import FinancialSustainability
  import CompetitiveDurability

  datatype StrategicMemo = StrategicMemo(
    executiveSummary: Value,
    detailedAnalysis: Value,
    overallRiskLevel: Value,
    overallConfidenceScore: Value,
    finalRecommendation: Value,
    conflictsIdentified: Value,
    resolutionRationale: Value)

  /** The synthesizer uses the larger model, unlike the three analysts. */
  const Model := "gpt-4o"

  const Fields: Schema := [
    ("executive_summary", Blank),
    ("detailed_analysis", EmptyDict),
    ("overall_risk_level", Medium),
    ("overall_confidence_score", DefaultConfidence),
    ("final_recommendation", Blank),
    ("conflicts_identified", Blank),
    ("resolution_rationale", Blank)
  ]

  /**
   * The memo built from the parsed response: present keys copied as they are
   * (a nested `detailed_analysis` object included), absent keys defaulted,
   * other keys ignored, and no failure.
   */
  function FromObject(obj: Object): (r: StrategicMemo)
    ensures "executive_summary" in obj ==> r.executiveSummary == obj["executive_summary"]
    ensures "detailed_analysis" in obj ==> r.detailedAnalysis == obj["detailed_analysis"]
    ensures "overall_risk_level" in obj ==> r.overallRiskLevel == obj["overall_risk_level"]
    ensures "overall_confidence_score" in obj ==> r.overallConfidenceScore == obj["overall_confidence_score"]
    ensures "final_recommendation" in obj ==> r.finalRecommendation == obj["final_recommendation"]
    ensures "conflicts_identified" in obj ==> r.conflictsIdentified == obj["conflicts_identified"]
    ensures "resolution_rationale" in obj ==> r.resolutionRationale == obj["resolution_rationale"]
    ensures "executive_summary" !in obj ==> r.executiveSummary == Blank
    ensures "detailed_analysis" !in obj ==> r.detailedAnalysis == EmptyDict
    ensures "overall_risk_level" !in obj ==> r.overallRiskLevel == Medium
    ensures "overall_confidence_score" !in obj ==> r.overallConfidenceScore == DefaultConfidence
    ensures "final_recommendation" !in obj ==> r.finalRecommendation == Blank
    ensures "conflicts_identified" !in obj ==> r.conflictsIdentified == Blank
    ensures "resolution_rationale" !in obj ==> r.resolutionRationale == Blank
  {
    var v := Fill(obj, Fields);
    StrategicMemo(v[0], v[1], v[2], v[3], v[4], v[5], v[6])
  }

  function Values(r: StrategicMemo): (vs: seq<Value>)
    ensures |vs| == |Fields|
  {
    [r.executiveSummary, r.detailedAnalysis, r.overallRiskLevel, r.overallConfidenceScore,
     r.finalRecommendation, r.conflictsIdentified, r.resolutionRationale]
  }

  /** `asdict(strategic_memo)`, as the web handler returns it. */
  function ToObject(r: StrategicMemo): (d: Object)
    ensures d.Keys == Keys(Fields)
  {
    AsDict(Fields, Values(r))
  }

  lemma RoundTrip(r: StrategicMemo)
    ensures FromObject(ToObject(r)) == r
  {
    FillAsDict(Fields, Values(r));
  }

  lemma ExtraKeysIgnored(o1: Object, o2: Object)
    requires forall k :: k in Keys(Fields) ==> (k in o1 <==> k in o2)
    requires forall k :: k in Keys(Fields) && k in o1 ==> o1[k] == o2[k]
    ensures FromObject(o1) == FromObject(o2)
  {
    FillIgnoresOtherKeys(o1, o2, Fields);
  }

  /**
   * Placeholders for the prompt's fixed wording, which the model does not
   * reproduce: one label per interpolated field, and the closing instructions
   * after the last percentage.
   */
  const Preamble := "[strategist; the idea:]"
  const MarketLabels := ["[market: demand]", "[segments]", "[trends]", "[gaps]", "[risk]", "[confidence]"]
  const FinancialLabels := ["[financial: unit economics]", "[costs]", "[revenue]", "[stability]", "[risk]", "[confidence]"]
  const CompetitiveLabels := ["[competitive: barriers]", "[moat]", "[replication]", "[value]", "[risk]", "[confidence]"]
  const Instructions := "%[memo as JSON]"

  /** `label{value}` for each label and value in turn. */
  function Lines(labels: seq<string>, values: seq<Value>): Prompt
    requires |labels| == |values|
  {
    if values == [] then []
    else [Lit(labels[0]), Slot(values[0])] + Lines(labels[1..], values[1..])
  }

  lemma {:induction false} LinesHoles(labels: seq<string>, values: seq<Value>, others: seq<Value>)
    requires |labels| == |values| == |others|
    ensures Holes(Lines(labels, values)) == values
    ensures Template(Lines(labels, values)) == Template(Lines(labels, others))
  {
    if values != [] {
      var head, otherHead := [Lit(labels[0]), Slot(values[0])], [Lit(labels[0]), Slot(others[0])];
      LinesHoles(labels[1..], values[1..], others[1..]);
      HolesAppend(head, Lines(labels[1..], values[1..]));
      HolesAppend([Lit(labels[0])], [Slot(values[0])]);
      assert [Lit(labels[0])] + [Slot(values[0])] == head;
      assert [values[0]] + values[1..] == values;
      TemplateAppend(head, Lines(labels[1..], values[1..]));
      TemplateAppend(otherHead, Lines(labels[1..], others[1..]));
      assert Template(head) == Template(otherHead) by {
        assert head == [Lit(labels[0])] + [Slot(values[0])];
        assert otherHead == [Lit(labels[0])] + [Slot(others[0])];
        TemplateAppend([Lit(labels[0])], [Slot(values[0])]);
        TemplateAppend([Lit(labels[0])], [Slot(others[0])]);
      }
    }
  }

  /**
   * One analysis in the prompt: its four narrative fields and its risk level
   * interpolated as they are, then its confidence score multiplied by 100.
   */
  function Section(labels: seq<string>, values: seq<Value>): Prompt
    requires |labels| == |values| == 6
  {
    Lines(labels[..5], values[..5]) + [Lit(labels[5]), PercentSlot(values[5])]
  }

  lemma SectionHoles(labels: seq<string>, values: seq<Value>, others: seq<Value>)
    requires |labels| == |values| == |others| == 6
    ensures Holes(Section(labels, values)) == values
    ensures Template(Section(labels, values)) == Template(Section(labels, others))
  {
    var tail, otherTail := [Lit(labels[5]), PercentSlot(values[5])], [Lit(labels[5]), PercentSlot(others[5])];
    LinesHoles(labels[..5], values[..5], others[..5]);
    HolesAppend(Lines(labels[..5], values[..5]), tail);
    assert Holes(tail) == [values[5]] by {
      assert tail == [Lit(labels[5])] + [PercentSlot(values[5])];
      HolesAppend([Lit(labels[5])], [PercentSlot(values[5])]);
    }
    assert values[..5] + [values[5]] == values;
    TemplateAppend(Lines(labels[..5], values[..5]), tail);
    TemplateAppend(Lines(labels[..5], others[..5]), otherTail);
    assert Template(tail) == Template(otherTail) by {
      assert tail == [Lit(labels[5])] + [PercentSlot(values[5])];
      assert otherTail == [Lit(labels[5])] + [PercentSlot(others[5])];
      TemplateAppend([Lit(labels[5])], [PercentSlot(values[5])]);
      TemplateAppend([Lit(labels[5])], [PercentSlot(others[5])]);
    }
  }

  /** The prompt text, once every `confidence_score * 100` could be evaluated. */
  function Text(
    idea: Value,
    market: MarketLogic.MarketAnalysis,
    financial: FinancialSustainability.FinancialAnalysis,
    competitive: CompetitiveDurability.CompetitiveAnalysis): Prompt
  {
    [Lit(Preamble), Slot(idea)]
    + Section(MarketLabels, MarketLogic.Values(market))
    + Section(FinancialLabels, FinancialSustainability.Values(financial))
    + Section(CompetitiveLabels, CompetitiveDurability.Values(competitive))
    + [Lit(Instructions)]
  }

  /**
   * The f-string is evaluated left to right: the first confidence score that
   * cannot be multiplied by 100 (None or a dict) raises before any call.
   */
  function Prompt(
    idea: Value,
    market: MarketLogic.MarketAnalysis,
    financial: FinancialSustainability.FinancialAnalysis,
    competitive: CompetitiveDurability.CompetitiveAnalysis): (r: Result<Prompt, Error>)
    ensures r.Success? <==>
      TimesHundredError(market.confidenceScore).None? &&
      TimesHundredError(financial.confidenceScore).None? &&
      TimesHundredError(competitive.confidenceScore).None?
    ensures r.Failure? ==> r.error.kind == TypeError
    ensures TimesHundredError(market.confidenceScore).Some? ==>
      r == Failure(TimesHundredError(market.confidenceScore).value)
    ensures TimesHundredError(market.confidenceScore).None? && TimesHundredError(financial.confidenceScore).Some? ==>
      r == Failure(TimesHundredError(financial.confidenceScore).value)
    ensures TimesHundredError(market.confidenceScore).None? && TimesHundredError(financial.confidenceScore).None? &&
            TimesHundredError(competitive.confidenceScore).Some? ==>
      r == Failure(TimesHundredError(competitive.confidenceScore).value)
  {
    if TimesHundredError(market.confidenceScore).Some? then Failure(TimesHundredError(market.confidenceScore).value)
    else if TimesHundredError(financial.confidenceScore).Some? then Failure(TimesHundredError(financial.confidenceScore).value)
    else if TimesHundredError(competitive.confidenceScore).Some? then Failure(TimesHundredError(competitive.confidenceScore).value)
    else Success(Text(idea, market, financial, competitive))
  }

  /**
   * The prompt holds the idea and then every field of the market, financial
   * and competitive analyses in that order (the four narrative fields, the
   * risk level, and the confidence score scaled by 100), and nothing else
   * varies with the inputs.
   */
  lemma PromptEmbedsInputs(
    idea: Value,
    market: MarketLogic.MarketAnalysis,
    financial: FinancialSustainability.FinancialAnalysis,
    competitive: CompetitiveDurability.CompetitiveAnalysis,
    idea': Value,
    market': MarketLogic.MarketAnalysis,
    financial': FinancialSustainability.FinancialAnalysis,
    competitive': CompetitiveDurability.CompetitiveAnalysis)
    ensures Holes(Text(idea, market, financial, competitive)) ==
      [idea] + MarketLogic.Values(market) + FinancialSustainability.Values(financial)
      + CompetitiveDurability.Values(competitive)
    ensures Template(Text(idea, market, financial, competitive)) ==
      Template(Text(idea', market', financial', competitive'))
  {
    var head, head' := [Lit(Preamble), Slot(idea)], [Lit(Preamble), Slot(idea')];
    var m, m' := Section(MarketLabels, MarketLogic.Values(market)), Section(MarketLabels, MarketLogic.Values(market'));
    var f, f' := Section(FinancialLabels, FinancialSustainability.Values(financial)),
                 Section(FinancialLabels, FinancialSustainability.Values(financial'));
    var c, c' := Section(CompetitiveLabels, CompetitiveDurability.Values(competitive)),
                 Section(CompetitiveLabels, CompetitiveDurability.Values(competitive'));
    var tail := [Lit(Instructions)];
    SectionHoles(MarketLabels, MarketLogic.Values(market), MarketLogic.Values(market'));
    SectionHoles(FinancialLabels, FinancialSustainability.Values(financial), FinancialSustainability.Values(financial'));
    SectionHoles(CompetitiveLabels, CompetitiveDurability.Values(competitive), CompetitiveDurability.Values(competitive'));
    assert Holes(head) == [idea] && Template(head) == Template(head') by {
      assert head == [Lit(Preamble)] + [Slot(idea)];
      assert head' == [Lit(Preamble)] + [Slot(idea')];
      HolesAppend([Lit(Preamble)], [Slot(idea)]);
      TemplateAppend([Lit(Preamble)], [Slot(idea)]);
      TemplateAppend([Lit(Preamble)], [Slot(idea')]);
    }
    assert Holes(tail) == [] by {
      HolesAppend(tail, []);
    }
    HolesAppend(head, m);
    HolesAppend(head + m, f);
    HolesAppend(head + m + f, c);
    HolesAppend(head + m + f + c, tail);
    TemplateAppend(head, m);
    TemplateAppend(head + m, f);
    TemplateAppend(head + m + f, c);
    TemplateAppend(head + m + f + c, tail);
    TemplateAppend(head', m');
    TemplateAppend(head' + m', f');
    TemplateAppend(head' + m' + f', c');
    TemplateAppend(head' + m' + f' + c', tail);
  }

  function SynthesisRequest(
    idea: Value,
    market: MarketLogic.MarketAnalysis,
    financial: FinancialSustainability.FinancialAnalysis,
    competitive: CompetitiveDurability.CompetitiveAnalysis): Result<Request, Error>
  {
    var prompt :- Prompt(idea, market, financial, competitive);
    Success(Service.Request(Model, prompt))
  }

  /**
   * `StrategicSynthesizerAgent.synthesize`: build the prompt, make one call,
   * then default-fill the memo.
   */
  function Synthesize(
    backend: Backend,
    idea: Value,
    market: MarketLogic.MarketAnalysis,
    financial: FinancialSustainability.FinancialAnalysis,
    competitive: CompetitiveDurability.CompetitiveAnalysis): Result<StrategicMemo, Error>
  {
    var request :- SynthesisRequest(idea, market, financial, competitive);
    var obj :- ParseObject(backend.chat(request), backend.loads);
    Success(FromObject(obj))
  }

  /** Once its prompt is built, any reply that parses to a dict yields a memo. */
  lemma ParsedReplySynthesizes(
    backend: Backend,
    idea: Value,
    market: MarketLogic.MarketAnalysis,
    financial: FinancialSustainability.FinancialAnalysis,
    competitive: CompetitiveDurability.CompetitiveAnalysis)
    requires SynthesisRequest(idea, market, financial, competitive).Success?
    requires ParseObject(backend.chat(SynthesisRequest(idea, market, financial, competitive).value), backend.loads).Success?
    ensures Synthesize(backend, idea, market, financial, competitive).Success?
  {
  }

  /**
   * A prompt that raises is the outcome and no call is made; otherwise only
   * the call and the parse can fail, and a parsed dict always yields its memo.
   */
  lemma SynthesizeFailures(
    backend: Backend,
    idea: Value,
    market: MarketLogic.MarketAnalysis,
    financial: FinancialSustainability.FinancialAnalysis,
    competitive: CompetitiveDurability.CompetitiveAnalysis)
    ensures var request := SynthesisRequest(idea, market, financial, competitive);
      var memo := Synthesize(backend, idea, market, financial, competitive);
      && (request.Failure? ==> memo == Failure(request.error))
      && (request.Success? ==>
            var parsed := ParseObject(backend.chat(request.value), backend.loads);
            && (memo.Failure? <==> parsed.Failure?)
            && (parsed.Failure? ==> memo == Failure(parsed.error))
            && (parsed.Success? ==> memo == Success(FromObject(parsed.value))))
  {
  }

  /**
   * The overall risk and confidence are the service's own answer: any two
   * syntheses whose calls get the same reply produce the same memo, whatever
   * the three analyses said.
   */
  lemma OverallJudgementIsTheReplys(
    backend: Backend,
    idea: Value,
    market: MarketLogic.MarketAnalysis,
    financial: FinancialSustainability.FinancialAnalysis,
    competitive: CompetitiveDurability.CompetitiveAnalysis,
    idea': Value,
    market': MarketLogic.MarketAnalysis,
    financial': FinancialSustainability.FinancialAnalysis,
    competitive': CompetitiveDurability.CompetitiveAnalysis)
    requires SynthesisRequest(idea, market, financial, competitive).Success?
    requires SynthesisRequest(idea', market', financial', competitive').Success?
    requires backend.chat(SynthesisRequest(idea, market, financial, competitive).value) ==
             backend.chat(SynthesisRequest(idea', market', financial', competitive').value)
    ensures Synthesize(backend, idea, market, financial, competitive) ==
            Synthesize(backend, idea', market', financial', competitive')
  {
  }

  /** The same synthesis made through the shared client; no request is sent when the prompt raises. */
  method Ask(
    client: Client,
    idea: Value,
    market: MarketLogic.MarketAnalysis,
    financial: FinancialSustainability.FinancialAnalysis,
    competitive: CompetitiveDurability.CompetitiveAnalysis) returns (r: Result<StrategicMemo, Error>)
    modifies client
    ensures var request := SynthesisRequest(idea, market, financial, competitive);
      client.log == old(client.log) + (if request.Success? then [request.value] else [])
    ensures r == Synthesize(client.backend, idea, market, financial, competitive)
  {
    var request :- SynthesisRequest(idea, market, financial, competitive);
    var reply := client.Complete(request);
    var obj :- ParseObject(reply, client.backend.loads);
    r := Success(FromObject(obj));
  }
}
