# AI Consultant: a Dafny model of the multi-agent analysis pipeline

The AI Consultant turns a business idea into a strategic memo. It makes four
calls to a chat-completion service, in a fixed order:

1. three analysts — market logic, financial sustainability and competitive
   durability — each ask `gpt-4o-mini` about the idea;
2. a strategic synthesizer sends the idea and all three analyses to `gpt-4o`
   and gets back a memo that resolves their conflicts.

Every agent reads the JSON reply with `dict.get` and a default for each
field. A missing key never fails. The reply's values are used as they are,
whatever their type. The orchestrator then shows a dashboard that colours
the memo's overall risk and overall confidence, and returns the memo. The
Flask endpoint `/analyze` runs the same four calls. It answers with the four
records as JSON, with 400 when the idea is missing, or with 500 and the
exception's text when any stage raises (a failed call, an unusable reply,
or a synthesis prompt that cannot be built).

The model keeps the program's own shape:

- `Python` models what a JSON value is and what the program does with one:
  `dict.get`, truthiness, `* 100`, the `:.1f` format, and `>=` against a
  float. Each one raises where Python raises for a JSON value, including the
  OverflowError of `:.1f` on an int too large for a float. The exceptions
  listed under "Left out" are not modelled.
- `Service` models the prompt and the client. A prompt is the fixed text
  interleaved with the values it interpolates. The client is a class whose
  ghost `log` records every request sent. The service and `json.loads` are
  a fixed function of their input (`Backend`).
- `Agent` is the default-fill shared by the four agents (`Fill`): one
  generic definition over a schema of keys and defaults. It also holds the
  reply parsing that the agents share.
- `MarketLogic`, `FinancialSustainability`, `CompetitiveDurability` and
  `StrategicSynthesizer` each hold:
  - the record;
  - its schema of keys and defaults;
  - the record read from an object (`FromObject`) and written back to one
    (`ToObject`, the `dataclasses.asdict`);
  - the prompt;
  - `Analyze`/`Synthesize` as functions, and `Ask`, the same call made
    through the client.
- `Orchestrator` specifies the four stages as a pure function `Stages`. The
  function gives the records or the first exception, together with the
  requests sent. The imperative `RunStages` and `Consultant.Analyze` are
  proved against it. The module also holds the dashboard's two colour rules.
- `App` models the `/analyze` handler's decisions (`Route`), and
  `HandleAnalyze` is proved against them.

## Model

| member | source | states |
|---|---|---|
| Python.AtLeast | orchestrator.py:157 | `score >= bound` succeeds exactly for numbers (bool, int, float), and is then true exactly when the value reaches the bound; any other value raises TypeError |
| Python.PercentFormatOnlyOnNumbers | orchestrator.py:111 | `f"{v * 100:.1f}"` succeeds exactly on numbers whose product with 100 a float can hold, and a value it accepts can also be multiplied by 100; an int whose product is at least 2^1024 - 2^970 in magnitude raises OverflowError |
| Python.LargeIntPercentOverflows | orchestrator.py:111 | a JSON int of 307 digits is a number, yet formatting its percentage raises OverflowError |
| Service.Client.constructor | orchestrator.py:17-28 | a new client has sent nothing |
| Service.Client.Complete | agents/market_logic.py:46-50 | a completion request is appended to the trace, and the reply is the service's answer to that request |
| Agent.Fill | agents/market_logic.py:55-62 | one value per schema field: the object's value when its key is present, else that field's default |
| Agent.AsDict | app.py:78-81 | `asdict` has exactly the schema's keys |
| Agent.AsDictAt | app.py:78-81 | with distinct keys, `asdict` maps each field's key to that field's value |
| Agent.FillAsDict | app.py:78-81 | default-filling the `asdict` of a record gives back every one of its values |
| Agent.FillIgnoresOtherKeys | agents/market_logic.py:55-62 | two objects that agree on the schema's keys give the same values; every other key is ignored |
| Agent.AnalystPromptEmbedsIdea | agents/market_logic.py:21-44 | in each analyst's prompt the idea is the only interpolated value, and the rest of the prompt is the same for every idea |
| Agent.ParseFailures | agents/market_logic.py:46-53 | parsing succeeds exactly on content that `json.loads` turns into a dict, and then yields that dict; a raised call gives APIError with its message, missing content gives TypeError, bad JSON gives JSONDecodeError, and non-dict JSON gives AttributeError at `.get` |
| MarketLogic.FromObject | agents/market_logic.py:55-62 | each of the six fields is the object's value when its key is present, else `""`, `"متوسط"` or `0.5` |
| MarketLogic.Values | agents/market_logic.py:5-12 | one value per schema field |
| MarketLogic.ToObject | app.py:78 | `asdict` of the record has exactly the six field names |
| MarketLogic.RoundTrip | app.py:78 | reading back the `asdict` of any record gives that record |
| MarketLogic.ExtraKeysIgnored | agents/market_logic.py:55-62 | keys outside the six fields do not change the record |
| MarketLogic.AnalyzeFailsOnlyOnParse | agents/market_logic.py:46-62 | the analysis fails exactly when parsing the reply fails, with the same error; otherwise it is the default-filled record of the parsed dict |
| MarketLogic.WellFormedReplyAnalyzes | agents/market_logic.py:53-62 | a reply that parses to a dict whose `confidence_score`, if present, is neither None nor a dict yields a record whose confidence can be multiplied by 100 |
| MarketLogic.Ask | agents/market_logic.py:20-62 | one request with the analyst model is sent through the client, and the result is the analysis of the service's reply |
| FinancialSustainability.FromObject | agents/financial_sustainability.py:55-62 | each of the six fields is the object's value when its key is present, else `""`, `"متوسط"` or `0.5` |
| FinancialSustainability.Values | agents/financial_sustainability.py:5-12 | one value per schema field |
| FinancialSustainability.ToObject | app.py:79 | `asdict` of the record has exactly the six field names |
| FinancialSustainability.RoundTrip | app.py:79 | reading back the `asdict` of any record gives that record |
| FinancialSustainability.ExtraKeysIgnored | agents/financial_sustainability.py:55-62 | keys outside the six fields do not change the record |
| FinancialSustainability.AnalyzeFailsOnlyOnParse | agents/financial_sustainability.py:46-62 | the analysis fails exactly when parsing the reply fails, with the same error; otherwise it is the default-filled record of the parsed dict |
| FinancialSustainability.WellFormedReplyAnalyzes | agents/financial_sustainability.py:53-62 | a reply that parses to a dict whose `confidence_score`, if present, is neither None nor a dict yields a record whose confidence can be multiplied by 100 |
| FinancialSustainability.Ask | agents/financial_sustainability.py:20-62 | one request with the analyst model is sent through the client, and the result is the analysis of the service's reply |
| CompetitiveDurability.FromObject | agents/competitive_durability.py:55-62 | each of the six fields is the object's value when its key is present, else `""`, `"متوسط"` or `0.5` |
| CompetitiveDurability.Values | agents/competitive_durability.py:5-12 | one value per schema field |
| CompetitiveDurability.ToObject | app.py:80 | `asdict` of the record has exactly the six field names |
| CompetitiveDurability.RoundTrip | app.py:80 | reading back the `asdict` of any record gives that record |
| CompetitiveDurability.ExtraKeysIgnored | agents/competitive_durability.py:55-62 | keys outside the six fields do not change the record |
| CompetitiveDurability.AnalyzeFailsOnlyOnParse | agents/competitive_durability.py:46-62 | the analysis fails exactly when parsing the reply fails, with the same error; otherwise it is the default-filled record of the parsed dict |
| CompetitiveDurability.WellFormedReplyAnalyzes | agents/competitive_durability.py:53-62 | a reply that parses to a dict whose `confidence_score`, if present, is neither None nor a dict yields a record whose confidence can be multiplied by 100 |
| CompetitiveDurability.Ask | agents/competitive_durability.py:20-62 | one request with the analyst model is sent through the client, and the result is the analysis of the service's reply |
| StrategicSynthesizer.FromObject | agents/strategic_synthesizer.py:96-104 | each of the seven memo fields is the object's value when its key is present, else `""`, `{}`, `"متوسط"` or `0.5` |
| StrategicSynthesizer.Values | agents/strategic_synthesizer.py:8-16 | one value per schema field |
| StrategicSynthesizer.ToObject | app.py:81 | `asdict` of the memo has exactly the seven field names |
| StrategicSynthesizer.RoundTrip | app.py:81 | reading back the `asdict` of any memo gives that memo |
| StrategicSynthesizer.ExtraKeysIgnored | agents/strategic_synthesizer.py:96-104 | keys outside the seven fields do not change the memo |
| StrategicSynthesizer.LinesHoles | agents/strategic_synthesizer.py:39-43 | a block of labelled lines interpolates exactly its values, in order, around text that does not depend on them |
| StrategicSynthesizer.SectionHoles | agents/strategic_synthesizer.py:38-60 | one analyst's section interpolates its six fields in record order, the confidence as a percentage, around text that does not depend on them |
| StrategicSynthesizer.Prompt | agents/strategic_synthesizer.py:31-85 | the prompt can be built exactly when none of the three confidences is None or a dict; otherwise it fails with TypeError, on the first such confidence in market, financial, competitive order |
| StrategicSynthesizer.PromptEmbedsInputs | agents/strategic_synthesizer.py:31-85 | the interpolated values are the idea followed by every field of the market, financial and competitive records, in order; the rest of the prompt does not depend on the inputs |
| StrategicSynthesizer.ParsedReplySynthesizes | agents/strategic_synthesizer.py:87-104 | once the prompt is built, any reply that parses to a dict yields a memo |
| StrategicSynthesizer.SynthesizeFailures | agents/strategic_synthesizer.py:24-104 | a prompt that cannot be built is the synthesis's error; otherwise synthesis fails exactly when the reply cannot be parsed, with that error, and else the memo is the default-filled parsed dict |
| StrategicSynthesizer.OverallJudgementIsTheReplys | agents/strategic_synthesizer.py:96-104 | two syntheses whose requests get the same reply give the same memo, whatever their idea and analyses: the overall risk and confidence come from the reply and are not computed from the three analyses |
| StrategicSynthesizer.Ask | agents/strategic_synthesizer.py:24-104 | one request with `gpt-4o` is sent through the client when the prompt can be built, none otherwise, and the result is the synthesis of the reply |
| Orchestrator.AnalystRequests | agents/market_logic.py:18 | every analyst request uses `gpt-4o-mini` and interpolates only the idea |
| Orchestrator.FinancialOnwardRequests | orchestrator.py:51-67 | after the market stage, the financial request comes first, then the competitive request, then at most the synthesis request |
| Orchestrator.AnalystsCalledInOrder | orchestrator.py:46-56 | every run sends one to four requests: market first, then financial, then competitive; each of the first three uses the analyst model and interpolates only the idea |
| Orchestrator.SynthesisNeedsAllThree | orchestrator.py:62-67 | the fourth request is sent exactly when all three analyses succeed and the synthesis prompt can be built, and it is the `gpt-4o` request built from those three records |
| Orchestrator.FailureStopsLaterStages | orchestrator.py:46-67 | the first exception is the run's outcome, and no later request is sent |
| Orchestrator.SuccessHoldsEveryStage | orchestrator.py:46-67 | a successful run sent four requests, and its records are exactly what each stage returned, with the memo synthesized from those three analyses |
| Orchestrator.WellFormedRepliesRunAllStages | orchestrator.py:46-67 | when the service answers every request with a dict whose `confidence_score`, if present, is neither None nor a dict, all four stages run and succeed for any idea, the empty one included |
| Orchestrator.RiskColourRule | orchestrator.py:156 | red exactly for `"عالي"`, yellow exactly for `"متوسط"`, green for anything else (`"منخفض"` included) |
| Orchestrator.ConfidenceThresholds | orchestrator.py:157 | the colour exists exactly for numbers: green at 0.7 and above, yellow from 0.4 up to 0.7, red below 0.4; anything else raises TypeError |
| Orchestrator.ConfidenceColourMonotone | orchestrator.py:157 | a higher confidence never gets a worse colour |
| Orchestrator.Dashboard | orchestrator.py:111-170 | the dashboard is shown exactly when all four confidences can be formatted as percentages, and then it uses the risk and confidence colours of the memo; when the three analysts' confidences format but the memo's is not a number, it raises TypeError |
| Orchestrator.AnalyzeReturnsTheMemo | orchestrator.py:31-78 | `analyze` passes a stage's exception through unchanged, returns exactly the synthesizer's memo, and after a successful run fails exactly when one of the four confidences cannot be formatted as a percentage |
| Orchestrator.RunStages | orchestrator.py:46-67 | the four calls send exactly the specified requests, in order, through the shared client, and return the specified records or first exception |
| Orchestrator.RunFinancialOnward | orchestrator.py:50-67 | the stages after the market analysis, against their specification |
| Orchestrator.RunCompetitiveOnward | orchestrator.py:54-67 | the stages after the financial analysis, against their specification |
| Orchestrator.Consultant.constructor | orchestrator.py:17-28 | the orchestrator keeps the client its agents share |
| Orchestrator.Consultant.Analyze | orchestrator.py:31-78 | `analyze` sends exactly the stages' requests and returns the specified memo or exception |
| App.MissingIdeaRejected | app.py:55-59 | a missing, null, empty or otherwise falsy idea gets 400 with the fixed error message, and no agent is called |
| App.TruthyIdeaRunsStages | app.py:55-73 | any truthy idea is passed unchanged to the stages, starting with the market request, and is never answered with 400 |
| App.WhitespaceIdeaAccepted | app.py:58 | a whitespace-only idea is not rejected: the market analyst is asked about it |
| App.SuccessBodyFields | app.py:76-82 | the success body holds status `"success"` and the `asdict` of each record under its key, and nothing else |
| App.SuccessBodyHoldsTheRecords | app.py:76-82 | reading each record back from the success body gives exactly the record the stages produced |
| App.SuccessResponse | app.py:61-82 | a successful run is answered with 200 and the success body of its records |
| App.FailureResponseCarriesMessage | app.py:84-86 | an exception from any stage is answered with 500 and its text as the message |
| App.NonObjectBodyUnhandled | app.py:55-56 | a body that is not a JSON object fails at `data.get`, outside the try block, before any call |
| App.HandleAnalyze | app.py:52-86 | the handler sends exactly the specified requests through the shared client and gives the specified response |

The web handler's try block (app.py:63-73) repeats the orchestrator's call
sequence. Both are modelled by the one `Orchestrator.RunStages` and its
specification `Orchestrator.Stages`.

Where the program's own text says more than its code does, the model
follows the code:

- The prompts ask for one of three risk labels and for a confidence such as
  0.85 (agents/market_logic.py:33-43, and the same lines in the other
  agents). The agents copy whatever the reply holds. The model keeps any
  JSON value there, and proves where a non-number makes the program raise.
- The console announces three agents running in parallel
  (orchestrator.py:44). The calls run one after another
  (orchestrator.py:46-56), and the model proves that order.
- The handler rejects only a falsy idea (app.py:58), so a whitespace-only
  idea is analysed. `analyze` itself checks nothing, so it accepts the
  empty string too.

## Left out

- The prompts' wording: the fixed text is replaced by short placeholders.
  What the model does state is which values each prompt interpolates, in
  which order, and that the rest does not depend on the inputs.
- The text that `str()` and the f-strings produce for an interpolated value:
  a prompt piece holds the value itself.
- The exact percentage text: only whether `* 100` and `:.1f` raise.
- Console output and `rich` rendering (panels, tables, status spinners). A
  record field that `rich` cannot render as text makes the real dashboard
  raise. The model only covers the failures of the confidence formatting
  and of the colour comparison. The opening panel interpolates the idea as
  `rich` markup, so an idea holding a malformed tag such as `[/x]` raises
  MarkupError in `analyze` before any request is sent; the model has every
  run start with the market request.
- The `print` of the exception in the handler's except block (app.py:85).
- Floating point: JSON numbers are exact reals, so NaN, infinities and
  rounding are not modelled. A float product with 100 that overflows to
  infinity is formatted as `inf`, which is not an error.
- Python's 4300-digit limit on int and str conversion: `json.loads` raises
  ValueError on a longer integer literal, and the synthesis prompt's `str()`
  raises ValueError on a product with more digits. The model has `loads`
  return any int and lets every int be interpolated.
- Exceptions `json.loads` raises other than JSONDecodeError, such as
  RecursionError on deeply nested input: every `loads` failure is a
  JSONDecodeError in the model.
- A reply with an empty `choices` list, which raises IndexError at
  `choices[0]`: a reply is either raised or answered with one content.
- The service and `json.loads` are a fixed function of their input, with no
  randomness, timeouts or retries. The API key and `.env` loading are not
  modelled.
- Flask itself: routing, how `request.json` is obtained (its value arrives as
  the handler's parameter), `jsonify`, and the 500 page Flask serves for an
  exception outside the try block. That last case is the `Unhandled`
  outcome.
- The other routes (`/`, `/manifest.json`, `/sw.js`), the import-error
  fallback, `main`, the example script and the test script.
- Concurrency between requests: `app.run` (app.py:91) starts Flask's
  development server, which serves requests on threads, so two `/analyze`
  requests can run at once. They share only the module-level client and the
  stateless agents (app.py:29-35). The model treats each request alone, and
  the request trace in `HandleAnalyze`'s contract assumes that no other
  request interleaves its calls. Within one request the three analysts run
  one after another.
