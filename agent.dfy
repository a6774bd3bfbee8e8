/**
 * What the four agents share: the default values, the default-fill that turns
 * a parsed response into a record (`result.get(key, default)` for each field
 * in order), `dataclasses.asdict`, and the step that turns the service's reply
 * into a dict (`json.loads` followed by the first `.get`).
 */
module Agent {
  import opened Wrappers
  import opened Python
  import opened Service

  /** Default of every narrative text field. */
  const Blank: Value := Str("")
  /** Default risk level ("medium"); with Low and High the three labels the prompts ask for. */
  const Medium: Value := Str("متوسط")
  const Low: Value := Str("منخفض")
  const High: Value := Str("عالي")
  /** Default confidence score. */
  const DefaultConfidence: Value := Float(0.5)
  /** Default of the memo's `detailed_analysis`. */
  const EmptyDict: Value := Dict(map[])

  /** The model the three analysts use. */
  const AnalystModel := "gpt-4o-mini"

  /** An analyst's prompt: fixed instructions, the idea interpolated once, fixed questions. */
  function AnalystPrompt(preamble: string, idea: Value, questions: string): Prompt {
    [Lit(preamble), Slot(idea), Lit(questions)]
  }

  /** The idea is the only value in an analyst's prompt, and the rest of the prompt is the same for every idea. */
  lemma AnalystPromptEmbedsIdea(preamble: string, questions: string, idea: Value, other: Value)
    ensures Holes(AnalystPrompt(preamble, idea, questions)) == [idea]
    ensures Template(AnalystPrompt(preamble, idea, questions)) == Template(AnalystPrompt(preamble, other, questions))
  {
    assert AnalystPrompt(preamble, idea, questions) == [Lit(preamble)] + [Slot(idea)] + [Lit(questions)];
    assert AnalystPrompt(preamble, other, questions) == [Lit(preamble)] + [Slot(other)] + [Lit(questions)];
    HolesAppend([Lit(preamble)] + [Slot(idea)], [Lit(questions)]);
    HolesAppend([Lit(preamble)], [Slot(idea)]);
    TemplateAppend([Lit(preamble)] + [Slot(idea)], [Lit(questions)]);
    TemplateAppend([Lit(preamble)], [Slot(idea)]);
    TemplateAppend([Lit(preamble)] + [Slot(other)], [Lit(questions)]);
    TemplateAppend([Lit(preamble)], [Slot(other)]);
  }

  /** The fields of a record in declaration order, each with its default. */
  type Schema = seq<(string, Value)>

  function Keys(schema: Schema): set<string> {
    set i | 0 <= i < |schema| :: schema[i].0
  }

  predicate DistinctKeys(schema: Schema) {
    forall i, j :: 0 <= i < j < |schema| ==> schema[i].0 != schema[j].0
  }

  /**
   * `[obj.get(key, default) for key, default in schema]`: one value per field,
   * the present value when the key is there and the default otherwise.
   */
  function Fill(obj: Object, schema: Schema): (vs: seq<Value>)
    ensures |vs| == |schema|
    ensures forall i :: 0 <= i < |schema| && schema[i].0 in obj ==> vs[i] == obj[schema[i].0]
    ensures forall i :: 0 <= i < |schema| && schema[i].0 !in obj ==> vs[i] == schema[i].1
  {
    if schema == [] then []
    else [Get(obj, schema[0].0, schema[0].1)] + Fill(obj, schema[1..])
  }

  /** `dataclasses.asdict`: the field names mapped to the record's values. */
  function AsDict(schema: Schema, vs: seq<Value>): (d: Object)
    requires |vs| == |schema|
    ensures d.Keys == Keys(schema)
  {
    if schema == [] then map[]
    else AsDict(schema[1..], vs[1..])[schema[0].0 := vs[0]]
  }

  lemma {:induction false} AsDictAt(schema: Schema, vs: seq<Value>, i: nat)
    requires |vs| == |schema| && DistinctKeys(schema) && i < |schema|
    ensures AsDict(schema, vs)[schema[i].0] == vs[i]
  {
    if i > 0 {
      assert schema[i].0 == schema[1..][i - 1].0;
      AsDictAt(schema[1..], vs[1..], i - 1);
    }
  }

  /** Filling a record from its own `asdict` gives the record back. */
  lemma FillAsDict(schema: Schema, vs: seq<Value>)
    requires |vs| == |schema| && DistinctKeys(schema)
    ensures Fill(AsDict(schema, vs), schema) == vs
  {
    var d := AsDict(schema, vs);
    forall i | 0 <= i < |schema|
      ensures Fill(d, schema)[i] == vs[i]
    {
      assert schema[i].0 in Keys(schema);
      AsDictAt(schema, vs, i);
    }
  }

  /** Two objects that agree on the schema's keys fill to the same values: other keys are ignored. */
  lemma FillIgnoresOtherKeys(o1: Object, o2: Object, schema: Schema)
    requires forall k :: k in Keys(schema) ==> (k in o1 <==> k in o2)
    requires forall k :: k in Keys(schema) && k in o1 ==> o1[k] == o2[k]
    ensures Fill(o1, schema) == Fill(o2, schema)
  {
    forall i | 0 <= i < |schema|
      ensures Fill(o1, schema)[i] == Fill(o2, schema)[i]
    {
      assert schema[i].0 in Keys(schema);
    }
  }

  /**
   * `json.loads(response.choices[0].message.content)` and the first
   * `result.get`: the dict an agent builds its record from, or the exception
   * raised on the way.
   */
  function ParseObject(reply: Reply, loads: string -> Result<Value, string>): Result<Object, Error> {
    match reply
    case Raised(message) => Failure(Error(APIError, message))
    case Answered(None) =>
      Failure(Error(TypeError, "the JSON object must be str, bytes or bytearray, not NoneType"))
    case Answered(Some(text)) =>
      match loads(text)
      case Failure(message) => Failure(Error(JSONDecodeError, message))
      case Success(Dict(fields)) => Success(fields)
      case Success(other) =>
        Failure(Error(AttributeError, "'" + TypeName(other) + "' object has no attribute 'get'"))
  }

  /**
   * A reply every stage can use: content that `json.loads` turns into a dict
   * whose confidence score, when present, can be multiplied by 100.
   */
  predicate WellFormed(reply: Reply, loads: string -> Result<Value, string>) {
    && reply.Answered? && reply.content.Some?
    && loads(reply.content.value).Success?
    && loads(reply.content.value).value.Dict?
    && var obj := loads(reply.content.value).value.fields;
       "confidence_score" in obj ==> TimesHundredError(obj["confidence_score"]).None?
  }

  /**
   * Parsing succeeds exactly on content that `json.loads` turns into a dict,
   * and each other outcome surfaces as its own Python exception.
   */
  lemma ParseFailures(reply: Reply, loads: string -> Result<Value, string>)
    ensures ParseObject(reply, loads).Success? <==>
      reply.Answered? && reply.content.Some? &&
      loads(reply.content.value).Success? && loads(reply.content.value).value.Dict?
    ensures ParseObject(reply, loads).Success? ==>
      ParseObject(reply, loads).value == loads(reply.content.value).value.fields
    ensures reply.Raised? ==> ParseObject(reply, loads) == Failure(Error(APIError, reply.message))
    ensures reply == Answered(None) ==> ParseObject(reply, loads).error.kind == TypeError
    ensures reply.Answered? && reply.content.Some? && loads(reply.content.value).Failure? ==>
      ParseObject(reply, loads) == Failure(Error(JSONDecodeError, loads(reply.content.value).error))
    ensures reply.Answered? && reply.content.Some? && loads(reply.content.value).Success? &&
            !loads(reply.content.value).value.Dict? ==>
              ParseObject(reply, loads).error.kind == AttributeError
  {
  }
}
