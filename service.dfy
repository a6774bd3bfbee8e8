/**
 * The chat-completion service the agents call, seen from the outside: a
 * request (model name and prompt), a reply (an exception or the message
 * content), and the client object through which the calls are made. The
 * service and `json.loads` are not modelled; a `Backend` value fixes how they
 * answer, and the client records every request it sends.
 */
module Service {
  import opened Wrappers
  import opened Python

  /**
   * One piece of an f-string prompt: fixed text, a `{value}` slot, or a
   * `{value * 100}` slot. The wording of the fixed text is a stand-in and the
   * text `str()` gives for a slot is not modelled.
   */
  datatype Piece = Lit(text: string) | Slot(value: Value) | PercentSlot(value: Value)

  type Prompt = seq<Piece>

  /** The values interpolated into a prompt, in order. */
  function Holes(p: Prompt): seq<Value> {
    if p == [] then []
    else
      (match p[0]
       case Lit(_) => []
       case Slot(v) => [v]
       case PercentSlot(v) => [v])
      + Holes(p[1..])
  }

  /**
   * The prompt with every slot emptied: the part that does not depend on any
   * input. Each literal is kept, and each slot keeps its kind.
   */
  function Template(p: Prompt): (t: Prompt)
    ensures |t| == |p|
    ensures forall i :: 0 <= i < |p| && p[i].Lit? ==> t[i] == p[i]
    ensures forall i :: 0 <= i < |p| && p[i].Slot? ==> t[i] == Slot(Null)
    ensures forall i :: 0 <= i < |p| && p[i].PercentSlot? ==> t[i] == PercentSlot(Null)
  {
    if p == [] then []
    else
      [match p[0]
       case Lit(s) => Lit(s)
       case Slot(_) => Slot(Null)
       case PercentSlot(_) => PercentSlot(Null)]
      + Template(p[1..])
  }

  lemma {:induction false} HolesAppend(p: Prompt, q: Prompt)
    ensures Holes(p + q) == Holes(p) + Holes(q)
  {
    if p != [] {
      assert (p + q)[1..] == p[1..] + q;
      HolesAppend(p[1..], q);
    } else {
      assert p + q == q;
    }
  }

  lemma {:induction false} TemplateAppend(p: Prompt, q: Prompt)
    ensures Template(p + q) == Template(p) + Template(q)
  {
    if p != [] {
      assert (p + q)[1..] == p[1..] + q;
      TemplateAppend(p[1..], q);
    } else {
      assert p + q == q;
    }
  }

  /**
   * A `chat.completions.create` call. Every call the modelled code makes asks
   * for `response_format={"type": "json_object"}` and one user message, so a
   * request is determined by the model name and the prompt.
   */
  datatype Request = Request(model: string, prompt: Prompt)

  /** What the call gives back: an exception, or `choices[0].message.content` (which may be None). */
  datatype Reply = Raised(message: string) | Answered(content: Option<string>)

  /** How the service answers each request, and how `json.loads` parses each text. */
  datatype Backend = Backend(chat: Request -> Reply, loads: string -> Result<Value, string>)

  /** Appending to a trace in two steps is appending the two parts at once. */
  lemma AppendAssociative<T>(a: seq<T>, b: seq<T>, c: seq<T>)
    ensures (a + b) + c == a + (b + c)
  {
  }

  /** The OpenAI client shared by the four agents; `log` is the trace of requests sent so far. */
  class Client {
    const backend: Backend
    ghost var log: seq<Request>

    constructor (backend: Backend)
      ensures this.backend == backend && log == []
    {
      this.backend := backend;
      log := [];
    }

    method Complete(request: Request) returns (reply: Reply)
      modifies this
      ensures log == old(log) + [request]
      ensures reply == backend.chat(request)
    {
      reply := backend.chat(request);
      log := log + [request];
    }
  }
}
