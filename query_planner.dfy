/** `QueryPlanner.analyze_question`: turns the language model's reply to the planning
    prompt into a plan dict with 'is_complex', 'reasoning' and 'sub_queries'. The
    model call and `json.loads` are parameters: `reply` is the stripped reply text or
    the exception the call raised, `parse` is the JSON parser. */
module QueryPlanner {
  import opened Wrappers
  import opened Text
  import opened Values

  type Plan = map<string, Json>

  const FallbackPrefix := "Error analyzing question: "
  const FallbackSuffix := ". Treating as simple query."

  /** The plan returned when anything in `analyze_question` raises. */
  function FallbackPlan(message: string): (r: Plan)
    ensures IsFallback(r)
  {
    map["is_complex" := JBool(false),
        "reasoning" := JStr(FallbackPrefix + message + FallbackSuffix),
        "sub_queries" := JArr([])]
  }

  /** The shape of the fallback plan: simple, no sub-questions, and a reasoning text
      framed by the fixed prefix and suffix. */
  predicate IsFallback(p: Plan) {
    && "is_complex" in p && p["is_complex"] == JBool(false)
    && "sub_queries" in p && p["sub_queries"] == JArr([])
    && "reasoning" in p && p["reasoning"].JStr?
    && var s := p["reasoning"].s;
       |s| >= |FallbackPrefix| + |FallbackSuffix|
       && s[..|FallbackPrefix|] == FallbackPrefix
       && s[|s| - |FallbackSuffix|..] == FallbackSuffix
  }

  /** `result.get(...)` on a parsed value that is not a dict raises AttributeError. */
  function NoGetText(j: Json): string {
    "'" + TypeName(j) + "' object has no attribute 'get'"
  }

  /** What `analyze_question` makes of the parsed reply (or of the parse error). */
  function Interpret(parsed: Result<Json>): (r: Plan)
    // A plan that is not marked complex never carries sub-questions.
    ensures !Truthy(GetOrNull(r, "is_complex")) ==> "sub_queries" in r && r["sub_queries"] == JArr([])
    // A reply that does not parse falls back to a simple plan quoting the error.
    ensures parsed.Err? ==> r == FallbackPlan(parsed.error)
    // A parsed value that is not an object fails on `.get`.
    ensures parsed.Ok? && !parsed.value.JObj? ==> r == FallbackPlan(NoGetText(parsed.value))
    // A parsed object is returned with at most 'sub_queries' replaced; a complex
    // plan is returned exactly as the model wrote it.
    ensures parsed.Ok? && parsed.value.JObj? ==>
      (forall k :: k in parsed.value.fields && k != "sub_queries" ==> k in r && r[k] == parsed.value.fields[k])
      && r.Keys == parsed.value.fields.Keys + (if Truthy(GetOrNull(parsed.value.fields, "is_complex")) then {} else {"sub_queries"})
      && (Truthy(GetOrNull(parsed.value.fields, "is_complex")) ==> r == parsed.value.fields)
  {
    match parsed
    case Err(e) => FallbackPlan(e)
    case Ok(j) =>
      if !j.JObj? then FallbackPlan(NoGetText(j))
      else if !Truthy(GetOrNull(j.fields, "is_complex")) then j.fields["sub_queries" := JArr([])]
      else j.fields
  }

  /** `analyze_question(question)` after the model call: a failed call falls back to
      a simple plan quoting the error; a reply is fence-stripped and parsed. */
  function AnalyzeQuestion(reply: Result<string>, parse: string -> Result<Json>): (r: Plan)
    ensures !Truthy(GetOrNull(r, "is_complex")) ==> "sub_queries" in r && r["sub_queries"] == JArr([])
    ensures reply.Err? ==> r == FallbackPlan(reply.error)
    ensures reply.Ok? ==> r == Interpret(parse(StripFence(reply.value, "json")))
  {
    match reply
    case Err(e) => FallbackPlan(e)
    case Ok(text) => Interpret(parse(StripFence(text, "json")))
  }

  /** Whatever goes wrong, the caller gets a usable simple plan: the result is either
      the fallback or derived from a parsed object. */
  lemma FallbackOrParsed(reply: Result<string>, parse: string -> Result<Json>)
    ensures var r := AnalyzeQuestion(reply, parse);
      IsFallback(r)
      || (reply.Ok? && parse(StripFence(reply.value, "json")).Ok?
          && parse(StripFence(reply.value, "json")).value.JObj?)
  {
  }

  /** The plan of a reply is the plan of its fenced body: wrapping a JSON reply in a
      ```json fence changes nothing. */
  lemma FencedReplyAnalyzedAsBare(body: string, parse: string -> Result<Json>)
    requires '`' !in body
    ensures AnalyzeQuestion(Ok(Fence + "json" + body + Fence), parse) == AnalyzeQuestion(Ok(body), parse)
  {
    StripFenceRoundTrip("json", body);
    NoBacktickNoFence(body);
  }
}
