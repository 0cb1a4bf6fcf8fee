/** `ResultSynthesizer.synthesize_results`, the reduce step: the sub-results are
    rendered into one context text, the text goes into the synthesis prompt, and the
    model's reply is fence-stripped and parsed. The model call (`complete`),
    `json.dumps(rows, indent=2)` (`dumps`) and `json.loads` (`parse`) are parameters.

    The block separators in the context are the two-character sequence backslash-n,
    not newlines: the source writes "\\n" inside its f-strings, and so does this
    module. */
module ResultSynthesizer {
  import opened Wrappers
  import opened Text
  import opened Values

  /** At most this many rows of each sub-result are serialized into the context. */
  const ShownRows := 5

  /** `result['results'][:5]`. */
  function FirstRows(rows: seq<Row>): (r: seq<Row>)
    ensures |r| <= ShownRows && |r| <= |rows| && r == rows[..|r|]
    ensures |rows| <= ShownRows ==> r == rows
    ensures |rows| > ShownRows ==> |r| == ShownRows
  {
    if |rows| <= ShownRows then rows else rows[..ShownRows]
  }

  const NoteOpen := "\\n... ("
  const NoteClose := " total rows)"

  /** The row-count note appended to a block whose rows were cut. */
  function RowCountNote(n: nat): (r: string)
    ensures r != "" <==> n > ShownRows
  {
    if n > ShownRows then NoteOpen + NatToString(n) + NoteClose else ""
  }

  /** The note names the full row count: reading its digits back gives `n`. */
  lemma RowCountNoteReadsBack(n: nat)
    requires n > ShownRows
    ensures var t := RowCountNote(n);
      |t| >= |NoteOpen| + |NoteClose|
      && t[..|NoteOpen|] == NoteOpen && t[|t| - |NoteClose|..] == NoteClose
      && AllDigits(t[|NoteOpen|..|t| - |NoteClose|])
      && ParseNat(t[|NoteOpen|..|t| - |NoteClose|]) == n
  {
    var t := RowCountNote(n);
    assert t[|NoteOpen|..|t| - |NoteClose|] == NatToString(n);
    ParseNatToString(n);
  }

  /** The context block of the `i`-th sub-result (numbered from 1), or the error
      `json.dumps` raised on its rows. */
  function Block<A, P>(i: nat, sub: SubResult<A, P>, dumps: seq<Row> -> Result<string>): Result<string> {
    match dumps(FirstRows(sub.results))
    case Err(e) => Err(e)
    case Ok(shown) =>
      Ok(HeaderLine(i, sub.question) + SqlLine(sub.sql) + ResultsLine(shown) + RowCountNote(|sub.results|))
  }

  function HeaderLine(i: nat, question: string): string {
    "\\n\\nSub-Query " + NatToString(i) + ": " + question
  }

  function SqlLine(sql: string): string {
    "\\nSQL: " + sql
  }

  function ResultsLine(shown: string): string {
    "\\nResults: " + shown
  }

  /** The blocks of `subs` in list order, numbered from `k`; the first block that
      fails decides the error. */
  function Blocks<A, P>(subs: seq<SubResult<A, P>>, k: nat, dumps: seq<Row> -> Result<string>): Result<string>
    decreases |subs|
  {
    if subs == [] then Ok("")
    else
      match Block(k, subs[0], dumps)
      case Err(e) => Err(e)
      case Ok(b) =>
        match Blocks(subs[1..], k + 1, dumps)
        case Err(e) => Err(e)
        case Ok(t) => Ok(b + t)
  }

  /** The blocks of a concatenation: the blocks of the front, then those of the back
      numbered on from where the front stopped. */
  lemma {:induction false} BlocksConcat<A, P>(a: seq<SubResult<A, P>>, b: seq<SubResult<A, P>>, k: nat, dumps: seq<Row> -> Result<string>)
    ensures Blocks(a + b, k, dumps) ==
      match Blocks(a, k, dumps)
      case Err(e) => Err(e)
      case Ok(s) =>
        match Blocks(b, k + |a|, dumps)
        case Err(e) => Err(e)
        case Ok(t) => Ok(s + t)
    decreases |a|
  {
    if a == [] {
      assert a + b == b;
      match Blocks(b, k, dumps)
      case Err(e) =>
      case Ok(t) => assert "" + t == t;
    } else {
      assert (a + b)[0] == a[0];
      assert (a + b)[1..] == a[1..] + b;
      BlocksConcat(a[1..], b, k + 1, dumps);
      match Block(k, a[0], dumps)
      case Err(e) =>
      case Ok(x) =>
        match Blocks(a[1..], k + 1, dumps)
        case Err(e) =>
        case Ok(s) =>
          match Blocks(b, k + |a|, dumps)
          case Err(e) =>
          case Ok(t) =>
            assert x + (s + t) == (x + s) + t;
    }
  }

  /** One more sub-result adds its block at the end of the context, or fails. */
  lemma BlocksStep<A, P>(subs: seq<SubResult<A, P>>, i: nat, dumps: seq<Row> -> Result<string>, text: string)
    requires i < |subs| && Blocks(subs[..i], 1, dumps) == Ok(text)
    ensures Blocks(subs[..i + 1], 1, dumps) ==
      match Block(i + 1, subs[i], dumps)
      case Err(e) => Err(e)
      case Ok(b) => Ok(text + b)
  {
    BlocksConcat(subs[..i], [subs[i]], 1, dumps);
    assert subs[..i + 1] == subs[..i] + [subs[i]];
    assert [subs[i]][1..] == [];
    match Block(i + 1, subs[i], dumps)
    case Err(e) =>
    case Ok(b) => assert b + "" == b;
  }

  /** A failing prefix makes the whole context fail with its error. */
  lemma BlocksPrefixFails<A, P>(subs: seq<SubResult<A, P>>, j: nat, dumps: seq<Row> -> Result<string>)
    requires j <= |subs| && Blocks(subs[..j], 1, dumps).Err?
    ensures Blocks(subs, 1, dumps) == Blocks(subs[..j], 1, dumps)
  {
    BlocksConcat(subs[..j], subs[j..], 1, dumps);
    assert subs[..j] + subs[j..] == subs;
  }

  /** The four appends of one sub-result's block. */
  method AppendBlock<A, P>(text: string, i: nat, sub: SubResult<A, P>, shown: string) returns (next: string)
    ensures next == text + (HeaderLine(i, sub.question) + SqlLine(sub.sql) + ResultsLine(shown) + RowCountNote(|sub.results|))
  {
    next := text + HeaderLine(i, sub.question);
    next := next + SqlLine(sub.sql);
    next := next + ResultsLine(shown);
    if |sub.results| > ShownRows {
      next := next + RowCountNote(|sub.results|);
    }
    BlockParts(text, HeaderLine(i, sub.question), SqlLine(sub.sql), ResultsLine(shown), RowCountNote(|sub.results|));
  }

  lemma BlockParts(t: string, h: string, q: string, r: string, n: string)
    ensures t + h + q + r + n == t + (h + q + r + n)
  {
  }

  /** The context loop of `synthesize_results`. */
  method BuildContext<A, P>(subs: seq<SubResult<A, P>>, dumps: seq<Row> -> Result<string>) returns (context: Result<string>)
    ensures context == Blocks(subs, 1, dumps)
  {
    var text := "";
    var i := 0;
    while i < |subs|
      invariant 0 <= i <= |subs|
      invariant Blocks(subs[..i], 1, dumps) == Ok(text)
    {
      var sub := subs[i];
      BlocksStep(subs, i, dumps, text);
      var shown := dumps(FirstRows(sub.results));
      if shown.Err? {
        BlocksPrefixFails(subs, i + 1, dumps);
        return Err(shown.error);
      }
      text := AppendBlock(text, i + 1, sub, shown.value);
      i := i + 1;
    }
    assert subs[..i] == subs;
    return Ok(text);
  }

  const PromptHead := "You are a data analyst synthesizing results from multiple database queries.\n\nORIGINAL QUESTION: "

  const PromptTail :=
    "\n\nBased on these results, provide:\n"
    + "1. A unified answer that directly answers the original question\n"
    + "2. 3-5 key insights or patterns discovered in the data\n"
    + "3. Actionable recommendations (if applicable)\n\n"
    + "Respond in JSON format:\n{\n"
    + "    \"unified_answer\": \"A concise summary that answers the original question\",\n"
    + "    \"key_insights\": [\n"
    + "        \"Insight 1\",\n"
    + "        \"Insight 2\",\n"
    + "        \"Insight 3\"\n"
    + "    ]\n}\n\nJSON Response:"

  /** The synthesis prompt: the question, then the context right after the
      "SUB-QUERY RESULTS:" label. */
  function SynthesisPrompt(question: string, context: string): (r: string)
    ensures Contains(r, question) && Contains(r, context)
  {
    var r := PromptHead + question + "\n\nSUB-QUERY RESULTS:" + context + PromptTail;
    assert OccursAt(r, question, |PromptHead|);
    assert OccursAt(r, context, |PromptHead + question + "\n\nSUB-QUERY RESULTS:"|);
    r
  }

  /** The reply returned when the model call or the parse raises. */
  function FallbackSynthesis(count: nat, message: string): (r: Json)
    ensures r.JObj? && r.fields.Keys == {"unified_answer", "key_insights"}
    ensures r.fields["key_insights"].JArr? && |r.fields["key_insights"].items| == 1
    // The answer reports the number of sub-queries; the one insight carries the error.
    ensures r.fields["unified_answer"] == JStr("Results from " + NatToString(count) + " queries executed successfully.")
    ensures r.fields["key_insights"].items[0] == JStr("Error synthesizing results: " + message)
  {
    JObj(map["unified_answer" := JStr("Results from " + NatToString(count) + " queries executed successfully."),
             "key_insights" := JArr([JStr("Error synthesizing results: " + message)])])
  }

  /** `synthesize_results(question, sub_results)`. A `json.dumps` failure happens
      before the `try` and escapes as the error; a failed model call or parse is
      caught and turned into the fallback; a parsed reply is returned unchanged,
      whatever JSON value it is. */
  function SynthesizeResults<A, P>(question: string, subs: seq<SubResult<A, P>>,
                                   dumps: seq<Row> -> Result<string>,
                                   complete: string -> Result<string>,
                                   parse: string -> Result<Json>): (r: Result<Json>)
    ensures r.Err? <==> Blocks(subs, 1, dumps).Err?
    ensures r.Err? ==> r.error == Blocks(subs, 1, dumps).error
    ensures r.Ok? ==>
      var reply := complete(SynthesisPrompt(question, Blocks(subs, 1, dumps).value));
      if reply.Err? then r.value == FallbackSynthesis(|subs|, reply.error)
      else if parse(StripFence(reply.value, "json")).Err? then
        r.value == FallbackSynthesis(|subs|, parse(StripFence(reply.value, "json")).error)
      else r.value == parse(StripFence(reply.value, "json")).value
  {
    match Blocks(subs, 1, dumps)
    case Err(e) => Err(e)
    case Ok(context) =>
      match complete(SynthesisPrompt(question, context))
      case Err(e) => Ok(FallbackSynthesis(|subs|, e))
      case Ok(text) =>
        match parse(StripFence(text, "json"))
        case Err(e) => Ok(FallbackSynthesis(|subs|, e))
        case Ok(j) => Ok(j)
  }
}
