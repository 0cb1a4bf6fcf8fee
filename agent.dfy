/** `NL2SQLAgentMapReduce`: plans a question, answers a simple question with one
    generated SQL query, and answers a complex one by running every sub-question
    (map) and synthesizing the sub-results (reduce). Every service the agent talks
    to is a field of `Services`; an exception escaping a step is an `Err` carrying
    `str(e)`, and `process_question` turns it into an error outcome. */
module NL2SQLAgent {
  import opened Wrappers
  import opened Text
  import opened Values
  import VA = VisualizationAssessor
  import PG = PlotGenerator
  import QP = QueryPlanner
  import RS = ResultSynthesizer
  import MI = MetadataIngestion

  /** What the agent's collaborators answer.
      - `plan`: the planning model's reply for a question (or the call's error);
      - `parse`: `json.loads`;
      - `tableStore`: the table collection's metadata and document lists for a
        question, at five results;
      - `queryStore`: the query collection's metadata list for a query;
      - `generate`: `str()` of the SQL model's answer to a prompt (or its error);
      - `execute`: `DatabaseConnector.execute_query`, rows and error message;
      - `parses`: whether `pd.to_datetime` accepts a value;
      - `dumps`: `json.dumps(rows, indent=2)`;
      - `synthesize`: the synthesis model's reply to a prompt (or its error);
      - `draw`: the exception, if any, that the plotly figure builders raise while
        drawing a plot (the bar builder's `astype(int)` on a text column, say). */
  datatype Services = Services(
    plan: string -> Result<string>,
    parse: string -> Result<Json>,
    tableStore: string -> (seq<map<string, string>>, seq<string>),
    queryStore: MI.QueryParams -> seq<map<string, string>>,
    generate: string -> Result<string>,
    execute: string -> (seq<Row>, Option<string>),
    parses: Value -> bool,
    dumps: seq<Row> -> Result<string>,
    synthesize: string -> Result<string>,
    draw: PG.PlotSpec -> Option<string>)

  type Sub = SubResult<VA.Assessment, PG.PlotSpec>

  /** The dict `process_question` returns. */
  datatype Outcome =
    | Simple(question: string, sql: string, reasoning: string, results: seq<Row>, columns: seq<string>,
             plot: Option<PG.PlotSpec>, assessment: Option<VA.Assessment>)
    | Complex(question: string, executionPlan: Json, subQueriesCount: nat, subQueries: seq<Sub>,
              unifiedAnswer: Json, keyInsights: Json)
    | Failure(question: string, error: string)

  // ---------------------------------------------------------------------------
  // The SQL prompt
  // ---------------------------------------------------------------------------

  function PromptHead(question: string): string {
    "You are an expert SQL query generator. Generate a SQL query to answer the user's question.\n\nUSER QUESTION: "
    + question + "\n\nAVAILABLE TABLES:\n"
  }

  const ExamplesHeader := "\n\nEXAMPLE QUERIES:\n"

  const Instructions :=
    "\n\nINSTRUCTIONS:\n"
    + "1. Generate a valid SQLite query\n"
    + "2. Use proper JOINs based on table relationships\n"
    + "3. Follow the patterns from example queries when applicable\n"
    + "4. Keep the query simple and efficient\n"
    + "5. Return ONLY the SQL query, no explanations\n\n"
    + "SQL Query:"

  /** The table part: each document on its own, in order. */
  function TablesText(tables: seq<MI.TableHit>): string
    decreases |tables|
  {
    if tables == [] then ""
    else TablesText(tables[..|tables| - 1]) + "\n" + tables[|tables| - 1].document + "\n"
  }

  function ExampleText(e: MI.Example): string {
    "\nQuestion: " + e.question + "\n" + "SQL: " + e.query + "\n" + "Reasoning: " + e.reasoning + "\n"
  }

  function ExamplesText(examples: seq<MI.Example>): string
    decreases |examples|
  {
    if examples == [] then ""
    else ExamplesText(examples[..|examples| - 1]) + ExampleText(examples[|examples| - 1])
  }

  /** The example section, present only when there are examples. */
  function ExamplesSection(examples: seq<MI.Example>): string {
    if examples == [] then "" else ExamplesHeader + ExamplesText(examples)
  }

  /** The prompt `_build_sql_prompt` composes. */
  function SqlPrompt(question: string, tables: seq<MI.TableHit>, examples: seq<MI.Example>): (r: string)
    ensures |r| >= |PromptHead(question)| + |Instructions|
    ensures r[..|PromptHead(question)|] == PromptHead(question)
    ensures r[|r| - |Instructions|..] == Instructions
  {
    var middle := TablesText(tables) + ExamplesSection(examples);
    Framed(PromptHead(question), middle, Instructions);
    PromptHead(question) + middle + Instructions
  }

  /** The ends of a three-part concatenation. */
  lemma Framed(head: string, middle: string, tail: string)
    ensures (head + middle + tail)[..|head|] == head
    ensures (head + middle + tail)[|head + middle + tail| - |tail|..] == tail
  {
  }

  /** One more table: its append extends the table part by that table. */
  lemma TableStep(start: string, tables: seq<MI.TableHit>, i: nat)
    requires i < |tables|
    ensures start + TablesText(tables[..i]) + "\n" + tables[i].document + "\n" == start + TablesText(tables[..i + 1])
  {
    assert tables[..i + 1][..i] == tables[..i];
    var t := TablesText(tables[..i]);
    assert start + t + "\n" + tables[i].document + "\n" == start + (t + "\n" + tables[i].document + "\n");
  }

  /** One more example: its three appends extend the example part by that example. */
  lemma ExampleStep(start: string, examples: seq<MI.Example>, i: nat)
    requires i < |examples|
    ensures var e := examples[i];
      start + ExamplesText(examples[..i]) + "\nQuestion: " + e.question + "\n" + "SQL: " + e.query + "\n"
        + "Reasoning: " + e.reasoning + "\n"
      == start + ExamplesText(examples[..i + 1])
  {
    assert examples[..i + 1][..i] == examples[..i];
    var e := examples[i];
    var t := ExamplesText(examples[..i]);
    assert start + t + "\nQuestion: " + e.question + "\n" + "SQL: " + e.query + "\n" + "Reasoning: " + e.reasoning + "\n"
      == start + (t + ExampleText(e));
  }

  /** The table loop of `_build_sql_prompt`. */
  method AppendTables(start: string, tables: seq<MI.TableHit>) returns (prompt: string)
    ensures prompt == start + TablesText(tables)
  {
    prompt := start;
    for i := 0 to |tables|
      invariant prompt == start + TablesText(tables[..i])
    {
      TableStep(start, tables, i);
      prompt := prompt + "\n" + tables[i].document + "\n";
    }
    assert tables[..|tables|] == tables;
  }

  /** The example loop of `_build_sql_prompt`. */
  method AppendExamples(start: string, examples: seq<MI.Example>) returns (prompt: string)
    ensures prompt == start + ExamplesText(examples)
  {
    prompt := start;
    for i := 0 to |examples|
      invariant prompt == start + ExamplesText(examples[..i])
    {
      ExampleStep(start, examples, i);
      prompt := prompt + "\nQuestion: " + examples[i].question + "\n";
      prompt := prompt + "SQL: " + examples[i].query + "\n";
      prompt := prompt + "Reasoning: " + examples[i].reasoning + "\n";
    }
    assert examples[..|examples|] == examples;
  }

  /** `_build_sql_prompt(question, tables, queries)`: the prompt grown piece by
      piece. */
  method BuildSqlPrompt(question: string, tables: seq<MI.TableHit>, examples: seq<MI.Example>) returns (prompt: string)
    ensures prompt == SqlPrompt(question, tables, examples)
  {
    var head := PromptHead(question);
    prompt := AppendTables(head, tables);
    ghost var withTables := prompt;
    if examples != [] {
      prompt := AppendExamples(prompt + ExamplesHeader, examples);
      Assoc(withTables, ExamplesHeader, ExamplesText(examples));
    }
    assert prompt == withTables + ExamplesSection(examples);
    Assoc(head, TablesText(tables), ExamplesSection(examples));
    prompt := prompt + Instructions;
  }

  /** Where the `k`-th table document starts inside the table part. */
  function TableOffset(tables: seq<MI.TableHit>, k: nat): nat
    requires k <= |tables|
  {
    |TablesText(tables[..k])| + 1
  }

  /** The table part of a shorter list is a prefix of the table part of a longer. */
  lemma {:induction false} TablesTextPrefix(tables: seq<MI.TableHit>, j: nat)
    requires j <= |tables|
    ensures |TablesText(tables[..j])| <= |TablesText(tables)|
    ensures TablesText(tables) [..|TablesText(tables[..j])|] == TablesText(tables[..j])
    decreases |tables| - j
  {
    if j == |tables| {
      assert tables[..j] == tables;
    } else {
      TablesTextPrefix(tables, j + 1);
      assert tables[..j + 1][..j] == tables[..j];
      assert tables[..j + 1][j] == tables[j];
    }
  }

  /** The `k`-th document inside the table part. */
  lemma {:induction false} DocumentInTablesText(tables: seq<MI.TableHit>, k: nat)
    requires k < |tables|
    ensures TableOffset(tables, k) + |tables[k].document| <= |TablesText(tables)|
    ensures TablesText(tables)[TableOffset(tables, k)..TableOffset(tables, k) + |tables[k].document|] == tables[k].document
  {
    var doc := tables[k].document;
    var before := TablesText(tables[..k]);
    var upto := TablesText(tables[..k + 1]);
    assert tables[..k + 1][..k] == tables[..k];
    assert upto == before + "\n" + doc + "\n";
    InMiddle(before + "\n", doc, "\n");
    TablesTextPrefix(tables, k + 1);
    SliceTrans(TablesText(tables), upto, doc, 0, |before| + 1);
  }

  /** Where a part of the tables text lands in an assembled prompt. */
  lemma PartOfAssembly(p: string, head: string, tt: string, es: string, tail: string, doc: string, at: nat)
    requires p == head + (tt + es) + tail
    requires at + |doc| <= |tt| && tt[at..at + |doc|] == doc
    ensures OccursAt(p, doc, |head| + at)
  {
    InMiddle(head, tt + es, tail);
    assert (tt + es)[0..|tt|] == tt;
    SliceTrans(p, tt + es, tt, |head|, 0);
    SliceTrans(p, tt, doc, |head|, at);
  }

  /** Every table document is in the prompt. */
  lemma PromptListsTable(question: string, tables: seq<MI.TableHit>, examples: seq<MI.Example>, k: nat)
    requires k < |tables|
    ensures OccursAt(SqlPrompt(question, tables, examples), tables[k].document, |PromptHead(question)| + TableOffset(tables, k))
  {
    var head, tt, es := PromptHead(question), TablesText(tables), ExamplesSection(examples);
    var p := SqlPrompt(question, tables, examples);
    assert p == head + (tt + es) + Instructions;
    DocumentInTablesText(tables, k);
    PartOfAssembly(p, head, tt, es, Instructions, tables[k].document, TableOffset(tables, k));
  }

  /** The documents follow the order of the search hits: each one ends before the
      next one starts. */
  lemma TablesInOrder(tables: seq<MI.TableHit>, k: nat)
    requires k + 1 < |tables|
    ensures TableOffset(tables, k) + |tables[k].document| < TableOffset(tables, k + 1)
  {
    assert tables[..k + 1][..k] == tables[..k];
  }

  /** The example section is there exactly when the store returned examples: with
      none the tables run straight into the instructions, with some the section
      header follows the tables. */
  lemma PromptExampleSection(question: string, tables: seq<MI.TableHit>, examples: seq<MI.Example>)
    ensures examples == [] ==> SqlPrompt(question, tables, examples) == PromptHead(question) + TablesText(tables) + Instructions
    ensures examples != [] ==>
      OccursAt(SqlPrompt(question, tables, examples), ExamplesHeader, |PromptHead(question) + TablesText(tables)|)
  {
    if examples == [] {
      assert TablesText(tables) + ExamplesSection(examples) == TablesText(tables);
    } else {
      ExamplesHeaderInPrompt(question, tables, examples);
    }
  }

  lemma ExamplesHeaderInPrompt(question: string, tables: seq<MI.TableHit>, examples: seq<MI.Example>)
    requires examples != []
    ensures OccursAt(SqlPrompt(question, tables, examples), ExamplesHeader, |PromptHead(question) + TablesText(tables)|)
  {
    HeaderOfAssembly(PromptHead(question), TablesText(tables), ExamplesHeader, ExamplesText(examples), Instructions);
  }

  /** The section header right after the tables text in an assembled prompt. */
  lemma HeaderOfAssembly(head: string, tt: string, header: string, et: string, tail: string)
    ensures OccursAt(head + (tt + (header + et)) + tail, header, |head + tt|)
  {
    var middle := tt + (header + et);
    InMiddle(tt, header, et);
    assert middle == tt + header + et;
    InMiddle(head, middle, tail);
    SliceTrans(head + middle + tail, middle, header, |head|, |tt|);
  }

  // ---------------------------------------------------------------------------
  // SQL extraction
  // ---------------------------------------------------------------------------

  /** The reasoning `_generate_sql` reports for every query. The SQL itself is
      `StripFence(answer, "sql")`. */
  const SqlReasoning := "Generated SQL query based on available tables and example patterns."

  /** An answer that is one ```sql block and the same answer without the fence give
      the same SQL. */
  lemma FencedSqlIsItsBody(body: string)
    requires '`' !in body
    ensures StripFence(Fence + "sql" + body + Fence, "sql") == StripFence(body, "sql") == Strip(body)
  {
    StripFenceRoundTrip("sql", body);
    NoBacktickNoFence(body);
  }

  // ---------------------------------------------------------------------------
  // One question
  // ---------------------------------------------------------------------------

  /** The SQL prompt for a question, or the error a search raised. */
  function PromptFor(svc: Services, question: string): (r: Result<string>)
    // The table search runs first, then the query search; either can raise.
    ensures var (metadatas, documents) := svc.tableStore(question);
      var tables := MI.TableHits(metadatas, documents);
      var examples := MI.ExamplesOf(svc.queryStore(MI.SearchParams(question, 5, None, None)));
      && (tables.Err? ==> r == Err(tables.error))
      && (tables.Ok? && examples.Err? ==> r == Err(examples.error))
      && (tables.Ok? && examples.Ok? ==> r == Ok(SqlPrompt(question, tables.value, examples.value)))
  {
    var (metadatas, documents) := svc.tableStore(question);
    match MI.TableHits(metadatas, documents)
    case Err(e) => Err(e)
    case Ok(tables) =>
      match MI.ExamplesOf(svc.queryStore(MI.SearchParams(question, 5, None, None)))
      case Err(e) => Err(e)
      case Ok(examples) => Ok(SqlPrompt(question, tables, examples))
  }

  /** `error` of `execute_query` as the `if error:` test reads it. */
  predicate Failed(error: Option<string>) {
    error.Some? && error.value != ""
  }

  /** The plot `_execute_single_query` asks for once the assessment recommends a
      chart. */
  function PlotFor(svc: Services, question: string, sql: string, rows: seq<Row>, columns: seq<string>): Option<PG.PlotSpec> {
    if VA.ShouldVisualize(question, sql, rows, columns).shouldVisualize then PG.GeneratePlot(sql, rows, svc.parses) else None
  }

  /** `_execute_single_query(question)` with the assessment used as the plain value
      `should_visualize` returns. */
  function ExecuteSingleQuery(svc: Services, question: string): (r: Result<Sub>)
    // The searches and the SQL model can raise, and so can the figure builders once
    // the database has answered and a plot is asked for.
    ensures r.Err? <==>
      || PromptFor(svc, question).Err? || svc.generate(PromptFor(svc, question).value).Err?
      || (var sql := StripFence(svc.generate(PromptFor(svc, question).value).value, "sql");
          var (rows, error) := svc.execute(sql);
          var columns := if rows == [] then [] else Keys(rows[0]);
          && !Failed(error)
          && PlotFor(svc, question, sql, rows, columns).Some?
          && svc.draw(PlotFor(svc, question, sql, rows, columns).value).Some?)
    // The error is the first step's that raised.
    ensures PromptFor(svc, question).Err? ==> r == Err(PromptFor(svc, question).error)
    ensures PromptFor(svc, question).Ok? && svc.generate(PromptFor(svc, question).value).Err? ==>
      r == Err(svc.generate(PromptFor(svc, question).value).error)
    ensures r.Err? && PromptFor(svc, question).Ok? && svc.generate(PromptFor(svc, question).value).Ok? ==>
      var sql := StripFence(svc.generate(PromptFor(svc, question).value).value, "sql");
      var rows := svc.execute(sql).0;
      r == Err(svc.draw(PlotFor(svc, question, sql, rows, if rows == [] then [] else Keys(rows[0])).value).value)
    ensures r.Ok? ==>
      var s := r.value;
      var (rows, error) := svc.execute(s.sql);
      && s.question == question && s.reasoning == SqlReasoning
      && s.sql == StripFence(svc.generate(PromptFor(svc, question).value).value, "sql")
      // A database error is carried verbatim, with no rows, columns, assessment or plot.
      && (Failed(error) ==> s.error == error && s.results == [] && s.columns == [] && s.plot.None? && s.assessment.None?)
      // Otherwise the columns are the first row's keys, the assessment is made, and
      // a plot exists only where the assessment and the plot generator agree.
      && (!Failed(error) ==>
            && s.error.None? && s.results == rows
            && s.columns == (if rows == [] then [] else Keys(rows[0]))
            && s.assessment == Some(VA.ShouldVisualize(question, s.sql, rows, s.columns))
            && (s.plot.Some? <==> s.assessment.value.shouldVisualize && PG.ShouldVisualize(s.sql, rows, svc.parses))
            && (s.plot.Some? ==> s.plot == PG.GeneratePlot(s.sql, rows, svc.parses) && svc.draw(s.plot.value).None?))
  {
    match PromptFor(svc, question)
    case Err(e) => Err(e)
    case Ok(prompt) =>
      match svc.generate(prompt)
      case Err(e) => Err(e)
      case Ok(answer) =>
        var sql := StripFence(answer, "sql");
        var (rows, error) := svc.execute(sql);
        if Failed(error) then
          Ok(SubResult(question, sql, SqlReasoning, error, [], [], None, None))
        else
          var columns := if rows != [] then Keys(rows[0]) else [];
          var assessment := VA.ShouldVisualize(question, sql, rows, columns);
          var plot := PlotFor(svc, question, sql, rows, columns);
          if plot.Some? && svc.draw(plot.value).Some? then Err(svc.draw(plot.value).value)
          else Ok(SubResult(question, sql, SqlReasoning, None, rows, columns, plot, Some(assessment)))
  }

  /** A sub-result of SQL that failed: an error, and no rows, plot or assessment. */
  predicate Unanswered(s: Sub) {
    s.error.Some? && s.results == [] && s.plot.None? && s.assessment.None?
  }

  /** `str(e)` of awaiting the dict `should_visualize` returns. */
  const AwaitError := "object dict can't be used in 'await' expression"

  /** `_execute_single_query` as written: `should_visualize` is synchronous, yet its
      dict is awaited, so every query that reaches the assessment raises before any
      plot is drawn. */
  function ExecuteSingleQueryAsWritten(svc: Services, question: string): (r: Result<Sub>)
    ensures r.Ok? ==> Unanswered(r.value)
  {
    match PromptFor(svc, question)
    case Err(e) => Err(e)
    case Ok(prompt) =>
      match svc.generate(prompt)
      case Err(e) => Err(e)
      case Ok(answer) =>
        var sql := StripFence(answer, "sql");
        var (rows, error) := svc.execute(sql);
        if Failed(error) then Ok(SubResult(question, sql, SqlReasoning, error, [], [], None, None))
        else Err(AwaitError)
  }

  /** As written, a question succeeds only when its SQL fails: any query the
      database answers ends in the await error, and where the SQL fails both
      versions agree. */
  lemma AsWrittenFailsOnEveryAnsweredQuery(svc: Services, question: string)
    ensures ExecuteSingleQueryAsWritten(svc, question).Ok? ==>
      Failed(svc.execute(ExecuteSingleQueryAsWritten(svc, question).value.sql).1)
    ensures ExecuteSingleQuery(svc, question).Ok? && !Failed(svc.execute(ExecuteSingleQuery(svc, question).value.sql).1) ==>
      ExecuteSingleQueryAsWritten(svc, question) == Err(AwaitError)
    ensures ExecuteSingleQuery(svc, question).Ok? && Failed(svc.execute(ExecuteSingleQuery(svc, question).value.sql).1) ==>
      ExecuteSingleQueryAsWritten(svc, question) == ExecuteSingleQuery(svc, question)
  {
  }

  /** Two columns over several rows: the assessor asks the generator to choose the
      chart, and a plot is produced unless the SQL is a `SELECT *`. */
  lemma AutoChartPlottedUnlessSelectStar(svc: Services, question: string)
    requires ExecuteSingleQuery(svc, question).Ok?
    requires var s := ExecuteSingleQuery(svc, question).value;
      s.error.None? && |s.results| >= 2 && |s.columns| == 2
    ensures var s := ExecuteSingleQuery(svc, question).value;
      s.assessment.value.chartType == Some(VA.Auto)
      && (s.plot.Some? <==> !PG.SelectStar(s.sql))
  {
  }

  // ---------------------------------------------------------------------------
  // Orchestration
  // ---------------------------------------------------------------------------

  /** `dict[key]` on whatever `json.loads` gave back. */
  function Subscript(j: Json, key: string): (r: Result<Json>)
    ensures j.JObj? ==> r == Lookup(j.fields, key)
    ensures !j.JObj? ==> r.Err?
  {
    match j
    case JObj(m) => Lookup(m, key)
    case JArr(_) => Err("list indices must be integers or slices, not str")
    case JStr(_) => Err("string indices must be integers, not 'str'")
    case _ => Err("'" + TypeName(j) + "' object is not subscriptable")
  }

  /** A 'sub_queries' value the model shape does not cover. */
  const UnsupportedSubQueries := "unsupported sub_queries value"

  /** Iterating 'sub_queries': a list of strings gives its strings, a string its
      characters; other scalars are not iterable. */
  function SubQuestions(j: Json): (r: Result<seq<string>>)
    ensures j.JArr? && (forall i :: 0 <= i < |j.items| ==> j.items[i].JStr?) ==>
      r.Ok? && |r.value| == |j.items| && forall i :: 0 <= i < |j.items| ==> r.value[i] == j.items[i].s
    ensures j.JStr? ==> r.Ok? && |r.value| == |j.s|
    ensures r.Ok? ==> j.JArr? || j.JStr?
    // `len(sub_queries)` counts exactly the sub-questions iterated.
    ensures r.Ok? ==> |r.value| == Length(j)
  {
    match j
    case JArr(items) =>
      if forall i :: 0 <= i < |items| ==> items[i].JStr? then
        Ok(seq(|items|, i requires 0 <= i < |items| => items[i].s))
      else Err(UnsupportedSubQueries)
    case JStr(s) => Ok(seq(|s|, i requires 0 <= i < |s| => [s[i]]))
    case JObj(_) => Err(UnsupportedSubQueries)
    case _ => Err("'" + TypeName(j) + "' object is not iterable")
  }

  /** `len(sub_queries)` for the values `SubQuestions` accepts. */
  function Length(j: Json): nat {
    match j
    case JArr(items) => |items|
    case JStr(s) => |s|
    case _ => 0
  }

  /** `_execute_map_reduce(question, analysis)`. */
  function ExecuteMapReduce(svc: Services, single: string -> Result<Sub>, question: string, analysis: QP.Plan): (r: Result<Outcome>)
    ensures r.Ok? ==> r.value.Complex? && r.value.question == question
    // One sub-result per sub-question, in the planner's order.
    ensures r.Ok? ==>
      && "sub_queries" in analysis && SubQuestions(analysis["sub_queries"]).Ok?
      && var questions := SubQuestions(analysis["sub_queries"]).value;
         r.value.subQueriesCount == |questions| == |r.value.subQueries|
         && (forall i :: 0 <= i < |questions| ==> single(questions[i]).Ok? && r.value.subQueries[i] == single(questions[i]).value)
    // The plan's reasoning is the execution plan.
    ensures r.Ok? ==> "reasoning" in analysis && r.value.executionPlan == analysis["reasoning"]
    // It succeeds exactly when every step does, and the answer and the insights are
    // then the synthesis's own; `MapReduceFailures` states the error of each step.
    ensures r.Ok? <==>
      && "sub_queries" in analysis && SubQuestions(analysis["sub_queries"]).Ok?
      && MapAll(single, SubQuestions(analysis["sub_queries"]).value).Ok?
      && var synthesis := RS.SynthesizeResults(question, MapAll(single, SubQuestions(analysis["sub_queries"]).value).value,
                                               svc.dumps, svc.synthesize, svc.parse);
         && synthesis.Ok? && "reasoning" in analysis
         && synthesis.value.JObj? && "unified_answer" in synthesis.value.fields && "key_insights" in synthesis.value.fields
    ensures r.Ok? ==>
      var synthesis := RS.SynthesizeResults(question, MapAll(single, SubQuestions(analysis["sub_queries"]).value).value,
                                            svc.dumps, svc.synthesize, svc.parse).value;
      && r.value.unifiedAnswer == synthesis.fields["unified_answer"]
      && r.value.keyInsights == synthesis.fields["key_insights"]
  {
    match Lookup(analysis, "sub_queries")
    case Err(e) => Err(e)
    case Ok(listed) =>
      match SubQuestions(listed)
      case Err(e) => Err(e)
      case Ok(questions) =>
        match MapAll(single, questions)
        case Err(e) => Err(e)
        case Ok(subs) =>
          match RS.SynthesizeResults(question, subs, svc.dumps, svc.synthesize, svc.parse)
          case Err(e) => Err(e)
          case Ok(synthesis) => Assemble(question, analysis, Length(listed), subs, synthesis)
  }

  /** Where `_execute_map_reduce` raises, in the order the source meets the steps:
      the plan's 'sub_queries', its iteration, the sub-questions (the first failing
      one in list order, as `MapAll` states), the synthesis, the plan's 'reasoning',
      then the two keys of the synthesis. */
  lemma MapReduceFailures(svc: Services, single: string -> Result<Sub>, question: string, analysis: QP.Plan)
    ensures var r := ExecuteMapReduce(svc, single, question, analysis);
      && ("sub_queries" !in analysis ==> r == Err(KeyErrorText("sub_queries")))
      && ("sub_queries" in analysis && SubQuestions(analysis["sub_queries"]).Err? ==>
            r == Err(SubQuestions(analysis["sub_queries"]).error))
    ensures "sub_queries" in analysis && SubQuestions(analysis["sub_queries"]).Ok? ==>
      var r := ExecuteMapReduce(svc, single, question, analysis);
      var subs := MapAll(single, SubQuestions(analysis["sub_queries"]).value);
      && (subs.Err? ==> r == Err(subs.error))
      && (subs.Ok? ==>
            var synthesis := RS.SynthesizeResults(question, subs.value, svc.dumps, svc.synthesize, svc.parse);
            && (synthesis.Err? ==> r == Err(synthesis.error))
            && (synthesis.Ok? ==> r == Assemble(question, analysis, Length(analysis["sub_queries"]), subs.value, synthesis.value)))
  {
  }

  /** The dict `_execute_map_reduce` returns once the synthesis is in: the plan's
      reasoning, then the synthesis's answer and insights, read in that order. */
  function Assemble(question: string, analysis: QP.Plan, count: nat, subs: seq<Sub>, synthesis: Json): (r: Result<Outcome>)
    ensures "reasoning" !in analysis ==> r == Err(KeyErrorText("reasoning"))
    ensures "reasoning" in analysis ==>
      && (Subscript(synthesis, "unified_answer").Err? ==> r == Err(Subscript(synthesis, "unified_answer").error))
      && (Subscript(synthesis, "unified_answer").Ok? && Subscript(synthesis, "key_insights").Err? ==>
            r == Err(Subscript(synthesis, "key_insights").error))
      && (r.Ok? <==> synthesis.JObj? && "unified_answer" in synthesis.fields && "key_insights" in synthesis.fields)
    ensures r.Ok? ==>
      && "reasoning" in analysis && synthesis.JObj?
      && r.value == Complex(question, analysis["reasoning"], count, subs,
                            synthesis.fields["unified_answer"], synthesis.fields["key_insights"])
  {
    match Lookup(analysis, "reasoning")
    case Err(e) => Err(e)
    case Ok(plan) =>
      match Subscript(synthesis, "unified_answer")
      case Err(e) => Err(e)
      case Ok(answer) =>
        match Subscript(synthesis, "key_insights")
        case Err(e) => Err(e)
        case Ok(insights) => Ok(Complex(question, plan, count, subs, answer, insights))
  }

  /** `_execute_simple_query(question)`: the one sub-result's fields, without its
      error message. */
  function ExecuteSimpleQuery(single: string -> Result<Sub>, question: string): (r: Result<Outcome>)
    ensures r.Err? <==> single(question).Err?
    ensures r.Ok? ==>
      var s := single(question).value;
      r.value == Simple(question, s.sql, s.reasoning, s.results, s.columns, s.plot, s.assessment)
  {
    match single(question)
    case Err(e) => Err(e)
    case Ok(s) => Ok(Simple(question, s.sql, s.reasoning, s.results, s.columns, s.plot, s.assessment))
  }

  /** `process_question(question)` with `single` answering one question. */
  function ProcessQuestionWith(svc: Services, single: string -> Result<Sub>, question: string): (r: Outcome)
    ensures r.question == question
    // The map-reduce path is taken exactly for a plan whose 'is_complex' is truthy.
    ensures var analysis := QP.AnalyzeQuestion(svc.plan(question), svc.parse);
      && (r.Complex? ==> "is_complex" in analysis && Truthy(analysis["is_complex"]))
      && (r.Simple? ==> "is_complex" in analysis && !Truthy(analysis["is_complex"]))
      && ("is_complex" !in analysis ==> r == Failure(question, KeyErrorText("is_complex")))
    // Each path's outcome is returned, and an exception on it becomes the error
    // outcome.
    ensures var analysis := QP.AnalyzeQuestion(svc.plan(question), svc.parse);
      "is_complex" in analysis && Truthy(analysis["is_complex"]) ==>
        r == match ExecuteMapReduce(svc, single, question, analysis) case Ok(o) => o case Err(e) => Failure(question, e)
    ensures var analysis := QP.AnalyzeQuestion(svc.plan(question), svc.parse);
      "is_complex" in analysis && !Truthy(analysis["is_complex"]) ==>
        r == match ExecuteSimpleQuery(single, question) case Ok(o) => o case Err(e) => Failure(question, e)
  {
    var analysis := QP.AnalyzeQuestion(svc.plan(question), svc.parse);
    match Lookup(analysis, "is_complex")
    case Err(e) => Failure(question, e)
    case Ok(complex) =>
      var outcome := if Truthy(complex) then ExecuteMapReduce(svc, single, question, analysis)
                     else ExecuteSimpleQuery(single, question);
      match outcome
      case Err(e) => Failure(question, e)
      case Ok(o) => o
  }

  /** `process_question(question)`. */
  function ProcessQuestion(svc: Services, question: string): (r: Outcome)
    ensures r.question == question
    // A simple answer is the question's own query, carried over.
    ensures r.Simple? ==>
      && ExecuteSingleQuery(svc, question).Ok?
      && r.sql == ExecuteSingleQuery(svc, question).value.sql
      && r.results == ExecuteSingleQuery(svc, question).value.results
      && r.plot == ExecuteSingleQuery(svc, question).value.plot
  {
    ProcessQuestionWith(svc, q => ExecuteSingleQuery(svc, q), question)
  }

  /** `process_question(question)` as written, with the awaited assessment. */
  function ProcessQuestionAsWritten(svc: Services, question: string): (r: Outcome)
    ensures r.question == question
    // No answer ever carries rows: every sub-result comes from failed SQL.
    ensures r.Simple? ==> r.results == [] && r.plot.None? && r.assessment.None?
    ensures r.Complex? ==> forall i :: 0 <= i < |r.subQueries| ==> Unanswered(r.subQueries[i])
  {
    var single := q => ExecuteSingleQueryAsWritten(svc, q);
    OnlyUnanswered(svc, single, question);
    ProcessQuestionWith(svc, single, question)
  }

  /** When every sub-result that comes back is unanswered, so is every answer. */
  lemma OnlyUnanswered(svc: Services, single: string -> Result<Sub>, question: string)
    requires forall q :: single(q).Ok? ==> Unanswered(single(q).value)
    ensures var r := ProcessQuestionWith(svc, single, question);
      && (r.Simple? ==> r.results == [] && r.plot.None? && r.assessment.None?)
      && (r.Complex? ==> forall i :: 0 <= i < |r.subQueries| ==> Unanswered(r.subQueries[i]))
  {
  }

  /** As written, a simple question the database answers comes back as the await
      error instead of its rows. */
  lemma AsWrittenSimpleQuestionFails(svc: Services, question: string)
    requires var analysis := QP.AnalyzeQuestion(svc.plan(question), svc.parse);
      "is_complex" in analysis && !Truthy(analysis["is_complex"])
    requires ExecuteSingleQuery(svc, question).Ok? && ExecuteSingleQuery(svc, question).value.error.None?
    ensures ProcessQuestionAsWritten(svc, question) == Failure(question, AwaitError)
    ensures ProcessQuestion(svc, question).Simple?
  {
  }

  /** A planner failure makes the question simple. */
  lemma PlannerFailureTakesSimplePath(svc: Services, question: string)
    requires svc.plan(question).Err?
    ensures ProcessQuestion(svc, question) ==
      match ExecuteSimpleQuery(q => ExecuteSingleQuery(svc, q), question)
      case Err(e) => Failure(question, e)
      case Ok(o) => o
  {
    var analysis := QP.AnalyzeQuestion(svc.plan(question), svc.parse);
    assert analysis == QP.FallbackPlan(svc.plan(question).error);
    assert analysis["is_complex"] == JBool(false);
  }

  /** A simple question whose SQL fails comes back as an ordinary simple answer
      with no rows: the database's message is dropped. */
  lemma SimpleQuestionDropsDatabaseError(svc: Services, question: string)
    requires var analysis := QP.AnalyzeQuestion(svc.plan(question), svc.parse);
      "is_complex" in analysis && !Truthy(analysis["is_complex"])
    requires ExecuteSingleQuery(svc, question).Ok? && ExecuteSingleQuery(svc, question).value.error.Some?
    ensures var r := ProcessQuestion(svc, question);
      r.Simple? && r.results == [] && r.columns == [] && r.plot.None? && r.assessment.None?
  {
  }
}
