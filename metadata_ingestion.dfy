/** `MetadataIngestion`: how table and query metadata files become documents, ids and
    metadata records for the vector store, and how store hits are mapped back into
    the dicts the agent reads. The store itself (embedding, similarity ranking,
    persistence) is not modelled: loading yields the sequence of `add` calls made,
    and searching takes the store's answer as a parameter. */
module MetadataIngestion {
  import opened Wrappers
  import opened Text
  import opened Values

  // ---------------------------------------------------------------------------
  // Table metadata
  // ---------------------------------------------------------------------------

  /** One entry of a table file's 'columns' list. `colType` is `None` when the entry
      has no 'type' key; `examples` holds the `str()` of each example when the
      entry has an 'examples' key. */
  datatype ColumnInfo = ColumnInfo(name: string, colType: Option<string>, description: string, examples: Option<seq<string>>)

  /** A table metadata file. */
  datatype TableFile = TableFile(table: string, datasource: string, description: string, columns: seq<ColumnInfo>)

  /** One `collection.add(documents=[document], metadatas=[metadata], ids=[id])`. */
  datatype Entry = Entry(id: string, document: string, metadata: map<string, string>)

  /** The line describing one column. */
  function ColumnLine(c: ColumnInfo): (r: string)
    ensures c.examples.None? ==> r == "  - " + c.name + " (" + c.colType.GetOr("unknown") + "): " + c.description
    ensures c.examples.Some? ==>
      r == "  - " + c.name + " (" + c.colType.GetOr("unknown") + "): " + c.description
           + " Examples: " + Join(c.examples.value, ", ")
  {
    var base := "  - " + c.name + " (" + c.colType.GetOr("unknown") + "): " + c.description;
    if c.examples.Some? then base + " Examples: " + Join(c.examples.value, ", ") else base
  }

  /** The lines of a table document: three header lines, then one line per column
      in the file's order. */
  function TableLines(t: TableFile): (r: seq<string>)
    ensures |r| == 3 + |t.columns|
    ensures r[0] == "Table: " + t.table && r[1] == "Description: " + t.description && r[2] == "Columns:"
    ensures forall i :: 0 <= i < |t.columns| ==> r[3 + i] == ColumnLine(t.columns[i])
  {
    ["Table: " + t.table, "Description: " + t.description, "Columns:"]
    + seq(|t.columns|, i requires 0 <= i < |t.columns| => ColumnLine(t.columns[i]))
  }

  /** `_create_table_document`: the lines collected in a list, then joined with
      newlines. */
  method CreateTableDocument(t: TableFile) returns (doc: string)
    ensures doc == Join(TableLines(t), "\n")
  {
    var parts := ["Table: " + t.table, "Description: " + t.description, "Columns:"];
    var i := 0;
    while i < |t.columns|
      invariant 0 <= i <= |t.columns|
      invariant parts == TableLines(t)[..3 + i]
    {
      var col := t.columns[i];
      var colText := "  - " + col.name + " (" + col.colType.GetOr("unknown") + "): " + col.description;
      if col.examples.Some? {
        colText := colText + " Examples: " + Join(col.examples.value, ", ");
      }
      parts := parts + [colText];
      i := i + 1;
    }
    assert parts == TableLines(t);
    doc := Join(parts, "\n");
  }

  /** No newline in any text a table file contributes. */
  predicate SingleLineTexts(t: TableFile) {
    && '\n' !in t.table && '\n' !in t.description
    && forall i :: 0 <= i < |t.columns| ==>
         var c := t.columns[i];
         '\n' !in c.name && '\n' !in c.description && '\n' !in c.colType.GetOr("unknown")
         && (c.examples.Some? ==> forall k :: 0 <= k < |c.examples.value| ==> '\n' !in c.examples.value[k])
  }

  /** Splitting a table document on newlines gives back its lines: the header
      lines, then exactly one line per column, in order. */
  lemma TableDocumentSplits(t: TableFile)
    requires SingleLineTexts(t)
    ensures SplitOn(Join(TableLines(t), "\n"), '\n') == TableLines(t)
  {
    var lines := TableLines(t);
    forall i | 0 <= i < |t.columns| ensures '\n' !in ColumnLine(t.columns[i]) {
      var c := t.columns[i];
      if c.examples.Some? {
        JoinFree(c.examples.value, ", ", '\n');
      }
    }
    assert forall i :: 0 <= i < |lines| ==> '\n' !in lines[i] by {
      forall i | 0 <= i < |lines| ensures '\n' !in lines[i] {
        if i >= 3 {
          assert lines[i] == ColumnLine(t.columns[i - 3]);
        }
      }
    }
    SplitJoin(lines, '\n');
  }

  /** The record `load_table_metadata` adds for one table file. */
  function TableEntry(t: TableFile): (r: Entry)
    ensures r.id == "table_" + t.table
    ensures r.document == Join(TableLines(t), "\n")
    ensures r.metadata.Keys == {"table", "datasource", "description", "type"}
    ensures r.metadata["type"] == "table" && r.metadata["table"] == t.table
    ensures r.metadata["datasource"] == t.datasource && r.metadata["description"] == t.description
  {
    Entry("table_" + t.table, Join(TableLines(t), "\n"),
          map["table" := t.table, "datasource" := t.datasource, "description" := t.description, "type" := "table"])
  }

  /** `load_table_metadata`: one `add` per table file, in the order the files are
      listed; the count is the number of files. */
  method LoadTableMetadata(files: seq<TableFile>) returns (added: seq<Entry>, count: nat)
    ensures count == |files| && |added| == |files|
    ensures forall i :: 0 <= i < |files| ==> added[i] == TableEntry(files[i])
  {
    added := [];
    count := 0;
    for i := 0 to |files|
      invariant count == i && |added| == i
      invariant forall k :: 0 <= k < i ==> added[k] == TableEntry(files[k])
    {
      var t := files[i];
      var doc := CreateTableDocument(t);
      added := added + [Entry("table_" + t.table, doc,
                              map["table" := t.table, "datasource" := t.datasource,
                                  "description" := t.description, "type" := "table"])];
      count := count + 1;
    }
  }

  // ---------------------------------------------------------------------------
  // Query metadata
  // ---------------------------------------------------------------------------

  /** One example query; a `None` field is a key the JSON object lacks. */
  datatype QueryEntry = QueryEntry(question: Option<string>, query: Option<string>, reasoning: Option<string>)

  /** The two file layouts: a 'queries' list, or the older single question / query /
      reasoning at top level. */
  datatype QueryBody = NewSchema(queries: seq<QueryEntry>) | OldSchema(single: QueryEntry)

  /** A query metadata file: its file-name stem, the optional 'datasource' and
      'main_table' keys, and its body. */
  datatype QueryFile = QueryFile(stem: string, datasource: Option<string>, mainTable: Option<string>, body: QueryBody)

  /** `queries_list`: the 'queries' list as it is, or the single top-level query,
      whose 'question' and 'query' are required and whose 'reasoning' defaults to "". */
  function NormalizedEntries(f: QueryFile): (r: Result<seq<QueryEntry>>)
    ensures f.body.NewSchema? ==> r == Ok(f.body.queries)
    ensures f.body.OldSchema? ==>
      var e := f.body.single;
      (r.Ok? <==> e.question.Some? && e.query.Some?)
      && (r.Ok? ==> r.value == [QueryEntry(e.question, e.query, Some(e.reasoning.GetOr("")))])
      && (e.question.None? ==> r == Err(KeyErrorText("question")))
      && (e.question.Some? && e.query.None? ==> r == Err(KeyErrorText("query")))
  {
    match f.body
    case NewSchema(qs) => Ok(qs)
    case OldSchema(e) =>
      if e.question.None? then Err(KeyErrorText("question"))
      else if e.query.None? then Err(KeyErrorText("query"))
      else Ok([QueryEntry(e.question, e.query, Some(e.reasoning.GetOr("")))])
  }

  /** The id of entry `idx` of a file that holds `n` entries. */
  function QueryId(stem: string, n: nat, idx: nat): string {
    if n == 1 then "query_" + stem else "query_" + stem + "_" + NatToString(idx)
  }

  /** Two different entries of one file never share an id. */
  lemma QueryIdsDistinct(stem: string, n: nat, i: nat, j: nat)
    requires i < n && j < n && i != j
    ensures QueryId(stem, n, i) != QueryId(stem, n, j)
  {
    var p := "query_" + stem + "_";
    if QueryId(stem, n, i) == QueryId(stem, n, j) {
      assert (p + NatToString(i))[|p|..] == NatToString(i);
      assert (p + NatToString(j))[|p|..] == NatToString(j);
      NatToStringInjective(i, j);
      assert false;
    }
  }

  /** Ids are only unique per file: a single-query file "a_1" and a two-query file
      "a" both produce "query_a_1". */
  lemma QueryIdsCollideAcrossFiles()
    ensures QueryId("a_1", 1, 0) == QueryId("a", 2, 1)
  {
    assert NatToString(1) == "1";
  }

  /** The record added for entry `idx` of `f`, whose normalized list has `n`
      entries; a missing 'question' or 'query' raises KeyError. */
  function QueryRecord(f: QueryFile, n: nat, idx: nat, e: QueryEntry): (r: Result<Entry>)
    ensures r.Ok? <==> e.question.Some? && e.query.Some?
    ensures e.question.None? ==> r == Err(KeyErrorText("question"))
    ensures e.question.Some? && e.query.None? ==> r == Err(KeyErrorText("query"))
    ensures r.Ok? ==>
      && r.value.id == QueryId(f.stem, n, idx)
      && r.value.document == e.question.value
      && r.value.metadata.Keys == {"datasource", "main_table", "question", "query", "reasoning", "type"}
      && r.value.metadata["datasource"] == f.datasource.GetOr("unknown")
      && r.value.metadata["main_table"] == f.mainTable.GetOr("unknown")
      && r.value.metadata["question"] == e.question.value
      && r.value.metadata["query"] == e.query.value
      && r.value.metadata["reasoning"] == e.reasoning.GetOr("")
      && r.value.metadata["type"] == "query"
  {
    if e.question.None? then Err(KeyErrorText("question"))
    else if e.query.None? then Err(KeyErrorText("query"))
    else
      Ok(Entry(QueryId(f.stem, n, idx), e.question.value,
               map["datasource" := f.datasource.GetOr("unknown"),
                   "main_table" := f.mainTable.GetOr("unknown"),
                   "question" := e.question.value,
                   "query" := e.query.value,
                   "reasoning" := e.reasoning.GetOr(""),
                   "type" := "query"]))
  }

  predicate EntryLoads(f: QueryFile, es: seq<QueryEntry>, i: nat)
    requires i < |es|
  {
    QueryRecord(f, |es|, i, es[i]).Ok?
  }

  /** The record of an entry known to load. */
  function RecordAt(f: QueryFile, es: seq<QueryEntry>, i: nat): (r: Entry)
    requires i < |es| && EntryLoads(f, es, i)
    ensures r.id == QueryId(f.stem, |es|, i)
  {
    QueryRecord(f, |es|, i, es[i]).value
  }

  /** The end of the run of loadable entries that starts at `k`. */
  function LoadableRun(f: QueryFile, es: seq<QueryEntry>, k: nat): (m: nat)
    requires k <= |es|
    ensures k <= m <= |es|
    ensures forall i :: k <= i < m ==> EntryLoads(f, es, i)
    ensures m < |es| ==> !EntryLoads(f, es, m)
    decreases |es| - k
  {
    if k == |es| || !EntryLoads(f, es, k) then k else LoadableRun(f, es, k + 1)
  }

  /** What loading one file does: the records added before the first entry that
      raises, and that entry's error, if any. */
  function FileLoad(f: QueryFile): (r: (seq<Entry>, Option<string>))
  {
    match NormalizedEntries(f)
    case Err(e) => ([], Some(e))
    case Ok(es) =>
      var m := LoadableRun(f, es, 0);
      (seq(m, i requires 0 <= i < m => RecordAt(f, es, i)),
       if m < |es| then Some(QueryRecord(f, |es|, m, es[m]).error) else None)
  }

  /** A file that loads completely adds one record per normalized entry, with
      pairwise distinct ids. */
  lemma FileLoadDistinctIds(f: QueryFile)
    requires FileLoad(f).1.None?
    ensures NormalizedEntries(f).Ok?
    ensures |FileLoad(f).0| == |NormalizedEntries(f).value|
    ensures forall i, j :: 0 <= i < j < |FileLoad(f).0| ==> FileLoad(f).0[i].id != FileLoad(f).0[j].id
  {
    var es := NormalizedEntries(f).value;
    var adds := FileLoad(f).0;
    forall i, j | 0 <= i < j < |adds| ensures adds[i].id != adds[j].id {
      QueryIdsDistinct(f.stem, |es|, i, j);
    }
  }

  /** The entry loop of `load_query_metadata` for one file. */
  method LoadQueryFile(f: QueryFile) returns (adds: seq<Entry>, error: Option<string>)
    ensures (adds, error) == FileLoad(f)
  {
    var normalized := NormalizedEntries(f);
    if normalized.Err? {
      return [], Some(normalized.error);
    }
    var es := normalized.value;
    var m := LoadableRun(f, es, 0);
    adds := [];
    var idx := 0;
    while idx < |es|
      invariant 0 <= idx <= m
      invariant adds == seq(idx, i requires 0 <= i < idx => RecordAt(f, es, i))
    {
      var record := QueryRecord(f, |es|, idx, es[idx]);
      if record.Err? {
        assert !EntryLoads(f, es, idx);
        return adds, Some(record.error);
      }
      adds := adds + [record.value];
      idx := idx + 1;
    }
    return adds, None;
  }

  /** What loading a list of files does: every file's records until one raises. */
  function LoadAll(files: seq<QueryFile>): (r: (seq<Entry>, Option<string>))
    decreases |files|
  {
    if files == [] then ([], None)
    else
      var first := FileLoad(files[0]);
      if first.1.Some? then first
      else
        var rest := LoadAll(files[1..]);
        (first.0 + rest.0, rest.1)
  }

  /** Loading one more file after a prefix that loaded completely. */
  lemma {:induction false} LoadAllSnoc(files: seq<QueryFile>, f: QueryFile)
    requires LoadAll(files).1.None?
    ensures LoadAll(files + [f]) == (LoadAll(files).0 + FileLoad(f).0, FileLoad(f).1)
    decreases |files|
  {
    if files == [] {
      assert files + [f] == [f] && [f][1..] == [];
      assert FileLoad(f).0 + [] == FileLoad(f).0;
      assert [] + FileLoad(f).0 == FileLoad(f).0;
    } else {
      assert (files + [f])[0] == files[0];
      assert (files + [f])[1..] == files[1..] + [f];
      LoadAllSnoc(files[1..], f);
      var a := FileLoad(files[0]).0;
      var b := LoadAll(files[1..]).0;
      assert a + (b + FileLoad(f).0) == (a + b) + FileLoad(f).0;
    }
  }

  /** A failing prefix decides the outcome of the whole list. */
  lemma {:induction false} LoadAllStopsAt(files: seq<QueryFile>, rest: seq<QueryFile>)
    requires LoadAll(files).1.Some?
    ensures LoadAll(files + rest) == LoadAll(files)
    decreases |files|
  {
    assert files != [];
    assert (files + rest)[0] == files[0];
    assert (files + rest)[1..] == files[1..] + rest;
    if FileLoad(files[0]).1.None? {
      LoadAllStopsAt(files[1..], rest);
    }
  }

  /** `load_query_metadata`: the `add` calls made, and the count returned, or the
      KeyError that escaped (after the adds before it). */
  method LoadQueryMetadata(files: seq<QueryFile>) returns (added: seq<Entry>, count: Result<nat>)
    ensures added == LoadAll(files).0
    ensures count.Err? <==> LoadAll(files).1.Some?
    ensures count.Err? ==> count.error == LoadAll(files).1.value
    ensures count.Ok? ==> count.value == |added|
  {
    added := [];
    var n := 0;
    var i := 0;
    while i < |files|
      invariant 0 <= i <= |files|
      invariant LoadAll(files[..i]) == (added, None)
      invariant n == |added|
    {
      var f := files[i];
      LoadAllSnoc(files[..i], f);
      assert files[..i + 1] == files[..i] + [f];
      var adds, error := LoadQueryFile(f);
      added := added + adds;
      n := n + |adds|;
      if error.Some? {
        LoadAllStopsAt(files[..i + 1], files[i + 1..]);
        assert files[..i + 1] + files[i + 1..] == files;
        return added, Err(error.value);
      }
      i := i + 1;
    }
    assert files[..i] == files;
    return added, Ok(n);
  }

  // ---------------------------------------------------------------------------
  // Searching
  // ---------------------------------------------------------------------------

  /** A Python truthiness test on an optional string argument. */
  predicate Given(s: Option<string>) {
    s.Some? && s.value != ""
  }

  /** The filter `search_queries` builds: a key for each argument that is given. */
  function WhereFilter(datasource: Option<string>, mainTable: Option<string>): (r: map<string, string>)
    ensures r.Keys <= {"datasource", "main_table"}
    ensures "datasource" in r <==> Given(datasource)
    ensures "main_table" in r <==> Given(mainTable)
    ensures Given(datasource) ==> r["datasource"] == datasource.value
    ensures Given(mainTable) ==> r["main_table"] == mainTable.value
  {
    var d := if Given(datasource) then map["datasource" := datasource.value] else map[];
    if Given(mainTable) then d["main_table" := mainTable.value] else d
  }

  /** `where_filter` of `search_queries`, built by conditional updates. */
  method BuildWhereFilter(datasource: Option<string>, mainTable: Option<string>) returns (filter: map<string, string>)
    ensures filter == WhereFilter(datasource, mainTable)
  {
    filter := map[];
    if Given(datasource) {
      filter := filter["datasource" := datasource.value];
    }
    if Given(mainTable) {
      filter := filter["main_table" := mainTable.value];
    }
  }

  /** The arguments of one store query; `where` is `None` when no "where" key is
      passed. */
  datatype QueryParams = QueryParams(text: string, nResults: int, where: Option<map<string, string>>)

  /** `query_params` of `search_queries`: "where" is passed only for a non-empty
      filter. */
  function SearchParams(text: string, nResults: int, datasource: Option<string>, mainTable: Option<string>): (r: QueryParams)
    ensures r.text == text && r.nResults == nResults
    ensures r.where.None? <==> !Given(datasource) && !Given(mainTable)
    ensures r.where.Some? ==> r.where.value == WhereFilter(datasource, mainTable)
  {
    var filter := WhereFilter(datasource, mainTable);
    if filter == map[] then
      assert "datasource" !in filter && "main_table" !in filter;
      QueryParams(text, nResults, None)
    else QueryParams(text, nResults, Some(filter))
  }

  /** An example query as the agent receives it. */
  datatype Example = Example(question: string, query: string, reasoning: string, mainTable: string)

  /** The mapping of one stored metadata dict: 'question' and 'query' are required,
      'reasoning' defaults to "" and 'main_table' to "unknown". */
  function ExampleOf(m: map<string, string>): (r: Result<Example>)
    ensures r.Ok? <==> "question" in m && "query" in m
    ensures "question" !in m ==> r == Err(KeyErrorText("question"))
    ensures "question" in m && "query" !in m ==> r == Err(KeyErrorText("query"))
    ensures r.Ok? ==> r.value.question == m["question"] && r.value.query == m["query"]
    ensures r.Ok? ==> r.value.reasoning == (if "reasoning" in m then m["reasoning"] else "")
    ensures r.Ok? ==> r.value.mainTable == (if "main_table" in m then m["main_table"] else "unknown")
  {
    if "question" !in m then Err(KeyErrorText("question"))
    else if "query" !in m then Err(KeyErrorText("query"))
    else Ok(Example(m["question"], m["query"],
                    if "reasoning" in m then m["reasoning"] else "",
                    if "main_table" in m then m["main_table"] else "unknown"))
  }

  /** Every stored dict mapped, in the store's order; the first one that raises
      decides the error. */
  function ExamplesOf(ms: seq<map<string, string>>): (r: Result<seq<Example>>)
    ensures r.Ok? <==> forall i :: 0 <= i < |ms| ==> ExampleOf(ms[i]).Ok?
    ensures r.Ok? ==> |r.value| == |ms| && forall i :: 0 <= i < |ms| ==> r.value[i] == ExampleOf(ms[i]).value
    ensures r.Err? ==>
      exists i :: 0 <= i < |ms| && ExampleOf(ms[i]).Err? && r.error == ExampleOf(ms[i]).error
                  && (forall k :: 0 <= k < i ==> ExampleOf(ms[k]).Ok?)
  {
    MapAll(ExampleOf, ms)
  }

  /** The mapping loop shared by `search_queries` and `get_queries_by_table`. */
  method MapExamples(ms: seq<map<string, string>>) returns (r: Result<seq<Example>>)
    ensures r == ExamplesOf(ms)
  {
    var examples := [];
    for i := 0 to |ms|
      invariant |examples| == i
      invariant forall k :: 0 <= k < i ==> ExampleOf(ms[k]).Ok? && examples[k] == ExampleOf(ms[k]).value
    {
      var x := ExampleOf(ms[i]);
      if x.Err? {
        ExamplesOfFirstError(ms, i);
        return Err(x.error);
      }
      examples := examples + [x.value];
    }
    assert ExamplesOf(ms).Ok? && examples == ExamplesOf(ms).value;
    return Ok(examples);
  }

  /** The error of the mapping is the first failing dict's error. */
  lemma ExamplesOfFirstError(ms: seq<map<string, string>>, i: nat)
    requires i < |ms| && ExampleOf(ms[i]).Err?
    requires forall k :: 0 <= k < i ==> ExampleOf(ms[k]).Ok?
    ensures ExamplesOf(ms) == Err(ExampleOf(ms[i]).error)
  {
    MapAllFirstError(ExampleOf, ms, i);
  }

  /** `search_queries(query, n_results, datasource, main_table)`; `store` answers a
      query with its best-ranked metadata dicts (an empty answer stands for a
      missing or empty 'metadatas'). */
  method SearchQueries(text: string, nResults: int, datasource: Option<string>, mainTable: Option<string>,
                       store: QueryParams -> seq<map<string, string>>)
    returns (params: QueryParams, r: Result<seq<Example>>)
    ensures params == SearchParams(text, nResults, datasource, mainTable)
    ensures r == ExamplesOf(store(params))
  {
    var filter := BuildWhereFilter(datasource, mainTable);
    params := QueryParams(text, nResults, None);
    if filter != map[] {
      params := params.(where := Some(filter));
    }
    r := MapExamples(store(params));
  }

  /** `get_queries_by_table(table_name, n_results)`: a plain `get` filtered on the
      main table, mapped like a search. */
  method GetQueriesByTable(tableName: string, nResults: int, get: (map<string, string>, int) -> seq<map<string, string>>)
    returns (r: Result<seq<Example>>)
    ensures r == ExamplesOf(get(map["main_table" := tableName], nResults))
  {
    r := MapExamples(get(map["main_table" := tableName], nResults));
  }

  /** A table hit as the agent receives it. */
  datatype TableHit = TableHit(table: string, description: string, document: string)

  /** The hit made from one metadata dict and its document. */
  function TableHitOf(m: map<string, string>, document: string): (r: Result<TableHit>)
    ensures r.Ok? <==> "table" in m && "description" in m
    ensures r.Ok? ==> r.value == TableHit(m["table"], m["description"], document)
    // A missing key raises its KeyError, "table" first.
    ensures "table" !in m ==> r == Err(KeyErrorText("table"))
    ensures "table" in m && "description" !in m ==> r == Err(KeyErrorText("description"))
  {
    if "table" !in m then Err(KeyErrorText("table"))
    else if "description" !in m then Err(KeyErrorText("description"))
    else Ok(TableHit(m["table"], m["description"], document))
  }

  /** The hits of `search_tables`: the metadata and document lists zipped, so the
      shorter one bounds the number of hits; the first pair that raises decides
      the error. */
  function TableHits(metadatas: seq<map<string, string>>, documents: seq<string>): (r: Result<seq<TableHit>>)
    ensures r.Ok? <==> forall i :: 0 <= i < |metadatas| && i < |documents| ==> TableHitOf(metadatas[i], documents[i]).Ok?
    ensures r.Ok? ==>
      |r.value| == (if |metadatas| < |documents| then |metadatas| else |documents|)
      && forall i :: 0 <= i < |r.value| ==> r.value[i] == TableHitOf(metadatas[i], documents[i]).value
    ensures r.Err? ==>
      exists i :: 0 <= i < |metadatas| && i < |documents| && TableHitOf(metadatas[i], documents[i]).Err?
                  && r.error == TableHitOf(metadatas[i], documents[i]).error
                  && (forall k :: 0 <= k < i ==> TableHitOf(metadatas[k], documents[k]).Ok?)
    decreases |metadatas|
  {
    if metadatas == [] || documents == [] then Ok([])
    else
      var rest := TableHits(metadatas[1..], documents[1..]);
      assert forall i :: 0 < i < |metadatas| ==> metadatas[i] == metadatas[1..][i - 1];
      assert forall i :: 0 < i < |documents| ==> documents[i] == documents[1..][i - 1];
      match TableHitOf(metadatas[0], documents[0])
      case Err(e) => Err(e)
      case Ok(h) =>
        match rest
        case Err(e) =>
          var i :| 0 <= i < |metadatas[1..]| && i < |documents[1..]| && TableHitOf(metadatas[1..][i], documents[1..][i]).Err?
            && e == TableHitOf(metadatas[1..][i], documents[1..][i]).error
            && forall k :: 0 <= k < i ==> TableHitOf(metadatas[1..][k], documents[1..][k]).Ok?;
          assert TableHitOf(metadatas[i + 1], documents[i + 1]).Err?;
          assert forall k :: 0 <= k < i + 1 ==> TableHitOf(metadatas[k], documents[k]).Ok?;
          Err(e)
        case Ok(hs) => Ok([h] + hs)
  }

  /** The error of the zip is the first failing pair's error. */
  lemma {:induction false} TableHitsFirstError(metadatas: seq<map<string, string>>, documents: seq<string>, i: nat)
    requires i < |metadatas| && i < |documents| && TableHitOf(metadatas[i], documents[i]).Err?
    requires forall k :: 0 <= k < i ==> TableHitOf(metadatas[k], documents[k]).Ok?
    ensures TableHits(metadatas, documents) == Err(TableHitOf(metadatas[i], documents[i]).error)
    decreases i
  {
    if i > 0 {
      assert forall k :: 0 <= k < i - 1 ==> metadatas[1..][k] == metadatas[k + 1] && documents[1..][k] == documents[k + 1];
      TableHitsFirstError(metadatas[1..], documents[1..], i - 1);
    }
  }

  /** `search_tables(query, n_results)` over the store's metadata and document
      lists. */
  method SearchTables(metadatas: seq<map<string, string>>, documents: seq<string>) returns (r: Result<seq<TableHit>>)
    ensures r == TableHits(metadatas, documents)
  {
    var n := if |metadatas| < |documents| then |metadatas| else |documents|;
    var tables := [];
    for i := 0 to n
      invariant |tables| == i
      invariant forall k :: 0 <= k < i ==> TableHitOf(metadatas[k], documents[k]).Ok? && tables[k] == TableHitOf(metadatas[k], documents[k]).value
    {
      var hit := TableHitOf(metadatas[i], documents[i]);
      if hit.Err? {
        TableHitsFirstError(metadatas, documents, i);
        return Err(hit.error);
      }
      tables := tables + [hit.value];
    }
    assert TableHits(metadatas, documents).Ok? && tables == TableHits(metadatas, documents).value;
    return Ok(tables);
  }
}
