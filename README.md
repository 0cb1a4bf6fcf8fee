# NL2SQL map-reduce core in Dafny

This project models the deterministic core of an NL→SQL proof of concept and proves
properties of that model. A natural-language question is classified by a language model
as simple or complex. A complex question is split into sub-questions. Each question gets
a prompt built from retrieved table documents and example queries, and the model
answers it with SQL. The SQL runs against SQLite. The rows go through two visualization
decisions: a name-driven assessor and a value-driven plot generator. For a complex
question, the sub-results are rendered into a context and sent to the model for one
synthesized answer. The model also covers the metadata ingestion that fills the
retrieval store, and the activity-period and lookup-table generators of the churn demo
database.

Every foreign service is a parameter of the model:

- the language model's replies;
- `json.loads` and `json.dumps`;
- the ChromaDB `query` and `get` calls;
- `execute_query` of the database connector;
- pandas `to_datetime`.

Modules, one per source file, plus three shared ones:

| module | file | models |
|---|---|---|
| `Wrappers` | wrappers.dfy | `Option` (Python `None`), `Result` (an exception escaping a call, as `str(e)`) |
| `Text` | text.dfy | the Python string operations the core uses: `strip`, `lower`, `in`, `split`, code-fence extraction, decimal rendering, `"\n".join` |
| `Values` | values.dfy | row values (one row is an ordered list of key/value pairs, like a Python dict), JSON values, truthiness, `KeyError` messages |
| `VisualizationAssessor` | visualization_assessor.dfy | src/visualization_assessor.py |
| `PlotGenerator` | plot_generator.dfy | src/plot_generator.py |
| `QueryPlanner` | query_planner.dfy | src/query_planner.py |
| `ResultSynthesizer` | result_synthesizer.dfy | src/result_synthesizer.py |
| `MetadataIngestion` | metadata_ingestion.dfy | src/metadata_ingestion.py |
| `NL2SQLAgent` | agent.dfy | src/nl2sql_agent_mapreduce.py |
| `ChurnData` | churn_data.dfy | generate_churn_data_v2.py |

The code is followed where a broader design would differ:

- SQL generation is a single attempt. There is no retry or self-correction loop, no
  retry budget and no timeout.
- A sub-question that raises fails the whole question: the first error in list order
  becomes `{type: 'error'}`. There is no per-sub-question fault isolation.
- The assessor decides on column names, not on value shapes.

Code that updates state step by step is modelled as methods with loops. Each method is
proved equal to a specification function, and the lemmas are stated about those
functions:

- the prompt builder;
- the synthesizer's context loop;
- the table-document builder;
- the loaders;
- the where-filter;
- the search mappers;
- the interval splitter;
- the lookup-table builder.

## Model

| member | source | states |
|---|---|---|
| Text.StripFence | src/query_planner.py:75-81 | With no code fence the reply is only stripped. If the stripped reply holds "```"+tag, the result is the segment from the end of the first such opener to the next opener (or the end), cut at the first fence inside it and stripped. Otherwise, with a bare fence, it is the stripped text between the first two fences, or after the only one. The result holds no fence and is already stripped. The same rule serves src/result_synthesizer.py:85-88 and src/nl2sql_agent_mapreduce.py:225-228. |
| Text.SplitPieces | src/query_planner.py:78-79 | `t.split(opener)[1].split("```")[0]` is that position-based segment, cut at its first fence. |
| Text.BareFenced | src/query_planner.py:80-81 | With the bare fence as opener, the segment holds no fence, so the text runs to the second fence. |
| Text.StripFenceRoundTrip | src/query_planner.py:77-79 | A body with no backtick, wrapped as fence+tag+body+fence, is extracted as the stripped body. |
| Text.StripIdempotent | src/query_planner.py:75 | `strip()` applied twice equals `strip()` applied once. |
| Text.SplitJoin | src/metadata_ingestion.py:147 | Splitting a newline-join of newline-free lines on '\n' gives the lines back. |
| Text.ParseNatToString | src/result_synthesizer.py:46 | Reading back the decimal rendering of a count gives the count. |
| Values.Get | src/metadata_ingestion.py:202-203 | `row.get(key)` is Some exactly when the key is among the row's keys, and then it holds the value of the first field with that key. |
| Values.Lookup | src/nl2sql_agent_mapreduce.py:73 | `d[key]` gives the value, or the KeyError text `'key'` when the key is absent. |
| VisualizationAssessor.ShouldVisualize | src/visualization_assessor.py:13-96 | The whole rule cascade: (1) no rows gives no chart; (2) one row and one column gives no chart, with "scalar" display; (3) one row and several columns gives a bar chart iff the columns look like a pivot; (4) several rows and two columns always gives "auto"; (5) several rows and three or more columns gives "line" if a column name is time-like, else "bar" if category+metrics, else no chart; several rows and fewer than two columns gives no chart. A chart type is named iff a chart is recommended, and a chart needs at least two columns. |
| VisualizationAssessor.PivotMatches | src/visualization_assessor.py:98-111 | The count of lowercased column names containing a pivot keyword: at least 1 iff some name matches, and at least 2 iff two distinct columns match. |
| VisualizationAssessor.FirstPresent | src/visualization_assessor.py:127-128 | A value exists iff some row holds a non-None value for the column. It is never None, and it comes from the first such row. |
| VisualizationAssessor.SelfTest | src/visualization_assessor.py:146-178 | The three self-tests: the scalar gets no chart; category+value and the time series get a chart. |
| PlotGenerator.ColumnNames | src/plot_generator.py:63 | The columns of `pd.DataFrame(results)` are every key of every row, once each. |
| PlotGenerator.DropNull | src/plot_generator.py:84 | `dropna` keeps exactly the present values: no None remains, every present value is kept, and a column without None comes back unchanged. |
| PlotGenerator.DropNullAppend | src/plot_generator.py:84 | `dropna` of a concatenation is the concatenation of the two results, so the present values keep their order. |
| PlotGenerator.Sample | src/plot_generator.py:84 | The sample is a prefix of the present values: all of them when there are at most ten, else the first ten. |
| PlotGenerator.IsTemporalColumn | src/plot_generator.py:72-107 | A column is temporal iff it is not of numeric dtype, its sample is not empty, and more than 80% of the sample parses as datetimes or more than 80% matches the date pattern. |
| PlotGenerator.TemporalSeesOnlySample | src/plot_generator.py:77-84 | Only the dtype and the first ten non-null values decide whether a column is temporal. |
| PlotGenerator.AllParsingIsTemporal | src/plot_generator.py:86-92 | A non-numeric column whose present values all parse is temporal. |
| PlotGenerator.ShouldVisualize | src/plot_generator.py:20-52 | No rows gives false. One row with more than two keys gives false. `SELECT\s+*` gives false. Otherwise several rows give true, and a single row gives true iff there is an aggregation word or a temporal column. |
| PlotGenerator.MinOf | src/plot_generator.py:134 | The minimum is one of the values and bounds all of them from below. |
| PlotGenerator.MaxOf | src/plot_generator.py:134 | The maximum is one of the values and bounds all of them from above. |
| PlotGenerator.PieRangeIsPercent | src/plot_generator.py:136-137 | The two-range test holds iff every value lies in [0, 100]; the [0, 1] branch adds nothing. |
| PlotGenerator.DetectChartType | src/plot_generator.py:109-148 | Never scatter or heatmap, and an empty frame gives bar. Line iff there are more than two rows and a temporal column. Otherwise pie iff there are 1–10 rows and some numeric column lies within [0, 100]. |
| PlotGenerator.GeneratePlot | src/plot_generator.py:150-185 | None iff `should_visualize` is false. Otherwise the plot is drawn from the frame of the rows, as the kind `_detect_chart_type` picks (bar, line or pie; a line exactly for a temporal column over more than two rows). |
| PlotGenerator.Serializable | src/plot_generator.py:353-368 | Dicts, lists and tuples keep their kind, keys, length and order, and each element is the clean-up of the element at the same place. An array becomes a list of the same length. numpy ints and floats become Python ones. Plain leaves and numpy bools are unchanged. |
| PlotGenerator.SerializableIsClean | src/plot_generator.py:353-368 | After the clean-up, no numpy array or number is left (arrays holding numbers). |
| PlotGenerator.SerializableKeepsClean | src/plot_generator.py:353-368 | An object with no numpy part comes back unchanged. |
| PlotGenerator.SerializableIdempotent | src/plot_generator.py:353-368 | Cleaning up twice is the same as cleaning up once. |
| QueryPlanner.FallbackPlan | src/query_planner.py:91-97 | The fallback plan is simple, has no sub-questions, and its reasoning is framed by "Error analyzing question: " and ". Treating as simple query.". |
| QueryPlanner.Interpret | src/query_planner.py:83-97 | A plan not marked complex always has `sub_queries == []`. A parse error, or a parsed non-object (AttributeError on `.get`), gives the fallback. A parsed object keeps all its other keys, and a complex one is returned unchanged. |
| QueryPlanner.AnalyzeQuestion | src/query_planner.py:75-97 | A failed model call gives the fallback quoting the error. A reply is fence-stripped, parsed and interpreted. A non-complex plan never carries sub-questions. |
| QueryPlanner.FallbackOrParsed | src/query_planner.py:83-97 | The plan is the fallback unless the reply parsed to a JSON object. |
| QueryPlanner.FencedReplyAnalyzedAsBare | src/query_planner.py:77-83 | Wrapping a reply in a ```json fence does not change the plan. |
| ResultSynthesizer.FirstRows | src/result_synthesizer.py:44 | A prefix of at most five rows: all rows when there are five or fewer, exactly five otherwise. |
| ResultSynthesizer.RowCountNote | src/result_synthesizer.py:45-46 | The "... (N total rows)" note is present iff there are more than five rows. |
| ResultSynthesizer.RowCountNoteReadsBack | src/result_synthesizer.py:45-46 | The note's number is the full row count. |
| ResultSynthesizer.BlocksConcat | src/result_synthesizer.py:41-46 | The context of a concatenation is the front's blocks followed by the back's blocks, numbered on from where the front stopped. The first failing block decides the error. |
| ResultSynthesizer.BuildContext | src/result_synthesizer.py:39-46 | The `+=` loop builds exactly one "Sub-Query i" block per sub-result, numbered from 1 in list order, or fails with the first `json.dumps` error. |
| ResultSynthesizer.SynthesisPrompt | src/result_synthesizer.py:48-69 | The prompt contains the question and the context. |
| ResultSynthesizer.FallbackSynthesis | src/result_synthesizer.py:94-99 | The fallback has exactly the keys unified_answer and key_insights. The answer is "Results from N queries executed successfully." with N the sub-result count. The one insight is "Error synthesizing results: " followed by the error. |
| ResultSynthesizer.SynthesizeResults | src/result_synthesizer.py:25-99 | A context failure escapes. A failed call or parse gives the fallback quoting the error. A parsed reply is returned unchanged, whatever it holds. |
| MetadataIngestion.ColumnLine | src/metadata_ingestion.py:141-144 | The column line: the type defaults to 'unknown', and the " Examples: …" suffix is present iff the column has examples. |
| MetadataIngestion.TableLines | src/metadata_ingestion.py:134-145 | "Table: …", "Description: …", "Columns:", then one line per column, in order. |
| MetadataIngestion.CreateTableDocument | src/metadata_ingestion.py:133-147 | The document is the lines joined by '\n'. |
| MetadataIngestion.TableDocumentSplits | src/metadata_ingestion.py:133-147 | With single-line texts, splitting the document on '\n' gives the lines back. |
| MetadataIngestion.TableEntry | src/metadata_ingestion.py:53-66 | Id "table_"+name, the document, and metadata with exactly table, datasource, description and type "table", each copied from the file. |
| MetadataIngestion.LoadTableMetadata | src/metadata_ingestion.py:42-71 | One entry per file, in order, and the count is the number of files. |
| MetadataIngestion.NormalizedEntries | src/metadata_ingestion.py:93-102 | The new schema gives its "queries" list. The old schema gives one entry, or a KeyError for a missing question/query. |
| MetadataIngestion.QueryIdsDistinct | src/metadata_ingestion.py:108-112 | Ids within one file are distinct. |
| MetadataIngestion.QueryIdsCollideAcrossFiles | src/metadata_ingestion.py:108-112 | A single-query file "a_1" and a multi-query file "a" produce the same id "query_a_1". |
| MetadataIngestion.QueryRecord | src/metadata_ingestion.py:104-127 | A record exists iff the entry has a question and a query, otherwise the KeyError of the first missing key. Datasource and main_table default to "unknown", reasoning defaults to "", and the id follows the one-or-many rule. |
| MetadataIngestion.FileLoadDistinctIds | src/metadata_ingestion.py:104-127 | A file that loads completely adds one entry per query, with distinct ids. |
| MetadataIngestion.LoadQueryFile | src/metadata_ingestion.py:84-129 | The per-file loop adds the entries up to the first failing one, and reports that entry's error. |
| MetadataIngestion.LoadAllSnoc | src/metadata_ingestion.py:84-131 | Loading one more file appends its entries. |
| MetadataIngestion.LoadAllStopsAt | src/metadata_ingestion.py:84-131 | After a failing file, later files add nothing. |
| MetadataIngestion.LoadQueryMetadata | src/metadata_ingestion.py:73-131 | The entries added, and the count equal to their number, or the first error. |
| MetadataIngestion.WhereFilter | src/metadata_ingestion.py:181-186 | The filter has a "datasource" / "main_table" key iff that argument is truthy, holding the argument. |
| MetadataIngestion.BuildWhereFilter | src/metadata_ingestion.py:181-186 | The conditional dict updates build exactly `WhereFilter`. |
| MetadataIngestion.SearchParams | src/metadata_ingestion.py:188-193 | The query text and n_results are passed on. "where" is absent iff neither filter is given, and otherwise it is the filter. |
| MetadataIngestion.ExampleOf | src/metadata_ingestion.py:199-204 | The question and query are copied, or the KeyError of the first missing key. Reasoning defaults to "" and main_table to "unknown". |
| MetadataIngestion.ExamplesOf | src/metadata_ingestion.py:197-205 | One example per metadata item in the store's order, or the first item's error. |
| MetadataIngestion.MapExamples | src/metadata_ingestion.py:197-205 | The append loop builds exactly `ExamplesOf`. |
| MetadataIngestion.ExamplesOfFirstError | src/metadata_ingestion.py:197-205 | The first malformed item decides the error. |
| MetadataIngestion.SearchQueries | src/metadata_ingestion.py:167-207 | The store is asked with `SearchParams`, and the answer is mapped by `ExamplesOf`. |
| MetadataIngestion.GetQueriesByTable | src/metadata_ingestion.py:209-236 | The store is asked with where = {main_table: name}, and the answer is mapped by `ExamplesOf`. |
| MetadataIngestion.TableHitOf | src/metadata_ingestion.py:158-162 | A hit exists iff the metadata has table and description, and it carries the document. Otherwise the KeyError of the missing key, table first. |
| MetadataIngestion.TableHits | src/metadata_ingestion.py:157-162 | The metadata and documents are zipped (shorter length) in order, or fail with the first error. |
| MetadataIngestion.TableHitsFirstError | src/metadata_ingestion.py:157-162 | The first malformed pair decides the error. |
| MetadataIngestion.SearchTables | src/metadata_ingestion.py:149-165 | The append loop builds exactly `TableHits`. |
| NL2SQLAgent.SqlPrompt | src/nl2sql_agent_mapreduce.py:178-209 | The prompt starts with the fixed head holding the question, and ends with the instructions closing in "SQL Query:". |
| NL2SQLAgent.BuildSqlPrompt | src/nl2sql_agent_mapreduce.py:178-209 | The `+=` loops build exactly `SqlPrompt`. |
| NL2SQLAgent.PromptListsTable | src/nl2sql_agent_mapreduce.py:187-188 | Every table document appears in the prompt at its offset. |
| NL2SQLAgent.TablesInOrder | src/nl2sql_agent_mapreduce.py:187-188 | Each table document ends before the next one starts, so the given order is kept. |
| NL2SQLAgent.PromptExampleSection | src/nl2sql_agent_mapreduce.py:190-195 | With no examples, the prompt is head + tables + instructions. Otherwise "EXAMPLE QUERIES:" follows the tables. |
| NL2SQLAgent.FencedSqlIsItsBody | src/nl2sql_agent_mapreduce.py:222-228 | SQL in a ```sql fence is extracted as the bare SQL. |
| NL2SQLAgent.PromptFor | src/nl2sql_agent_mapreduce.py:130-134 | The table search's error, else the query search's error, else the SQL prompt over the hits and examples found. |
| NL2SQLAgent.ExecuteSingleQuery | src/nl2sql_agent_mapreduce.py:126-176 | It fails iff a search, the model call or the drawing of a requested plot raises, with the first such error. A database error is carried verbatim, with no rows, columns, assessment or plot. Otherwise the columns are the first row's keys, the assessment is made, a plot exists iff both visualization decisions agree, and the plot is `generate_plot`'s. |
| NL2SQLAgent.ExecuteSingleQueryAsWritten | src/nl2sql_agent_mapreduce.py:126-176 | As written, whatever comes back comes from failed SQL: an error, and no rows, plot or assessment. |
| NL2SQLAgent.AsWrittenFailsOnEveryAnsweredQuery | src/nl2sql_agent_mapreduce.py:154-159 | With the awaited assessment, every query the database answers fails with the await error. Where the SQL fails, both versions give the same result. |
| NL2SQLAgent.AutoChartPlottedUnlessSelectStar | src/nl2sql_agent_mapreduce.py:153-166 | Two columns over several rows give "auto", and a plot exists iff the SQL is not `SELECT *`. |
| NL2SQLAgent.SubQuestions | src/nl2sql_agent_mapreduce.py:89-104 | A list of strings gives those strings. A string is iterated character by character. `len(sub_queries)` equals the number of sub-questions iterated. |
| Wrappers.MapAll | src/nl2sql_agent_mapreduce.py:90-91 | The ordered map behind `asyncio.gather` and the search mappers. It gives one result per element in input order, or fails iff some element fails, and then with the error of the first failing element in list order. |
| Wrappers.MapAllFirstError | src/nl2sql_agent_mapreduce.py:90-91 | The first element that raises decides the error. |
| NL2SQLAgent.ExecuteMapReduce | src/nl2sql_agent_mapreduce.py:87-109 | The result is complex. Its `sub_queries_count` equals the number of sub-questions and of sub-results, and the i-th sub-result answers the i-th sub-question. It succeeds iff the plan has `sub_queries`, they can be iterated, every sub-question succeeds, the synthesis succeeds, the plan has `reasoning`, and the synthesis is an object holding unified_answer and key_insights. The plan's reasoning is then the execution plan, and the answer and insights are the synthesis's fields. |
| NL2SQLAgent.ExecuteSimpleQuery | src/nl2sql_agent_mapreduce.py:111-124 | Copies sql, reasoning, results, columns, plot and assessment from the single sub-result. It fails iff that fails. |
| NL2SQLAgent.MapReduceFailures | src/nl2sql_agent_mapreduce.py:87-109 | The error, in the order the source meets the steps: the missing-`sub_queries` KeyError, the iteration error, the first failing sub-question's error, the synthesis error, then the assembly of the result. |
| NL2SQLAgent.Assemble | src/nl2sql_agent_mapreduce.py:101-109 | The missing-`reasoning` KeyError, then the error of subscripting the synthesis for unified_answer and then key_insights. Otherwise the complex outcome with the plan's reasoning and the synthesis's answer and insights. |
| NL2SQLAgent.ProcessQuestionWith | src/nl2sql_agent_mapreduce.py:59-85 | The question is kept. A missing 'is_complex' gives the KeyError failure. A truthy one gives the map-reduce outcome and a falsy one the simple outcome, and an exception on either path becomes the error outcome with its text. |
| NL2SQLAgent.ProcessQuestion | src/nl2sql_agent_mapreduce.py:59-85 | The question is kept. A simple answer carries the SQL, rows and plot of the question's own query. |
| NL2SQLAgent.ProcessQuestionAsWritten | src/nl2sql_agent_mapreduce.py:59-85 | As written, no answer carries rows: a simple answer has no rows, plot or assessment, and every sub-result of a complex one comes from failed SQL. |
| NL2SQLAgent.OnlyUnanswered | src/nl2sql_agent_mapreduce.py:87-124 | When every sub-result that comes back is from failed SQL, no outcome carries rows. |
| NL2SQLAgent.AsWrittenSimpleQuestionFails | src/nl2sql_agent_mapreduce.py:73-78 | As written, a simple question the database answers ends in the await error. With the corrected query it is a simple answer. |
| NL2SQLAgent.PlannerFailureTakesSimplePath | src/nl2sql_agent_mapreduce.py:71-78 | A planner failure sends the question down the simple path. |
| NL2SQLAgent.SimpleQuestionDropsDatabaseError | src/nl2sql_agent_mapreduce.py:111-124 | A simple question whose SQL fails comes back as a simple answer with no rows, plot or assessment. The error text is dropped. |
| ChurnData.LookupTable | generate_churn_data_v2.py:105-109 | The i-th row has id i+1 and the i-th name. |
| ChurnData.GenerateEventTypes | generate_churn_data_v2.py:101-110 | Twelve rows, with ids 1..12 paired with the event type names in order. |
| ChurnData.GenerateMetricNames | generate_churn_data_v2.py:153-162 | Ten rows, with ids 1..10 paired with the metric names in order. |
| ChurnData.LookupOneToOne | generate_churn_data_v2.py:105-109 | With distinct names, ids and names correspond one to one. |
| ChurnData.NameListsDistinct | generate_churn_data_v2.py:31-41 | Neither name list holds a duplicate. |
| ChurnData.ChunksIsChunking | generate_churn_data_v2.py:203-211 | The periods satisfy the description: the first starts at the start; each ends at min(start + cap, end); the next starts one day after; all start before the end; there are none iff start ≥ end. |
| ChurnData.ChunkingUnique | generate_churn_data_v2.py:203-211 | That description determines the periods uniquely. |
| ChurnData.SplitInterval | generate_churn_data_v2.py:203-211 | The cursor loop produces exactly those periods. |
| ChurnData.ChunkBounds | generate_churn_data_v2.py:204-209 | Every period lies within [start, end] and runs forwards, and it is non-empty for a positive cap. |
| ChurnData.ChunksOrdered | generate_churn_data_v2.py:211 | Later periods start after earlier ones end: the periods are disjoint and increasing. |
| ChurnData.ActivityRows | generate_churn_data_v2.py:197-211 | The rows of every subscription, in order. An open subscription ends now. |
| ChurnData.GenerateActivePeriods | generate_churn_data_v2.py:192-213 | The rows with a 30-day cap over all subscriptions. |
| ChurnData.GenerateActiveWeeks | generate_churn_data_v2.py:215-239 | The rows with a 7-day cap over the sampled subscriptions. |
| ChurnData.NoRowsIffEmpty | generate_churn_data_v2.py:203-204 | A subscription yields no rows iff it starts at or after its end. |
| ChurnData.SubscriptionRowsChain | generate_churn_data_v2.py:200-211 | In dates: the first row starts on the start date; each row runs forwards within [start date, end date]; each next row starts the day after the previous one ends. |
| ChurnData.RowLength | generate_churn_data_v2.py:205 | A row spans at most cap-days between its start and end dates. |

## Left out

- The language model, ChromaDB, SQLite, pandas `to_datetime`, `json.loads` and `json.dumps` are parameters. Their behaviour, embedding ranking and I/O are not modelled.
- Plotly figure construction and styling (`_create_*_chart`, `_apply_styling`) are not modelled. `GeneratePlot` stops at the chart kind and the frame it is drawn from. An exception the builders raise is the `draw` parameter of the agent's services. For example, the bar builder's `astype(int)` fails on a text value column (src/plot_generator.py:207).
- Floating point is not modelled. Pie ranges use exact reals, and the "> 80%" test is the exact rational comparison, which agrees with the float one for sample sizes up to ten.
- The date regex is matched on the `str()` of strings, ints and bools. The text of a float is not modelled, and a float never matches.
- Unicode case folding is not modelled: `lower()` maps only ASCII letters.
- `asyncio.gather` concurrency is not modelled. It is a sequential map that keeps input order. When several sub-questions raise, the first error in list order is the one reported.
- NL2SQLAgent.SubQuestions: a dict 'sub_queries' is an error here, while Python iterates over its keys (one sub-question per key, and `len` counts the keys). A parsed JSON object is a map here and loses its key order, so that iteration cannot be modelled. A list holding non-strings is an error here too, while Python would pass each item on as a question. Both give a placeholder error message.
- Text.IsSpace, PlotGenerator.SelectStar, PlotGenerator.HasAggregation, PlotGenerator.DatePattern: character classes are ASCII only. `str.strip` also removes Unicode spaces such as U+0085, U+00A0, U+2000–U+200A and U+3000. Python 3 `re` on `str` reads `\s`, `\w` and `\d` as Unicode classes. Input with non-ASCII spaces, letters or digits is not covered.
- The prompt texts of the planner and the synthesizer are constants. Their content beyond what the contracts state is not checked.
- The 'N/A' defaults of `_build_sql_prompt` cannot be reached: every example coming from `search_queries` has a question, query and reasoning. The prompt uses those fields directly.
- Table metadata files lacking a required key (`KeyError` in `load_table_metadata` and `_create_table_document`) are not modelled. A table file is a record with all its fields.
- Class construction is left out. That includes the agent's `MetadataIngestion(...)` call, which passes two arguments to an `__init__` that takes none (src/nl2sql_agent_mapreduce.py:50-53 against src/metadata_ingestion.py:17). Each component is a set of plain functions.
- `reset_collections`, `main` and the `test` helpers are not modelled. They are I/O and printing.
- The random draws of the churn generator (`sample`, `choice`, `randint`), and its other tables and writes, are not modelled. The weekly sample is an argument.
- Clocks: "now" is a parameter of the period generators, in whole seconds. `datetime.now()` also carries microseconds: an open subscription that starts today, with "now" less than a second after midnight, gets one period in Python and none here.
- src/database_connector.py is not part of this model. Its `(rows, error)` result is the `execute` parameter.

## Findings

| source | as written | input that shows it | evidently intended | confidence | as-written member | corrected member |
|---|---|---|---|---|---|---|
| src/nl2sql_agent_mapreduce.py:156 | `await self.viz_assessor.should_visualize(...)` awaits a synchronous method, so the returned dict is awaited and raises TypeError "object dict can't be used in 'await' expression" | any question whose SQL the database answers without error, e.g. a simple question returning rows | call `should_visualize` without `await` and use its dict | high (not executed) | NL2SQLAgent.ExecuteSingleQueryAsWritten | NL2SQLAgent.ExecuteSingleQuery |
