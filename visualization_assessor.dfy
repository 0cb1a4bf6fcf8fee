/** `VisualizationAssessor.should_visualize`: a rule cascade over the row count, the
    column count, keywords in the lower-cased column names and the Python type of
    the first non-None value of a column. The question and the SQL text are accepted
    and never read. */
module VisualizationAssessor {
  import opened Wrappers
  import opened Text
  import opened Values

  /** The `chart_type` values the assessor hands out; `Auto` defers the choice to
      the plot generator. */
  datatype ChartHint = Bar | Auto | Line

  /** The assessment dict: 'should_visualize', 'reason', 'chart_type' and, for a
      scalar, 'display_format'. */
  datatype Assessment = Assessment(
    shouldVisualize: bool,
    reason: string,
    chartType: Option<ChartHint>,
    displayFormat: Option<string>)

  const PivotKeywords: seq<string> :=
    ["q1", "q2", "q3", "q4", "jan", "feb", "mar", "apr", "may", "jun",
     "jul", "aug", "sep", "oct", "nov", "dec", "product", "region"]

  const TimeKeywords: seq<string> :=
    ["date", "time", "year", "month", "day", "week", "quarter",
     "period", "timestamp", "created", "updated"]

  /** Some keyword occurs in the lower-cased column name. */
  predicate NameHasKeyword(name: string, keywords: seq<string>) {
    exists k | 0 <= k < |keywords| :: Contains(Lower(name), keywords[k])
  }

  predicate IsPivotName(name: string) {
    NameHasKeyword(name, PivotKeywords)
  }

  predicate IsTimeName(name: string) {
    NameHasKeyword(name, TimeKeywords)
  }

  /** How many names satisfy `p`: at least one exactly when some name does, at least
      two exactly when two different columns do. */
  function CountNames(columns: seq<string>, p: string -> bool): (n: nat)
    ensures n <= |columns|
    ensures n >= 1 <==> exists i :: 0 <= i < |columns| && p(columns[i])
    ensures n >= 2 <==> exists i, j :: 0 <= i < j < |columns| && p(columns[i]) && p(columns[j])
  {
    if columns == [] then 0
    else
      var rest := CountNames(columns[1..], p);
      assert forall i :: 0 < i < |columns| ==> columns[i] == columns[1..][i - 1];
      assert rest >= 1 ==> exists i :: 0 < i < |columns| && p(columns[i]) by {
        if rest >= 1 {
          var i :| 0 <= i < |columns[1..]| && p(columns[1..][i]);
          assert p(columns[i + 1]);
        }
      }
      assert rest >= 2 ==> exists i, j :: 0 < i < j < |columns| && p(columns[i]) && p(columns[j]) by {
        if rest >= 2 {
          var i, j :| 0 <= i < j < |columns[1..]| && p(columns[1..][i]) && p(columns[1..][j]);
          assert p(columns[i + 1]) && p(columns[j + 1]);
        }
      }
      (if p(columns[0]) then 1 else 0) + rest
  }

  /** `sum(1 for col in col_lower if any(kw in col for kw in pivot_keywords))`. */
  function PivotMatches(columns: seq<string>): (n: nat)
    ensures n <= |columns|
    ensures n >= 1 <==> exists i :: 0 <= i < |columns| && IsPivotName(columns[i])
    ensures n >= 2 <==> exists i, j :: 0 <= i < j < |columns| && IsPivotName(columns[i]) && IsPivotName(columns[j])
  {
    CountNames(columns, IsPivotName)
  }

  /** `_looks_like_pivot`: at least three columns, and at least two of them name a
      quarter, a month, a product or a region. */
  predicate LooksLikePivot(columns: seq<string>) {
    |columns| >= 3 && PivotMatches(columns) >= 2
  }

  /** `_has_time_column`: some lower-cased column name holds a time keyword. */
  predicate HasTimeColumn(columns: seq<string>) {
    exists i | 0 <= i < |columns| :: IsTimeName(columns[i])
  }

  /** The first non-None value of a column over the rows (`values[0]` of the
      comprehension in `_has_category_and_metrics`), if there is one. */
  function FirstPresent(results: seq<Row>, column: string): (r: Option<Value>)
    ensures r.Some? <==> exists i :: 0 <= i < |results| && Present(results[i], column)
    ensures r.Some? ==> r.value != Null
    // The value comes from the first row holding one.
    ensures r.Some? ==> exists i :: 0 <= i < |results| && Present(results[i], column) && r == Get(results[i], column)
                                    && forall j :: 0 <= j < i ==> !Present(results[j], column)
  {
    if results == [] then None
    else if Present(results[0], column) then Get(results[0], column)
    else
      var rest := FirstPresent(results[1..], column);
      assert forall i :: 0 < i < |results| ==> results[i] == results[1..][i - 1];
      rest
  }

  /** The column's first non-None value is an int or a float (bool included). */
  predicate StartsNumeric(results: seq<Row>, column: string) {
    var v := FirstPresent(results, column);
    v.Some? && IsNumber(v.value)
  }

  /** `_has_category_and_metrics`: the first column's first non-None value is a
      string and some later column's first non-None value is a number. */
  predicate HasCategoryAndMetrics(columns: seq<string>, results: seq<Row>) {
    if |columns| < 2 || |results| == 0 then false
    else
      var first := FirstPresent(results, columns[0]);
      first.Some? && first.value.Str?
      && exists k | 1 <= k < |columns| :: StartsNumeric(results, columns[k])
  }

  /** `should_visualize(question, sql, results, columns)`. */
  function ShouldVisualize(question: string, sql: string, results: seq<Row>, columns: seq<string>): (r: Assessment)
    // Rule 1: nothing to show.
    ensures |results| == 0 ==> !r.shouldVisualize && r.chartType == None
    // A chart kind is named exactly when a chart is recommended, and a chart always
    // has at least two columns to draw from.
    ensures r.shouldVisualize <==> r.chartType.Some?
    ensures r.shouldVisualize ==> |results| >= 1 && |columns| >= 2
    // Rule 2: only a single scalar is marked for display as text.
    ensures r.displayFormat == Some("scalar") <==> |results| == 1 && |columns| == 1
    ensures r.displayFormat.Some? ==> r.displayFormat == Some("scalar") && !r.shouldVisualize
    // Rule 3: one row with several columns is charted only as a pivot, as bars.
    ensures |results| == 1 && |columns| > 1 ==>
      (r.shouldVisualize <==> LooksLikePivot(columns)) && (r.shouldVisualize ==> r.chartType == Some(Bar))
    // Rule 4: two columns over several rows are always charted, kind left open.
    ensures |results| >= 2 && |columns| == 2 ==> r.shouldVisualize && r.chartType == Some(Auto)
    // Rule 5: wider results; a time-like column name wins over category + metrics.
    ensures |results| >= 2 && |columns| >= 3 ==>
      r.chartType == (if HasTimeColumn(columns) then Some(Line)
                      else if HasCategoryAndMetrics(columns, results) then Some(Bar)
                      else None)
    // Default: several rows with fewer than two columns.
    ensures |results| >= 2 && |columns| < 2 ==> !r.shouldVisualize
    // A line chart is only ever proposed because of a column name.
    ensures r.chartType == Some(Line) ==> HasTimeColumn(columns)
  {
    if |results| == 0 then
      Assessment(false, "No data returned from query", None, None)
    else if |results| == 1 && |columns| == 1 then
      Assessment(false, "Single scalar value - better displayed as text", None, Some("scalar"))
    else if |results| == 1 && |columns| > 1 then
      if LooksLikePivot(columns) then
        Assessment(true, "Single row with multiple category columns - good for bar chart", Some(Bar), None)
      else
        Assessment(false, "Single row with mixed columns - better as table", None, None)
    else if |results| >= 2 && |columns| == 2 then
      Assessment(true, "Multiple rows with category-value pairs - ideal for charts", Some(Auto), None)
    else if |results| >= 2 && |columns| >= 3 then
      if HasTimeColumn(columns) then
        Assessment(true, "Time-series data detected - good for line chart", Some(Line), None)
      else if HasCategoryAndMetrics(columns, results) then
        Assessment(true, "Category with multiple metrics - good for grouped bar chart", Some(Bar), None)
      else
        Assessment(false, "Complex multi-column data - better as table", None, None)
    else
      Assessment(false, "Data structure not suitable for standard visualizations", None, None)
  }

  /** The three cases of the module's own self-test: a scalar count is not charted;
      country/churn-rate and month/revenue pairs are. */
  lemma SelfTest()
    ensures !ShouldVisualize("How many customers?", "SELECT COUNT(*) as total FROM account",
                             [[Field("total_customers", Int(5000))]], ["total_customers"]).shouldVisualize
    ensures ShouldVisualize("Churn rate by country?", "SELECT country, churn_rate FROM ...",
                            [[Field("country", Str("USA")), Field("churn_rate", Float(24.5))],
                             [Field("country", Str("UK")), Field("churn_rate", Float(23.1))]],
                            ["country", "churn_rate"]).shouldVisualize
    ensures ShouldVisualize("Revenue over time?", "SELECT month, revenue FROM ...",
                            [[Field("month", Str("2024-01")), Field("revenue", Int(1000))],
                             [Field("month", Str("2024-02")), Field("revenue", Int(1200))]],
                            ["month", "revenue"]).shouldVisualize
  {
  }
}
