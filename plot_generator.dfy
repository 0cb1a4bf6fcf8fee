/** The decision logic of `PlotGenerator`: whether to plot at all, which columns
    look temporal, which chart kind to draw, and the JSON clean-up of the finished
    figure. The figure builders themselves (plotly) are not modelled; a plot is
    represented by the chart kind and the data frame it is drawn from.

    pandas enters through three decisions, each a per-value predicate here:
    dtype inference (`IsNumberColumn`, `IsBoolColumn`), `pd.to_datetime` success
    (the parameter `parses`), and `str()` of a value (`TextOf`). */
module PlotGenerator {
  import opened Wrappers
  import opened Text
  import opened Values

  datatype ChartKind = Bar | Line | Pie | Scatter | Heatmap

  // ---------------------------------------------------------------------------
  // The two SQL regexes of `should_visualize`
  // ---------------------------------------------------------------------------

  /** `\w` over ASCII. */
  predicate IsWordChar(c: char) {
    ('a' <= c <= 'z') || ('A' <= c <= 'Z') || ('0' <= c <= '9') || c == '_'
  }

  /** The lower-case word `w` occurs at `i`, ignoring case. */
  predicate MatchesAtIgnoringCase(q: string, w: string, i: int) {
    0 <= i && i + |w| <= |q| && Lower(q[i..i + |w|]) == w
  }

  /** `\s*\*` from position `k`: spaces, then a star. */
  predicate StarAfterSpaces(q: string, k: nat)
    decreases |q| - k
  {
    k < |q| && (q[k] == '*' || (IsSpace(q[k]) && StarAfterSpaces(q, k + 1)))
  }

  /** `SELECT\s+\*` matches at position `i`, ignoring case. */
  predicate SelectStarAt(q: string, i: int) {
    MatchesAtIgnoringCase(q, "select", i) && i + 6 < |q| && IsSpace(q[i + 6]) && StarAfterSpaces(q, i + 7)
  }

  /** `re.search(r'SELECT\s+\*', query, re.IGNORECASE)`. */
  predicate SelectStar(q: string) {
    exists i | 0 <= i < |q| :: SelectStarAt(q, i)
  }

  const AggregationWords: seq<string> := ["count", "sum", "avg", "max", "min", "group by"]

  /** `\b` + the word + `\b` at position `i`, ignoring case. */
  predicate WordAt(q: string, w: string, i: int) {
    MatchesAtIgnoringCase(q, w, i)
    && (i == 0 || !IsWordChar(q[i - 1]))
    && (i + |w| == |q| || !IsWordChar(q[i + |w|]))
  }

  /** `re.search(r'\b(COUNT|SUM|AVG|MAX|MIN|GROUP BY)\b', query, re.IGNORECASE)`. */
  predicate HasAggregation(q: string) {
    exists i, k | 0 <= i < |q| && 0 <= k < |AggregationWords| :: WordAt(q, AggregationWords[k], i)
  }

  // ---------------------------------------------------------------------------
  // The data frame built from the rows
  // ---------------------------------------------------------------------------

  /** A pandas column: its values, one per row, `Null` where the row lacks the key. */
  datatype Column = Column(name: string, values: seq<Value>)

  /** Appends the names of `keys` not yet in `seen`, in order. */
  function AddNew(seen: seq<string>, keys: seq<string>): (r: seq<string>)
    ensures seen <= r
    ensures forall n :: n in r <==> n in seen || n in keys
    ensures (forall i, j :: 0 <= i < j < |seen| ==> seen[i] != seen[j]) ==>
            forall i, j :: 0 <= i < j < |r| ==> r[i] != r[j]
    decreases |keys|
  {
    if keys == [] then seen
    else if keys[0] in seen then AddNew(seen, keys[1..])
    else AddNew(seen + [keys[0]], keys[1..])
  }

  function ColumnNamesFrom(seen: seq<string>, results: seq<Row>): (r: seq<string>)
    ensures seen <= r
    ensures forall n :: n in r <==> n in seen || exists k :: 0 <= k < |results| && n in Keys(results[k])
    ensures (forall i, j :: 0 <= i < j < |seen| ==> seen[i] != seen[j]) ==>
            forall i, j :: 0 <= i < j < |r| ==> r[i] != r[j]
    decreases |results|
  {
    if results == [] then seen
    else
      var r := ColumnNamesFrom(AddNew(seen, Keys(results[0])), results[1..]);
      assert forall k :: 0 < k < |results| ==> results[k] == results[1..][k - 1];
      r
  }

  /** The columns of `pd.DataFrame(results)`: every key of every row, once each, in
      order of first appearance. */
  function ColumnNames(results: seq<Row>): (r: seq<string>)
    ensures forall n :: n in r <==> exists k :: 0 <= k < |results| && n in Keys(results[k])
    ensures forall i, j :: 0 <= i < j < |r| ==> r[i] != r[j]
  {
    ColumnNamesFrom([], results)
  }

  function ColumnOf(results: seq<Row>, name: string): (c: Column)
    ensures c.name == name && |c.values| == |results|
  {
    Column(name, seq(|results|, i requires 0 <= i < |results| => Get(results[i], name).GetOr(Null)))
  }

  /** `pd.DataFrame(results)`, column by column. */
  function Frame(results: seq<Row>): (f: seq<Column>)
    ensures |f| == |ColumnNames(results)|
  {
    var names := ColumnNames(results);
    seq(|names|, j requires 0 <= j < |names| => ColumnOf(results, names[j]))
  }

  // ---------------------------------------------------------------------------
  // dtype inference, dropna, and the date pattern
  // ---------------------------------------------------------------------------

  /** pandas gives an int64/float64 column: some value is present and every present
      value is an int or a float (`select_dtypes(include=['number'])`). */
  predicate IsNumberColumn(values: seq<Value>) {
    (exists i | 0 <= i < |values| :: values[i] != Null)
    && forall i | 0 <= i < |values| :: values[i] == Null || values[i].Int? || values[i].Float?
  }

  /** pandas gives a bool column: every value is a bool, none missing. */
  predicate IsBoolColumn(values: seq<Value>) {
    |values| > 0 && forall i | 0 <= i < |values| :: values[i].Bool?
  }

  /** `pd.api.types.is_numeric_dtype`, which counts bool columns as numeric. */
  predicate IsNumericDtype(values: seq<Value>) {
    IsNumberColumn(values) || IsBoolColumn(values)
  }

  /** `series.dropna()`: the present values, in their order. */
  function DropNull(values: seq<Value>): (r: seq<Value>)
    ensures |r| <= |values|
    ensures forall i :: 0 <= i < |r| ==> r[i] != Null
    ensures forall v :: v in r <==> v in values && v != Null
    ensures (forall i :: 0 <= i < |values| ==> values[i] != Null) ==> r == values
    ensures (exists i :: 0 <= i < |values| && values[i] != Null) ==> |r| > 0
  {
    if values == [] then []
    else if values[0] == Null then
      var r := DropNull(values[1..]);
      assert forall i :: 0 < i < |values| ==> values[i] == values[1..][i - 1];
      r
    else [values[0]] + DropNull(values[1..])
  }

  /** `dropna` goes value by value: on a concatenation it gives the two results one
      after the other, so the kept values stay in their order. */
  lemma {:induction false} DropNullAppend(a: seq<Value>, b: seq<Value>)
    ensures DropNull(a + b) == DropNull(a) + DropNull(b)
  {
    if a != [] {
      assert (a + b)[0] == a[0] && (a + b)[1..] == a[1..] + b;
      DropNullAppend(a[1..], b);
      if a[0] != Null {
        assert DropNull(a + b) == [a[0]] + (DropNull(a[1..]) + DropNull(b));
      }
    } else {
      assert a + b == b;
    }
  }

  /** `series.dropna().head(10)`: the first ten present values, or all of them. */
  function Sample(values: seq<Value>): (r: seq<Value>)
    ensures |r| <= 10
    ensures r <= DropNull(values)
    ensures |r| == 10 || r == DropNull(values)
  {
    var present := DropNull(values);
    if |present| <= 10 then present else present[..10]
  }

  /** How many values satisfy `p`. */
  function CountWhere(s: seq<Value>, p: Value -> bool): (n: nat)
    ensures n <= |s|
    ensures (forall i :: 0 <= i < |s| ==> p(s[i])) ==> n == |s|
    ensures (forall i :: 0 <= i < |s| ==> !p(s[i])) ==> n == 0
  {
    if s == [] then 0
    else
      var rest := CountWhere(s[1..], p);
      assert forall i :: 0 < i < |s| ==> s[i] == s[1..][i - 1];
      (if p(s[0]) then 1 else 0) + rest
  }

  predicate IsDateSep(c: char) {
    c == '-' || c == '/'
  }

  /** `\d{1,2}` as a whole string. */
  predicate OneOrTwoDigits(t: string) {
    1 <= |t| <= 2 && AllDigits(t)
  }

  /** `\d{1,2}[-/]\d{1,2}` as a whole string. */
  predicate DayMonth(t: string) {
    exists k | 1 <= k <= 2 :: k < |t| && AllDigits(t[..k]) && IsDateSep(t[k]) && OneOrTwoDigits(t[k + 1..])
  }

  /** `\d{4}[-/]\d{1,2}(?:[-/]\d{1,2})?` as a whole string: 2024-01, 2024/1/15. */
  predicate YearFirstDate(s: string) {
    |s| >= 6 && AllDigits(s[..4]) && IsDateSep(s[4]) && (OneOrTwoDigits(s[5..]) || DayMonth(s[5..]))
  }

  /** `\d{1,2}[-/]\d{1,2}[-/]\d{2,4}` as a whole string: 15/01/2024, 1-2-24. */
  predicate YearLastDate(s: string) {
    exists k | 3 <= k < |s| :: DayMonth(s[..k]) && IsDateSep(s[k]) && 2 <= |s| - k - 1 <= 4 && AllDigits(s[k + 1..])
  }

  predicate DateCore(s: string) {
    YearFirstDate(s) || YearLastDate(s)
  }

  /** `re.match(date_pattern, s)`: `$` also matches just before a final newline. */
  predicate DatePattern(s: string) {
    DateCore(s) || (|s| > 0 && s[|s| - 1] == '\n' && DateCore(s[..|s| - 1]))
  }

  /** `str(v)` where it can matter. The text Python gives an int, a float or a bool
      has no '-' or '/' after a digit, so it never matches the date pattern. */
  function TextOf(v: Value): Option<string> {
    match v
    case Str(s) => Some(s)
    case Other(t) => Some(t)
    case _ => None
  }

  /** `str(v)` matches the date pattern. */
  predicate MatchesDate(v: Value) {
    var t := TextOf(v);
    t.Some? && DatePattern(t.value)
  }

  /** `k / n > 0.8` in floating point. For n <= 10 the only fractions equal to 0.8
      are 4/5 and 8/10, which round to the same double as the literal, so the
      comparison is exact. */
  predicate MoreThanEightyPercent(k: nat, n: nat) {
    5 * k > 4 * n
  }

  /** `_is_temporal_column`: not numeric, and more than 80% of the first ten
      non-null values parse as datetimes or look like dates. */
  function IsTemporalColumn(values: seq<Value>, parses: Value -> bool): (r: bool)
    ensures IsNumericDtype(values) ==> !r
    ensures Sample(values) == [] ==> !r
    ensures r <==> !IsNumericDtype(values) && Sample(values) != []
                   && (MoreThanEightyPercent(CountWhere(Sample(values), parses), |Sample(values)|)
                       || MoreThanEightyPercent(CountWhere(Sample(values), MatchesDate), |Sample(values)|))
  {
    if IsNumericDtype(values) then false
    else
      var sample := Sample(values);
      if |sample| == 0 then false
      else if MoreThanEightyPercent(CountWhere(sample, parses), |sample|) then true
      else MoreThanEightyPercent(CountWhere(sample, MatchesDate), |sample|)
  }

  /** Only the numeric-dtype test and the first ten non-null values decide. */
  lemma TemporalSeesOnlySample(a: seq<Value>, b: seq<Value>, parses: Value -> bool)
    requires IsNumericDtype(a) == IsNumericDtype(b) && Sample(a) == Sample(b)
    ensures IsTemporalColumn(a, parses) == IsTemporalColumn(b, parses)
  {
  }

  /** A non-numeric column some of whose values are present and all of whose present
      values parse as datetimes is temporal. */
  lemma {:induction false} AllParsingIsTemporal(values: seq<Value>, parses: Value -> bool)
    requires !IsNumericDtype(values)
    requires exists i :: 0 <= i < |values| && values[i] != Null
    requires forall i :: 0 <= i < |values| && values[i] != Null ==> parses(values[i])
    ensures IsTemporalColumn(values, parses)
  {
    var sample := Sample(values);
    DropNullKeeps(values, parses);
    assert |sample| > 0;
    assert forall i :: 0 <= i < |sample| ==> parses(sample[i]);
  }

  /** Every value `dropna` keeps is a present value of the column. */
  lemma {:induction false} DropNullKeeps(values: seq<Value>, parses: Value -> bool)
    requires forall i :: 0 <= i < |values| && values[i] != Null ==> parses(values[i])
    ensures forall i :: 0 <= i < |DropNull(values)| ==> parses(DropNull(values)[i])
  {
    if values != [] {
      DropNullKeeps(values[1..], parses);
    }
  }

  /** `_has_time_column`. */
  predicate HasTemporalColumn(results: seq<Row>, parses: Value -> bool) {
    var frame := Frame(results);
    exists j | 0 <= j < |frame| :: IsTemporalColumn(frame[j].values, parses)
  }

  // ---------------------------------------------------------------------------
  // should_visualize and _detect_chart_type
  // ---------------------------------------------------------------------------

  /** `PlotGenerator.should_visualize(query, results)`. */
  function ShouldVisualize(query: string, results: seq<Row>, parses: Value -> bool): (r: bool)
    ensures |results| == 0 ==> !r
    ensures |results| == 1 && |Keys(results[0])| > 2 ==> !r
    ensures SelectStar(query) ==> !r
    ensures |results| >= 2 && !SelectStar(query) ==> r
    ensures |results| == 1 && |Keys(results[0])| <= 2 && !SelectStar(query) ==>
              (r <==> HasAggregation(query) || HasTemporalColumn(results, parses))
  {
    if |results| == 0 then false
    else if |results| == 1 && |results[0]| > 2 then false
    else if SelectStar(query) then false
    else HasAggregation(query) || HasTemporalColumn(results, parses) || |results| > 1
  }

  /** The numbers of a numeric column. */
  function AsReal(v: Value): real {
    match v
    case Int(i) => i as real
    case Float(x) => x
    case _ => 0.0
  }

  function Numbers(values: seq<Value>): (r: seq<real>)
    ensures |r| == |values| && forall i :: 0 <= i < |values| ==> r[i] == AsReal(values[i])
  {
    seq(|values|, i requires 0 <= i < |values| => AsReal(values[i]))
  }

  function MinOf(xs: seq<real>): (m: real)
    requires |xs| > 0
    ensures (exists i :: 0 <= i < |xs| && xs[i] == m) && forall i :: 0 <= i < |xs| ==> m <= xs[i]
  {
    if |xs| == 1 then xs[0]
    else
      var rest := MinOf(xs[1..]);
      assert forall i :: 0 < i < |xs| ==> xs[i] == xs[1..][i - 1];
      if xs[0] <= rest then xs[0] else rest
  }

  function MaxOf(xs: seq<real>): (m: real)
    requires |xs| > 0
    ensures (exists i :: 0 <= i < |xs| && xs[i] == m) && forall i :: 0 <= i < |xs| ==> xs[i] <= m
  {
    if |xs| == 1 then xs[0]
    else
      var rest := MaxOf(xs[1..]);
      assert forall i :: 0 < i < |xs| ==> xs[i] == xs[1..][i - 1];
      if xs[0] >= rest then xs[0] else rest
  }

  /** The range test of `_detect_chart_type` as written: minimum and maximum both in
      [0, 1], or both in [0, 100]. */
  predicate PieRange(xs: seq<real>)
    requires |xs| > 0
  {
    var lo, hi := MinOf(xs), MaxOf(xs);
    (0.0 <= lo <= 1.0 && 0.0 <= hi <= 1.0) || (0.0 <= lo <= 100.0 && 0.0 <= hi <= 100.0)
  }

  /** The range test holds exactly when every value lies in [0, 100]; the [0, 1]
      arm adds nothing. */
  lemma PieRangeIsPercent(xs: seq<real>)
    requires |xs| > 0
    ensures PieRange(xs) <==> forall i :: 0 <= i < |xs| ==> 0.0 <= xs[i] <= 100.0
  {
  }

  /** A numeric column whose values suit a pie. */
  predicate PercentColumn(c: Column) {
    IsNumberColumn(c.values) && |DropNull(c.values)| > 0 && PieRange(Numbers(DropNull(c.values)))
  }

  /** `_detect_chart_type(df, query)` over the frame of `results`. */
  function DetectChartType(results: seq<Row>, parses: Value -> bool): (r: ChartKind)
    ensures r != Scatter && r != Heatmap
    ensures |results| == 0 ==> r == Bar
    ensures r == Line <==> |results| > 2 && HasTemporalColumn(results, parses)
    ensures r == Pie <==> 0 < |results| <= 10 && !(|results| > 2 && HasTemporalColumn(results, parses))
                          && exists j :: 0 <= j < |Frame(results)| && PercentColumn(Frame(results)[j])
  {
    var frame := Frame(results);
    if |results| == 0 then Bar
    else if HasTemporalColumn(results, parses) && |results| > 2 then Line
    else if |results| <= 10 && exists j | 0 <= j < |frame| :: PercentColumn(frame[j]) then Pie
    else Bar
  }

  /** What `generate_plot` draws: the chart kind and the frame it is drawn from. */
  datatype PlotSpec = PlotSpec(kind: ChartKind, frame: seq<Column>)

  /** `generate_plot(query, results)`, up to the plotly figure. */
  function GeneratePlot(query: string, results: seq<Row>, parses: Value -> bool): (r: Option<PlotSpec>)
    ensures r.None? <==> !ShouldVisualize(query, results, parses)
    ensures r.Some? ==> r.value.kind in {Bar, Line, Pie} && r.value.frame == Frame(results)
    // The chart drawn is the one `_detect_chart_type` picks: a line exactly for a
    // temporal column over more than two rows.
    ensures r.Some? ==> r.value.kind == DetectChartType(results, parses)
    ensures r.Some? ==> (r.value.kind == Line <==> |results| > 2 && HasTemporalColumn(results, parses))
  {
    if !ShouldVisualize(query, results, parses) then None
    else Some(PlotSpec(DetectChartType(results, parses), Frame(results)))
  }

  // ---------------------------------------------------------------------------
  // _make_json_serializable
  // ---------------------------------------------------------------------------

  /** The objects a figure dict is made of: numpy arrays and scalars, dicts (keys in
      order), lists, tuples, and plain Python leaves. */
  datatype PyObj =
    | NdArray(elems: seq<PyObj>)
    | NpInt(i: int)
    | NpFloat(x: real)
    | NpBool(b: bool)
    | Dict(entries: seq<Entry>)
    | List(items: seq<PyObj>)
    | Tuple(items: seq<PyObj>)
    | Leaf(v: Value)

  datatype Entry = Entry(key: string, value: PyObj)

  /** An element of a numeric array after `ndarray.tolist()`: nested arrays become
      lists and numpy scalars Python scalars; anything else is kept as it is. */
  function TolistItem(o: PyObj): PyObj {
    match o
    case NdArray(es) => List(seq(|es|, i requires 0 <= i < |es| => TolistItem(es[i])))
    case NpInt(i) => Leaf(Int(i))
    case NpFloat(x) => Leaf(Float(x))
    case NpBool(b) => Leaf(Bool(b))
    case _ => o
  }

  /** `_make_json_serializable(obj)`. A numpy bool is neither `np.integer` nor
      `np.floating`, so outside an array it is left as it is. */
  function Serializable(o: PyObj): (r: PyObj)
    // Containers keep their kind, their keys and their order; each element is
    // cleaned up in place.
    ensures o.Dict? ==>
              r.Dict? && |r.entries| == |o.entries|
              && (forall i :: 0 <= i < |o.entries| ==>
                    r.entries[i].key == o.entries[i].key && r.entries[i].value == Serializable(o.entries[i].value))
    ensures o.List? ==> r.List? && |r.items| == |o.items|
                        && forall i :: 0 <= i < |o.items| ==> r.items[i] == Serializable(o.items[i])
    ensures o.Tuple? ==> r.Tuple? && |r.items| == |o.items|
                         && forall i :: 0 <= i < |o.items| ==> r.items[i] == Serializable(o.items[i])
    // An array becomes a list of the same length; numpy numbers become Python ones.
    ensures o.NdArray? ==> r.List? && |r.items| == |o.elems|
    ensures o.NpInt? ==> r == Leaf(Int(o.i))
    ensures o.NpFloat? ==> r == Leaf(Float(o.x))
    ensures o.Leaf? || o.NpBool? ==> r == o
  {
    match o
    case NdArray(es) => TolistItem(o)
    case NpInt(i) => Leaf(Int(i))
    case NpFloat(x) => Leaf(Float(x))
    case Dict(es) => Dict(seq(|es|, i requires 0 <= i < |es| => Entry(es[i].key, Serializable(es[i].value))))
    case List(xs) => List(seq(|xs|, i requires 0 <= i < |xs| => Serializable(xs[i])))
    case Tuple(xs) => Tuple(seq(|xs|, i requires 0 <= i < |xs| => Serializable(xs[i])))
    case _ => o
  }

  /** Some numpy array or numpy number is left somewhere inside. */
  predicate HasNumpyNumber(o: PyObj) {
    match o
    case NdArray(_) => true
    case NpInt(_) => true
    case NpFloat(_) => true
    case NpBool(_) => false
    case Dict(es) => exists i | 0 <= i < |es| :: HasNumpyNumber(es[i].value)
    case List(xs) => exists i | 0 <= i < |xs| :: HasNumpyNumber(xs[i])
    case Tuple(xs) => exists i | 0 <= i < |xs| :: HasNumpyNumber(xs[i])
    case Leaf(_) => false
  }

  /** Every array holds only numpy scalars, plain leaves and nested such arrays
      (the arrays plotly puts in a figure). */
  predicate NumericArrayItem(o: PyObj) {
    match o
    case NdArray(es) => forall i | 0 <= i < |es| :: NumericArrayItem(es[i])
    case NpInt(_) => true
    case NpFloat(_) => true
    case NpBool(_) => true
    case Leaf(_) => true
    case _ => false
  }

  predicate NumericArrays(o: PyObj) {
    match o
    case NdArray(es) => forall i | 0 <= i < |es| :: NumericArrayItem(es[i])
    case Dict(es) => forall i | 0 <= i < |es| :: NumericArrays(es[i].value)
    case List(xs) => forall i | 0 <= i < |xs| :: NumericArrays(xs[i])
    case Tuple(xs) => forall i | 0 <= i < |xs| :: NumericArrays(xs[i])
    case _ => true
  }

  lemma {:induction false} TolistClean(o: PyObj)
    requires NumericArrayItem(o)
    ensures !HasNumpyNumber(TolistItem(o))
  {
    match o
    case NdArray(es) =>
      forall i | 0 <= i < |es| ensures !HasNumpyNumber(TolistItem(es[i])) {
        TolistClean(es[i]);
      }
    case _ =>
  }

  /** After the clean-up no numpy array or number is left, as long as arrays are
      numeric. */
  lemma {:induction false} SerializableIsClean(o: PyObj)
    requires NumericArrays(o)
    ensures !HasNumpyNumber(Serializable(o))
  {
    match o
    case NdArray(es) => TolistClean(o);
    case Dict(es) =>
      forall i | 0 <= i < |es| ensures !HasNumpyNumber(Serializable(es[i].value)) {
        SerializableIsClean(es[i].value);
      }
    case List(xs) =>
      forall i | 0 <= i < |xs| ensures !HasNumpyNumber(Serializable(xs[i])) {
        SerializableIsClean(xs[i]);
      }
    case Tuple(xs) =>
      forall i | 0 <= i < |xs| ensures !HasNumpyNumber(Serializable(xs[i])) {
        SerializableIsClean(xs[i]);
      }
    case _ =>
  }

  /** An object without numpy arrays or numbers comes back unchanged. */
  lemma {:induction false} SerializableKeepsClean(o: PyObj)
    requires !HasNumpyNumber(o)
    ensures Serializable(o) == o
  {
    match o
    case Dict(es) =>
      forall i | 0 <= i < |es| ensures Serializable(es[i].value) == es[i].value {
        SerializableKeepsClean(es[i].value);
      }
      assert Serializable(o).entries == es;
    case List(xs) =>
      forall i | 0 <= i < |xs| ensures Serializable(xs[i]) == xs[i] {
        SerializableKeepsClean(xs[i]);
      }
      assert Serializable(o).items == xs;
    case Tuple(xs) =>
      forall i | 0 <= i < |xs| ensures Serializable(xs[i]) == xs[i] {
        SerializableKeepsClean(xs[i]);
      }
      assert Serializable(o).items == xs;
    case _ =>
  }

  /** Cleaning up twice is cleaning up once. */
  lemma SerializableIdempotent(o: PyObj)
    requires NumericArrays(o)
    ensures Serializable(Serializable(o)) == Serializable(o)
  {
    SerializableIsClean(o);
    SerializableKeepsClean(Serializable(o));
  }
}
