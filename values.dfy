/** The data that flows between the components: result rows as SQLite hands them
    back through Python (`list[dict]`), parsed JSON replies of the language model, and
    the per-question record the agent produces and the synthesizer reads. */
module Values {
  import opened Wrappers

  /** One cell of a result row, by its Python type. `Other` stands for any other
      object, carried by its `str()` text. */
  datatype Value = Null | Str(s: string) | Int(i: int) | Float(x: real) | Bool(b: bool) | Other(text: string)

  /** `isinstance(v, (int, float))`; a Python bool is an int. */
  predicate IsNumber(v: Value) {
    v.Int? || v.Float? || v.Bool?
  }

  datatype Field = Field(name: string, value: Value)

  /** A result row: a dict, its fields in insertion order. */
  type Row = seq<Field>

  /** `list(row.keys())`. */
  function Keys(row: Row): (r: seq<string>)
    ensures |r| == |row| && forall i :: 0 <= i < |row| ==> r[i] == row[i].name
  {
    seq(|row|, i requires 0 <= i < |row| => row[i].name)
  }

  /** `row.get(name)`: the value of the field named `name` (the first one, should a
      row ever repeat a name), `None` for a missing key. */
  function Get(row: Row, name: string): (r: Option<Value>)
    ensures r.Some? <==> name in Keys(row)
    ensures r.Some? ==> exists i :: 0 <= i < |row| && row[i] == Field(name, r.value)
                                    && forall j :: 0 <= j < i ==> row[j].name != name
  {
    if row == [] then None
    else if row[0].name == name then Some(row[0].value)
    else
      var r := Get(row[1..], name);
      assert forall i :: 0 < i < |row| ==> row[i] == row[1..][i - 1];
      r
  }

  /** `row.get(name) is not None`. */
  predicate Present(row: Row, name: string) {
    Get(row, name).Some? && Get(row, name).value != Null
  }

  /** A parsed JSON document, as `json.loads` returns it (an object's key order
      is not kept). */
  datatype Json = JNull | JBool(b: bool) | JInt(i: int) | JFloat(x: real) | JStr(s: string) | JArr(items: seq<Json>) | JObj(fields: map<string, Json>)

  /** Python truthiness of a parsed JSON value. */
  predicate Truthy(j: Json) {
    match j
    case JNull => false
    case JBool(b) => b
    case JInt(i) => i != 0
    case JFloat(x) => x != 0.0
    case JStr(s) => s != ""
    case JArr(items) => items != []
    case JObj(fields) => fields != map[]
  }

  /** Python's name for the type of a parsed JSON value. */
  function TypeName(j: Json): string {
    match j
    case JNull => "NoneType"
    case JBool(_) => "bool"
    case JInt(_) => "int"
    case JFloat(_) => "float"
    case JStr(_) => "str"
    case JArr(_) => "list"
    case JObj(_) => "dict"
  }

  /** `d.get(key)`: `None` for a missing key. */
  function GetOrNull(d: map<string, Json>, key: string): Json {
    if key in d then d[key] else JNull
  }

  /** `str(KeyError(key))`: the key in quotes. */
  function KeyErrorText(key: string): string {
    "'" + key + "'"
  }

  /** `d[key]` on a dict produced by `json.loads` or built by the core. */
  function Lookup(d: map<string, Json>, key: string): (r: Result<Json>)
    ensures r.Ok? <==> key in d
    ensures r.Ok? ==> r.value == d[key]
    ensures r.Err? ==> r.error == KeyErrorText(key)
  {
    if key in d then Ok(d[key]) else Err(KeyErrorText(key))
  }

  /** What one question produces in the agent (`_execute_single_query`'s dict). The
      error branch of the source builds a dict without 'plot' and
      'visualization_assessment'; here they are `None`, which is what `.get` gives. */
  datatype SubResult<A, P> = SubResult(
    question: string,
    sql: string,
    reasoning: string,
    error: Option<string>,
    results: seq<Row>,
    columns: seq<string>,
    plot: Option<P>,
    assessment: Option<A>)
}
