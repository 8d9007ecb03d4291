/**
 * JSON-shaped document values as the application stores them: the
 * dynamically typed field values of a document, Python's equality on them,
 * and their two text renderings that the relational adapter compares:
 * Python's `str(v)` (how filter parameters are produced) and PostgreSQL's
 * `doc->>key` text extraction from a JSONB column.
 */
module Json {
  import opened Common
  import opened Text

  /** A field value. Numbers are integers only. */
  datatype Value =
    | Str(s: string)
    | Int(n: int)
    | Bool(b: bool)
    | Null
    | List(items: seq<Value>)
    | Obj(fields: map<string, Value>)

  /** A document: field name to value. */
  type Doc = map<string, Value>

  /** Python's truthiness of a value: empty strings, zero, `None` and empty containers are false. */
  predicate PyTruthy(v: Value) {
    match v
    case Str(s) => s != ""
    case Int(n) => n != 0
    case Bool(b) => b
    case Null => false
    case List(xs) => xs != []
    case Obj(m) => m != map[]
  }

  function BoolInt(b: bool): int {
    if b then 1 else 0
  }

  /**
   * Python's `a == b`: `bool` is a subtype of `int` (`True == 1`), lists
   * compare element by element, dicts by key set and values.
   */
  predicate PyEq(a: Value, b: Value) {
    match (a, b)
    case (Int(x), Int(y)) => x == y
    case (Int(x), Bool(y)) => x == BoolInt(y)
    case (Bool(x), Int(y)) => BoolInt(x) == y
    case (Bool(x), Bool(y)) => x == y
    case (Str(x), Str(y)) => x == y
    case (Null, Null) => true
    case (List(xs), List(ys)) => |xs| == |ys| && forall i :: 0 <= i < |xs| ==> PyEq(xs[i], ys[i])
    case (Obj(x), Obj(y)) => x.Keys == y.Keys && forall k :: k in x ==> PyEq(x[k], y[k])
    case _ => false
  }

  lemma {:induction false} PyEqReflexive(v: Value)
    ensures PyEq(v, v)
  {
    match v
    case List(xs) =>
      forall i | 0 <= i < |xs| ensures PyEq(xs[i], xs[i]) {
        PyEqReflexive(xs[i]);
      }
    case Obj(m) =>
      forall k | k in m ensures PyEq(m[k], m[k]) {
        PyEqReflexive(m[k]);
      }
    case _ =>
  }

  lemma {:induction false} PyEqSymmetric(a: Value, b: Value)
    requires PyEq(a, b)
    ensures PyEq(b, a)
  {
    match (a, b)
    case (List(xs), List(ys)) =>
      forall i | 0 <= i < |ys| ensures PyEq(ys[i], xs[i]) {
        PyEqSymmetric(xs[i], ys[i]);
      }
    case (Obj(x), Obj(y)) =>
      forall k | k in y ensures PyEq(y[k], x[k]) {
        PyEqSymmetric(x[k], y[k]);
      }
    case _ =>
  }

  lemma {:induction false} PyEqTransitive(a: Value, b: Value, c: Value)
    requires PyEq(a, b) && PyEq(b, c)
    ensures PyEq(a, c)
  {
    match (a, b, c)
    case (List(xs), List(ys), List(zs)) =>
      forall i | 0 <= i < |xs| ensures PyEq(xs[i], zs[i]) {
        PyEqTransitive(xs[i], ys[i], zs[i]);
      }
    case (Obj(x), Obj(y), Obj(z)) =>
      forall k | k in x ensures PyEq(x[k], z[k]) {
        PyEqTransitive(x[k], y[k], z[k]);
      }
    case _ =>
  }

  /** Python's `x in xs` for a list: some element is `==` to `x`. */
  predicate PyIn(x: Value, xs: seq<Value>) {
    exists i :: 0 <= i < |xs| && PyEq(x, xs[i])
  }

  lemma PyInOfMember(xs: seq<Value>, i: int)
    requires 0 <= i < |xs|
    ensures PyIn(xs[i], xs)
  {
    PyEqReflexive(xs[i]);
  }

  // ---------------------------------------------------------------------
  // Text renderings

  /** Python `str`/`repr` conventions, or PostgreSQL's JSONB text output. */
  datatype Style = Python | Jsonb

  /**
   * The text of a value at top level: Python's `str(v)` or the result of
   * `->>` for a non-null field. A top-level string is its own text in both.
   */
  function Render(v: Value, style: Style): string
    decreases v, 1
  {
    match v
    case Str(s) => s
    case Int(n) => IntToString(n)
    case Bool(b) =>
      if style == Python then (if b then "True" else "False") else (if b then "true" else "false")
    case Null => if style == Python then "None" else "null"
    case List(xs) => "[" + RenderItems(v, xs, style) + "]"
    case Obj(m) => "{" + RenderEntries(v, m, SortedKeys(m.Keys), style) + "}"
  }

  /** A string inside a list or dict: quoted (`repr` in Python, JSON string in JSONB). */
  function Quote(s: string, style: Style): string {
    if style == Python then "'" + s + "'" else "\"" + s + "\""
  }

  function RenderInner(v: Value, style: Style): string
    decreases v, 2
  {
    if v.Str? then Quote(v.s, style) else Render(v, style)
  }

  function RenderItems(ghost parent: Value, xs: seq<Value>, style: Style): string
    requires parent.List? && forall i :: 0 <= i < |xs| ==> xs[i] in parent.items
    decreases parent, 0, |xs|
  {
    if xs == [] then ""
    else if |xs| == 1 then RenderInner(xs[0], style)
    else RenderInner(xs[0], style) + ", " + RenderItems(parent, xs[1..], style)
  }

  function RenderEntries(ghost parent: Value, m: map<string, Value>, keys: seq<string>, style: Style): string
    requires parent.Obj? && parent.fields == m && forall i :: 0 <= i < |keys| ==> keys[i] in m
    decreases parent, 0, |keys|
  {
    if keys == [] then ""
    else
      var entry := Quote(keys[0], style) + ": " + RenderInner(m[keys[0]], style);
      if |keys| == 1 then entry else entry + ", " + RenderEntries(parent, m, keys[1..], style)
  }

  /** Python's `str(v)`: how the adapter turns a filter value into a query parameter. */
  function PyStr(v: Value): string {
    Render(v, Python)
  }

  /** PostgreSQL's `doc->>k`: `None` (SQL NULL) when the field is absent or JSON null. */
  function FieldText(d: Doc, k: string): (r: Option<string>)
    ensures r.None? <==> k !in d || d[k] == Null
  {
    if k in d && d[k] != Null then Some(Render(d[k], Jsonb)) else None
  }

  // ---------------------------------------------------------------------
  // What the two renderings agree on

  lemma RenderFirstChar(v: Value, style: Style)
    requires !v.Str?
    ensures |Render(v, style)| > 0
    ensures v.Int? ==> IsDigit(Render(v, style)[0]) || Render(v, style)[0] == '-'
    ensures v.Bool? || v.Null? ==> 'A' <= Render(v, style)[0] <= 'Z' || 'a' <= Render(v, style)[0] <= 'z'
    ensures v.List? ==> Render(v, style)[0] == '['
    ensures v.Obj? ==> Render(v, style)[0] == '{'
  {
  }

  /**
   * An equality filter on an integer matches exactly the fields that hold
   * that integer or the string spelling it.
   */
  lemma IntFilterMatches(d: Doc, k: string, n: int)
    ensures FieldText(d, k) == Some(PyStr(Int(n))) <==> k in d && (d[k] == Int(n) || d[k] == Str(IntToString(n)))
  {
    if k in d && FieldText(d, k) == Some(PyStr(Int(n))) {
      var v := d[k];
      if !v.Str? {
        RenderFirstChar(v, Jsonb);
        if v.Int? {
          IntToStringInjective(v.n, n);
        }
      }
    }
  }

  /**
   * An equality filter on a boolean never matches a boolean field: Python
   * spells `True`, JSONB spells `true`. Only the string field `"True"` matches.
   */
  lemma BoolFilterMatchesOnlyString(d: Doc, k: string, b: bool)
    ensures FieldText(d, k) == Some(PyStr(Bool(b))) <==> k in d && d[k] == Str(PyStr(Bool(b)))
  {
    if k in d && FieldText(d, k) == Some(PyStr(Bool(b))) {
      var v := d[k];
      if !v.Str? {
        RenderFirstChar(v, Jsonb);
      }
    }
  }

  /** A string field matches an equality filter exactly when the strings are equal. */
  lemma StrFieldMatches(d: Doc, k: string, s: string, v: Value)
    requires k in d && d[k] == Str(s)
    ensures FieldText(d, k) == Some(PyStr(v)) <==> PyStr(v) == s
  {
  }
}
