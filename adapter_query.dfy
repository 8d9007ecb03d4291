/**
 * Filter translation of the relational document-store adapter: a
 * pymongo-style filter dict becomes SQL condition text with `%s`
 * placeholders plus a positional parameter list, over a table
 * `(id TEXT PRIMARY KEY, doc JSONB)`. Each adapter operation has its own
 * translation loop (its "dialect"); `Holds` gives the meaning of each
 * generated condition on a row.
 */
module AdapterQuery {
  import opened Common
  import opened Text
  import opened Json

  /** What the adapter raises: a Python exception, or an error from the database. */
  datatype Fault = TypeError | ValueError | AttributeError | KeyError | IndexError | NameError | SqlError

  /** A filter dict, in its insertion order (which fixes the order of the conditions). */
  type Filter = seq<(string, Value)>

  datatype CmpOp = Eq | Ne

  /** One generated condition, with the parameters it binds. */
  datatype Cond =
    | IdEq(id: string)                                  // id = %s
    | FieldCmp(key: string, op: CmpOp, text: string)    // doc->>%s = %s, doc->>%s != %s
    | FieldIn(key: string, texts: seq<string>)          // doc->>%s IN (%s,...)
    | IdIn(ids: seq<string>)                            // id IN (%s,...)

  /** The four translation loops: `find`, `find_one`, `count_documents`, `delete_many`. */
  datatype Dialect = FindMany | FindOne | Count | DeleteMany

  /** `isinstance(v, dict) and op in v`. */
  predicate HasOp(v: Value, op: string) {
    v.Obj? && op in v.fields
  }

  /** What `for x in v` visits: list items, string characters, dict keys. */
  function Iterate(v: Value): Result<seq<Value>, Fault> {
    match v
    case List(xs) => Ok(xs)
    case Str(s) => Ok(seq(|s|, i requires 0 <= i < |s| => Str([s[i]])))
    case Obj(m) => var ks := SortedKeys(m.Keys); Ok(seq(|ks|, i requires 0 <= i < |ks| => Str(ks[i])))
    case _ => Err(TypeError)
  }

  /** `[str(x) for x in xs]`. */
  function Texts(xs: seq<Value>): (r: seq<string>)
    ensures |r| == |xs| && forall i :: 0 <= i < |xs| ==> r[i] == PyStr(xs[i])
  {
    if xs == [] then [] else [PyStr(xs[0])] + Texts(xs[1..])
  }

  /**
   * One key of a `find` filter, as written: `_id` is checked before any
   * operator, so the `_id` + `$in` case below it is never reached.
   */
  function FindCond(k: string, v: Value): Result<Cond, Fault> {
    if k == "_id" then Ok(IdEq(PyStr(v)))
    else if HasOp(v, "$ne") then Ok(FieldCmp(k, Ne, PyStr(v.fields["$ne"])))
    else if HasOp(v, "$in") then
      match Iterate(v.fields["$in"])
      case Err(e) => Err(e)
      case Ok(xs) => if k == "_id" then Ok(IdIn(Texts(xs))) else Ok(FieldIn(k, Texts(xs)))
    else Ok(FieldCmp(k, Eq, PyStr(v)))
  }

  /** One key of a filter, translated by the loop of the given operation. */
  function Translate(d: Dialect, k: string, v: Value): Result<Cond, Fault> {
    match d
    case FindMany => FindCond(k, v)
    case FindOne => Ok(if k == "_id" then IdEq(PyStr(v)) else FieldCmp(k, Eq, PyStr(v)))
    case Count => Ok(FieldCmp(k, Eq, PyStr(v)))
    case DeleteMany =>
      Ok(if HasOp(v, "$ne") then FieldCmp(k, Ne, PyStr(v.fields["$ne"])) else FieldCmp(k, Eq, PyStr(v)))
  }

  /** The conditions of a whole filter, in key order; the first failing key raises. */
  function Conditions(d: Dialect, f: Filter): Result<seq<Cond>, Fault> {
    if f == [] then Ok([])
    else
      match Conditions(d, f[..|f| - 1])
      case Err(e) => Err(e)
      case Ok(cs) =>
        match Translate(d, f[|f| - 1].0, f[|f| - 1].1)
        case Err(e) => Err(e)
        case Ok(c) => Ok(cs + [c])
  }

  // ---------------------------------------------------------------------
  // SQL text and parameters

  const Mark: string := "%s"

  /** `",".join(["%s"] * n)`. */
  function MarkList(n: nat): string {
    if n == 0 then "" else if n == 1 then Mark else Mark + "," + MarkList(n - 1)
  }

  function CondSql(c: Cond): string {
    match c
    case IdEq(_) => "id = %s"
    case FieldCmp(_, op, _) => if op == Eq then "doc->>%s = %s" else "doc->>%s != %s"
    case FieldIn(_, ts) => "doc->>" + Mark + " IN (" + MarkList(|ts|) + ")"
    case IdIn(ids) => "id IN (" + MarkList(|ids|) + ")"
  }

  function CondParams(c: Cond): seq<string> {
    match c
    case IdEq(id) => [id]
    case FieldCmp(k, _, t) => [k, t]
    case FieldIn(k, ts) => [k] + ts
    case IdIn(ids) => ids
  }

  function Sqls(cs: seq<Cond>): (r: seq<string>)
    ensures |r| == |cs| && forall i :: 0 <= i < |cs| ==> r[i] == CondSql(cs[i])
  {
    if cs == [] then [] else [CondSql(cs[0])] + Sqls(cs[1..])
  }

  function Params(cs: seq<Cond>): seq<string> {
    if cs == [] then [] else CondParams(cs[0]) + Params(cs[1..])
  }

  /** `" WHERE " + " AND ".join(conditions)`, or nothing for an empty filter. */
  function Where(sqls: seq<string>): string {
    if sqls == [] then "" else " WHERE " + Join(sqls, " AND ")
  }

  lemma {:induction false} ParamsAppend(cs: seq<Cond>, c: Cond)
    ensures Params(cs + [c]) == Params(cs) + CondParams(c)
  {
    if cs == [] {
      assert [c][1..] == [];
    } else {
      assert (cs + [c])[1..] == cs[1..] + [c];
      ParamsAppend(cs[1..], c);
    }
  }

  lemma {:induction false} MarkListPlaceholders(n: nat, t: string)
    ensures Placeholders(MarkList(n) + t) == n + Placeholders(t)
  {
    if n == 0 {
      assert MarkList(n) + t == t;
    } else if n == 1 {
      PlaceholdersMark(t);
    } else if n > 1 {
      assert MarkList(n) + t == Mark + ("," + (MarkList(n - 1) + t));
      PlaceholdersMark("," + (MarkList(n - 1) + t));
      assert NoPercent(",");
      PlaceholdersSkip(",", MarkList(n - 1) + t);
      MarkListPlaceholders(n - 1, t);
    }
  }

  /** Each condition has one placeholder per parameter it binds and does not end inside one. */
  lemma CondPlaceholders(c: Cond)
    ensures Placeholders(CondSql(c)) == |CondParams(c)|
    ensures !EndsWithPercent(CondSql(c))
  {
    match c
    case IdEq(_) => IdEqPlaceholders(c);
    case FieldCmp(_, _, _) => FieldCmpPlaceholders(c);
    case FieldIn(_, _) => FieldInPlaceholders(c);
    case IdIn(_) => IdInPlaceholders(c);
  }

  lemma IdEqPlaceholders(c: Cond)
    requires c.IdEq?
    ensures Placeholders(CondSql(c)) == 1 && !EndsWithPercent(CondSql(c))
  {
    assert CondSql(c) == "id = " + (Mark + "");
    assert NoPercent("id = ");
    PlaceholdersSkip("id = ", Mark + "");
    PlaceholdersMark("");
  }

  lemma FieldCmpPlaceholders(c: Cond)
    requires c.FieldCmp?
    ensures Placeholders(CondSql(c)) == 2 && !EndsWithPercent(CondSql(c))
  {
    var opText := if c.op == Eq then " = " else " != ";
    assert CondSql(c) == "doc->>" + (Mark + (opText + (Mark + "")));
    assert NoPercent("doc->>") && NoPercent(opText);
    PlaceholdersSkip("doc->>", Mark + (opText + (Mark + "")));
    PlaceholdersMark(opText + (Mark + ""));
    PlaceholdersSkip(opText, Mark + "");
    PlaceholdersMark("");
  }

  lemma FieldInPlaceholders(c: Cond)
    requires c.FieldIn?
    ensures Placeholders(CondSql(c)) == 1 + |c.texts| && !EndsWithPercent(CondSql(c))
  {
    var n := |c.texts|;
    assert CondSql(c) == "doc->>" + (Mark + (" IN (" + (MarkList(n) + ")")));
    assert NoPercent("doc->>") && NoPercent(" IN (");
    PlaceholdersSkip("doc->>", Mark + (" IN (" + (MarkList(n) + ")")));
    PlaceholdersMark(" IN (" + (MarkList(n) + ")"));
    PlaceholdersSkip(" IN (", MarkList(n) + ")");
    MarkListPlaceholders(n, ")");
  }

  lemma IdInPlaceholders(c: Cond)
    requires c.IdIn?
    ensures Placeholders(CondSql(c)) == |c.ids| && !EndsWithPercent(CondSql(c))
  {
    var n := |c.ids|;
    assert CondSql(c) == "id IN (" + (MarkList(n) + ")");
    assert NoPercent("id IN (");
    PlaceholdersSkip("id IN (", MarkList(n) + ")");
    MarkListPlaceholders(n, ")");
  }

  /**
   * The WHERE text of any list of conditions has exactly as many `%s`
   * placeholders as the parameter list has entries.
   */
  lemma {:induction false} WherePlaceholders(cs: seq<Cond>)
    ensures Placeholders(Join(Sqls(cs), " AND ")) == |Params(cs)|
  {
    if |cs| == 1 {
      CondPlaceholders(cs[0]);
      assert Params(cs) == CondParams(cs[0]) + [];
    } else if |cs| > 1 {
      var rest := Join(Sqls(cs[1..]), " AND ");
      assert Sqls(cs)[1..] == Sqls(cs[1..]);
      assert Join(Sqls(cs), " AND ") == CondSql(cs[0]) + (" AND " + rest);
      CondPlaceholders(cs[0]);
      PlaceholdersAppend(CondSql(cs[0]), " AND " + rest);
      PlaceholdersSkip(" AND ", rest);
      WherePlaceholders(cs[1..]);
    }
  }

  /**
   * Translation yields one condition per filter key, only `find` can fail
   * (a `$in` operand that cannot be iterated), and an empty filter yields
   * no condition, so no WHERE.
   */
  lemma {:induction false} ConditionsShape(d: Dialect, f: Filter)
    ensures Conditions(d, f).Ok? ==> |Conditions(d, f).value| == |f|
    ensures d != FindMany ==> Conditions(d, f).Ok?
    ensures Conditions(d, f).Ok? ==> (Where(Sqls(Conditions(d, f).value)) == "" <==> f == [])
  {
    if f != [] {
      ConditionsShape(d, f[..|f| - 1]);
    }
  }

  // ---------------------------------------------------------------------
  // The translation loops

  /** The condition-building loop of `find`, appending text and extending parameters per key. */
  method FindWhere(f: Filter) returns (r: Result<(seq<string>, seq<string>), Fault>)
    ensures Conditions(FindMany, f).Err? ==> r == Err(Conditions(FindMany, f).error)
    ensures Conditions(FindMany, f).Ok? ==>
      r == Ok((Sqls(Conditions(FindMany, f).value), Params(Conditions(FindMany, f).value)))
  {
    var conditions: seq<string> := [];
    var params: seq<string> := [];
    ghost var cs: seq<Cond> := [];
    var i := 0;
    while i < |f|
      invariant 0 <= i <= |f|
      invariant Conditions(FindMany, f[..i]) == Ok(cs)
      invariant conditions == Sqls(cs) && params == Params(cs)
    {
      var k := f[i].0;
      var v := f[i].1;
      var c: Cond;
      if k == "_id" {
        c := IdEq(PyStr(v));
      } else if HasOp(v, "$ne") {
        c := FieldCmp(k, Ne, PyStr(v.fields["$ne"]));
      } else if HasOp(v, "$in") {
        var operands := Iterate(v.fields["$in"]);
        if operands.Err? {
          ConditionsFault(FindMany, f, i);
          return Err(operands.error);
        }
        c := FieldIn(k, Texts(operands.value));
      } else {
        c := FieldCmp(k, Eq, PyStr(v));
      }
      WhereStep(FindMany, f, i, c, cs);
      conditions := conditions + [CondSql(c)];
      params := params + CondParams(c);
      cs := cs + [c];
      i := i + 1;
    }
    assert f[..i] == f;
    return Ok((conditions, params));
  }

  /** One more translated key: its text and parameters follow those of the keys before it. */
  lemma WhereStep(d: Dialect, f: Filter, i: nat, c: Cond, cs: seq<Cond>)
    requires i < |f| && Conditions(d, f[..i]) == Ok(cs) && Translate(d, f[i].0, f[i].1) == Ok(c)
    ensures Conditions(d, f[..i + 1]) == Ok(cs + [c])
    ensures Sqls(cs + [c]) == Sqls(cs) + [CondSql(c)]
    ensures Params(cs + [c]) == Params(cs) + CondParams(c)
  {
    ConditionsStep(d, f, i);
    ParamsAppend(cs, c);
    SqlsAppend(cs, c);
  }

  lemma SqlsAppend(cs: seq<Cond>, c: Cond)
    ensures Sqls(cs + [c]) == Sqls(cs) + [CondSql(c)]
  {
    assert forall i :: 0 <= i < |cs| + 1 ==> Sqls(cs + [c])[i] == (Sqls(cs) + [CondSql(c)])[i];
  }

  lemma ConditionsStep(d: Dialect, f: Filter, i: nat)
    requires i < |f| && Conditions(d, f[..i]).Ok? && Translate(d, f[i].0, f[i].1).Ok?
    ensures Conditions(d, f[..i + 1]) == Ok(Conditions(d, f[..i]).value + [Translate(d, f[i].0, f[i].1).value])
  {
    assert f[..i + 1][..i] == f[..i];
  }

  /** A key that raises makes the whole translation raise the same fault. */
  lemma ConditionsFault(d: Dialect, f: Filter, i: nat)
    requires i < |f| && Conditions(d, f[..i]).Ok? && Translate(d, f[i].0, f[i].1).Err?
    ensures Conditions(d, f) == Err(Translate(d, f[i].0, f[i].1).error)
  {
    assert f[..i + 1][..i] == f[..i];
    if i + 1 < |f| {
      FirstFaultWins(d, f, i + 1);
    } else {
      assert f[..i + 1] == f;
    }
  }

  /** Once a key has raised, longer prefixes of the filter raise the same fault. */
  lemma {:induction false} FirstFaultWins(d: Dialect, f: Filter, n: nat)
    requires 0 < n <= |f| && Conditions(d, f[..n]).Err?
    ensures Conditions(d, f) == Conditions(d, f[..n])
    decreases |f| - n
  {
    if n < |f| {
      assert f[..n + 1][..n] == f[..n];
      FirstFaultWins(d, f, n + 1);
    } else {
      assert f[..n] == f;
    }
  }

  /** The loops of `find_one`, `count_documents` and `delete_many`, which cannot fail. */
  method SimpleWhere(d: Dialect, f: Filter) returns (conditions: seq<string>, params: seq<string>)
    requires d != FindMany
    ensures Conditions(d, f).Ok?
    ensures conditions == Sqls(Conditions(d, f).value) && params == Params(Conditions(d, f).value)
  {
    conditions, params := [], [];
    ghost var cs: seq<Cond> := [];
    for i := 0 to |f|
      invariant Conditions(d, f[..i]) == Ok(cs)
      invariant conditions == Sqls(cs) && params == Params(cs)
    {
      var k := f[i].0;
      var v := f[i].1;
      var c: Cond;
      SimpleTranslate(d, k, v);
      if d == FindOne && k == "_id" {
        c := IdEq(PyStr(v));
      } else if d == DeleteMany && HasOp(v, "$ne") {
        c := FieldCmp(k, Ne, PyStr(v.fields["$ne"]));
      } else {
        c := FieldCmp(k, Eq, PyStr(v));
      }
      WhereStep(d, f, i, c, cs);
      conditions := conditions + [CondSql(c)];
      params := params + CondParams(c);
      cs := cs + [c];
    }
    assert f[..|f|] == f;
  }

  /** Outside `find`, a key translates without fail: `_id` for `find_one`, `$ne` for `delete_many`, equality otherwise. */
  lemma SimpleTranslate(d: Dialect, k: string, v: Value)
    requires d != FindMany
    ensures Translate(d, k, v) ==
      Ok(if d == FindOne && k == "_id" then IdEq(PyStr(v))
         else if d == DeleteMany && HasOp(v, "$ne") then FieldCmp(k, Ne, PyStr(v.fields["$ne"]))
         else FieldCmp(k, Eq, PyStr(v)))
  {
  }

  // ---------------------------------------------------------------------
  // Meaning of the generated conditions on a row (id, doc)

  /**
   * `doc->>k` is SQL NULL for an absent or JSON-null field, and NULL never
   * compares true: `!=` and `IN` both exclude such rows.
   */
  predicate Holds(c: Cond, id: string, d: Doc) {
    match c
    case IdEq(t) => id == t
    case FieldCmp(k, op, t) =>
      FieldText(d, k).Some? && (if op == Eq then FieldText(d, k).value == t else FieldText(d, k).value != t)
    case FieldIn(k, ts) => FieldText(d, k).Some? && FieldText(d, k).value in ts
    case IdIn(ids) => id in ids
  }

  predicate HoldsAll(cs: seq<Cond>, id: string, d: Doc) {
    forall i :: 0 <= i < |cs| ==> Holds(cs[i], id, d)
  }

  /** PostgreSQL rejects an empty `IN ()` list as a syntax error. */
  predicate Runnable(cs: seq<Cond>) {
    forall i :: 0 <= i < |cs| ==> !(cs[i].FieldIn? && cs[i].texts == []) && !(cs[i].IdIn? && cs[i].ids == [])
  }

  /** `{k: {"$ne": x}}` keeps only rows where `k` is present, not null, and spelled differently. */
  lemma NeExcludesMissing(k: string, x: Value, id: string, d: Doc)
    requires k != "_id"
    ensures Translate(FindMany, k, Obj(map["$ne" := x])) == Ok(FieldCmp(k, Ne, PyStr(x)))
    ensures Holds(FieldCmp(k, Ne, PyStr(x)), id, d) <==>
      k in d && d[k] != Null && Render(d[k], Jsonb) != PyStr(x)
  {
  }

  /**
   * The `_id` + `$in` branch of `find` is dead: any `_id` value, an operator
   * dict included, becomes `id = str(value)`.
   */
  lemma FindIdAlwaysEquality(v: Value)
    ensures Translate(FindMany, "_id", v) == Ok(IdEq(PyStr(v)))
    ensures HasOp(v, "$in") ==> PyStr(v)[0] == '{'
  {
    if HasOp(v, "$in") {
      RenderFirstChar(v, Python);
    }
  }

  /**
   * So a `find({"_id": {"$in": ids}})` matches no row whose id is a
   * generated token or any other hex string, whatever the ids listed.
   */
  lemma IdInMatchesNoHexId(ids: seq<Value>, id: string, d: Doc)
    requires |id| > 0 && IsHexChar(id[0])
    ensures Conditions(FindMany, [("_id", Obj(map["$in" := List(ids)]))]).Ok?
    ensures !HoldsAll(Conditions(FindMany, [("_id", Obj(map["$in" := List(ids)]))]).value, id, d)
  {
    var f: Filter := [("_id", Obj(map["$in" := List(ids)]))];
    assert f[..|f| - 1] == [];
    assert Conditions(FindMany, f[..|f| - 1]) == Ok([]);
    FindIdAlwaysEquality(Obj(map["$in" := List(ids)]));
    assert Conditions(FindMany, f).value[0] == IdEq(PyStr(Obj(map["$in" := List(ids)])));
  }

  /** The `find` translation with the `_id` + `$in` case checked first, as the branch intends. */
  function FindCondIntended(k: string, v: Value): (r: Result<Cond, Fault>)
    ensures k == "_id" && HasOp(v, "$in") && v.fields["$in"].List? ==>
      r == Ok(IdIn(Texts(v.fields["$in"].items)))
    ensures !(k == "_id" && HasOp(v, "$in")) ==> r == FindCond(k, v)
  {
    if k == "_id" && HasOp(v, "$in") then
      match Iterate(v.fields["$in"])
      case Err(e) => Err(e)
      case Ok(xs) => Ok(IdIn(Texts(xs)))
    else FindCond(k, v)
  }

  /** With the intended translation, `{"_id": {"$in": ids}}` keeps exactly the listed ids. */
  lemma IdInIntended(ids: seq<string>, id: string, d: Doc)
    ensures FindCondIntended("_id", Obj(map["$in" := List(seq(|ids|, i requires 0 <= i < |ids| => Str(ids[i])))])) == Ok(IdIn(ids))
    ensures Holds(IdIn(ids), id, d) <==> id in ids
  {
    var xs := seq(|ids|, i requires 0 <= i < |ids| => Str(ids[i]));
    assert Texts(xs) == ids;
  }
}
