/**
 * The update-operator engine of the document-store adapter: the fetched
 * document is changed in process by `$set`, `$inc`, `$push` and
 * `$addToSet`, always in that order, then stamped with `updated_at`.
 * Each operator is specified by a function over the document; `$set` is
 * Python's `dict.update`, and the others are implemented by the loop the
 * adapter runs over the operator's dict.
 */
module AdapterUpdate {
  import opened Common
  import opened Text
  import opened Json
  import opened AdapterQuery

  /** An update spec: operator name to operand, e.g. `{"$set": {...}, "$inc": {...}}`. */
  type Update = map<string, Value>

  function AsInt(v: Value): int
    requires v.Int? || v.Bool?
  {
    if v.Int? then v.n else BoolInt(v.b)
  }

  /**
   * Python's `a + b` on field values: numbers add (a bool counts as 0 or
   * 1), strings and lists concatenate, anything else raises `TypeError`.
   */
  function PyAdd(a: Value, b: Value): (r: Result<Value, Fault>)
    ensures r.Ok? <==> ((a.Int? || a.Bool?) && (b.Int? || b.Bool?)) || (a.Str? && b.Str?) || (a.List? && b.List?)
    ensures r.Err? ==> r.error == TypeError
  {
    if a.Str? && b.Str? then Ok(Str(a.s + b.s))
    else if a.List? && b.List? then Ok(List(a.items + b.items))
    else if (a.Int? || a.Bool?) && (b.Int? || b.Bool?) then Ok(Int(AsInt(a) + AsInt(b)))
    else Err(TypeError)
  }

  /** `doc.get(k, 0)`. */
  function Current(doc: Doc, k: string): Value {
    if k in doc then doc[k] else Int(0)
  }

  /** The list at `k`, or `[]` when `k` is missing or not a list. */
  function ListAt(doc: Doc, k: string): seq<Value> {
    if k in doc && doc[k].List? then doc[k].items else []
  }

  /** `doc` with each key of `ks` set to its value in `vals`. */
  ghost function Override(doc: Doc, vals: map<string, Value>, ks: set<string>): Doc
    requires ks <= vals.Keys
  {
    doc + map k | k in ks :: vals[k]
  }

  /** Writing one more key: the loops below write their keys one at a time. */
  lemma OverrideStep(doc: Doc, vals: map<string, Value>, done: set<string>, k: string)
    requires done <= vals.Keys && k in vals && k !in done
    ensures (k in Override(doc, vals, done)) == (k in doc)
    ensures k in doc ==> Override(doc, vals, done)[k] == doc[k]
    ensures Override(doc, vals, done + {k}) == Override(doc, vals, done)[k := vals[k]]
  {
    var a := Override(doc, vals, done + {k});
    var b := Override(doc, vals, done)[k := vals[k]];
    assert a.Keys == b.Keys;
  }

  /** A key written twice holds the second value. */
  lemma WrittenTwice(doc: Doc, k: string, a: Value, b: Value)
    ensures doc[k := a][k := b] == doc[k := b]
  {
    assert doc[k := a][k := b].Keys == doc[k := b].Keys;
  }

  // ---------------------------------------------------------------------
  // `$inc`

  ghost predicate Addable(doc: Doc, m: map<string, Value>, ks: set<string>)
    requires ks <= m.Keys
  {
    forall k :: k in ks ==> PyAdd(Current(doc, k), m[k]).Ok?
  }

  /** The sums `doc.get(k, 0) + v` that do not raise. */
  ghost function Sums(doc: Doc, m: map<string, Value>): map<string, Value> {
    map k | k in m && PyAdd(Current(doc, k), m[k]).Ok? :: PyAdd(Current(doc, k), m[k]).value
  }

  /** The document after `$inc` has run over the keys `ks`. */
  ghost function IncFields(doc: Doc, m: map<string, Value>, ks: set<string>): Doc
    requires ks <= m.Keys && Addable(doc, m, ks)
  {
    Override(doc, Sums(doc, m), ks)
  }

  ghost function IncAll(doc: Doc, m: map<string, Value>): Result<Doc, Fault> {
    if Addable(doc, m, m.Keys) then Ok(IncFields(doc, m, m.Keys)) else Err(TypeError)
  }

  /** `for k, v in update["$inc"].items(): doc[k] = doc.get(k, 0) + v`. */
  method IncLoop(doc: Doc, m: map<string, Value>) returns (r: Result<Doc, Fault>)
    ensures r == IncAll(doc, m)
  {
    var d := doc;
    var todo := m.Keys;
    ghost var done: set<string> := {};
    while todo != {}
      invariant done <= m.Keys && todo == m.Keys - done
      invariant Addable(doc, m, done)
      invariant d == IncFields(doc, m, done)
      decreases todo
    {
      var k :| k in todo;
      IncStep(doc, m, done, k);
      var sum := PyAdd(Current(d, k), m[k]);
      if sum.Err? {
        assert !Addable(doc, m, m.Keys);
        return Err(sum.error);
      }
      d := d[k := sum.value];
      todo := todo - {k};
      done := done + {k};
    }
    assert done == m.Keys;
    return Ok(d);
  }

  // ---------------------------------------------------------------------
  // `$push`

  /** Each field's list with the operand appended. */
  ghost function Pushed(doc: Doc, m: map<string, Value>): map<string, Value> {
    map k | k in m :: List(ListAt(doc, k) + [m[k]])
  }

  ghost function PushFields(doc: Doc, m: map<string, Value>, ks: set<string>): Doc
    requires ks <= m.Keys
  {
    Override(doc, Pushed(doc, m), ks)
  }

  /** `for k, v in update["$push"].items()`: reset a missing or non-list field to `[]`, then append. */
  method PushLoop(doc: Doc, m: map<string, Value>) returns (d: Doc)
    ensures d == PushFields(doc, m, m.Keys)
  {
    d := doc;
    var todo := m.Keys;
    ghost var done: set<string> := {};
    while todo != {}
      invariant done <= m.Keys && todo == m.Keys - done
      invariant d == PushFields(doc, m, done)
      decreases todo
    {
      var k :| k in todo;
      PushStep(doc, m, done, k);
      ghost var before := d;
      if k !in d || !d[k].List? {
        d := d[k := List([])];
      }
      d := d[k := List(d[k].items + [m[k]])];
      if k !in before || !before[k].List? {
        WrittenTwice(before, k, List([]), d[k]);
      }
      todo := todo - {k};
      done := done + {k};
    }
    assert done == m.Keys;
  }

  lemma IncStep(doc: Doc, m: map<string, Value>, done: set<string>, k: string)
    requires done <= m.Keys && k in m && k !in done && Addable(doc, m, done)
    ensures Current(IncFields(doc, m, done), k) == Current(doc, k)
    ensures PyAdd(Current(doc, k), m[k]).Ok? ==>
      Addable(doc, m, done + {k}) &&
      IncFields(doc, m, done + {k}) == IncFields(doc, m, done)[k := PyAdd(Current(doc, k), m[k]).value]
  {
    var vals := Sums(doc, m);
    assert done <= vals.Keys;
    if PyAdd(Current(doc, k), m[k]).Ok? {
      OverrideStep(doc, vals, done, k);
    } else {
      var d := IncFields(doc, m, done);
      assert k in d <==> k in doc by {
        assert k !in done;
      }
      assert k in doc ==> d[k] == doc[k];
    }
  }

  lemma PushStep(doc: Doc, m: map<string, Value>, done: set<string>, k: string)
    requires done <= m.Keys && k in m && k !in done
    ensures ListAt(PushFields(doc, m, done), k) == ListAt(doc, k)
    ensures PushFields(doc, m, done + {k}) == PushFields(doc, m, done)[k := List(ListAt(doc, k) + [m[k]])]
  {
    OverrideStep(doc, Pushed(doc, m), done, k);
  }

  // ---------------------------------------------------------------------
  // `$addToSet`

  /** Appends each of `ys`, in order, unless an equal element is already there. */
  function UnionInto(xs: seq<Value>, ys: seq<Value>): seq<Value>
    decreases |ys|
  {
    if ys == [] then xs else UnionInto(if PyIn(ys[0], xs) then xs else xs + [ys[0]], ys[1..])
  }

  /** The elements an `$addToSet` operand adds: the `$each` items, or the value itself. */
  function AddItems(v: Value): Result<seq<Value>, Fault> {
    if HasOp(v, "$each") then Iterate(v.fields["$each"]) else Ok([v])
  }

  ghost predicate Eachable(m: map<string, Value>, ks: set<string>)
    requires ks <= m.Keys
  {
    forall k :: k in ks ==> AddItems(m[k]).Ok?
  }

  /** Each field's list with the operand's items merged in, where the operand can be iterated. */
  ghost function Added(doc: Doc, m: map<string, Value>): map<string, Value> {
    map k | k in m && AddItems(m[k]).Ok? :: List(UnionInto(ListAt(doc, k), AddItems(m[k]).value))
  }

  ghost function AddToSetFields(doc: Doc, m: map<string, Value>, ks: set<string>): Doc
    requires ks <= m.Keys && Eachable(m, ks)
  {
    Override(doc, Added(doc, m), ks)
  }

  lemma AddToSetStep(doc: Doc, m: map<string, Value>, done: set<string>, k: string, d: Doc)
    requires done <= m.Keys && k in m && k !in done && Eachable(m, done) && AddItems(m[k]).Ok?
    requires d == AddToSetFields(doc, m, done)
    ensures Eachable(m, done + {k})
    ensures ListAt(d, k) == ListAt(doc, k)
    ensures AddToSetFields(doc, m, done + {k}) == d[k := List(UnionInto(ListAt(d, k), AddItems(m[k]).value))]
  {
    var vals := Added(doc, m);
    assert done <= vals.Keys;
    OverrideStep(doc, vals, done, k);
  }

  ghost function AddToSetAll(doc: Doc, m: map<string, Value>): Result<Doc, Fault> {
    if Eachable(m, m.Keys) then Ok(AddToSetFields(doc, m, m.Keys)) else Err(TypeError)
  }

  /** `for item in items: if item not in xs: xs.append(item)`. */
  method AddEach(xs: seq<Value>, items: seq<Value>) returns (r: seq<Value>)
    ensures r == UnionInto(xs, items)
  {
    r := xs;
    var i := 0;
    while i < |items|
      invariant 0 <= i <= |items|
      invariant UnionInto(r, items[i..]) == UnionInto(xs, items)
    {
      assert items[i..][1..] == items[i + 1..];
      if !PyIn(items[i], r) {
        r := r + [items[i]];
      }
      i := i + 1;
    }
  }

  /** `for k, v in update["$addToSet"].items()`, with the `$each` form and the bare form. */
  method AddToSetLoop(doc: Doc, m: map<string, Value>) returns (r: Result<Doc, Fault>)
    ensures r == AddToSetAll(doc, m)
  {
    var d := doc;
    var todo := m.Keys;
    ghost var done: set<string> := {};
    while todo != {}
      invariant done <= m.Keys && todo == m.Keys - done
      invariant Eachable(m, done)
      invariant d == AddToSetFields(doc, m, done)
      decreases todo
    {
      var k :| k in todo;
      var v := m[k];
      var items: seq<Value>;
      if HasOp(v, "$each") {
        var each := Iterate(v.fields["$each"]);
        if each.Err? {
          assert !Eachable(m, m.Keys);
          return Err(each.error);
        }
        items := each.value;
      } else {
        items := [v];
      }
      assert AddItems(v) == Ok(items);
      AddToSetStep(doc, m, done, k, d);
      ghost var before := d;
      if k !in d || !d[k].List? {
        d := d[k := List([])];
      }
      assert d[k].items == ListAt(before, k);
      var merged := AddEach(d[k].items, items);
      d := d[k := List(merged)];
      if k !in before || !before[k].List? {
        WrittenTwice(before, k, List([]), List(merged));
      }
      todo := todo - {k};
      done := done + {k};
    }
    assert done == m.Keys;
    return Ok(d);
  }

  // ---------------------------------------------------------------------
  // The whole update

  /** Some recognised operator is present, so `modified_count` is 1 and the row is rewritten. */
  predicate Recognised(u: Update) {
    "$set" in u || "$inc" in u || "$push" in u || "$addToSet" in u
  }

  /** The operand dict of `$inc`, `$push` or `$addToSet`; anything else has no `.items()`. */
  function Operand(u: Update, op: string): Result<map<string, Value>, Fault>
    requires op in u
  {
    if u[op].Obj? then Ok(u[op].fields) else Err(AttributeError)
  }

  // ---------------------------------------------------------------------
  // `$set`: `dict.update` on the fetched document

  /**
   * One element of a non-dict `dict.update` argument, unpacked as a
   * key/value pair. It must be iterable (else `TypeError`) and have exactly
   * two items (else `ValueError`). A string's items are its characters, a
   * dict's items are its keys.
   */
  function PairOf(e: Value): Result<(Value, Value), Fault> {
    match e
    case Str(s) => if |s| == 2 then Ok((Str([s[0]]), Str([s[1]]))) else Err(ValueError)
    case List(xs) => if |xs| == 2 then Ok((xs[0], xs[1])) else Err(ValueError)
    case Obj(m) =>
      if |m| == 2 then (var ks := SortedKeys(m.Keys); Ok((Str(ks[0]), Str(ks[1])))) else Err(ValueError)
    case _ => Err(TypeError)
  }

  /**
   * The field a pair's first item names. A list or dict is unhashable; a
   * scalar key reaches the stored document as its JSON key text.
   */
  function KeyOf(k: Value): Result<string, Fault> {
    match k
    case List(_) => Err(TypeError)
    case Obj(_) => Err(TypeError)
    case _ => Ok(Render(k, Jsonb))
  }

  /** An element `dict.update` accepts as a pair. */
  predicate GoodPair(e: Value) {
    PairOf(e).Ok? && KeyOf(PairOf(e).value.0).Ok?
  }

  function PairKey(e: Value): string
    requires GoodPair(e)
  {
    KeyOf(PairOf(e).value.0).value
  }

  function PairValue(e: Value): Value
    requires GoodPair(e)
  {
    PairOf(e).value.1
  }

  /** `doc.update(pairs)`: one pair at a time, so a later key overwrites; the first bad element raises. */
  function UpdatePairs(doc: Doc, es: seq<Value>): Result<Doc, Fault>
    decreases |es|
  {
    if es == [] then Ok(doc)
    else
      var p :- PairOf(es[0]);
      var k :- KeyOf(p.0);
      UpdatePairs(doc[k := p.1], es[1..])
  }

  /** Iterating a string yields its characters as one-character strings. */
  function Chars(s: string): seq<Value> {
    seq(|s|, i requires 0 <= i < |s| => Str([s[i]]))
  }

  /** `doc.update(v)`: a dict merges shallowly, a list or string is iterated for pairs, anything else is not iterable. */
  function DictUpdate(doc: Doc, v: Value): Result<Doc, Fault> {
    match v
    case Obj(m) => Ok(doc + m)
    case List(xs) => UpdatePairs(doc, xs)
    case Str(s) => UpdatePairs(doc, Chars(s))
    case _ => Err(TypeError)
  }

  /** The fetched document after all operators and the `updated_at` stamp. */
  ghost function ApplyUpdate(doc: Doc, u: Update, now: string): Result<Doc, Fault> {
    var d1 :- if "$set" in u then DictUpdate(doc, u["$set"]) else Ok(doc);
    var d2 :- if "$inc" in u then (var m :- Operand(u, "$inc"); IncAll(d1, m)) else Ok(d1);
    var d3 :- if "$push" in u then (var m :- Operand(u, "$push"); Ok(PushFields(d2, m, m.Keys))) else Ok(d2);
    var d4 :- if "$addToSet" in u then (var m :- Operand(u, "$addToSet"); AddToSetAll(d3, m)) else Ok(d3);
    Ok(if Recognised(u) then d4["updated_at" := Str(now)] else d4)
  }

  /** The in-process part of `update_one`: the operators in their fixed order, then the stamp. */
  method ApplyUpdateInPlace(doc: Doc, u: Update, now: string) returns (r: Result<Doc, Fault>, modified: bool)
    ensures r == ApplyUpdate(doc, u, now)
    ensures r.Ok? ==> modified == Recognised(u)
  {
    var d := doc;
    modified := false;
    if "$set" in u {
      var merged := DictUpdate(d, u["$set"]);
      if merged.Err? { return Err(merged.error), modified; }
      d := merged.value;
      modified := true;
    }
    if "$inc" in u {
      var m := Operand(u, "$inc");
      if m.Err? { return Err(m.error), modified; }
      var inc := IncLoop(d, m.value);
      if inc.Err? { return Err(inc.error), modified; }
      d := inc.value;
      modified := true;
    }
    if "$push" in u {
      var m := Operand(u, "$push");
      if m.Err? { return Err(m.error), modified; }
      d := PushLoop(d, m.value);
      modified := true;
    }
    if "$addToSet" in u {
      var m := Operand(u, "$addToSet");
      if m.Err? { return Err(m.error), modified; }
      var add := AddToSetLoop(d, m.value);
      if add.Err? { return Err(add.error), modified; }
      d := add.value;
      modified := true;
    }
    if modified {
      d := d["updated_at" := Str(now)];
    }
    return Ok(d), modified;
  }

  // ---------------------------------------------------------------------
  // Properties

  lemma PyInAppend(x: Value, xs: seq<Value>, ys: seq<Value>)
    requires PyIn(x, xs)
    ensures PyIn(x, xs + ys)
  {
    var i :| 0 <= i < |xs| && PyEq(x, xs[i]);
    assert (xs + ys)[i] == xs[i];
  }

  /**
   * `$addToSet` keeps the existing list as a prefix, in order, and each
   * element it appends comes from the operand and had no equal in the list.
   */
  lemma {:induction false} UnionIntoExtends(xs: seq<Value>, ys: seq<Value>)
    ensures |xs| <= |UnionInto(xs, ys)| <= |xs| + |ys|
    ensures UnionInto(xs, ys)[..|xs|] == xs
    ensures forall i :: |xs| <= i < |UnionInto(xs, ys)| ==> UnionInto(xs, ys)[i] in ys && !PyIn(UnionInto(xs, ys)[i], xs)
    decreases |ys|
  {
    if ys != [] {
      var next := if PyIn(ys[0], xs) then xs else xs + [ys[0]];
      UnionIntoExtends(next, ys[1..]);
      var r := UnionInto(next, ys[1..]);
      assert r == UnionInto(xs, ys);
      assert next[..|xs|] == xs;
      assert r[..|xs|] == r[..|next|][..|xs|];
      forall i | |xs| <= i < |r| ensures r[i] in ys && !PyIn(r[i], xs) {
        if i < |next| {
          assert r[i] == next[i] == ys[0];
        } else {
          assert r[i] in ys[1..];
          if PyIn(r[i], xs) {
            PyInAppend(r[i], xs, next[|xs|..]);
            assert false;
          }
        }
      }
    }
  }

  /** Every operand element ends up present (up to Python `==`). */
  lemma {:induction false} UnionIntoCovers(xs: seq<Value>, ys: seq<Value>)
    ensures forall i :: 0 <= i < |ys| ==> PyIn(ys[i], UnionInto(xs, ys))
    ensures forall i :: 0 <= i < |xs| ==> PyIn(xs[i], UnionInto(xs, ys))
    decreases |ys|
  {
    UnionIntoExtends(xs, ys);
    var r := UnionInto(xs, ys);
    forall i | 0 <= i < |xs| ensures PyIn(xs[i], r) {
      PyEqReflexive(xs[i]);
      assert r[i] == xs[i];
    }
    if ys != [] {
      var next := if PyIn(ys[0], xs) then xs else xs + [ys[0]];
      UnionIntoCovers(next, ys[1..]);
      forall i | 0 <= i < |ys| ensures PyIn(ys[i], r) {
        if i == 0 {
          if PyIn(ys[0], xs) {
            var j :| 0 <= j < |xs| && PyEq(ys[0], xs[j]);
            assert PyIn(xs[j], r);
            var k :| 0 <= k < |r| && PyEq(xs[j], r[k]);
            PyEqTransitive(ys[0], xs[j], r[k]);
          } else {
            assert next[|xs|] == ys[0];
            assert PyIn(next[|xs|], r);
          }
        } else {
          assert ys[i] == ys[1..][i - 1];
        }
      }
    }
  }

  lemma {:induction false} UnionIntoNoop(xs: seq<Value>, ys: seq<Value>)
    requires forall i :: 0 <= i < |ys| ==> PyIn(ys[i], xs)
    ensures UnionInto(xs, ys) == xs
    decreases |ys|
  {
    if ys != [] {
      UnionIntoNoop(xs, ys[1..]);
    }
  }

  /** Applying the same `$addToSet` twice changes nothing the second time. */
  lemma UnionIntoIdempotent(xs: seq<Value>, ys: seq<Value>)
    ensures UnionInto(UnionInto(xs, ys), ys) == UnionInto(xs, ys)
  {
    UnionIntoCovers(xs, ys);
    UnionIntoNoop(UnionInto(xs, ys), ys);
  }

  /** `{"$each": [a, b, a]}` on `[a]` gives `[a, b]` when `a != b`. */
  lemma AddToSetEachExample(a: Value, b: Value)
    requires !PyEq(a, b)
    ensures UnionInto([a], [a, b, a]) == [a, b]
  {
    PyEqReflexive(a);
    assert PyEq(a, [a][0]);
    if PyEq(b, a) {
      PyEqSymmetric(b, a);
    }
    assert !PyIn(b, [a]);
    assert PyEq(a, [a, b][0]);
    calc {
      UnionInto([a], [a, b, a]);
      { assert [a, b, a][1..] == [b, a]; }
      UnionInto([a], [b, a]);
      { assert [b, a][1..] == [a]; assert [a] + [b] == [a, b]; }
      UnionInto([a, b], [a]);
      { assert [a][1..] == []; }
      UnionInto([a, b], []);
    }
  }

  /**
   * An update with a recognised operator always ends with `updated_at` set
   * to the clock, even if `$set` wrote that field; one with only unknown
   * operators leaves the document exactly as fetched.
   */
  lemma UpdateStamp(doc: Doc, u: Update, now: string)
    ensures Recognised(u) && ApplyUpdate(doc, u, now).Ok? ==>
      "updated_at" in ApplyUpdate(doc, u, now).value && ApplyUpdate(doc, u, now).value["updated_at"] == Str(now)
    ensures !Recognised(u) ==> ApplyUpdate(doc, u, now) == Ok(doc)
  {
  }

  /**
   * `$inc` on a missing field starts from 0, and the operators run in their
   * fixed order: a `$push` in the same update sees the value `$set` wrote
   * and replaces a non-list with a fresh list.
   */
  lemma IncAndPushOrder(doc: Doc, k: string, n: int, x: Value, now: string)
    requires k !in doc && k != "updated_at"
    ensures ApplyUpdate(doc, map["$inc" := Obj(map[k := Int(n)])], now).Ok?
    ensures ApplyUpdate(doc, map["$inc" := Obj(map[k := Int(n)])], now).value[k] == Int(n)
    ensures ApplyUpdate(doc, map["$set" := Obj(map[k := Int(n)]), "$push" := Obj(map[k := x])], now).Ok?
    ensures ApplyUpdate(doc, map["$set" := Obj(map[k := Int(n)]), "$push" := Obj(map[k := x])], now).value[k] == List([x])
  {
    IncOnMissing(doc, k, n, now);
    SetThenPush(doc, k, n, x, now);
  }

  lemma IncOnMissing(doc: Doc, k: string, n: int, now: string)
    requires k !in doc && k != "updated_at"
    ensures ApplyUpdate(doc, map["$inc" := Obj(map[k := Int(n)])], now).Ok?
    ensures ApplyUpdate(doc, map["$inc" := Obj(map[k := Int(n)])], now).value[k] == Int(n)
  {
    var m := map[k := Int(n)];
    assert Addable(doc, m, m.Keys);
    assert Sums(doc, m)[k] == Int(n);
    assert IncFields(doc, m, m.Keys)[k] == Int(n);
  }

  lemma SetThenPush(doc: Doc, k: string, n: int, x: Value, now: string)
    requires k != "updated_at"
    ensures ApplyUpdate(doc, map["$set" := Obj(map[k := Int(n)]), "$push" := Obj(map[k := x])], now).Ok?
    ensures ApplyUpdate(doc, map["$set" := Obj(map[k := Int(n)]), "$push" := Obj(map[k := x])], now).value[k] == List([x])
  {
  }

  /** Some pair of `es` names field `k`. */
  predicate Named(es: seq<Value>, k: string) {
    exists i :: 0 <= i < |es| && GoodPair(es[i]) && PairKey(es[i]) == k
  }

  /** No later pair of `es` names the field that pair `i` names. */
  predicate LastFor(es: seq<Value>, i: int)
    requires 0 <= i < |es| && GoodPair(es[i])
  {
    forall j :: i < j < |es| && GoodPair(es[j]) ==> PairKey(es[j]) != PairKey(es[i])
  }

  /** `$set` with a list succeeds exactly when every element is a pair with a hashable key. */
  lemma {:induction false} UpdatePairsOk(doc: Doc, es: seq<Value>)
    ensures UpdatePairs(doc, es).Ok? <==> forall i :: 0 <= i < |es| ==> GoodPair(es[i])
    ensures UpdatePairs(doc, es).Err? ==> UpdatePairs(doc, es).error in {TypeError, ValueError}
    decreases |es|
  {
    if es != [] && GoodPair(es[0]) {
      var rest := es[1..];
      UpdatePairsOk(doc[PairKey(es[0]) := PairValue(es[0])], rest);
      forall i | 0 < i < |es| ensures es[i] == rest[i - 1] { }
    }
  }

  /** The last pair naming a field decides its value. */
  lemma {:induction false} UpdatePairsLastWins(doc: Doc, es: seq<Value>, i: int)
    requires 0 <= i < |es| && GoodPair(es[i]) && LastFor(es, i)
    ensures UpdatePairs(doc, es).Ok? ==>
      PairKey(es[i]) in UpdatePairs(doc, es).value && UpdatePairs(doc, es).value[PairKey(es[i])] == PairValue(es[i])
    decreases |es|
  {
    if GoodPair(es[0]) {
      var d1 := doc[PairKey(es[0]) := PairValue(es[0])];
      var rest := es[1..];
      if i == 0 {
        UpdatePairsKeeps(d1, rest, PairKey(es[0]));
        forall j | 0 <= j < |rest| && GoodPair(rest[j]) ensures PairKey(rest[j]) != PairKey(es[0]) {
          assert rest[j] == es[j + 1];
        }
      } else {
        assert rest[i - 1] == es[i];
        forall j | i - 1 < j < |rest| && GoodPair(rest[j]) ensures PairKey(rest[j]) != PairKey(es[i]) {
          assert rest[j] == es[j + 1];
        }
        UpdatePairsLastWins(d1, rest, i - 1);
      }
    }
  }

  /** A field no pair names keeps its value. */
  lemma {:induction false} UpdatePairsKeeps(doc: Doc, es: seq<Value>, k: string)
    requires k in doc && !Named(es, k)
    ensures UpdatePairs(doc, es).Ok? ==> k in UpdatePairs(doc, es).value && UpdatePairs(doc, es).value[k] == doc[k]
    decreases |es|
  {
    if es != [] && GoodPair(es[0]) {
      var rest := es[1..];
      assert PairKey(es[0]) != k;
      forall j | 0 <= j < |rest| && GoodPair(rest[j]) ensures PairKey(rest[j]) != k {
        assert rest[j] == es[j + 1];
      }
      UpdatePairsKeeps(doc[PairKey(es[0]) := PairValue(es[0])], rest, k);
    }
  }

  /** Every field of the result was in the document or is named by a pair. */
  lemma {:induction false} UpdatePairsFields(doc: Doc, es: seq<Value>, k: string)
    ensures UpdatePairs(doc, es).Ok? && k in UpdatePairs(doc, es).value ==> k in doc || Named(es, k)
    decreases |es|
  {
    if es != [] && GoodPair(es[0]) {
      var rest := es[1..];
      UpdatePairsFields(doc[PairKey(es[0]) := PairValue(es[0])], rest, k);
      if Named(rest, k) {
        var j :| 0 <= j < |rest| && GoodPair(rest[j]) && PairKey(rest[j]) == k;
        assert es[j + 1] == rest[j];
      }
    }
  }

  /**
   * `$set` operands that are not dicts: an empty list or string changes
   * nothing, a non-empty string raises `ValueError` (its elements have one
   * character), a list of two-item lists sets those fields, and a scalar is
   * not iterable.
   */
  lemma SetOperandCases(doc: Doc, s: string, k: string, x: Value, v: Value)
    requires s != "" && !(v.Str? || v.List? || v.Obj?)
    ensures DictUpdate(doc, List([])) == Ok(doc) && DictUpdate(doc, Str("")) == Ok(doc)
    ensures DictUpdate(doc, Str(s)) == Err(ValueError)
    ensures DictUpdate(doc, List([List([Str(k), x])])) == Ok(doc[k := x])
    ensures DictUpdate(doc, v) == Err(TypeError)
  {
    assert Chars(s)[0] == Str([s[0]]);
    assert PairOf(Chars(s)[0]) == Err(ValueError);
    var e := [List([Str(k), x])];
    assert PairOf(e[0]) == Ok((Str(k), x));
    assert KeyOf(Str(k)) == Ok(k);
    assert e[1..] == [];
    assert UpdatePairs(doc, e) == UpdatePairs(doc[k := x], []);
  }

  /**
   * `{"$set": []}` and `{"$set": ""}` still count as a modification: the
   * document gains only the `updated_at` stamp.
   */
  lemma EmptySetOperandStamps(doc: Doc, now: string)
    ensures ApplyUpdate(doc, map["$set" := List([])], now) == Ok(doc["updated_at" := Str(now)])
    ensures ApplyUpdate(doc, map["$set" := Str("")], now) == Ok(doc["updated_at" := Str(now)])
  {
    assert Chars("") == [];
  }
}
