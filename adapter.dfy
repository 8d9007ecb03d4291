/**
 * The document-store adapter's collection and cursor: a table
 * `(id TEXT PRIMARY KEY, doc JSONB)` seen as the map `rows` from id to
 * document, behind pymongo's collection interface. The database is
 * abstract: a query's rows are those whose document satisfies the meaning
 * (`Holds`) of the conditions the adapter generates. The random token of
 * `secrets.token_hex(12)` and the clock are parameters.
 */
module Adapter {
  import opened Common
  import opened Text
  import opened Json
  import opened AdapterQuery
  import opened AdapterUpdate
  import Sorting

  type Rows = map<string, Doc>

  /** Every row's document carries its own key as the string `_id`. */
  ghost predicate Keyed(rows: Rows) {
    forall id :: id in rows ==> "_id" in rows[id] && rows[id]["_id"] == Str(id)
  }

  lemma KeyedPut(rows: Rows, id: string, doc: Doc)
    requires Keyed(rows) && "_id" in doc && doc["_id"] == Str(id)
    ensures Keyed(rows[id := doc])
  {
  }

  /** The ids of the rows the conditions select. */
  ghost function Matching(rows: Rows, cs: seq<Cond>): set<string> {
    set id | id in rows && HoldsAll(cs, id, rows[id])
  }

  // ---------------------------------------------------------------------
  // Inserts

  /** The id an insert gives a document: its `_id` stringified, or the fresh token. */
  function AssignedId(doc: Doc, token: string): string {
    if "_id" in doc then PyStr(doc["_id"]) else token
  }

  /** The caller's dict after the insert wrote the id into it. */
  function WithId(doc: Doc, token: string): Doc {
    doc["_id" := Str(AssignedId(doc, token))]
  }

  /**
   * A document without `_id` gets the 24-hex-digit token; the stored
   * document carries its id as a string and is otherwise the caller's; and
   * inserting the stored document again keeps the same id, so it upserts
   * the same row.
   */
  lemma AssignedIdFacts(doc: Doc, token: string, token2: string)
    requires IsTokenHex12(token)
    ensures "_id" !in doc ==> IsTokenHex12(AssignedId(doc, token))
    ensures "_id" in doc && doc["_id"].Str? ==> AssignedId(doc, token) == doc["_id"].s
    ensures WithId(doc, token)["_id"] == Str(AssignedId(doc, token))
    ensures forall k :: k in doc && k != "_id" ==> WithId(doc, token)[k] == doc[k]
    ensures AssignedId(WithId(doc, token), token2) == AssignedId(doc, token)
  {
  }

  /** The rows after upserting `docs[i]` under `ids[i]` in order: a later id overwrites an earlier. */
  function UpsertAll(rows: Rows, docs: seq<Doc>, ids: seq<string>): Rows
    requires |docs| == |ids|
  {
    if docs == [] then rows
    else UpsertAll(rows, docs[..|docs| - 1], ids[..|ids| - 1])[ids[|ids| - 1] := docs[|docs| - 1]]
  }

  lemma UpsertAllSnoc(rows: Rows, docs: seq<Doc>, ids: seq<string>, doc: Doc, id: string)
    requires |docs| == |ids|
    ensures UpsertAll(rows, docs + [doc], ids + [id]) == UpsertAll(rows, docs, ids)[id := doc]
  {
    assert (docs + [doc])[..|docs|] == docs && (ids + [id])[..|ids|] == ids;
  }

  /**
   * After `insert_many`, exactly the old ids and the inserted ids are rows;
   * an inserted id holds the last document inserted under it, and every
   * other row is unchanged.
   */
  lemma UpsertAllResult(rows: Rows, docs: seq<Doc>, ids: seq<string>)
    requires |docs| == |ids|
    ensures UpsertAll(rows, docs, ids).Keys == rows.Keys + set id | id in ids
    ensures forall j :: 0 <= j < |ids| && (forall i :: j < i < |ids| ==> ids[i] != ids[j]) ==>
      UpsertAll(rows, docs, ids)[ids[j]] == docs[j]
    ensures forall id :: id in rows && id !in ids ==> UpsertAll(rows, docs, ids)[id] == rows[id]
  {
    UpsertAllKeys(rows, docs, ids);
    forall j | 0 <= j < |ids| && (forall i :: j < i < |ids| ==> ids[i] != ids[j])
      ensures UpsertAll(rows, docs, ids)[ids[j]] == docs[j]
    {
      UpsertAllLast(rows, docs, ids, j);
    }
    forall id | id in rows && id !in ids
      ensures UpsertAll(rows, docs, ids)[id] == rows[id]
    {
      UpsertAllOthers(rows, docs, ids, id);
    }
  }

  lemma {:induction false} UpsertAllKeys(rows: Rows, docs: seq<Doc>, ids: seq<string>)
    requires |docs| == |ids|
    ensures UpsertAll(rows, docs, ids).Keys == rows.Keys + set id | id in ids
  {
    if docs != [] {
      var n := |docs| - 1;
      UpsertAllKeys(rows, docs[..n], ids[..n]);
      assert ids == ids[..n] + [ids[n]];
      assert (set id | id in ids) == (set id | id in ids[..n]) + {ids[n]};
    }
  }

  lemma {:induction false} UpsertAllLast(rows: Rows, docs: seq<Doc>, ids: seq<string>, j: nat)
    requires |docs| == |ids| && j < |ids|
    requires forall i :: j < i < |ids| ==> ids[i] != ids[j]
    ensures ids[j] in UpsertAll(rows, docs, ids) && UpsertAll(rows, docs, ids)[ids[j]] == docs[j]
  {
    UpsertAllKeys(rows, docs, ids);
    var n := |docs| - 1;
    if j < n {
      assert ids[..n][j] == ids[j] && docs[..n][j] == docs[j];
      assert forall i :: j < i < n ==> ids[..n][i] != ids[..n][j];
      UpsertAllLast(rows, docs[..n], ids[..n], j);
    }
  }

  lemma {:induction false} UpsertAllOthers(rows: Rows, docs: seq<Doc>, ids: seq<string>, id: string)
    requires |docs| == |ids| && id in rows && id !in ids
    ensures id in UpsertAll(rows, docs, ids) && UpsertAll(rows, docs, ids)[id] == rows[id]
  {
    UpsertAllKeys(rows, docs, ids);
    if docs != [] {
      var n := |docs| - 1;
      assert id !in ids[..n];
      UpsertAllOthers(rows, docs[..n], ids[..n], id);
    }
  }


  // ---------------------------------------------------------------------
  // update_one

  /** `UPDATE ... SET doc = %s WHERE id = %s` with the post-update `doc["_id"]` as parameter. */
  function WriteBack(rows: Rows, doc: Doc): Result<Rows, Fault>
    requires "_id" in doc
  {
    match doc["_id"]
    case Str(t) => Ok(if t in rows then rows[t := doc] else rows)
    case Null => Ok(rows)          // `id = NULL` selects nothing
    case _ => Err(SqlError)        // no text = integer/boolean/array operator, no adapter for dict
  }

  /** What `update_one` returns and leaves in the table once the row `id` was fetched. */
  ghost function UpdateOutcome(rows: Rows, id: string, u: Update, now: string): (Result<Option<nat>, Fault>, Rows)
    requires id in rows
  {
    var r := ApplyUpdate(rows[id], u, now);
    if r.Err? then (Err(r.error), rows)
    else if !Recognised(u) then (Ok(Some(0)), rows)
    else if "_id" !in r.value then (Err(KeyError), rows)
    else
      match WriteBack(rows, r.value)
      case Err(e) => (Err(e), rows)
      case Ok(next) => (Ok(Some(1)), next)
  }

  /** The rest of `update_one` once the row `id` was fetched: apply the operators, write back. */
  method UpdateRow(rows: Rows, id: string, u: Update, now: string) returns (r: Result<Option<nat>, Fault>, next: Rows)
    requires id in rows
    ensures (r, next) == UpdateOutcome(rows, id, u, now)
  {
    next := rows;
    var doc, modified := ApplyUpdateInPlace(rows[id], u, now);
    if doc.Err? {
      return Err(doc.error), rows;
    }
    if !modified {
      return Ok(Some(0)), rows;
    }
    var d := doc.value;
    if "_id" !in d {
      return Err(KeyError), rows;
    }
    match d["_id"] {
      case Str(t) =>
        if t in rows {
          next := rows[t := d];
        }
      case Null =>
      case _ =>
        return Err(SqlError), rows;
    }
    return Ok(Some(1)), next;
  }

  /**
   * The update rewrites at most the row named by the updated document's
   * `_id` and keeps every row keyed by its own id; `modified_count` is 1
   * exactly when a recognised operator was present and nothing raised.
   */
  lemma UpdateOutcomeFacts(rows: Rows, id: string, u: Update, now: string)
    requires Keyed(rows) && id in rows
    ensures var (r, next) := UpdateOutcome(rows, id, u, now);
      Keyed(next) && next.Keys == rows.Keys &&
      (r == Ok(Some(1)) <==> Recognised(u) && ApplyUpdate(rows[id], u, now).Ok? && r.Ok?) &&
      (r == Ok(Some(0)) <==> !Recognised(u)) &&
      (r.Err? ==> next == rows) &&
      (forall j :: j in rows && next[j] != rows[j] ==>
         ApplyUpdate(rows[id], u, now).Ok? && next[j] == ApplyUpdate(rows[id], u, now).value &&
         next[j]["_id"] == Str(j))
  {
    var r := ApplyUpdate(rows[id], u, now);
    if !Recognised(u) {
      UpdateStamp(rows[id], u, now);
    } else if r.Ok? && "_id" in r.value {
      WriteBackFacts(rows, r.value);
    }
  }

  /** Writing back keeps the ids and their rows keyed; only the row the document names changes, to the document. */
  lemma WriteBackFacts(rows: Rows, doc: Doc)
    requires Keyed(rows) && "_id" in doc
    ensures WriteBack(rows, doc).Ok? ==>
      var next := WriteBack(rows, doc).value;
      Keyed(next) && next.Keys == rows.Keys &&
      forall j :: j in rows && next[j] != rows[j] ==> next[j] == doc && doc["_id"] == Str(j)
  {
    if doc["_id"].Str? && doc["_id"].s in rows {
      KeyedPut(rows, doc["_id"].s, doc);
    }
  }

  /**
   * The write goes to the row named by `doc["_id"]` after the operators
   * ran: a `$set` of `_id` to another existing id overwrites that other row
   * and leaves the fetched one as it was.
   */
  lemma SetIdRedirectsWrite(rows: Rows, id: string, other: string, now: string)
    requires Keyed(rows) && id in rows && other in rows && other != id && other != "updated_at"
    ensures var u := map["$set" := Obj(map["_id" := Str(other)])];
      var (r, next) := UpdateOutcome(rows, id, u, now);
      r == Ok(Some(1)) && next[id] == rows[id] &&
      next[other] == rows[id]["_id" := Str(other)]["updated_at" := Str(now)]
  {
  }

  // ---------------------------------------------------------------------
  // Cursor ordering

  /** `ORDER BY doc->>'k'`: code-point order (the C collation) on the extracted text, SQL NULL after every text. */
  predicate KeyLe(a: Option<string>, b: Option<string>) {
    match (a, b)
    case (Some(x), Some(y)) => StrLe(x, y)
    case (_, None) => true
    case (None, Some(_)) => false
  }

  /** Ascending order puts NULL last, descending puts it first, as PostgreSQL does by default. */
  function Order(key: string, asc: bool): (Doc, Doc) -> bool {
    (x: Doc, y: Doc) =>
      if asc then KeyLe(FieldText(x, key), FieldText(y, key)) else KeyLe(FieldText(y, key), FieldText(x, key))
  }

  lemma KeyLeTotalPreorder(a: Option<string>, b: Option<string>, c: Option<string>)
    ensures KeyLe(a, b) || KeyLe(b, a)
    ensures KeyLe(a, b) && KeyLe(b, c) ==> KeyLe(a, c)
  {
    if a.Some? && b.Some? {
      StrLtTotal(a.value, b.value);
      if c.Some? && KeyLe(a, b) && KeyLe(b, c) && a.value != b.value && b.value != c.value {
        StrLtTransitive(a.value, b.value, c.value);
      }
    }
  }

  lemma OrderTotalPreorder(key: string, asc: bool)
    ensures Sorting.TotalPreorder(Order(key, asc))
  {
    var le := Order(key, asc);
    forall x, y ensures le(x, y) || le(y, x) {
      KeyLeTotalPreorder(FieldText(x, key), FieldText(y, key), None);
    }
    forall x, y, z | le(x, y) && le(y, z) ensures le(x, z) {
      if asc {
        KeyLeTotalPreorder(FieldText(x, key), FieldText(y, key), FieldText(z, key));
      } else {
        KeyLeTotalPreorder(FieldText(z, key), FieldText(y, key), FieldText(x, key));
      }
    }
  }

  predicate Distinct<T(==)>(s: seq<T>) {
    forall i, j :: 0 <= i < j < |s| ==> s[i] != s[j]
  }

  lemma {:induction false} DistinctCounts<T>(s: seq<T>)
    ensures Distinct(s) <==> forall x :: multiset(s)[x] <= 1
  {
    if s != [] {
      DistinctCounts(s[1..]);
      assert s == [s[0]] + s[1..];
      if Distinct(s) {
        assert Distinct(s[1..]);
        assert s[0] !in s[1..];
      } else {
        var i, j :| 0 <= i < j < |s| && s[i] == s[j];
        if i == 0 {
          assert s[j] in s[1..];
          assert multiset(s)[s[0]] >= 2;
        } else {
          assert !Distinct(s[1..]);
          var x :| multiset(s[1..])[x] > 1;
          assert multiset(s)[x] > 1;
        }
      }
    }
  }

  lemma DistinctPermutation<T>(a: seq<T>, b: seq<T>)
    requires multiset(a) == multiset(b) && Distinct(a)
    ensures Distinct(b)
  {
    DistinctCounts(a);
    DistinctCounts(b);
  }

  /** Enumerates a set of ids, each once, in an order the model leaves open. */
  method Enumerate(sel: set<string>) returns (ids: seq<string>)
    ensures Distinct(ids) && |ids| == |sel|
    ensures forall i :: 0 <= i < |ids| ==> ids[i] in sel
    ensures forall id :: id in sel ==> id in ids
  {
    var todo := sel;
    ids := [];
    ghost var done: set<string> := {};
    while todo != {}
      invariant todo !! done && todo + done == sel
      invariant |ids| == |done|
      invariant forall i :: 0 <= i < |ids| ==> ids[i] in done
      invariant forall id :: id in done ==> id in ids
      invariant Distinct(ids)
      decreases todo
    {
      var id :| id in todo;
      assert |done + {id}| == |done| + 1;
      ids, done := ids + [id], done + {id};
      todo := todo - {id};
    }
  }

  /** The rows a SELECT returns before ORDER BY and LIMIT: each selected row once, in no set order. */
  method Select(rows: Rows, sel: set<string>) returns (docs: seq<Doc>)
    requires Keyed(rows) && sel <= rows.Keys
    ensures Distinct(docs) && |docs| == |sel|
    ensures forall i :: 0 <= i < |docs| ==> Picked(rows, sel, docs[i])
    ensures forall id :: id in sel ==> rows[id] in docs
  {
    var ids := Enumerate(sel);
    docs := seq(|ids|, i requires 0 <= i < |ids| => rows[ids[i]]);
    DistinctRows(rows, ids, docs);
    forall id | id in sel ensures rows[id] in docs {
      var i :| 0 <= i < |ids| && ids[i] == id;
      assert docs[i] == rows[id];
    }
  }

  /** `d` is the document of one of the rows `sel` names. */
  predicate Picked(rows: Rows, sel: set<string>, d: Doc) {
    exists id :: id in sel && id in rows && rows[id] == d
  }

  /** Documents taken from the selected rows are still selected rows. */
  lemma KeptRowsSelected(rows: Rows, sel: set<string>, docs: seq<Doc>, kept: seq<Doc>)
    requires forall i :: 0 <= i < |docs| ==> Picked(rows, sel, docs[i])
    requires forall i :: 0 <= i < |kept| ==> kept[i] in docs
    ensures forall i :: 0 <= i < |kept| ==> Picked(rows, sel, kept[i])
  {
    forall i | 0 <= i < |kept| ensures Picked(rows, sel, kept[i]) {
      var j :| 0 <= j < |docs| && docs[j] == kept[i];
    }
  }

  /** Rows under distinct ids are distinct documents, since each carries its id. */
  lemma DistinctRows(rows: Rows, ids: seq<string>, docs: seq<Doc>)
    requires Keyed(rows) && Distinct(ids) && |docs| == |ids|
    requires forall i :: 0 <= i < |ids| ==> ids[i] in rows && docs[i] == rows[ids[i]]
    ensures Distinct(docs)
  {
    forall i, j | 0 <= i < j < |docs| ensures docs[i] != docs[j] {
      assert docs[i]["_id"] == Str(ids[i]) && docs[j]["_id"] == Str(ids[j]);
    }
  }

  /** ORDER BY (when a sort is set), then LIMIT (when positive), on the selected rows. */
  function Arrange(docs: seq<Doc>, sortKey: Option<(string, bool)>, limit: Option<int>): seq<Doc> {
    var sorted := if sortKey.Some? then Sorting.Sort(docs, Order(sortKey.value.0, sortKey.value.1)) else docs;
    if limit.Some? && limit.value > 0 then Sorting.Take(sorted, limit.value) else sorted
  }

  /** ORDER BY keeps the rows: the same documents, as many, in order. */
  lemma SortFacts(docs: seq<Doc>, key: string, asc: bool)
    ensures var sorted := Sorting.Sort(docs, Order(key, asc));
      Sorting.Sorted(sorted, Order(key, asc)) && |sorted| == |docs| &&
      (forall x :: x in docs <==> x in sorted) &&
      (Distinct(docs) ==> Distinct(sorted))
  {
    var le := Order(key, asc);
    OrderTotalPreorder(key, asc);
    Sorting.SortSorted(docs, le);
    var sorted := Sorting.Sort(docs, le);
    assert |multiset(sorted)| == |multiset(docs)|;
    if Distinct(docs) {
      DistinctPermutation(docs, sorted);
    }
    forall x ensures x in docs <==> x in sorted {
      assert x in docs <==> x in multiset(docs);
      assert x in sorted <==> x in multiset(sorted);
    }
  }

  /**
   * The arranged rows are selected rows, each at most once, as many as the
   * limit allows; under a sort they are in order, and every row the limit
   * cut off sorts at or after every row kept.
   */
  lemma ArrangeFacts(docs: seq<Doc>, sortKey: Option<(string, bool)>, limit: Option<int>)
    ensures var r := Arrange(docs, sortKey, limit);
      (forall i :: 0 <= i < |r| ==> r[i] in docs) &&
      (Distinct(docs) ==> Distinct(r)) &&
      |r| == (if limit.Some? && 0 < limit.value < |docs| then limit.value else |docs|) &&
      (sortKey.Some? ==> Sorting.Sorted(r, Order(sortKey.value.0, sortKey.value.1))) &&
      (sortKey.Some? ==> forall x :: x in docs && x !in r ==>
         forall i :: 0 <= i < |r| ==> Order(sortKey.value.0, sortKey.value.1)(r[i], x))
  {
    var sorted := docs;
    if sortKey.Some? {
      SortFacts(docs, sortKey.value.0, sortKey.value.1);
      sorted := Sorting.Sort(docs, Order(sortKey.value.0, sortKey.value.1));
    }
    var r := Arrange(docs, sortKey, limit);
    assert r == sorted[..|r|];
    assert forall i :: 0 <= i < |r| ==> r[i] == sorted[i];
    if sortKey.Some? {
      var le := Order(sortKey.value.0, sortKey.value.1);
      forall x | x in docs && x !in r ensures forall i :: 0 <= i < |r| ==> le(r[i], x) {
        var k :| 0 <= k < |sorted| && sorted[k] == x;
        assert k >= |r|;
      }
    }
  }

  // ---------------------------------------------------------------------
  // The classes

  class Collection {
    const name: string
    var rows: Rows

    ghost predicate Valid()
      reads this
    {
      Keyed(rows)
    }

    /** `CREATE TABLE IF NOT EXISTS`: an existing table keeps its rows. */
    constructor (name: string, existing: Rows)
      requires Keyed(existing)
      ensures Valid() && this.name == name && rows == existing
    {
      this.name := name;
      rows := existing;
    }

    method InsertOne(doc: Doc, token: string) returns (stored: Doc, insertedId: string)
      requires Valid() && IsTokenHex12(token)
      modifies this
      ensures Valid()
      ensures insertedId == AssignedId(doc, token) && stored == WithId(doc, token)
      ensures rows == old(rows)[insertedId := stored]
    {
      stored := doc;
      if "_id" !in stored {
        stored := stored["_id" := Str(token)];
      } else {
        stored := stored["_id" := Str(PyStr(stored["_id"]))];
      }
      insertedId := stored["_id"].s;
      rows := rows[insertedId := stored];
    }

    method InsertMany(docs: seq<Doc>, tokens: seq<string>) returns (stored: seq<Doc>, ids: seq<string>)
      requires Valid() && |tokens| == |docs| && forall i :: 0 <= i < |tokens| ==> IsTokenHex12(tokens[i])
      modifies this
      ensures Valid()
      ensures |stored| == |ids| == |docs|
      ensures forall i :: 0 <= i < |docs| ==> ids[i] == AssignedId(docs[i], tokens[i]) && stored[i] == WithId(docs[i], tokens[i])
      ensures rows == UpsertAll(old(rows), stored, ids)
    {
      ghost var allStored := seq(|docs|, j requires 0 <= j < |docs| => WithId(docs[j], tokens[j]));
      ghost var allIds := seq(|docs|, j requires 0 <= j < |docs| => AssignedId(docs[j], tokens[j]));
      stored, ids := [], [];
      for i := 0 to |docs|
        invariant stored == allStored[..i] && ids == allIds[..i]
        invariant Valid() && rows == UpsertAll(old(rows), stored, ids)
      {
        var doc := WithId(docs[i], tokens[i]);
        var docId := AssignedId(docs[i], tokens[i]);
        KeyedPut(rows, docId, doc);
        UpsertAllSnoc(old(rows), stored, ids, doc, docId);
        PrefixSnoc(allStored, i);
        PrefixSnoc(allIds, i);
        stored, ids := stored + [doc], ids + [docId];
        rows := rows[docId := doc];
      }
      assert allStored[..|docs|] == allStored && allIds[..|docs|] == allIds;
    }

    /** `find_one`: some matching row (LIMIT 1 without ORDER BY), or None. */
    method FindOne(f: Filter) returns (r: Option<Doc>)
      requires Valid()
      ensures Conditions(Dialect.FindOne, f).Ok?
      ensures r.None? <==> Matching(rows, Conditions(Dialect.FindOne, f).value) == {}
      ensures r.Some? ==> exists id :: id in Matching(rows, Conditions(Dialect.FindOne, f).value) && rows[id] == r.value
    {
      ConditionsShape(Dialect.FindOne, f);
      var cs := Conditions(Dialect.FindOne, f).value;
      if id :| id in rows && HoldsAll(cs, id, rows[id]) {
        assert id in Matching(rows, cs);
        return Some(rows[id]);
      }
      return None;
    }

    /** `find`: a fresh cursor over the translated query, with no sort and no limit. */
    method Find(f: Filter) returns (r: Result<Cursor, Fault>)
      ensures r.Ok? <==> Conditions(Dialect.FindMany, f).Ok?
      ensures r.Err? ==> r.error == Conditions(Dialect.FindMany, f).error
      ensures r.Ok? ==> (fresh(r.value) && r.value.coll == this &&
        r.value.conds == Conditions(Dialect.FindMany, f).value &&
        r.value.query == "SELECT doc FROM " + name + Where(Sqls(r.value.conds)) &&
        r.value.params == Params(r.value.conds) &&
        r.value.sortKey.None? && r.value.limit.None?)
    {
      var w := FindWhere(f);
      if w.Err? {
        return Err(w.error);
      }
      var conditions := w.value.0;
      var params := w.value.1;
      var query := "SELECT doc FROM " + name;
      if conditions != [] {
        query := query + " WHERE " + Join(conditions, " AND ");
      }
      assert query == "SELECT doc FROM " + name + Where(conditions);
      var c := new Cursor(this, query, params, Conditions(Dialect.FindMany, f).value);
      return Ok(c);
    }

    /**
     * `update_one`: None when nothing matches; otherwise one matching row is
     * fetched and the outcome is `UpdateOutcome` for it.
     */
    method UpdateOne(f: Filter, u: Update, now: string) returns (r: Result<Option<nat>, Fault>)
      requires Valid()
      modifies this
      ensures Valid()
      ensures Conditions(Dialect.FindOne, f).Ok?
      ensures Matching(old(rows), Conditions(Dialect.FindOne, f).value) == {} ==> r == Ok(None) && rows == old(rows)
      ensures Matching(old(rows), Conditions(Dialect.FindOne, f).value) != {} ==>
        exists id :: id in Matching(old(rows), Conditions(Dialect.FindOne, f).value) && UpdateOutcome(old(rows), id, u, now) == (r, rows)
    {
      ConditionsShape(Dialect.FindOne, f);
      var cs := Conditions(Dialect.FindOne, f).value;
      if id :| id in rows && HoldsAll(cs, id, rows[id]) {
        assert id in Matching(rows, cs);
        UpdateOutcomeFacts(rows, id, u, now);
        r, rows := UpdateRow(rows, id, u, now);
        return;
      }
      assert Matching(rows, cs) == {};
      return Ok(None);
    }

    method CountDocuments(f: Filter) returns (n: nat)
      requires Valid()
      ensures Conditions(Dialect.Count, f).Ok?
      ensures n == |Matching(rows, Conditions(Dialect.Count, f).value)|
    {
      ConditionsShape(Dialect.Count, f);
      var cs := Conditions(Dialect.Count, f).value;
      n := |set id | id in rows && HoldsAll(cs, id, rows[id])|;
    }

    method DeleteMany(f: Filter)
      requires Valid()
      modifies this
      ensures Valid()
      ensures Conditions(Dialect.DeleteMany, f).Ok?
      ensures rows == map id | id in old(rows) && id !in Matching(old(rows), Conditions(Dialect.DeleteMany, f).value) :: old(rows)[id]
    {
      ConditionsShape(Dialect.DeleteMany, f);
      var cs := Conditions(Dialect.DeleteMany, f).value;
      rows := map id | id in rows && !HoldsAll(cs, id, rows[id]) :: rows[id];
    }

    /**
     * `delete_one` as written: removes one matching row and reports 1; with
     * no match it reaches `DeleteResult(0)` outside the block that defines
     * that class, which raises `NameError`.
     */
    method DeleteOne(f: Filter) returns (r: Result<nat, Fault>)
      requires Valid()
      modifies this
      ensures Valid()
      ensures Conditions(Dialect.FindOne, f).Ok?
      ensures Matching(old(rows), Conditions(Dialect.FindOne, f).value) == {} ==> r == Err(NameError) && rows == old(rows)
      ensures Matching(old(rows), Conditions(Dialect.FindOne, f).value) != {} ==> (r == Ok(1) &&
        exists id :: id in Matching(old(rows), Conditions(Dialect.FindOne, f).value) && rows == old(rows) - {id})
    {
      var found := FindOne(f);
      if found.Some? {
        var docId := found.value["_id"].s;
        rows := rows - {docId};
        return Ok(1);
      }
      return Err(NameError);
    }

    /** `delete_one` as intended: a count of 0 when nothing matches. */
    method DeleteOneIntended(f: Filter) returns (deleted: nat)
      requires Valid()
      modifies this
      ensures Valid()
      ensures Conditions(Dialect.FindOne, f).Ok?
      ensures Matching(old(rows), Conditions(Dialect.FindOne, f).value) == {} ==> deleted == 0 && rows == old(rows)
      ensures Matching(old(rows), Conditions(Dialect.FindOne, f).value) != {} ==> (deleted == 1 &&
        exists id :: id in Matching(old(rows), Conditions(Dialect.FindOne, f).value) && rows == old(rows) - {id})
    {
      var found := FindOne(f);
      if found.Some? {
        var docId := found.value["_id"].s;
        rows := rows - {docId};
        return 1;
      }
      return 0;
    }
  }

  class Cursor {
    const coll: Collection
    const query: string
    const params: seq<string>
    const conds: seq<Cond>
    var sortKey: Option<(string, bool)>
    var limit: Option<int>

    constructor (coll: Collection, query: string, params: seq<string>, conds: seq<Cond>)
      ensures this.coll == coll && this.query == query && this.params == params && this.conds == conds
      ensures sortKey.None? && limit.None?
    {
      this.coll := coll;
      this.query := query;
      this.params := params;
      this.conds := conds;
      sortKey := None;
      limit := None;
    }

    /** `sort(key, direction)`: replaces any earlier sort; `direction == 1` is ascending. */
    method Sort(key: string, direction: Value) returns (self: Cursor)
      modifies this
      ensures self == this && sortKey == Some((key, PyEq(direction, Int(1)))) && limit == old(limit)
    {
      sortKey := Some((key, PyEq(direction, Int(1))));
      return this;
    }

    /** `limit(n)`, where `None` is the absent limit. */
    method Limit(n: Option<int>) returns (self: Cursor)
      modifies this
      ensures self == this && limit == n && sortKey == old(sortKey)
    {
      limit := n;
      return this;
    }

    /** The statement `_execute` sends: ORDER BY first, then LIMIT unless the limit is 0 or None. */
    function Sql(): (s: string)
      reads this
    {
      query
      + (if sortKey.Some? then " ORDER BY doc->>'" + sortKey.value.0 + "' " + (if sortKey.value.1 then "ASC" else "DESC") else "")
      + (if limit.Some? && limit.value != 0 then " LIMIT " + IntToString(limit.value) else "")
    }

    /** A positive LIMIT that applies. */
    predicate Limited()
      reads this
    {
      limit.Some? && limit.value > 0
    }

    /** The statement fails in the database: an empty `IN ()` list or a negative LIMIT. */
    predicate Fails()
      reads this
    {
      !Runnable(conds) || (limit.Some? && limit.value < 0)
    }

    /**
     * What one run of `_execute` may return against the table as it is now:
     * the matching rows, each once, ordered when a sort is set, cut to the
     * limit after ordering, every dropped row ordered after the kept ones.
     */
    ghost predicate Executed(docs: seq<Doc>)
      reads this, coll
    {
      var sel := Matching(coll.rows, conds);
      (forall i :: 0 <= i < |docs| ==> Picked(coll.rows, sel, docs[i])) &&
      Distinct(docs) &&
      |docs| == (if Limited() && limit.value < |sel| then limit.value else |sel|) &&
      (sortKey.Some? ==> Sorting.Sorted(docs, Order(sortKey.value.0, sortKey.value.1))) &&
      (sortKey.Some? ==> forall id :: id in sel && coll.rows[id] !in docs ==>
        forall i :: 0 <= i < |docs| ==> Order(sortKey.value.0, sortKey.value.1)(docs[i], coll.rows[id]))
    }

    /** `_execute`: the rows `Executed` describes, or a database error. */
    method Execute() returns (r: Result<seq<Doc>, Fault>)
      requires coll.Valid()
      ensures r.Err? <==> Fails()
      ensures r.Err? ==> r.error == SqlError
      ensures r.Ok? ==> Executed(r.value)
    {
      if !Runnable(conds) || (limit.Some? && limit.value < 0) {
        return Err(SqlError);
      }
      var sel := set id | id in coll.rows && HoldsAll(conds, id, coll.rows[id]);
      assert sel == Matching(coll.rows, conds);
      var docs := Select(coll.rows, sel);
      ArrangeFacts(docs, sortKey, limit);
      var result := Arrange(docs, sortKey, limit);
      KeptRowsSelected(coll.rows, sel, docs, result);
      return Ok(result);
    }

    /**
     * `cursor[index]`: re-executes, then Python indexing into the rows that
     * run returned (`rows`), a negative index counting from the end.
     */
    method Get(index: int) returns (r: Result<Doc, Fault>, ghost rows: seq<Doc>)
      requires coll.Valid()
      ensures r == Err(SqlError) <==> Fails()
      ensures r.Err? ==> r.error == SqlError || r.error == IndexError
      ensures !Fails() ==> Executed(rows)
      ensures !Fails() ==> (r == Err(IndexError) <==> !(-|rows| <= index < |rows|))
      ensures r.Ok? ==> -|rows| <= index < |rows| && r.value == rows[if index < 0 then |rows| + index else index]
    {
      var docs := Execute();
      if docs.Err? {
        return Err(docs.error), [];
      }
      rows := docs.value;
      var n := |docs.value|;
      if -n <= index < 0 {
        return Ok(docs.value[n + index]), rows;
      } else if 0 <= index < n {
        return Ok(docs.value[index]), rows;
      }
      return Err(IndexError), rows;
    }
  }
}
