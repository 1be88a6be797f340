/** The list operations the Redux reducers apply to their tables of server
    records: replacing the records that carry an id, and filtering them out. */
module Records {
  import opened Common

  /** A record as the API returns it: its id and the rest of its fields. */
  datatype Record = Record(id: Id, fields: map<string, string>)

  /** `items.map(x => x.id === updated.id ? updated : x)`. */
  function ReplaceById(items: seq<Record>, updated: Record): (r: seq<Record>)
    ensures |r| == |items|
    ensures forall i :: 0 <= i < |items| && items[i].id == updated.id ==> r[i] == updated
    ensures forall i :: 0 <= i < |items| && items[i].id != updated.id ==> r[i] == items[i]
    decreases |items|
  {
    if items == [] then []
    else [if items[0].id == updated.id then updated else items[0]] + ReplaceById(items[1..], updated)
  }

  /** `items.filter(x => x.id !== id)`. */
  function RemoveById(items: seq<Record>, id: Id): (r: seq<Record>)
    ensures |r| <= |items|
    ensures forall x :: x in r <==> x in items && x.id != id
    decreases |items|
  {
    if items == [] then []
    else (if items[0].id == id then [] else [items[0]]) + RemoveById(items[1..], id)
  }

  /** A selected record after `updated` arrives: `current && current.id === updated.id`
      decides whether it is replaced. */
  function RefreshIfSameId(current: Option<Record>, updated: Record): Option<Record> {
    if current.Some? && current.value.id == updated.id then Some(updated) else current
  }

  /** A selected record after record `id` is deleted: cleared only when it is that record. */
  function ClearIfSameId(current: Option<Record>, id: Id): Option<Record> {
    if current.Some? && current.value.id == id then None else current
  }

  /** Number of records that carry `id`. */
  function CountId(items: seq<Record>, id: Id): nat
    decreases |items|
  {
    if items == [] then 0 else (if items[0].id == id then 1 else 0) + CountId(items[1..], id)
  }

  /** Filtering keeps the order of the records it keeps: it distributes over concatenation. */
  lemma {:induction false} RemoveByIdAppend(a: seq<Record>, b: seq<Record>, id: Id)
    ensures RemoveById(a + b, id) == RemoveById(a, id) + RemoveById(b, id)
    decreases |a|
  {
    if a == [] {
      assert a + b == b;
    } else {
      var ab := a + b;
      assert ab[0] == a[0] && ab[1..] == a[1..] + b;
      RemoveByIdAppend(a[1..], b, id);
    }
  }

  /** Filtering drops exactly the records that carry the id. */
  lemma {:induction false} RemoveByIdLength(items: seq<Record>, id: Id)
    ensures |RemoveById(items, id)| == |items| - CountId(items, id)
    decreases |items|
  {
    if items != [] {
      RemoveByIdLength(items[1..], id);
    }
  }

  /** When no record carries the id, filtering leaves the table as it was. */
  lemma {:induction false} RemoveByIdAbsent(items: seq<Record>, id: Id)
    requires forall x :: x in items ==> x.id != id
    ensures RemoveById(items, id) == items
    decreases |items|
  {
    if items != [] {
      assert items[0] in items;
      assert forall x :: x in items[1..] ==> x in items;
      RemoveByIdAbsent(items[1..], id);
    }
  }

  /** Replacing twice with the same record is replacing once. */
  lemma ReplaceByIdIdempotent(items: seq<Record>, updated: Record)
    ensures ReplaceById(ReplaceById(items, updated), updated) == ReplaceById(items, updated)
  {
  }

  /** After a replacement, the updated record is in the table exactly when some
      record carried its id. */
  lemma ReplaceByIdContains(items: seq<Record>, updated: Record)
    ensures updated in ReplaceById(items, updated) <==> updated in items || exists x :: x in items && x.id == updated.id
  {
    var r := ReplaceById(items, updated);
    if updated in r {
      var i :| 0 <= i < |r| && r[i] == updated;
      assert items[i] in items;
    }
    if exists x :: x in items && x.id == updated.id {
      var x :| x in items && x.id == updated.id;
      var i :| 0 <= i < |items| && items[i] == x;
      assert r[i] == updated;
    }
  }
}
