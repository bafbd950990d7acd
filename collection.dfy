/** Id-keyed lists of records: the three operations that the task, project and user
    slices and the mock services apply to their lists — find the first record with an id,
    drop every record with an id, and merge a patch into every record with the patch's id. */
module Collection {
  import opened JsValues

  /** The three entity kinds that share this collection logic. */
  datatype EntityKind = Tasks | Projects | Users

  /** `x.id` */
  function IdOf(o: Object): Value {
    Get(o, "id")
  }

  /** `items.findIndex(x => x.id === id)`: the first index whose record has `id`, or -1. */
  function FindIndex(items: seq<Object>, id: Value): (i: int)
    ensures -1 <= i < |items|
    ensures i == -1 <==> forall j :: 0 <= j < |items| ==> IdOf(items[j]) != id
    ensures i != -1 ==> IdOf(items[i]) == id && forall j :: 0 <= j < i ==> IdOf(items[j]) != id
    decreases |items|
  {
    if |items| == 0 then -1
    else if IdOf(items[0]) == id then 0
    else
      var k := FindIndex(items[1..], id);
      if k == -1 then -1 else k + 1
  }

  /** `items.filter(keep)`: the records that satisfy `keep`, in their original order. */
  function Filter(items: seq<Object>, keep: Object -> bool): (r: seq<Object>)
    ensures |r| == Count(items, keep)
    ensures forall x :: x in r <==> x in items && keep(x)
    decreases |items|
  {
    if items == [] then []
    else (if keep(items[0]) then [items[0]] else []) + Filter(items[1..], keep)
  }

  /** The number of records in `items` that satisfy `p`. */
  function Count(items: seq<Object>, p: Object -> bool): nat
    decreases |items|
  {
    if items == [] then 0
    else (if p(items[0]) then 1 else 0) + Count(items[1..], p)
  }

  /** `x => x.id === id` */
  function HasId(id: Value): Object -> bool {
    x => IdOf(x) == id
  }

  /** `items.filter(x => x.id !== id)` */
  function Without(items: seq<Object>, id: Value): seq<Object> {
    Filter(items, x => IdOf(x) != id)
  }

  /** `items.map(x => x.id === patch.id ? { ...x, ...patch } : x)` */
  function MergeMatching(items: seq<Object>, patch: Object): (r: seq<Object>)
    ensures |r| == |items|
    ensures forall j :: 0 <= j < |items| && IdOf(items[j]) != IdOf(patch) ==> r[j] == items[j]
    ensures forall j :: 0 <= j < |items| && IdOf(items[j]) == IdOf(patch) ==>
      r[j].Keys == items[j].Keys + patch.Keys
      && IdOf(r[j]) == IdOf(items[j])
      && (forall k :: k in patch ==> r[j][k] == patch[k])
      && (forall k :: k in items[j] && k !in patch ==> r[j][k] == items[j][k])
  {
    seq(|items|, j requires 0 <= j < |items| =>
      if IdOf(items[j]) == IdOf(patch) then Spread(items[j], patch) else items[j])
  }

  /** Filtering distributes over concatenation: the records kept from `a + b` are those
      kept from `a` followed by those kept from `b`, so the relative order is preserved. */
  lemma {:induction false} FilterAppend(a: seq<Object>, b: seq<Object>, keep: Object -> bool)
    ensures Filter(a + b, keep) == Filter(a, keep) + Filter(b, keep)
    decreases |a|
  {
    if a == [] {
      assert a + b == b;
    } else {
      var head := if keep(a[0]) then [a[0]] else [];
      assert (a + b)[0] == a[0];
      assert (a + b)[1..] == a[1..] + b;
      FilterAppend(a[1..], b, keep);
      calc {
        Filter(a + b, keep);
        head + Filter(a[1..] + b, keep);
        head + (Filter(a[1..], keep) + Filter(b, keep));
        (head + Filter(a[1..], keep)) + Filter(b, keep);
        Filter(a, keep) + Filter(b, keep);
      }
    }
  }

  /** Every kept record survives with its multiplicity; no other record does. */
  lemma {:induction false} FilterMultiset(items: seq<Object>, keep: Object -> bool, x: Object)
    ensures multiset(Filter(items, keep))[x] == if keep(x) then multiset(items)[x] else 0
    decreases |items|
  {
    if items != [] {
      FilterMultiset(items[1..], keep, x);
      assert items == [items[0]] + items[1..];
    }
  }

  /** A filter that keeps every record returns the list unchanged. */
  lemma {:induction false} FilterKeepsAll(items: seq<Object>, keep: Object -> bool)
    requires forall j :: 0 <= j < |items| ==> keep(items[j])
    ensures Filter(items, keep) == items
    decreases |items|
  {
    if items != [] {
      FilterKeepsAll(items[1..], keep);
    }
  }

  /** Appending one record adds what that record contributes to the count. */
  lemma {:induction false} CountAppend(items: seq<Object>, x: Object, p: Object -> bool)
    ensures Count(items + [x], p) == Count(items, p) + (if p(x) then 1 else 0)
    decreases |items|
  {
    if items == [] {
      assert items + [x] == [x];
    } else {
      assert (items + [x])[1..] == items[1..] + [x];
      CountAppend(items[1..], x, p);
    }
  }

  /** A condition no record satisfies counts nothing. */
  /** No more records satisfy `p` than there are records, and all of them do exactly when
      the count reaches the length. */
  lemma {:induction false} CountAll(items: seq<Object>, p: Object -> bool)
    ensures Count(items, p) <= |items|
    ensures Count(items, p) == |items| <==> forall j :: 0 <= j < |items| ==> p(items[j])
    decreases |items|
  {
    if items != [] {
      CountAll(items[1..], p);
      assert forall j :: 1 <= j < |items| ==> items[j] == items[1..][j - 1];
    }
  }

  lemma {:induction false} CountNone(items: seq<Object>, p: Object -> bool)
    requires forall j :: 0 <= j < |items| ==> !p(items[j])
    ensures Count(items, p) == 0
    decreases |items|
  {
    if items != [] {
      CountNone(items[1..], p);
    }
  }

  /** Two conditions that agree on every record count the same records. */
  lemma {:induction false} CountSame(items: seq<Object>, p: Object -> bool, q: Object -> bool)
    requires forall j :: 0 <= j < |items| ==> p(items[j]) == q(items[j])
    ensures Count(items, p) == Count(items, q)
    decreases |items|
  {
    if items != [] {
      CountSame(items[1..], p, q);
    }
  }

  /** Replacing one record changes the count by what the old and new record contribute. */
  lemma {:induction false} CountUpdate(items: seq<Object>, i: int, x: Object, p: Object -> bool)
    requires 0 <= i < |items|
    ensures Count(items[i := x], p) == Count(items, p) - (if p(items[i]) then 1 else 0) + (if p(x) then 1 else 0)
    decreases |items|
  {
    if i == 0 {
      assert items[i := x][1..] == items[1..];
    } else {
      CountUpdate(items[1..], i - 1, x, p);
      assert items[i := x][1..] == items[1..][i - 1 := x];
    }
  }

  /** Records satisfying `p` and records satisfying its negation add up to all records. */
  lemma {:induction false} CountComplement(items: seq<Object>, p: Object -> bool, q: Object -> bool)
    requires forall x :: q(x) == !p(x)
    ensures Count(items, p) + Count(items, q) == |items|
    decreases |items|
  {
    if items != [] {
      CountComplement(items[1..], p, q);
    }
  }

  /** A delete removes exactly the records carrying the id, and leaves the list as it was
      when none does; with ids unique, as the data is meant to be, it removes one record. */
  lemma WithoutCount(items: seq<Object>, id: Value)
    ensures |Without(items, id)| == |items| - Count(items, HasId(id))
    ensures FindIndex(items, id) == -1 ==> Without(items, id) == items
  {
    CountComplement(items, HasId(id), x => IdOf(x) != id);
    if FindIndex(items, id) == -1 {
      FilterKeepsAll(items, x => IdOf(x) != id);
    }
  }

  /** When at most one record carries an id, the first record with it is the only one. */
  lemma {:induction false} OnlyMatch(items: seq<Object>, id: Value, j: int)
    requires Count(items, HasId(id)) <= 1
    requires 0 <= j < |items| && IdOf(items[j]) == id
    ensures j == FindIndex(items, id)
    decreases |items|
  {
    if j > 0 {
      assert items[1..][j - 1] == items[j];
      assert items[j] in Filter(items[1..], HasId(id));
      if IdOf(items[0]) != id {
        OnlyMatch(items[1..], id, j - 1);
      }
    }
  }

  /** With ids unique, merging a patch that carries every field of its record is the same
      as putting the patch in that record's place. */
  lemma MergeUnique(items: seq<Object>, patch: Object)
    requires Count(items, HasId(IdOf(patch))) <= 1
    requires FindIndex(items, IdOf(patch)) != -1 ==> items[FindIndex(items, IdOf(patch))].Keys <= patch.Keys
    ensures FindIndex(items, IdOf(patch)) != -1 ==>
      MergeMatching(items, patch) == items[FindIndex(items, IdOf(patch)) := patch]
  {
    var i := FindIndex(items, IdOf(patch));
    if i != -1 {
      var r := MergeMatching(items, patch);
      forall j | 0 <= j < |items|
        ensures r[j] == items[i := patch][j]
      {
        if IdOf(items[j]) == IdOf(patch) {
          OnlyMatch(items, IdOf(patch), j);
          SpreadOverWhole(items[j], patch);
        }
      }
    }
  }

  /** Spreading a patch that carries every field of the record yields the patch. */
  lemma SpreadOverWhole(record: Object, patch: Object)
    requires record.Keys <= patch.Keys
    ensures Spread(record, patch) == patch
  {
  }

  /** A patch whose id no record carries leaves the list as it was. */
  lemma MergeAbsent(items: seq<Object>, patch: Object)
    requires FindIndex(items, IdOf(patch)) == -1
    ensures MergeMatching(items, patch) == items
  {
  }
}
