/** The two list operations both caches apply to their `items` by id: the
  * first-match search of `find`/`findIndex(i => i.id === id)` and the
  * `filter(item => item.id !== id)` of the delete reducers. Either callback
  * throws on a null or undefined element, and a reducer that throws leaves
  * the store's state as it was. */
module IdLists {
  import opened JsValues

  /** `item.id === id` for an element whose `id` can be read. */
  function Matches(item: Value, id: Value): (b: bool)
    ensures b <==> !Nullish(item) && GetOpt(item, "id") == id && !id.Arr? && !id.Obj?
  {
    !Nullish(item) && StrictEquals(GetOpt(item, "id"), id)
  }

  /** Every element of `items` has an `id` that can be read. */
  predicate Readable(items: seq<Value>)
  {
    forall j :: 0 <= j < |items| ==> !Nullish(items[j])
  }

  /** How a search by id ends: at an index, past the end, or with a TypeError. */
  datatype Search = Found(index: nat) | NotFound | Threw

  /** `items.findIndex(i => i.id === id)`: the first index whose id matches,
    * when no null or undefined element comes before it. */
  function FindById(items: seq<Value>, id: Value): (r: Search)
    ensures r.Found? ==>
      && r.index < |items| && Matches(items[r.index], id)
      && forall j :: 0 <= j < r.index ==> !Nullish(items[j]) && !Matches(items[j], id)
    ensures r.NotFound? ==> forall j :: 0 <= j < |items| ==> !Nullish(items[j]) && !Matches(items[j], id)
    ensures r.Threw? ==>
      exists k :: 0 <= k < |items| && Nullish(items[k]) && (forall j :: 0 <= j < k ==> !Matches(items[j], id))
  {
    if items == [] then NotFound
    else if Nullish(items[0]) then Threw
    else if Matches(items[0], id) then Found(0)
    else
      match FindById(items[1..], id)
      case Found(i) => Found(i + 1)
      case NotFound => NotFound
      case Threw =>
        var k :| 0 <= k < |items[1..]| && Nullish(items[1..][k]) &&
          (forall j :: 0 <= j < k ==> !Matches(items[1..][j], id));
        assert Nullish(items[k + 1]);
        Threw
  }

  /** The loop `findIndex` runs. */
  method FindIndex(items: seq<Value>, id: Value) returns (r: Search)
    ensures r == FindById(items, id)
  {
    var i := 0;
    while i < |items|
      invariant 0 <= i <= |items|
      invariant forall j :: 0 <= j < i ==> !Nullish(items[j]) && !Matches(items[j], id)
    {
      if Nullish(items[i]) {
        return Threw;
      }
      if Matches(items[i], id) {
        return Found(i);
      }
      i := i + 1;
    }
    return NotFound;
  }

  /** The elements of `items` whose id is not `id`, in their order. */
  function WithoutId(items: seq<Value>, id: Value): (r: seq<Value>)
    ensures |r| <= |items|
    ensures forall j :: 0 <= j < |r| ==> r[j] in items && !Matches(r[j], id)
    ensures forall j :: 0 <= j < |items| && !Matches(items[j], id) ==> items[j] in r
  {
    if items == [] then []
    else if Matches(items[0], id) then WithoutId(items[1..], id)
    else [items[0]] + WithoutId(items[1..], id)
  }

  /** The list after `items.filter(item => item.id !== id)`; the list as it
    * was when a null or undefined element makes the callback throw. */
  function Deleted(items: seq<Value>, id: Value): (r: seq<Value>)
    ensures |r| <= |items|
    ensures forall j :: 0 <= j < |r| ==> r[j] in items
    ensures Readable(items) ==> forall j :: 0 <= j < |r| ==> !Matches(r[j], id)
    ensures !Readable(items) ==> r == items
  {
    if Readable(items) then WithoutId(items, id) else items
  }

  /** Filtering works element by element: the survivors keep their order. */
  lemma {:induction false} WithoutIdAppend(a: seq<Value>, b: seq<Value>, id: Value)
    ensures WithoutId(a + b, id) == WithoutId(a, id) + WithoutId(b, id)
  {
    if a == [] {
      assert a + b == b;
    } else {
      assert (a + b)[1..] == a[1..] + b;
      WithoutIdAppend(a[1..], b, id);
    }
  }

  /** Nothing to remove leaves the list as it was. */
  lemma {:induction false} WithoutAbsentId(items: seq<Value>, id: Value)
    requires forall j :: 0 <= j < |items| ==> !Matches(items[j], id)
    ensures WithoutId(items, id) == items
  {
    if items != [] {
      WithoutAbsentId(items[1..], id);
    }
  }

  /** One more readable element extends the filtered prefix by itself when it
    * does not match, and by nothing when it does. */
  lemma FilterStep(items: seq<Value>, i: nat, id: Value)
    requires i < |items| && !Nullish(items[i]) && Readable(items[..i])
    ensures Readable(items[..i + 1])
    ensures WithoutId(items[..i + 1], id) ==
      WithoutId(items[..i], id) + (if Matches(items[i], id) then [] else [items[i]])
  {
    assert items[..i + 1] == items[..i] + [items[i]];
    WithoutIdAppend(items[..i], [items[i]], id);
    assert [items[i]][1..] == [];
  }

  /** A null or undefined element anywhere makes delete return the list as it was. */
  lemma DeletedWhenThrows(items: seq<Value>, i: nat, id: Value)
    requires i < |items| && Nullish(items[i])
    ensures Deleted(items, id) == items
  {
    assert !Readable(items);
  }

  /** The loop `filter` runs. */
  method FilterById(items: seq<Value>, id: Value) returns (r: seq<Value>)
    ensures r == Deleted(items, id)
  {
    var kept := [];
    var i := 0;
    while i < |items|
      invariant 0 <= i <= |items|
      invariant Readable(items[..i])
      invariant kept == WithoutId(items[..i], id)
    {
      if Nullish(items[i]) {
        DeletedWhenThrows(items, i, id);
        return items;
      }
      FilterStep(items, i, id);
      if !Matches(items[i], id) {
        kept := kept + [items[i]];
      }
      i := i + 1;
    }
    assert items[..i] == items;
    return kept;
  }

  /** Delete removes every element with the id and keeps every other one. */
  lemma DeletedRemovesExactly(items: seq<Value>, id: Value)
    requires Readable(items)
    ensures forall x :: x in Deleted(items, id) ==> x in items && !Matches(x, id)
    ensures forall x :: x in items && !Matches(x, id) ==> x in Deleted(items, id)
  {
    var r := Deleted(items, id);
    forall x | x in r ensures x in items && !Matches(x, id) {
      var j :| 0 <= j < |r| && r[j] == x;
    }
    forall x | x in items && !Matches(x, id) ensures x in r {
      var j :| 0 <= j < |items| && items[j] == x;
    }
  }

  /** Deleting an id that no element carries changes nothing. */
  lemma DeletedAbsent(items: seq<Value>, id: Value)
    requires forall j :: 0 <= j < |items| ==> !Matches(items[j], id)
    ensures Deleted(items, id) == items
  {
    if Readable(items) {
      WithoutAbsentId(items, id);
    }
  }

  /** Deleting the same id twice is deleting it once. */
  lemma DeletedIdempotent(items: seq<Value>, id: Value)
    ensures Deleted(Deleted(items, id), id) == Deleted(items, id)
  {
    if Readable(items) {
      var r := WithoutId(items, id);
      assert Readable(r) by {
        forall j | 0 <= j < |r| ensures !Nullish(r[j]) {
          var k :| 0 <= k < |items| && items[k] == r[j];
        }
      }
      WithoutAbsentId(r, id);
    }
  }

  /** Appending an element that matches `id` and then deleting `id` gives back
    * a readable list in which nothing matched `id`. */
  lemma DeleteAppendedMatch(items: seq<Value>, x: Value, id: Value)
    requires Matches(x, id)
    requires Readable(items)
    requires forall j :: 0 <= j < |items| ==> !Matches(items[j], id)
    ensures Deleted(items + [x], id) == items
  {
    assert Readable(items + [x]) by {
      forall j | 0 <= j < |items + [x]| ensures !Nullish((items + [x])[j]) {
        if j < |items| {
          assert (items + [x])[j] == items[j];
        }
      }
    }
    DeletedKeepsOrder(items, [x], id);
    DeletedAbsent(items, id);
    assert [x][1..] == [];
    assert items + [] == items;
  }

  /** Delete keeps the survivors of a prefix ahead of the survivors of the rest. */
  lemma DeletedKeepsOrder(a: seq<Value>, b: seq<Value>, id: Value)
    requires Readable(a + b)
    ensures Deleted(a + b, id) == Deleted(a, id) + Deleted(b, id)
  {
    assert Readable(a) by {
      forall j | 0 <= j < |a| ensures !Nullish(a[j]) {
        assert a[j] == (a + b)[j];
      }
    }
    assert Readable(b) by {
      forall j | 0 <= j < |b| ensures !Nullish(b[j]) {
        assert b[j] == (a + b)[|a| + j];
      }
    }
    WithoutIdAppend(a, b, id);
  }
}
