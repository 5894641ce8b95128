/** Lookups and removals by id over a list of records, as the storage
    helpers write them with `find`, `findIndex` and `filter` on `p.id`.
    The record type is generic; `idOf` reads its id. */
module ById {
  import opened Js

  /** `k` is the first position whose record has the id. */
  predicate IsFirst<T>(xs: seq<T>, idOf: T -> string, id: string, k: int)
  {
    0 <= k < |xs| && idOf(xs[k]) == id && forall j :: 0 <= j < k ==> idOf(xs[j]) != id
  }

  /** `xs.findIndex((p) => p.id === id)`: the first match, or -1. */
  function FindIndex<T>(xs: seq<T>, idOf: T -> string, id: string): (r: int)
    ensures r == -1 <==> forall j :: 0 <= j < |xs| ==> idOf(xs[j]) != id
    ensures r != -1 ==> IsFirst(xs, idOf, id, r)
    decreases |xs|
  {
    if |xs| == 0 then -1
    else if idOf(xs[0]) == id then 0
    else
      var k := FindIndex(xs[1..], idOf, id);
      assert forall j :: 1 <= j < |xs| ==> xs[j] == xs[1..][j - 1];
      if k == -1 then -1 else k + 1
  }

  /** `xs.find((p) => p.id === id)`: the first match, or `undefined`. */
  function Find<T>(xs: seq<T>, idOf: T -> string, id: string): (r: Option<T>)
    ensures r.None? <==> forall j :: 0 <= j < |xs| ==> idOf(xs[j]) != id
    ensures r.Some? ==> exists k :: IsFirst(xs, idOf, id, k) && xs[k] == r.value
  {
    var k := FindIndex(xs, idOf, id);
    if k == -1 then None else Some(xs[k])
  }

  /** `xs.filter((p) => p.id !== id)`. */
  function Without<T>(xs: seq<T>, idOf: T -> string, id: string): (r: seq<T>)
    ensures |r| <= |xs|
    ensures forall j :: 0 <= j < |r| ==> r[j] in xs && idOf(r[j]) != id
    ensures forall j :: 0 <= j < |xs| && idOf(xs[j]) != id ==> xs[j] in r
    decreases |xs|
  {
    if |xs| == 0 then []
    else
      var rest := Without(xs[1..], idOf, id);
      assert forall j :: 1 <= j < |xs| ==> xs[j] == xs[1..][j - 1];
      if idOf(xs[0]) != id then [xs[0]] + rest else rest
  }

  /** Filtering distributes over concatenation, so the records that stay
      keep their relative order. */
  lemma {:induction false} WithoutAppend<T>(a: seq<T>, b: seq<T>, idOf: T -> string, id: string)
    ensures Without(a + b, idOf, id) == Without(a, idOf, id) + Without(b, idOf, id)
    decreases |a|
  {
    if |a| > 0 {
      assert (a + b)[1..] == a[1..] + b;
      WithoutAppend(a[1..], b, idOf, id);
    } else {
      assert a + b == b;
    }
  }

  /** Nothing to remove leaves the list as it was. */
  lemma {:induction false} WithoutAbsent<T>(xs: seq<T>, idOf: T -> string, id: string)
    requires forall j :: 0 <= j < |xs| ==> idOf(xs[j]) != id
    ensures Without(xs, idOf, id) == xs
    decreases |xs|
  {
    if |xs| > 0 {
      WithoutAbsent(xs[1..], idOf, id);
      assert [xs[0]] + xs[1..] == xs;
    }
  }

  /** After a removal no record with the id is left to find. */
  lemma WithoutThenFind<T>(xs: seq<T>, idOf: T -> string, id: string)
    ensures Find(Without(xs, idOf, id), idOf, id).None?
  {
    var r := Without(xs, idOf, id);
  }
}
