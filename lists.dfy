/** The list synchronisation every screen applies to its local copy after a
    successful mutation: `filter` out on delete, `map`-replace on update (append
    on create is plain concatenation). Entities are identified by their `_id`,
    read through `key`. */
module Lists {

  /** `xs.filter(x => key(x) !== id)`: no survivor carries id `id`. */
  function RemoveById<T>(xs: seq<T>, id: string, key: T -> string): (r: seq<T>)
    ensures |r| <= |xs|
    ensures forall i :: 0 <= i < |r| ==> key(r[i]) != id
  {
    if xs == [] then []
    else (if key(xs[0]) == id then [] else [xs[0]]) + RemoveById(xs[1..], id, key)
  }

  /** Every entity whose id is `id` is gone and every other one keeps its
      number of occurrences. */
  lemma {:induction false} RemoveByIdCounts<T(!new)>(xs: seq<T>, id: string, key: T -> string)
    ensures forall x :: multiset(RemoveById(xs, id, key))[x] == if key(x) == id then 0 else multiset(xs)[x]
  {
    if xs != [] {
      assert xs == [xs[0]] + xs[1..];
      RemoveByIdCounts(xs[1..], id, key);
    }
  }

  /** Filtering commutes with concatenation, so the survivors keep the order
      they had in the original list. */
  lemma {:induction false} RemoveByIdAppend<T(!new)>(a: seq<T>, b: seq<T>, id: string, key: T -> string)
    ensures RemoveById(a + b, id, key) == RemoveById(a, id, key) + RemoveById(b, id, key)
  {
    if a == [] {
      assert a + b == b;
    } else {
      assert (a + b)[0] == a[0];
      assert (a + b)[1..] == a[1..] + b;
      RemoveByIdAppend(a[1..], b, id, key);
    }
  }

  /** A list holding no entity with that id is left exactly as it was. */
  lemma {:induction false} RemoveByIdAbsent<T(!new)>(xs: seq<T>, id: string, key: T -> string)
    requires forall i :: 0 <= i < |xs| ==> key(xs[i]) != id
    ensures RemoveById(xs, id, key) == xs
  {
    if xs != [] {
      RemoveByIdAbsent(xs[1..], id, key);
      assert xs == [xs[0]] + xs[1..];
    }
  }

  /** What survives a delete carries other ids only, so deleting the same id
      a second time changes nothing. */
  lemma {:induction false} RemoveByIdIdempotent<T(!new)>(xs: seq<T>, id: string, key: T -> string)
    ensures RemoveById(RemoveById(xs, id, key), id, key) == RemoveById(xs, id, key)
  {
    RemoveByIdAbsent(RemoveById(xs, id, key), id, key);
  }

  /** `xs.map(x => key(x) === id ? v : x)`: same length, exactly the positions
      holding id `id` now hold `v`, every other position is untouched. */
  function ReplaceById<T>(xs: seq<T>, id: string, v: T, key: T -> string): (r: seq<T>)
    ensures |r| == |xs|
    ensures forall i :: 0 <= i < |xs| ==> r[i] == if key(xs[i]) == id then v else xs[i]
  {
    if xs == [] then []
    else [if key(xs[0]) == id then v else xs[0]] + ReplaceById(xs[1..], id, v, key)
  }

  /** A list holding no entity with that id is left exactly as it was. */
  lemma ReplaceByIdAbsent<T>(xs: seq<T>, id: string, v: T, key: T -> string)
    requires forall i :: 0 <= i < |xs| ==> key(xs[i]) != id
    ensures ReplaceById(xs, id, v, key) == xs
  {
  }

  /** When the replacement still carries the id it replaced, repeating the
      edit changes nothing more. */
  lemma ReplaceByIdIdempotent<T>(xs: seq<T>, id: string, v: T, key: T -> string)
    requires key(v) == id
    ensures ReplaceById(ReplaceById(xs, id, v, key), id, v, key) == ReplaceById(xs, id, v, key)
  {
  }

  /** An edit that keeps the id touches nothing but the edited entity: deleting
      that id afterwards leaves what deleting it before would have left. */
  lemma {:induction false} ReplaceThenRemove<T(!new)>(xs: seq<T>, id: string, v: T, key: T -> string)
    requires key(v) == id
    ensures RemoveById(ReplaceById(xs, id, v, key), id, key) == RemoveById(xs, id, key)
  {
    if xs != [] {
      var r := ReplaceById(xs, id, v, key);
      assert r[1..] == ReplaceById(xs[1..], id, v, key);
      ReplaceThenRemove(xs[1..], id, v, key);
    }
  }
}
