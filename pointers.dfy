/** The list of touching pointers the scene keeps for pinch-to-zoom. */
module Pointers {

  /** A snapshot of a Phaser pointer: its id and its screen position. */
  datatype Pointer = Pointer(id: int, x: real, y: real)

  /** What is left of the touch list when the pointer `id` is released: the entries
      with any other id, in their order. */
  function WithoutId(pointers: seq<Pointer>, id: int): (r: seq<Pointer>)
    ensures |r| <= |pointers|
    ensures forall k :: 0 <= k < |r| ==> r[k].id != id
    ensures forall q :: q in r <==> q in pointers && q.id != id
  {
    if pointers == [] then []
    else (if pointers[0].id != id then [pointers[0]] else []) + WithoutId(pointers[1..], id)
  }

  /** Filtering a concatenation filters each part and keeps them in their order, so
      the entries that stay keep their original order. */
  lemma {:induction false} WithoutIdAppend(a: seq<Pointer>, b: seq<Pointer>, id: int)
    ensures WithoutId(a + b, id) == WithoutId(a, id) + WithoutId(b, id)
  {
    if a != [] {
      assert (a + b)[1..] == a[1..] + b;
      WithoutIdAppend(a[1..], b, id);
    } else {
      assert a + b == b;
    }
  }

  /** Releasing a pointer that is not in the list leaves the list as it was. */
  lemma {:induction false} WithoutIdAbsent(pointers: seq<Pointer>, id: int)
    requires forall k :: 0 <= k < |pointers| ==> pointers[k].id != id
    ensures WithoutId(pointers, id) == pointers
  {
    if pointers != [] {
      WithoutIdAbsent(pointers[1..], id);
    }
  }

  /** Releasing the same pointer twice is the same as releasing it once. */
  lemma WithoutIdIdempotent(pointers: seq<Pointer>, id: int)
    ensures WithoutId(WithoutId(pointers, id), id) == WithoutId(pointers, id)
  {
    WithoutIdAbsent(WithoutId(pointers, id), id);
  }

  /** Pressing a pointer and releasing it removes it together with every earlier
      entry of the same id, and nothing else. */
  lemma PressThenRelease(pointers: seq<Pointer>, p: Pointer)
    ensures WithoutId(pointers + [p], p.id) == WithoutId(pointers, p.id)
  {
    WithoutIdAppend(pointers, [p], p.id);
    assert WithoutId([p], p.id) == [];
  }
}
