/**
 * JavaScript arrays with holes. An array is its `length` and the indices that
 * actually hold an element; `new Array(n)` holds none, and assigning to index
 * i adds it and stretches `length` to at least i + 1. `Array.prototype.flat`
 * (FlattenIntoArray, ECMA-262 2023 section 23.1.3.13.1) visits indices
 * 0 .. length - 1 and skips those that hold nothing.
 */
module JsArray {

  datatype Sparse<T> = Sparse(length: nat, elems: map<nat, T>) {
    /** Every present index lies below `length`, as in any JavaScript array. */
    ghost predicate Valid() {
      forall i :: i in elems ==> i < length
    }
  }

  function Max(a: int, b: int): int {
    if a < b then b else a
  }

  /** `new Array(n)`: length n, no element present. */
  function Allocate<T>(n: nat): (a: Sparse<T>)
    ensures a.Valid()
  {
    Sparse(n, map[])
  }

  /** `a[i] = v`. */
  function Put<T>(a: Sparse<T>, i: nat, v: T): (a': Sparse<T>)
    requires a.Valid()
    ensures a'.Valid()
    ensures a'.length == Max(a.length, i + 1)
    ensures a'.elems.Keys == a.elems.Keys + {i} && a'.elems[i] == v
    ensures forall j :: j in a.elems && j != i ==> a'.elems[j] == a.elems[j]
  {
    Sparse(Max(a.length, i + 1), a.elems[i := v])
  }

  /** An array literal `[s[0], s[1], ...]`: no holes. */
  function Of<T>(s: seq<T>): (a: Sparse<T>)
    ensures a.Valid()
  {
    Sparse(|s|, map i: nat | i < |s| :: s[i])
  }

  /** The elements present at indices below k, in index order. */
  function PresentBelow<T>(a: Sparse<T>, k: nat): seq<T> {
    if k == 0 then []
    else PresentBelow(a, k - 1) + (if k - 1 in a.elems then [a.elems[k - 1]] else [])
  }

  /** The elements one level of flattening takes from a: holes are skipped, order is kept. */
  function Dense<T>(a: Sparse<T>): seq<T> {
    PresentBelow(a, a.length)
  }

  /** `outer.flat()` for a hole-free outer array whose elements are arrays of non-arrays. */
  function Flat<T>(outer: seq<Sparse<T>>): seq<T> {
    if outer == [] then [] else Flat(outer[..|outer| - 1]) + Dense(outer[|outer| - 1])
  }

  /** Nothing is lost from an array without holes. */
  lemma DenseOf<T>(s: seq<T>)
    ensures Dense(Of(s)) == s
  {
    forall k: nat | k <= |s|
      ensures PresentBelow(Of(s), k) == s[..k]
    {
      PresentBelowOf(s, k);
    }
  }

  lemma {:induction false} PresentBelowOf<T>(s: seq<T>, k: nat)
    requires k <= |s|
    ensures PresentBelow(Of(s), k) == s[..k]
  {
    if k > 0 {
      PresentBelowOf(s, k - 1);
      assert s[..k] == s[..k - 1] + [s[k - 1]];
    }
  }

  /** Flattening distributes over concatenation of the outer array: order is kept. */
  lemma {:induction false} FlatAppend<T>(a: seq<Sparse<T>>, b: seq<Sparse<T>>)
    ensures Flat(a + b) == Flat(a) + Flat(b)
  {
    if b == [] {
      assert a + b == a;
    } else {
      var b' := b[..|b| - 1];
      assert (a + b)[..|a + b| - 1] == a + b';
      FlatAppend(a, b');
    }
  }

  // ---------------------------------------------------------------------------
  // Sequence facts, stated once for any element type

  lemma AppendTail<T>(a: seq<T>, b: seq<T>)
    requires a != []
    ensures (a + b)[0] == a[0] && (a + b)[1..] == a[1..] + b
  {
  }

  lemma AppendEmpty<T>(a: seq<T>, b: seq<T>)
    requires a == []
    ensures a + b == b
  {
  }

  lemma AppendAssoc<T>(a: seq<T>, b: seq<T>, c: seq<T>)
    ensures a + (b + c) == (a + b) + c
  {
  }

  lemma TakeSnoc<T>(s: seq<T>, k: nat)
    requires k < |s|
    ensures s[..k + 1] == s[..k] + [s[k]]
  {
  }

  lemma TakeDrop<T>(s: seq<T>, k: nat)
    requires k <= |s|
    ensures s[..k] + s[k..] == s
  {
  }

  lemma TakeAll<T>(s: seq<T>)
    ensures s[..|s|] == s
  {
  }

  lemma SliceShift<T>(s: seq<T>, d: nat, lo: nat, hi: nat)
    requires d <= lo <= hi <= |s|
    ensures s[d..][lo - d..hi - d] == s[lo..hi]
  {
  }
}
