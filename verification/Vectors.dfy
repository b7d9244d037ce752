/**
 Version vectors and strict dominance.

 Dominance decides which revisions stay heads, which mutations are stale and
 what a collection marker may replace, so the store relies on it being a strict
 partial order.
 */
module Vectors {
  type DeviceId = nat
  type Vector = map<DeviceId, nat>

  /** A missing entry reads as zero. */
  function Counter(vector: Vector, device: DeviceId): nat {
    if device in vector then vector[device] else 0
  }

  /** `left` is at least `right` everywhere and above it somewhere. */
  predicate Dominates(left: Vector, right: Vector) {
    && (forall d | d in right :: right[d] <= Counter(left, d))
    && (exists d | d in left :: Counter(right, d) < left[d])
  }

  predicate AtOrAbove(left: Vector, right: Vector) {
    left == right || Dominates(left, right)
  }

  /** Every stored counter is positive, as vector validation demands. */
  predicate Positive(vector: Vector) {
    forall d | d in vector :: vector[d] > 0
  }

  method VectorDominates(left: Vector, right: Vector) returns (strict: bool)
    ensures strict == Dominates(left, right)
  {
    strict := false;
    var pending := right.Keys;
    while pending != {}
      invariant pending <= right.Keys
      invariant forall d | d in right.Keys - pending :: right[d] <= Counter(left, d)
      invariant strict <==> exists d | d in right.Keys - pending :: right[d] < Counter(left, d)
      decreases |pending|
    {
      var d :| d in pending;
      assert right.Keys - (pending - {d}) == (right.Keys - pending) + {d};
      var leftCounter := Counter(left, d);
      if leftCounter < right[d] {
        return false;
      }
      if leftCounter > right[d] {
        strict := true;
      }
      pending := pending - {d};
    }
    if !strict {
      var rest := left.Keys;
      while rest != {}
        invariant rest <= left.Keys
        invariant !strict
        invariant forall d | d in left.Keys - rest :: left[d] <= Counter(right, d)
        decreases |rest|
      {
        var d :| d in rest;
        if d !in right && left[d] > 0 {
          strict := true;
          break;
        }
        rest := rest - {d};
      }
    }
  }

  /** The code's equality test: same size, and every left entry read back on the right. */
  predicate SameEntries(left: Vector, right: Vector) {
    |left| == |right| && forall d | d in left :: Counter(right, d) == left[d]
  }

  method VectorsEqual(left: Vector, right: Vector) returns (equal: bool)
    ensures equal == SameEntries(left, right)
  {
    if |left| != |right| {
      return false;
    }
    var pending := left.Keys;
    while pending != {}
      invariant pending <= left.Keys
      invariant forall d | d in left.Keys - pending :: Counter(right, d) == left[d]
      decreases |pending|
    {
      var d :| d in pending;
      if Counter(right, d) != left[d] {
        return false;
      }
      pending := pending - {d};
    }
    equal := true;
  }

  /** On validated vectors the equality test is equality. */
  lemma SameEntriesIsEquality(left: Vector, right: Vector)
    requires Positive(left)
    ensures SameEntries(left, right) <==> left == right
  {
    if SameEntries(left, right) {
      assert left.Keys <= right.Keys by {
        assert forall d | d in left :: Counter(right, d) > 0;
      }
      EqualFromSize(left.Keys, right.Keys);
    }
  }

  /** With a zero counter it is not: a missing entry reads like a stored zero. */
  lemma SameEntriesIsNotEquality()
    ensures var left: Vector, right: Vector := map[1 := 0], map[2 := 7];
            SameEntries(left, right) && left != right
  {
    var left: Vector, right: Vector := map[1 := 0], map[2 := 7];
    assert 1 in left && 1 !in right;
    assert |left| == 1 && |right| == 1;
  }

  lemma EqualFromSize<T>(small: set<T>, large: set<T>)
    requires small <= large && |small| == |large|
    ensures small == large
  {
    assert large == small + (large - small);
  }

  lemma {:induction false} SubsetSize<T>(small: set<T>, large: set<T>)
    requires small <= large
    ensures |small| <= |large|
  {
    assert large == small + (large - small);
  }

  lemma DominatesIsStrictOrder(a: Vector, b: Vector, c: Vector)
    ensures !Dominates(a, a)
    ensures !(Dominates(a, b) && Dominates(b, a))
    ensures Dominates(a, b) && Dominates(b, c) ==> Dominates(a, c)
  {
    if Dominates(a, b) && Dominates(b, c) {
      DominatesTransitive(a, b, c);
    }
    if Dominates(a, b) && Dominates(b, a) {
      DominatesTransitive(a, b, a);
    }
  }

  lemma DominatesTransitive(a: Vector, b: Vector, c: Vector)
    requires Dominates(a, b) && Dominates(b, c)
    ensures Dominates(a, c)
  {
    forall d | d in c
      ensures c[d] <= Counter(a, d)
    {
      assert c[d] <= Counter(b, d);
      assert d in b ==> b[d] <= Counter(a, d);
    }
    var d :| d in b && Counter(c, d) < b[d];
    assert b[d] <= Counter(a, d);
    assert d in a;
  }

  /** Dominance absorbs equality on either side. */
  lemma DominatesAtOrAbove(a: Vector, b: Vector, c: Vector)
    ensures Dominates(a, b) && AtOrAbove(b, c) ==> Dominates(a, c)
    ensures AtOrAbove(a, b) && Dominates(b, c) ==> Dominates(a, c)
    ensures AtOrAbove(a, b) && AtOrAbove(b, c) ==> AtOrAbove(a, c)
  {
    if Dominates(a, b) && Dominates(b, c) {
      DominatesTransitive(a, b, c);
    }
  }
}
