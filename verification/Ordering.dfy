/**
 Ordered query answers.

 A query with ORDER BY answers with the strictly increasing listing of a set of
 keys.  `Listing` is that answer; `OrderBy` computes it.
 */
module Ordering {
  /** A two-column sort key; single-column keys use a zero major part. */
  datatype Key = Key(major: nat, minor: nat)

  predicate KeyLess(a: Key, b: Key) {
    a.major < b.major || (a.major == b.major && a.minor < b.minor)
  }

  predicate Increasing(keys: seq<Key>) {
    forall i, j | 0 <= i < j < |keys| :: KeyLess(keys[i], keys[j])
  }

  function Elements(keys: seq<Key>): set<Key> {
    set k | k in keys
  }

  predicate IsLeast(k: Key, keys: set<Key>) {
    k in keys && forall other | other in keys && other != k :: KeyLess(k, other)
  }

  lemma {:induction false} LeastExists(keys: set<Key>)
    requires keys != {}
    ensures exists k :: IsLeast(k, keys)
    decreases |keys|
  {
    var k :| k in keys;
    var rest := keys - {k};
    if rest == {} {
      assert keys == {k};
      assert IsLeast(k, keys);
    } else {
      LeastExists(rest);
      var least :| IsLeast(least, rest);
      if KeyLess(k, least) {
        forall other | other in keys && other != k
          ensures KeyLess(k, other)
        {
          assert other in rest;
        }
        assert IsLeast(k, keys);
      } else {
        forall other | other in keys && other != least
          ensures KeyLess(least, other)
        {
          assert other in rest || other == k;
        }
        assert IsLeast(least, keys);
      }
    }
  }

  ghost function Least(keys: set<Key>): (k: Key)
    requires keys != {}
    ensures IsLeast(k, keys)
  {
    LeastExists(keys);
    var k :| IsLeast(k, keys);
    k
  }

  ghost function Listing(keys: set<Key>): seq<Key>
    decreases |keys|
  {
    if keys == {} then [] else [Least(keys)] + Listing(keys - {Least(keys)})
  }

  lemma {:induction false} ListingIsOrdered(keys: set<Key>)
    ensures |Listing(keys)| == |keys| && Elements(Listing(keys)) == keys && Increasing(Listing(keys))
    decreases |keys|
  {
    if keys != {} {
      var k := Least(keys);
      var rest := Listing(keys - {k});
      ListingIsOrdered(keys - {k});
      ElementsOfCons(k, rest);
      forall i | 0 <= i < |rest|
        ensures KeyLess(k, rest[i])
      {
        assert rest[i] in Elements(rest);
      }
      IncreasingCons(k, rest);
    }
  }

  lemma ElementsOfCons(k: Key, rest: seq<Key>)
    ensures Elements([k] + rest) == {k} + Elements(rest)
  {
  }

  lemma IncreasingCons(k: Key, rest: seq<Key>)
    requires Increasing(rest) && forall i | 0 <= i < |rest| :: KeyLess(k, rest[i])
    ensures Increasing([k] + rest)
  {
  }

  lemma SameRows(a: seq<Key>, b: seq<Key>)
    requires Elements(a) == Elements(b)
    ensures forall i | 0 <= i < |a| :: a[i] in b
    ensures a != [] ==> b != []
  {
    forall i | 0 <= i < |a|
      ensures a[i] in b
    {
      assert a[i] in Elements(a);
    }
    if a != [] {
      assert a[0] in b;
    }
  }

  /** An ordered answer is determined by its rows. */
  lemma {:induction false} ListingUnique(a: seq<Key>, b: seq<Key>)
    requires Increasing(a) && Increasing(b) && Elements(a) == Elements(b)
    ensures a == b
    decreases |a|
  {
    if a == [] || b == [] {
      SameRows(a, b);
      SameRows(b, a);
    } else {
      assert a[0] in Elements(a) && a[0] in b;
      assert b[0] in Elements(b) && b[0] in a;
      assert a[0] == b[0];
      TailElements(a);
      TailElements(b);
      ListingUnique(a[1..], b[1..]);
      assert a == [a[0]] + a[1..] && b == [b[0]] + b[1..];
    }
  }

  lemma TailElements(a: seq<Key>)
    requires a != [] && Increasing(a)
    ensures Elements(a[1..]) == Elements(a) - {a[0]}
  {
    forall k
      ensures k in Elements(a[1..]) <==> k in Elements(a) - {a[0]}
    {
      assert k in a[1..] ==> exists i :: 1 <= i < |a| && a[i] == k;
      if k in a && k != a[0] {
        var i :| 0 <= i < |a| && a[i] == k;
        assert a[1..][i - 1] == k;
      }
    }
  }

  lemma LeastUnique(k: Key, keys: set<Key>)
    requires IsLeast(k, keys)
    ensures k == Least(keys)
  {
    assert IsLeast(Least(keys), keys);
  }

  method OrderBy(keys: set<Key>) returns (listing: seq<Key>)
    ensures listing == Listing(keys)
  {
    listing := [];
    var rest := keys;
    while rest != {}
      invariant Listing(keys) == listing + Listing(rest)
      decreases |rest|
    {
      LeastExists(rest);
      var k :| IsLeast(k, rest);
      LeastUnique(k, rest);
      ghost var tail := Listing(rest - {k});
      assert Listing(rest) == [k] + tail;
      assert listing + ([k] + tail) == (listing + [k]) + tail;
      listing := listing + [k];
      rest := rest - {k};
    }
  }
}
