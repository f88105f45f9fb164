// A stable sort of ids by a pair of reals, compared lexicographically.

module StableSort {
  import opened Collections

  type Key = (real, real)

  predicate Before(a: Key, b: Key) {
    a.0 < b.0 || (a.0 == b.0 && a.1 < b.1)
  }

  // A key and, to break ties, a rank: where the id stood before the sort.
  type Place = (real, real, int)

  ghost predicate Sooner(a: Place, b: Place) {
    a.0 < b.0 || (a.0 == b.0 && (a.1 < b.1 || (a.1 == b.1 && a.2 < b.2)))
  }

  ghost function Ranked(key: int -> Key, rank: int -> int): int -> Place {
    i => (key(i).0, key(i).1, rank(i))
  }

  ghost predicate Ordered(s: seq<int>, place: int -> Place) {
    forall i, j :: 0 <= i < j < |s| ==> Sooner(place(s[i]), place(s[j]))
  }

  ghost predicate Increasing(s: seq<int>, rank: int -> int) {
    forall i, j :: 0 <= i < j < |s| ==> rank(s[i]) < rank(s[j])
  }

  // x goes behind every element that is not after it.
  function Insert(x: int, s: seq<int>, key: int -> Key): seq<int> {
    if s != [] && Before(key(x), key(s[|s| - 1])) then Insert(x, s[..|s| - 1], key) + [s[|s| - 1]]
    else s + [x]
  }

  function SortBy(s: seq<int>, key: int -> Key): seq<int> {
    if s == [] then [] else Insert(s[|s| - 1], SortBy(s[..|s| - 1], key), key)
  }

  lemma {:induction false} InsertAdds(x: int, s: seq<int>, key: int -> Key)
    ensures multiset(Insert(x, s, key)) == multiset(s) + multiset{x}
  {
    if s != [] && Before(key(x), key(s[|s| - 1])) {
      assert s == s[..|s| - 1] + [s[|s| - 1]];
      InsertAdds(x, s[..|s| - 1], key);
    }
  }

  // `last` may follow r.
  ghost predicate AllSooner(r: seq<int>, last: int, place: int -> Place) {
    forall i :: 0 <= i < |r| ==> Sooner(place(r[i]), place(last))
  }

  lemma {:induction false} InsertBounded(x: int, s: seq<int>, key: int -> Key, place: int -> Place, last: int)
    requires AllSooner(s, last, place) && Sooner(place(x), place(last))
    ensures AllSooner(Insert(x, s, key), last, place)
  {
    if s != [] && Before(key(x), key(s[|s| - 1])) {
      InsertBounded(x, s[..|s| - 1], key, place, last);
    }
  }

  lemma {:induction false} InsertIsOrdered(x: int, s: seq<int>, key: int -> Key, rank: int -> int)
    requires Ordered(s, Ranked(key, rank)) && forall i :: 0 <= i < |s| ==> rank(s[i]) < rank(x)
    ensures Ordered(Insert(x, s, key), Ranked(key, rank))
  {
    if s != [] && Before(key(x), key(s[|s| - 1])) {
      InsertIsOrdered(x, s[..|s| - 1], key, rank);
      InsertBounded(x, s[..|s| - 1], key, Ranked(key, rank), s[|s| - 1]);
    }
  }

  lemma {:induction false} SortByIsOrdered(s: seq<int>, key: int -> Key, rank: int -> int)
    requires Increasing(s, rank)
    ensures Ordered(SortBy(s, key), Ranked(key, rank))
    ensures multiset(SortBy(s, key)) == multiset(s)
  {
    if s != [] {
      var front, last := s[..|s| - 1], s[|s| - 1];
      assert s == front + [last];
      SortByIsOrdered(front, key, rank);
      var r := SortBy(front, key);
      forall i | 0 <= i < |r| ensures rank(r[i]) < rank(last) {
        assert r[i] in multiset(r) && r[i] in front;
      }
      InsertIsOrdered(last, r, key, rank);
      InsertAdds(last, r, key);
    }
  }

  lemma {:induction false} DistinctByCount(s: seq<int>)
    ensures Distinct(s) <==> forall x :: multiset(s)[x] <= 1
  {
    if s != [] {
      var front, last := s[..|s| - 1], s[|s| - 1];
      assert s == front + [last];
      DistinctByCount(front);
      if Distinct(s) {
        assert last !in front;
      } else if Distinct(front) {
        var i, j :| 0 <= i < j < |s| && s[i] == s[j];
        assert j == |front| && front[i] == last;
        assert multiset(s)[last] >= 2;
      } else {
        var x :| multiset(front)[x] > 1;
        assert multiset(s)[x] > 1;
      }
    }
  }

  // Sorting keeps a repetition-free list so, with the same members; ties keep their order.
  lemma SortedListing(s: seq<int>, key: int -> Key, rank: int -> int)
    requires Distinct(s) && Increasing(s, rank)
    ensures Distinct(SortBy(s, key)) && Ordered(SortBy(s, key), Ranked(key, rank))
    ensures |SortBy(s, key)| == |s| && forall y :: y in SortBy(s, key) <==> y in s
  {
    SortByIsOrdered(s, key, rank);
    DistinctByCount(s);
    DistinctByCount(SortBy(s, key));
    assert |multiset(SortBy(s, key))| == |multiset(s)|;
    forall y ensures y in SortBy(s, key) <==> y in s {
      assert y in SortBy(s, key) <==> y in multiset(SortBy(s, key));
    }
  }
}
