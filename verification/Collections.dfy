// Finite sets and sequences: listing a set, summing over a set.

module Collections {

  datatype Option<T> = None | Some(value: T) {
    function Or(other: T): T { if Some? then value else other }
  }

  ghost function Elems(s: seq<int>): set<int> {
    set x | x in s
  }

  ghost predicate Distinct<T>(s: seq<T>) {
    forall i, j :: 0 <= i < j < |s| ==> s[i] != s[j]
  }

  lemma DistinctSnoc<T>(s: seq<T>, x: T)
    requires Distinct(s) && x !in s
    ensures Distinct(s + [x])
  {
  }

  // `order` lists every member of `ids` exactly once.
  ghost predicate Lists(order: seq<int>, ids: set<int>) {
    Distinct(order) && forall x :: x in order <==> x in ids
  }

  lemma {:induction false} DistinctCounts(s: seq<int>, m: int)
    requires Distinct(s)
    ensures multiset(s)[m] == if m in s then 1 else 0
  {
    if s != [] {
      var front, last := s[..|s| - 1], s[|s| - 1];
      assert s == front + [last];
      assert multiset(s) == multiset(front) + multiset{last};
      assert Distinct(front) by { assert forall i :: 0 <= i < |front| ==> front[i] == s[i]; }
      DistinctCounts(front, m);
      assert last !in front;
    }
  }

  lemma HasMember(s: set<int>)
    ensures s != {} ==> exists x :: x in s
  {
    if forall x :: x !in s { assert s <= {}; }
  }

  lemma NoMembers(s: seq<int>)
    ensures s != [] ==> exists x :: x in s
  {
    if s != [] {
      var x := s[0];
      assert x in s;
    }
  }

  function IndexOf(order: seq<int>, a: int): (k: nat)
    requires a in order
    ensures k < |order| && order[k] == a
    ensures a !in order[..k]
  {
    if order[0] == a then 0 else 1 + IndexOf(order[1..], a)
  }

  lemma {:induction false} IndexIsFirst(order: seq<int>, a: int, i: nat)
    requires i < |order| && order[i] == a
    ensures a in order && IndexOf(order, a) <= i
  {
    if order[0] != a { IndexIsFirst(order[1..], a, i - 1); }
  }

  // Some order in which a loop may walk a set: its iteration order is not defined.
  method AnyOrder(ids: set<int>) returns (order: seq<int>)
    ensures Lists(order, ids)
  {
    order := [];
    var rest := ids;
    while rest != {}
      invariant rest <= ids && Lists(order, ids - rest)
      decreases rest
    {
      HasMember(rest);
      var i :| i in rest;
      rest, order := rest - {i}, order + [i];
    }
  }

  // ---------- Sums over a finite set ----------

  ghost function Sum(s: set<int>, f: int -> int): int {
    if s == {} then 0
    else
      HasMember(s);
      var x :| x in s;
      f(x) + Sum(s - {x}, f)
  }

  lemma {:induction false} SumRemove(s: set<int>, f: int -> int, y: int)
    requires y in s
    ensures Sum(s, f) == f(y) + Sum(s - {y}, f)
    decreases s
  {
    HasMember(s);
    var x :| x in s && Sum(s, f) == f(x) + Sum(s - {x}, f);
    if x != y {
      SumRemove(s - {x}, f, y);
      SumRemove(s - {y}, f, x);
      assert s - {x} - {y} == s - {y} - {x};
    }
  }

  lemma SumAdd(s: set<int>, f: int -> int, y: int)
    requires y !in s
    ensures Sum(s + {y}, f) == f(y) + Sum(s, f)
  {
    SumRemove(s + {y}, f, y);
    assert s + {y} - {y} == s;
  }

  // Every finite set can be listed.
  lemma {:induction false} Listing(s: set<int>) returns (order: seq<int>)
    ensures Lists(order, s)
    decreases s
  {
    if s == {} {
      order := [];
    } else {
      HasMember(s);
      var x :| x in s;
      order := Listing(s - {x});
      order := order + [x];
    }
  }

  lemma {:induction false} DistinctLength(order: seq<int>, s: set<int>)
    requires Distinct(order) && forall x :: x in order ==> x in s
    ensures |order| <= |s|
  {
    if order != [] {
      var front, last := order[..|order| - 1], order[|order| - 1];
      assert order == front + [last] && last !in front && last in order;
      DistinctLength(front, s - {last});
    }
  }
}
