// Dependency edges between canvas nodes, and reachability along them.

module Graph {
  import opened Collections

  // The dependencyType of an edge; a missing type reads as Reference.
  datatype Dependency = Input | Reference | OtherDependency(name: string)

  datatype Edge = Edge(source: int, target: int, dep: Dependency)

  type Arcs = set<(int, int)>

  function InputEdges(edges: seq<Edge>): (r: seq<Edge>)
    ensures forall e :: e in r <==> e in edges && e.dep.Input?
    ensures |r| <= |edges|
  {
    if edges == [] then []
    else if edges[0].dep.Input? then [edges[0]] + InputEdges(edges[1..])
    else InputEdges(edges[1..])
  }

  function ArcsOf(edges: seq<Edge>): Arcs {
    set e | e in edges :: (e.source, e.target)
  }

  function InputArcs(edges: seq<Edge>): Arcs {
    set e | e in edges && e.dep.Input? :: (e.source, e.target)
  }

  // The arcs with both ends in `ids`.
  function Induced(arcs: Arcs, ids: set<int>): Arcs {
    set a | a in arcs && a.0 in ids && a.1 in ids
  }

  function Nodes(arcs: Arcs): set<int> {
    (set a | a in arcs :: a.0) + (set a | a in arcs :: a.1)
  }

  // ---------- Reachability ----------

  // There is a path of exactly n + 1 arcs from a to b.
  ghost predicate ReachIn(arcs: Arcs, a: int, b: int, n: nat)
    decreases n
  {
    if n == 0 then (a, b) in arcs
    else exists m :: (a, m) in arcs && ReachIn(arcs, m, b, n - 1)
  }

  // There is a nonempty path from a to b.
  ghost predicate Reach(arcs: Arcs, a: int, b: int) {
    exists n: nat :: ReachIn(arcs, a, b, n)
  }

  ghost predicate OnCycle(arcs: Arcs, a: int) {
    Reach(arcs, a, a)
  }

  ghost predicate Acyclic(arcs: Arcs) {
    forall a :: !OnCycle(arcs, a)
  }

  // b is a itself or an ancestor of a.
  ghost predicate AncestorOrSelf(arcs: Arcs, b: int, a: int) {
    b == a || Reach(arcs, b, a)
  }

  // No cycle among a and its ancestors.
  ghost predicate Grounded(arcs: Arcs, a: int) {
    forall b :: AncestorOrSelf(arcs, b, a) ==> !OnCycle(arcs, b)
  }

  lemma ReachArc(arcs: Arcs, a: int, b: int)
    requires (a, b) in arcs
    ensures Reach(arcs, a, b)
  {
    assert ReachIn(arcs, a, b, 0);
  }

  lemma {:induction false} ReachInTrans(arcs: Arcs, a: int, b: int, c: int, m: nat, n: nat)
    requires ReachIn(arcs, a, b, m) && ReachIn(arcs, b, c, n)
    ensures ReachIn(arcs, a, c, m + n + 1)
    decreases m
  {
    if m == 0 {
      assert (a, b) in arcs && ReachIn(arcs, b, c, (m + n + 1) - 1);
    } else {
      var k :| (a, k) in arcs && ReachIn(arcs, k, b, m - 1);
      ReachInTrans(arcs, k, b, c, m - 1, n);
    }
  }

  lemma ReachTrans(arcs: Arcs, a: int, b: int, c: int)
    requires Reach(arcs, a, b) && Reach(arcs, b, c)
    ensures Reach(arcs, a, c)
  {
    var m: nat :| ReachIn(arcs, a, b, m);
    var n: nat :| ReachIn(arcs, b, c, n);
    ReachInTrans(arcs, a, b, c, m, n);
  }

  // A path ends in an arc into its target.
  lemma {:induction false} ReachInLast(arcs: Arcs, a: int, b: int, n: nat) returns (m: int)
    requires ReachIn(arcs, a, b, n)
    ensures (m, b) in arcs
    ensures if n == 0 then m == a else ReachIn(arcs, a, m, n - 1)
    decreases n
  {
    if n == 0 {
      m := a;
    } else {
      var k :| (a, k) in arcs && ReachIn(arcs, k, b, n - 1);
      m := ReachInLast(arcs, k, b, n - 1);
      assert n == 1 ==> ReachIn(arcs, a, m, 0);
    }
  }

  lemma ReachLast(arcs: Arcs, a: int, b: int) returns (m: int)
    requires Reach(arcs, a, b)
    ensures (m, b) in arcs && AncestorOrSelf(arcs, a, m)
  {
    var n: nat :| ReachIn(arcs, a, b, n);
    m := ReachInLast(arcs, a, b, n);
  }

  // A set that contains the source of every arc into it contains all ancestors of its members.
  lemma {:induction false} BackwardClosed(arcs: Arcs, s: set<int>, a: int, b: int)
    requires forall x, y :: (x, y) in arcs && y in s ==> x in s
    requires b in s && AncestorOrSelf(arcs, a, b)
    ensures a in s
  {
    if a != b {
      var n: nat :| ReachIn(arcs, a, b, n);
      BackwardClosedIn(arcs, s, a, b, n);
    }
  }

  lemma {:induction false} BackwardClosedIn(arcs: Arcs, s: set<int>, a: int, b: int, n: nat)
    requires forall x, y :: (x, y) in arcs && y in s ==> x in s
    requires b in s && ReachIn(arcs, a, b, n)
    ensures a in s
    decreases n
  {
    if n > 0 {
      var k :| (a, k) in arcs && ReachIn(arcs, k, b, n - 1);
      BackwardClosedIn(arcs, s, k, b, n - 1);
    }
  }

  // A set that contains the target of every arc out of it contains all descendants of its members.
  lemma {:induction false} ForwardClosed(arcs: Arcs, s: set<int>, a: int, b: int)
    requires forall x, y :: (x, y) in arcs && x in s ==> y in s
    requires a in s && AncestorOrSelf(arcs, a, b)
    ensures b in s
  {
    if a != b {
      var n: nat :| ReachIn(arcs, a, b, n);
      ForwardClosedIn(arcs, s, a, b, n);
    }
  }

  lemma {:induction false} ForwardClosedIn(arcs: Arcs, s: set<int>, a: int, b: int, n: nat)
    requires forall x, y :: (x, y) in arcs && x in s ==> y in s
    requires a in s && ReachIn(arcs, a, b, n)
    ensures b in s
    decreases n
  {
    if n > 0 {
      var k :| (a, k) in arcs && ReachIn(arcs, k, b, n - 1);
      ForwardClosedIn(arcs, s, k, b, n - 1);
    }
  }

  // More arcs reach no less.
  lemma {:induction false} ReachInMonotone(small: Arcs, big: Arcs, a: int, b: int, n: nat)
    requires small <= big && ReachIn(small, a, b, n)
    ensures ReachIn(big, a, b, n)
    decreases n
  {
    if n > 0 {
      var k :| (a, k) in small && ReachIn(small, k, b, n - 1);
      ReachInMonotone(small, big, k, b, n - 1);
    }
  }

  lemma ReachMonotone(small: Arcs, big: Arcs, a: int, b: int)
    requires small <= big && Reach(small, a, b)
    ensures Reach(big, a, b)
  {
    var n: nat :| ReachIn(small, a, b, n);
    ReachInMonotone(small, big, a, b, n);
  }

  // ---------- Cycles ----------

  // Some arc into y starts in s.
  ghost predicate FedFrom(arcs: Arcs, s: set<int>, y: int) {
    exists x :: x in s && (x, y) in arcs
  }

  // Going back from `start` inside a finite set that never runs out of sources, one meets a cycle.
  lemma {:induction false} CycleAmongAncestors(arcs: Arcs, s: set<int>, start: int) returns (c: int)
    requires start in s
    requires forall y :: y in s ==> FedFrom(arcs, s, y)
    ensures c in s && OnCycle(arcs, c) && AncestorOrSelf(arcs, c, start)
  {
    c := CycleBehind(arcs, s, {}, start, start);
  }

  lemma {:induction false} CycleBehind(arcs: Arcs, s: set<int>, visited: set<int>, cur: int, start: int)
    returns (c: int)
    requires cur in s && AncestorOrSelf(arcs, cur, start)
    requires forall y :: y in s ==> FedFrom(arcs, s, y)
    requires visited <= s && cur !in visited
    requires forall v :: v in visited ==> Reach(arcs, cur, v)
    ensures c in s && OnCycle(arcs, c) && AncestorOrSelf(arcs, c, start)
    decreases s - visited
  {
    assert FedFrom(arcs, s, cur);
    var p :| p in s && (p, cur) in arcs;
    ReachArc(arcs, p, cur);
    if p == cur {
      c := cur;
    } else if p in visited {
      ReachTrans(arcs, cur, p, cur);
      c := cur;
    } else {
      forall v | v in visited + {cur} ensures Reach(arcs, p, v) {
        if v != cur { ReachTrans(arcs, p, cur, v); }
      }
      if cur != start { ReachTrans(arcs, p, cur, start); }
      c := CycleBehind(arcs, s, visited + {cur}, p, start);
    }
  }

  // An arc that always climbs in rank closes no cycle.
  lemma RankedIsAcyclic(arcs: Arcs, rank: int -> int)
    requires forall x, y :: (x, y) in arcs ==> rank(x) < rank(y)
    ensures Acyclic(arcs)
  {
    forall a ensures !OnCycle(arcs, a) {
      if OnCycle(arcs, a) {
        var n: nat :| ReachIn(arcs, a, a, n);
        RankClimbs(arcs, rank, a, a, n);
      }
    }
  }

  lemma {:induction false} RankClimbs(arcs: Arcs, rank: int -> int, a: int, b: int, n: nat)
    requires forall x, y :: (x, y) in arcs ==> rank(x) < rank(y)
    requires ReachIn(arcs, a, b, n)
    ensures rank(a) < rank(b)
    decreases n
  {
    if n > 0 {
      var k :| (a, k) in arcs && ReachIn(arcs, k, b, n - 1);
      RankClimbs(arcs, rank, k, b, n - 1);
    }
  }

  // ---------- Emission orders ----------

  // Every arc into order[k] comes from an earlier element.
  ghost predicate SourcesFirst(arcs: Arcs, order: seq<int>) {
    forall k, x :: 0 <= k < |order| && (x, order[k]) in arcs ==> x in order[..k]
  }

  // A sources-first order holds no node that has a cycle among its ancestors.
  lemma SourcesFirstIsGrounded(arcs: Arcs, order: seq<int>, a: int)
    requires SourcesFirst(arcs, order)
    requires a in order
    ensures Grounded(arcs, a)
    ensures forall b :: AncestorOrSelf(arcs, b, a) ==> b in order
  {
    var s := set k | 0 <= k < |order| :: order[k];
    forall b | AncestorOrSelf(arcs, b, a) ensures b in order && !OnCycle(arcs, b) {
      BackwardClosed(arcs, s, b, a);
      if OnCycle(arcs, b) {
        var n: nat :| ReachIn(arcs, b, b, n);
        EarlierInOrder(arcs, order, b, b, n);
      }
    }
  }

  lemma FirstIsEarlier(order: seq<int>, a: int, k: nat)
    requires k <= |order| && a in order[..k]
    ensures a in order && IndexOf(order, a) < k
  {
    var i :| 0 <= i < k && order[i] == a;
    IndexIsFirst(order, a, i);
  }

  lemma {:induction false} EarlierInOrder(arcs: Arcs, order: seq<int>, a: int, b: int, n: nat)
    requires SourcesFirst(arcs, order)
    requires b in order && ReachIn(arcs, a, b, n)
    ensures a in order && IndexOf(order, a) < IndexOf(order, b)
    decreases n
  {
    if n == 0 {
      FirstIsEarlier(order, a, IndexOf(order, b));
    } else {
      var k :| (a, k) in arcs && ReachIn(arcs, k, b, n - 1);
      EarlierInOrder(arcs, order, k, b, n - 1);
      FirstIsEarlier(order, a, IndexOf(order, k));
    }
  }
}
