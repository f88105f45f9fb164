// Union-find with path halving, against the components of an undirected graph.

module UnionFind {
  import opened Collections
  import opened Graph

  // The arcs, walked in either direction.
  function Undirected(arcs: Arcs): Arcs {
    arcs + set a | a in arcs :: (a.1, a.0)
  }

  // Joined by a chain of arcs of any direction, or equal.
  ghost predicate Linked(arcs: Arcs, a: int, b: int) {
    AncestorOrSelf(Undirected(arcs), a, b)
  }

  lemma LinkedTrans(arcs: Arcs, a: int, b: int, c: int)
    requires Linked(arcs, a, b) && Linked(arcs, b, c)
    ensures Linked(arcs, a, c)
  {
    if a != b && b != c { ReachTrans(Undirected(arcs), a, b, c); }
  }

  lemma {:induction false} ReachBack(arcs: Arcs, a: int, b: int, n: nat)
    requires ReachIn(Undirected(arcs), a, b, n)
    ensures Reach(Undirected(arcs), b, a)
    decreases n
  {
    var u := Undirected(arcs);
    if n == 0 {
      ReachArc(u, b, a);
    } else {
      var k :| (a, k) in u && ReachIn(u, k, b, n - 1);
      ReachBack(arcs, k, b, n - 1);
      ReachArc(u, k, a);
      ReachTrans(u, b, k, a);
    }
  }

  lemma LinkedSymmetric(arcs: Arcs, a: int, b: int)
    requires Linked(arcs, a, b)
    ensures Linked(arcs, b, a)
  {
    if a != b {
      var n: nat :| ReachIn(Undirected(arcs), a, b, n);
      ReachBack(arcs, a, b, n);
    }
  }

  lemma LinkedMonotone(small: Arcs, big: Arcs, a: int, b: int)
    requires small <= big && Linked(small, a, b)
    ensures Linked(big, a, b)
  {
    if a != b {
      assert Undirected(small) <= Undirected(big);
      ReachMonotone(Undirected(small), Undirected(big), a, b);
    }
  }

  // A labelling that is equal across every arc is equal across every chain.
  lemma {:induction false} LabelAlongChain(arcs: Arcs, tag: map<int, int>, a: int, b: int, n: nat)
    requires forall x, y :: (x, y) in arcs ==> x in tag && y in tag && tag[x] == tag[y]
    requires a in tag && ReachIn(Undirected(arcs), a, b, n)
    ensures b in tag && tag[a] == tag[b]
    decreases n
  {
    var u := Undirected(arcs);
    assert forall x, y :: (x, y) in u ==> (x, y) in arcs || (y, x) in arcs;
    if n > 0 {
      var k :| (a, k) in u && ReachIn(u, k, b, n - 1);
      LabelAlongChain(arcs, tag, k, b, n - 1);
    }
  }

  // `root` names one member of each component of the arcs.
  ghost predicate LabelsComponents(arcs: Arcs, root: map<int, int>) {
    forall a, b :: a in root && b in root ==> (root[a] == root[b] <==> Linked(arcs, a, b))
  }

  lemma NoArcs(root: map<int, int>)
    requires forall a :: a in root ==> root[a] == a
    ensures LabelsComponents({}, root)
  {
    assert Undirected({}) == {};
    forall a, b | a in root && b in root ensures root[a] == root[b] <==> Linked({}, a, b) {
      if a != b && Linked({}, a, b) { var m := ReachLast({}, a, b); }
    }
  }

  // Merging the classes of s and t accounts for exactly the new arc.
  lemma Merge(arcs: Arcs, root: map<int, int>, s: int, t: int, merged: map<int, int>)
    requires forall x, y :: (x, y) in arcs ==> x in root && y in root
    requires LabelsComponents(arcs, root)
    requires s in root && t in root && merged == MergeRoots(root, root[s], root[t])
    ensures LabelsComponents(arcs + {(s, t)}, merged)
  {
    var more := arcs + {(s, t)};
    ReachArc(Undirected(more), s, t);
    forall x, y | (x, y) in more ensures merged[x] == merged[y] {
      if (x, y) in arcs { ReachArc(Undirected(arcs), x, y); }
    }
    forall a, b | a in root && b in root ensures merged[a] == merged[b] <==> Linked(more, a, b) {
      if Linked(more, a, b) && a != b {
        var n: nat :| ReachIn(Undirected(more), a, b, n);
        LabelAlongChain(more, merged, a, b, n);
      }
      if merged[a] == merged[b] {
        MergedAreLinked(arcs, root, s, t, a, b);
      }
    }
  }

  lemma MergedAreLinked(arcs: Arcs, root: map<int, int>, s: int, t: int, a: int, b: int)
    requires LabelsComponents(arcs, root) && {s, t, a, b} <= root.Keys
    requires root[a] == root[b] || (root[a] == root[s] && root[b] == root[t])
      || (root[a] == root[t] && root[b] == root[s])
    ensures Linked(arcs + {(s, t)}, a, b)
  {
    var more := arcs + {(s, t)};
    if root[a] == root[b] {
      LinkedMonotone(arcs, more, a, b);
    } else {
      ReachArc(Undirected(more), s, t);
      LinkedSymmetric(more, s, t);
      var p, q := if root[a] == root[s] then s else t, if root[a] == root[s] then t else s;
      LinkedMonotone(arcs, more, a, p);
      LinkedMonotone(arcs, more, q, b);
      LinkedTrans(more, a, p, q);
      LinkedTrans(more, a, q, b);
    }
  }

  // x hangs in a tree of the forest whose top is root[x]; `depth` falls along the parent link.
  ghost predicate Hangs(parent: map<int, int>, root: map<int, int>, depth: map<int, nat>, x: int)
    requires parent.Keys == root.Keys == depth.Keys && x in parent
  {
    && parent[x] in parent
    && root[parent[x]] == root[x]
    && root[x] in parent && parent[root[x]] == root[x]
    && if parent[x] == x then root[x] == x else depth[parent[x]] < depth[x]
  }

  ghost predicate IsForest(parent: map<int, int>, root: map<int, int>, depth: map<int, nat>) {
    && parent.Keys == root.Keys == depth.Keys
    && forall x {:trigger Hangs(parent, root, depth, x)} :: x in parent ==> Hangs(parent, root, depth, x)
  }

  lemma HalvingKeepsForest(parent: map<int, int>, root: map<int, int>, depth: map<int, nat>, x: int)
    requires IsForest(parent, root, depth) && x in parent && parent[x] != x
    ensures parent[x] in parent && parent[parent[x]] in parent
    ensures var up := parent[parent[x]];
      IsForest(parent[x := up], root, depth) && root[up] == root[x] && depth[up] < depth[x]
  {
    assert Hangs(parent, root, depth, x);
    assert Hangs(parent, root, depth, parent[x]);
    var next := parent[x := parent[parent[x]]];
    forall y {:trigger Hangs(next, root, depth, y)} | y in next ensures Hangs(next, root, depth, y) {
      assert Hangs(parent, root, depth, y);
    }
  }

  function MergeRoots(root: map<int, int>, ra: int, rb: int): map<int, int> {
    map x | x in root :: if root[x] == ra then rb else root[x]
  }

  // Every depth in the tree of ra rises by `lift`.
  ghost function Lift(root: map<int, int>, depth: map<int, nat>, ra: int, lift: nat): map<int, nat>
    requires root.Keys == depth.Keys
  {
    map x | x in depth :: if root[x] == ra then depth[x] + lift else depth[x]
  }

  lemma LinkingKeepsForest(parent: map<int, int>, root: map<int, int>, depth: map<int, nat>, ra: int, rb: int)
    requires IsForest(parent, root, depth) && ra in parent && rb in parent && ra != rb
    requires root[ra] == ra && root[rb] == rb
    ensures IsForest(parent[ra := rb], MergeRoots(root, ra, rb), Lift(root, depth, ra, depth[rb] + 1))
  {
    var next, merged := parent[ra := rb], MergeRoots(root, ra, rb);
    var lifted := Lift(root, depth, ra, depth[rb] + 1);
    forall y {:trigger Hangs(next, merged, lifted, y)} | y in next ensures Hangs(next, merged, lifted, y) {
      assert Hangs(parent, root, depth, y);
      assert Hangs(parent, root, depth, rb);
    }
  }

  // The parent map with its find and union. `root` is the representative each id is given.
  class Forest {
    var parent: map<int, int>
    ghost var root: map<int, int>
    ghost var depth: map<int, nat>

    ghost predicate Valid()
      reads this
    {
      IsForest(parent, root, depth)
    }

    constructor (ids: set<int>)
      ensures Valid() && parent.Keys == ids
      ensures forall x :: x in ids ==> root[x] == x
    {
      parent := map x | x in ids :: x;
      root := map x | x in ids :: x;
      depth := map x | x in ids :: 0;
    }

    // Halves the path on the way up; the representatives stay.
    method Find(x0: int) returns (x: int)
      requires Valid() && x0 in parent
      modifies this`parent
      ensures Valid() && parent.Keys == old(parent.Keys)
      ensures x == root[x0] && x in parent && root[x] == x
    {
      x := x0;
      while parent[x] != x
        invariant Valid() && parent.Keys == old(parent.Keys)
        invariant x in parent && root[x] == root[x0]
        decreases depth[x]
      {
        HalvingKeepsForest(parent, root, depth, x);
        parent := parent[x := parent[parent[x]]];
        x := parent[x];
      }
      assert Hangs(parent, root, depth, x);
    }

    method Union(a: int, b: int)
      requires Valid() && a in parent && b in parent
      modifies this
      ensures Valid() && parent.Keys == old(parent.Keys)
      ensures root == MergeRoots(old(root), old(root)[a], old(root)[b])
    {
      var ra := Find(a);
      var rb := Find(b);
      if ra != rb {
        LinkingKeepsForest(parent, root, depth, ra, rb);
        parent := parent[ra := rb];
        depth := Lift(root, depth, ra, depth[rb] + 1);
        root := MergeRoots(root, ra, rb);
      }
    }
  }

  // The arcs between known ids, of every dependency type.
  function KnownArcs(edges: seq<Edge>, ids: set<int>): Arcs {
    Induced(ArcsOf(edges), ids)
  }

  // Every edge between known ids is united, in edge order.
  method BuildForest(edges: seq<Edge>, ids: set<int>) returns (f: Forest)
    ensures fresh(f) && f.Valid() && f.parent.Keys == ids
    ensures LabelsComponents(KnownArcs(edges, ids), f.root)
  {
    f := new Forest(ids);
    NoArcs(f.root);
    assert KnownArcs(edges[..0], ids) == {};
    for k := 0 to |edges|
      invariant f.Valid() && f.parent.Keys == ids
      invariant LabelsComponents(KnownArcs(edges[..k], ids), f.root)
    {
      var s, t := edges[k].source, edges[k].target;
      assert edges[..k + 1] == edges[..k] + [edges[k]];
      if s in ids && t in ids {
        ghost var before := f.root;
        f.Union(s, t);
        Merge(KnownArcs(edges[..k], ids), before, s, t, f.root);
        assert KnownArcs(edges[..k + 1], ids) == KnownArcs(edges[..k], ids) + {(s, t)};
      } else {
        assert KnownArcs(edges[..k + 1], ids) == KnownArcs(edges[..k], ids);
      }
    }
    assert edges[..|edges|] == edges;
  }
}
