// The upstream chain of a node, and the cost of everything downstream of one.

module Closure {
  import opened Collections
  import opened Graph
  import opened Canvas

  // ---------- Upstream ----------

  function SourcesOf(byTarget: map<int, seq<int>>, t: int): seq<int> {
    if t in byTarget then byTarget[t] else []
  }

  // byTarget lists, for each target, the sources of the arcs into it.
  ghost predicate Groups(byTarget: map<int, seq<int>>, arcs: Arcs) {
    forall s, t :: (s, t) in arcs <==> s in SourcesOf(byTarget, t)
  }

  // All sources of v are listed.
  ghost predicate Finished(arcs: Arcs, order: seq<int>, v: int) {
    forall s :: (s, v) in arcs ==> s in order
  }

  // A node without a cycle among its ancestors is listed after all of its sources.
  ghost predicate GroundedAfterSources(arcs: Arcs, order: seq<int>) {
    forall k, x :: 0 <= k < |order| && Grounded(arcs, order[k]) && (x, order[k]) in arcs ==> x in order[..k]
  }

  // What holds between two steps of the search; `open` are the nodes whose visit has not ended.
  ghost predicate SearchState(arcs: Arcs, start: int, seen: set<int>, order: seq<int>, open: set<int>) {
    && open <= seen <= Nodes(arcs) + {start}
    && Distinct(order)
    && (forall o :: o in order ==> o in seen && Reach(arcs, o, start))
    && (forall v :: v in seen ==> AncestorOrSelf(arcs, v, start))
    && (forall v :: v in seen && v !in open ==> Finished(arcs, order, v))
    && GroundedAfterSources(arcs, order)
  }

  lemma AppendSource(arcs: Arcs, start: int, seen: set<int>, order: seq<int>, open: set<int>, src: int)
    requires SearchState(arcs, start, seen, order, open)
    requires src in seen && src !in order && Reach(arcs, src, start)
    requires src in open ==> OnCycle(arcs, src)
    ensures SearchState(arcs, start, seen, order + [src], open)
  {
    var longer := order + [src];
    forall k, x | 0 <= k < |longer| && Grounded(arcs, longer[k]) && (x, longer[k]) in arcs
      ensures x in longer[..k]
    {
      if k < |order| {
        assert longer[..k] == order[..k];
      } else {
        assert longer[..k] == order;
        assert AncestorOrSelf(arcs, src, src);
        assert Finished(arcs, order, src);
      }
    }
  }

  // src feeds nid, which is open: src reaches every open node and the start.
  lemma SourceReaches(arcs: Arcs, start: int, open: set<int>, nid: int, src: int)
    requires (src, nid) in arcs && AncestorOrSelf(arcs, nid, start)
    requires forall g :: g in open ==> g == nid || Reach(arcs, nid, g)
    ensures Reach(arcs, src, start)
    ensures forall g :: g in open ==> Reach(arcs, src, g)
  {
    ReachArc(arcs, src, nid);
    if nid != start { ReachTrans(arcs, src, nid, start); }
    forall g | g in open ensures Reach(arcs, src, g) {
      if g != nid { ReachTrans(arcs, src, nid, g); }
    }
  }

  // The depth-first search of walk_input_upstream, with the two collections it fills.
  class UpstreamWalk {
    const byTarget: map<int, seq<int>>
    ghost const arcs: Arcs
    ghost const start: int
    var seen: set<int>
    var order: seq<int>

    constructor (byTarget: map<int, seq<int>>, ghost arcs: Arcs, ghost start: int)
      ensures this.byTarget == byTarget && this.arcs == arcs && this.start == start
      ensures seen == {} && order == []
    {
      this.byTarget, this.arcs, this.start := byTarget, arcs, start;
      seen, order := {}, [];
    }

    method Dfs(nid: int, ghost open: set<int>)
      requires Groups(byTarget, arcs)
      requires SearchState(arcs, start, seen, order, open)
      requires AncestorOrSelf(arcs, nid, start) && nid in Nodes(arcs) + {start}
      requires forall g :: g in open ==> Reach(arcs, nid, g)
      modifies this
      ensures SearchState(arcs, start, seen, order, open)
      ensures nid in seen && old(seen) <= seen && old(order) <= order
      decreases Nodes(arcs) + {start} - seen
    {
      if nid in seen {
        return;
      }
      seen := seen + {nid};
      var sources := SourcesOf(byTarget, nid);
      for k := 0 to |sources|
        invariant SearchState(arcs, start, seen, order, open + {nid})
        invariant nid in seen && old(seen) <= seen && old(order) <= order
        invariant forall j :: 0 <= j < k ==> sources[j] in order
      {
        var src := sources[k];
        assert src in sources;
        SourceReaches(arcs, start, open + {nid}, nid, src);
        Dfs(src, open + {nid});
        if src !in order {
          AppendSource(arcs, start, seen, order, open + {nid}, src);
          order := order + [src];
        }
      }
      forall s | (s, nid) in arcs ensures s in order {
        assert s in sources;
      }
    }
  }

  // The entries of `nm` for the listed ids, unknown ids dropped.
  function Known(order: seq<int>, nm: map<int, Node>): seq<Node> {
    if order == [] then []
    else
      var last := order[|order| - 1];
      Known(order[..|order| - 1], nm) + if last in nm then [nm[last]] else []
  }

  ghost function GroundedAmong(arcs: Arcs, keys: set<int>): set<int> {
    set i | i in keys && Grounded(arcs, i)
  }

  // The pairs joined by a path.
  ghost function Behind(arcs: Arcs): Arcs {
    set x, y | x in Nodes(arcs) && y in Nodes(arcs) && Reach(arcs, x, y) :: (x, y)
  }

  lemma BehindIsReach(arcs: Arcs, x: int, y: int)
    ensures (x, y) in Behind(arcs) <==> Reach(arcs, x, y)
  {
    if Reach(arcs, x, y) {
      var n: nat :| ReachIn(arcs, x, y, n);
      var m := ReachInLast(arcs, x, y, n);
      if n > 0 {
        var k :| (x, k) in arcs && ReachIn(arcs, k, y, n - 1);
        assert x in Nodes(arcs);
      }
    }
  }

  // `chain` holds exactly the known ancestors of `target`, each once, each ancestor that has no cycle
  // behind it after all of its own known ancestors.
  ghost predicate UpstreamChain(arcs: Arcs, nm: map<int, Node>, target: int, chain: seq<Node>) {
    && Distinct(Ids(chain))
    && (forall i :: i in Ids(chain) <==> i in nm && Reach(arcs, i, target))
    && (forall n :: n in chain ==> n.id in nm && nm[n.id] == n)
    && KnownSourcesFirst(Behind(arcs), nm.Keys, GroundedAmong(arcs, nm.Keys), Ids(chain))
  }

  // Each id in `good` comes after all of its sources among `keys`.
  ghost predicate KnownSourcesFirst(arcs: Arcs, keys: set<int>, good: set<int>, ids: seq<int>) {
    forall k, x :: 0 <= k < |ids| && ids[k] in good && x in keys && (x, ids[k]) in arcs ==> x in ids[..k]
  }

  // The ids of a list that occur among `keys`.
  ghost function Kept(order: seq<int>, keys: set<int>): seq<int> {
    if order == [] then []
    else
      var last := order[|order| - 1];
      Kept(order[..|order| - 1], keys) + if last in keys then [last] else []
  }

  lemma {:induction false} KnownAreKept(nm: map<int, Node>, order: seq<int>)
    requires forall i :: i in nm ==> nm[i].id == i
    ensures Ids(Known(order, nm)) == Kept(order, nm.Keys)
    ensures forall n :: n in Known(order, nm) ==> n.id in nm && nm[n.id] == n
  {
    if order != [] {
      var front, last := order[..|order| - 1], order[|order| - 1];
      KnownAreKept(nm, front);
      if last in nm {
        var c := Known(front, nm);
        assert (c + [nm[last]])[..|c|] == c;
      }
    }
  }

  lemma {:induction false} KeptMembers(order: seq<int>, keys: set<int>)
    ensures forall i :: i in Kept(order, keys) <==> i in keys && i in order
  {
    if order != [] {
      assert order == order[..|order| - 1] + [order[|order| - 1]];
      KeptMembers(order[..|order| - 1], keys);
    }
  }

  lemma {:induction false} KeptInOrder(arcs: Arcs, keys: set<int>, good: set<int>, order: seq<int>)
    requires Distinct(order) && KnownSourcesFirst(arcs, keys, good, order)
    ensures Distinct(Kept(order, keys)) && KnownSourcesFirst(arcs, keys, good, Kept(order, keys))
  {
    if order != [] {
      var front, last := order[..|order| - 1], order[|order| - 1];
      FrontInOrder(arcs, keys, good, order);
      KeptInOrder(arcs, keys, good, front);
      KeptMembers(front, keys);
      if last in keys {
        KeptLast(arcs, keys, good, order, Kept(front, keys), last);
        assert Kept(order, keys) == Kept(front, keys) + [last];
      } else {
        assert Kept(order, keys) == Kept(front, keys);
      }
    }
  }

  lemma FrontInOrder(arcs: Arcs, keys: set<int>, good: set<int>, order: seq<int>)
    requires order != [] && Distinct(order) && KnownSourcesFirst(arcs, keys, good, order)
    ensures Distinct(order[..|order| - 1]) && KnownSourcesFirst(arcs, keys, good, order[..|order| - 1])
  {
    var front := order[..|order| - 1];
    forall k, x | 0 <= k < |front| && front[k] in good && x in keys && (x, front[k]) in arcs ensures x in front[..k] {
      assert front[k] == order[k] && front[..k] == order[..k];
    }
  }

  lemma KeptLast(arcs: Arcs, keys: set<int>, good: set<int>, order: seq<int>, before: seq<int>, last: int)
    requires order != [] && last == order[|order| - 1] && Distinct(order)
    requires forall i :: i in before <==> i in keys && i in order[..|order| - 1]
    requires Distinct(before) && KnownSourcesFirst(arcs, keys, good, before)
    requires KnownSourcesFirst(arcs, keys, good, order)
    ensures Distinct(before + [last]) && KnownSourcesFirst(arcs, keys, good, before + [last])
  {
    var ids := before + [last];
    assert last !in before;
    forall k, x | 0 <= k < |ids| && ids[k] in good && x in keys && (x, ids[k]) in arcs ensures x in ids[..k] {
      if k < |before| {
        assert ids[..k] == before[..k];
      } else {
        assert ids[..k] == before;
      }
    }
  }

  // The sources of the input edges into each target, in edge order.
  method GroupByTarget(ins: seq<Edge>) returns (byTarget: map<int, seq<int>>)
    ensures Groups(byTarget, ArcsOf(ins))
  {
    byTarget := map[];
    for k := 0 to |ins|
      invariant forall s, t :: s in SourcesOf(byTarget, t) <==> (s, t) in ArcsOf(ins[..k])
    {
      var s, t := ins[k].source, ins[k].target;
      assert ArcsOf(ins[..k + 1]) == ArcsOf(ins[..k]) + {(s, t)} by { assert ins[..k + 1] == ins[..k] + [ins[k]]; }
      byTarget := byTarget[t := SourcesOf(byTarget, t) + [s]];
    }
    assert ins[..|ins|] == ins;
  }

  method WalkInputUpstream(edges: seq<Edge>, nodes: seq<Node>, nodeId: int) returns (chain: seq<Node>)
    ensures UpstreamChain(InputArcs(edges), NodeMap(nodes), nodeId, chain)
  {
    var nm := NodeMap(nodes);
    var ins := InputEdges(edges);
    ghost var arcs := InputArcs(edges);
    assert ArcsOf(ins) == arcs;
    var byTarget := GroupByTarget(ins);
    var walk := new UpstreamWalk(byTarget, arcs, nodeId);
    walk.Dfs(nodeId, {});
    chain := Known(walk.order, nm);
    SearchEnds(arcs, nodeId, walk.seen, walk.order, nm);
  }

  lemma {:induction false} ListedBefore(arcs: Arcs, order: seq<int>, x: int, k: nat, n: nat)
    requires GroundedAfterSources(arcs, order) && k < |order| && Grounded(arcs, order[k])
    requires ReachIn(arcs, x, order[k], n)
    ensures x in order[..k]
    decreases n
  {
    var m := ReachInLast(arcs, x, order[k], n);
    assert m in order[..k];
    if n > 0 {
      var i :| 0 <= i < k && order[i] == m;
      ReachArc(arcs, m, order[k]);
      forall b | AncestorOrSelf(arcs, b, m) ensures !OnCycle(arcs, b) {
        if b != m { ReachTrans(arcs, b, m, order[k]); }
      }
      ListedBefore(arcs, order, x, i, n - 1);
      assert order[..i] <= order[..k];
    }
  }

  lemma AncestorsFirst(arcs: Arcs, keys: set<int>, order: seq<int>)
    requires GroundedAfterSources(arcs, order)
    ensures KnownSourcesFirst(Behind(arcs), keys, GroundedAmong(arcs, keys), order)
  {
    forall k, x | 0 <= k < |order| && order[k] in GroundedAmong(arcs, keys) && (x, order[k]) in Behind(arcs)
      ensures x in order[..k]
    {
      BehindIsReach(arcs, x, order[k]);
      var n: nat :| ReachIn(arcs, x, order[k], n);
      ListedBefore(arcs, order, x, k, n);
    }
  }

  lemma SearchEnds(arcs: Arcs, start: int, seen: set<int>, order: seq<int>, nm: map<int, Node>)
    requires SearchState(arcs, start, seen, order, {}) && start in seen
    requires forall i :: i in nm ==> nm[i].id == i
    ensures UpstreamChain(arcs, nm, start, Known(order, nm))
  {
    var good := GroundedAmong(arcs, nm.Keys);
    KnownAreKept(nm, order);
    KeptMembers(order, nm.Keys);
    AncestorsFirst(arcs, nm.Keys, order);
    KeptInOrder(Behind(arcs), nm.Keys, good, order);
    forall i ensures i in order <==> Reach(arcs, i, start) {
      if Reach(arcs, i, start) { ListedAncestor(arcs, start, seen, order, i); }
    }
  }

  // When every seen node is finished, every ancestor of the start is listed.
  lemma ListedAncestor(arcs: Arcs, start: int, seen: set<int>, order: seq<int>, i: int)
    requires SearchState(arcs, start, seen, order, {}) && start in seen
    requires Reach(arcs, i, start)
    ensures i in order
  {
    forall x, y | (x, y) in arcs && y in seen ensures x in seen {
      assert Finished(arcs, order, y);
    }
    var n: nat :| ReachIn(arcs, i, start, n);
    if n == 0 {
      assert Finished(arcs, order, start);
    } else {
      var k :| (i, k) in arcs && ReachIn(arcs, k, start, n - 1);
      assert Reach(arcs, k, start);
      BackwardClosed(arcs, seen, k, start);
      assert Finished(arcs, order, k);
    }
  }

  // The docstring's order: whoever is listed earlier is no further away.
  ghost predicate NearToFar(arcs: Arcs, target: int, ids: seq<int>) {
    forall p, q, n: nat :: 0 <= p < q < |ids| && ReachIn(arcs, ids[q], target, n) ==>
      WithinReach(arcs, ids[p], target, n)
  }

  ghost predicate WithinReach(arcs: Arcs, a: int, b: int, n: nat) {
    exists m: nat :: m <= n && ReachIn(arcs, a, b, m)
  }

  lemma Nearest(arcs: Arcs, a: int, b: int, n: nat) returns (least: nat)
    requires ReachIn(arcs, a, b, n)
    ensures ReachIn(arcs, a, b, least) && forall m: nat :: m < least ==> !ReachIn(arcs, a, b, m)
    decreases n
  {
    if m: nat :| m < n && ReachIn(arcs, a, b, m) {
      least := Nearest(arcs, a, b, m);
    } else {
      least := n;
    }
  }

  // An ancestor that is no direct source is listed before the next one on its way, which is nearer.
  lemma FarBeforeNear(arcs: Arcs, nm: map<int, Node>, target: int, chain: seq<Node>, i: int)
    requires UpstreamChain(arcs, nm, target, chain) && Grounded(arcs, target)
    requires forall a :: Reach(arcs, a, target) ==> a in nm
    requires i in Ids(chain) && (i, target) !in arcs
    ensures !NearToFar(arcs, target, Ids(chain))
  {
    var ids := Ids(chain);
    var n0: nat :| ReachIn(arcs, i, target, n0);
    var n := Nearest(arcs, i, target, n0);
    assert n > 0;
    var j :| (i, j) in arcs && ReachIn(arcs, j, target, n - 1);
    assert Reach(arcs, j, target) && j in ids;
    forall b | AncestorOrSelf(arcs, b, j) ensures !OnCycle(arcs, b) {
      if b != j { ReachTrans(arcs, b, j, target); }
    }
    var q := IndexOf(ids, j);
    ReachArc(arcs, i, j);
    BehindIsReach(arcs, i, j);
    assert i in ids[..q];
    var p :| 0 <= p < q && ids[p] == i;
    assert !WithinReach(arcs, ids[p], target, n - 1);
  }

  // For a target with no cycle behind it and all its ancestors on the canvas, the chain is in the
  // docstring's order exactly when every ancestor feeds the target directly.
  lemma NearToFarIffDirect(arcs: Arcs, nm: map<int, Node>, target: int, chain: seq<Node>)
    requires UpstreamChain(arcs, nm, target, chain) && Grounded(arcs, target)
    requires forall a :: Reach(arcs, a, target) ==> a in nm
    ensures NearToFar(arcs, target, Ids(chain)) <==> forall i :: i in Ids(chain) ==> (i, target) in arcs
  {
    var ids := Ids(chain);
    if i :| i in ids && (i, target) !in arcs {
      FarBeforeNear(arcs, nm, target, chain, i);
    } else {
      forall p, q, n: nat | 0 <= p < q < |ids| && ReachIn(arcs, ids[q], target, n)
        ensures WithinReach(arcs, ids[p], target, n)
      {
        assert ReachIn(arcs, ids[p], target, 0);
      }
    }
  }

  // ---------- Canvases with gaps, and cycles ----------

  // j has a path to the target shorter than any of i.
  ghost predicate Nearer(arcs: Arcs, target: int, j: int, i: int) {
    exists n: nat :: ReachIn(arcs, j, target, n) && !WithinReach(arcs, i, target, n)
  }

  ghost predicate IsListed(arcs: Arcs, nm: map<int, Node>, target: int, i: int) {
    i in nm && Reach(arcs, i, target)
  }

  // A nearer ancestor is also an ancestor of the farther one, and so is bound to come first.
  ghost predicate NearerIsBehind(arcs: Arcs, nm: map<int, Node>, target: int) {
    forall i, j :: IsListed(arcs, nm, target, i) && IsListed(arcs, nm, target, j) && Nearer(arcs, target, j, i) ==>
      Grounded(arcs, i) && Reach(arcs, j, i)
  }

  // On any canvas, with cycles and with ancestors that are missing from it, every chain the walk may list is
  // in the docstring's order if and only if every ancestor that is nearer to the target than another feeds
  // that one, directly or through others, with no cycle behind it.
  lemma NearToFarIffNearerIsBehind(arcs: Arcs, nm: map<int, Node>, target: int)
    requires forall i :: i in nm ==> nm[i].id == i
    ensures (forall chain :: UpstreamChain(arcs, nm, target, chain) ==> NearToFar(arcs, target, Ids(chain)))
       <==> NearerIsBehind(arcs, nm, target)
  {
    if NearerIsBehind(arcs, nm, target) {
      forall chain | UpstreamChain(arcs, nm, target, chain) ensures NearToFar(arcs, target, Ids(chain)) {
        ChainIsNearToFar(arcs, nm, target, chain);
      }
    } else {
      var i, j :| IsListed(arcs, nm, target, i) && IsListed(arcs, nm, target, j) && Nearer(arcs, target, j, i)
        && !(Grounded(arcs, i) && Reach(arcs, j, i));
      var chain := ChainWithout(arcs, nm, target, i, j);
      var n: nat :| ReachIn(arcs, j, target, n) && !WithinReach(arcs, i, target, n);
      var p, q := IndexOf(Ids(chain), i), IndexOf(Ids(chain), j);
      assert ReachIn(arcs, Ids(chain)[q], target, n) && !WithinReach(arcs, Ids(chain)[p], target, n);
    }
  }

  // What is listed later is not bound to come before.
  lemma LaterIsNotBehind(arcs: Arcs, nm: map<int, Node>, target: int, chain: seq<Node>, p: nat, q: nat)
    requires UpstreamChain(arcs, nm, target, chain) && p < q < |chain|
    ensures !(Grounded(arcs, Ids(chain)[p]) && Reach(arcs, Ids(chain)[q], Ids(chain)[p]))
  {
    var ids := Ids(chain);
    var i, j := ids[p], ids[q];
    assert i in ids && j in ids;
    BehindIsReach(arcs, j, i);
    if i in GroundedAmong(arcs, nm.Keys) && (j, i) in Behind(arcs) {
      OnlyOnce(ids, p, q);
      assert false;
    }
  }

  lemma OnlyOnce(ids: seq<int>, p: nat, q: nat)
    requires Distinct(ids) && p < q < |ids|
    ensures ids[q] !in ids[..p]
  {
  }

  lemma ChainIsNearToFar(arcs: Arcs, nm: map<int, Node>, target: int, chain: seq<Node>)
    requires NearerIsBehind(arcs, nm, target) && UpstreamChain(arcs, nm, target, chain)
    ensures NearToFar(arcs, target, Ids(chain))
  {
    var ids := Ids(chain);
    forall p, q, n: nat | 0 <= p < q < |ids| && ReachIn(arcs, ids[q], target, n)
      ensures WithinReach(arcs, ids[p], target, n)
    {
      var i, j := ids[p], ids[q];
      assert i in ids && j in ids;
      LaterIsNotBehind(arcs, nm, target, chain, p, q);
      assert !Nearer(arcs, target, j, i);
    }
  }

  // Ancestors within the set come first.
  ghost predicate AncestorsWithinFirst(arcs: Arcs, s: set<int>, order: seq<int>) {
    forall k, x :: 0 <= k < |order| && Grounded(arcs, order[k]) && x in s && Reach(arcs, x, order[k]) ==>
      x in order[..k]
  }

  lemma {:induction false} BehindAddsNothing(arcs: Arcs, a: int, b: int, n: nat)
    requires ReachIn(Behind(arcs), a, b, n)
    ensures Reach(arcs, a, b)
    decreases n
  {
    if n == 0 {
      BehindIsReach(arcs, a, b);
    } else {
      var k :| (a, k) in Behind(arcs) && ReachIn(Behind(arcs), k, b, n - 1);
      BehindIsReach(arcs, a, k);
      BehindAddsNothing(arcs, k, b, n - 1);
      ReachTrans(arcs, a, k, b);
    }
  }

  ghost predicate HasAncestorIn(arcs: Arcs, s: set<int>, y: int) {
    exists x :: x in s && Reach(arcs, x, y)
  }

  // Some member of a set without cycles has no ancestor in it.
  lemma SomeFirst(arcs: Arcs, s: set<int>) returns (y: int)
    requires s != {} && forall z :: z in s ==> Grounded(arcs, z)
    ensures y in s && !HasAncestorIn(arcs, s, y)
  {
    if forall z :: z in s ==> HasAncestorIn(arcs, s, z) {
      NoneIsFirst(arcs, s);
      assert false;
    }
    y :| y in s && !HasAncestorIn(arcs, s, y);
  }

  lemma NoneIsFirst(arcs: Arcs, s: set<int>)
    requires s != {} && forall z {:trigger HasAncestorIn(arcs, s, z)} :: z in s ==> HasAncestorIn(arcs, s, z)
    ensures exists c :: c in s && OnCycle(arcs, c)
  {
    var behind := Behind(arcs);
    forall z | z in s ensures FedFrom(behind, s, z) { FedFromBehind(arcs, s, z); }
    HasMember(s);
    var y :| y in s;
    var c := CycleAmongAncestors(behind, s, y);
    BehindCycle(arcs, c);
  }

  lemma FedFromBehind(arcs: Arcs, s: set<int>, z: int)
    requires HasAncestorIn(arcs, s, z)
    ensures FedFrom(Behind(arcs), s, z)
  {
    var x :| x in s && Reach(arcs, x, z);
    BehindIsReach(arcs, x, z);
  }

  lemma BehindCycle(arcs: Arcs, c: int)
    requires OnCycle(Behind(arcs), c)
    ensures OnCycle(arcs, c)
  {
    var n: nat :| ReachIn(Behind(arcs), c, c, n);
    BehindAddsNothing(arcs, c, c, n);
  }

  // The next to list: one without ancestors, as long as there are members with no cycle behind them.
  lemma NextListed(arcs: Arcs, s: set<int>) returns (y: int)
    requires s != {}
    ensures y in s && (Grounded(arcs, y) ==> !HasAncestorIn(arcs, s, y))
  {
    var good := set x | x in s && Grounded(arcs, x);
    if good == {} {
      HasMember(s);
      y :| y in s;
      assert y !in good;
    } else {
      y := SomeFirst(arcs, good);
      if x :| x in s && Reach(arcs, x, y) {
        AncestorIsGrounded(arcs, x, y);
        assert false;
      }
    }
  }

  lemma {:induction false} AncestorsFirstListing(arcs: Arcs, s: set<int>) returns (order: seq<int>)
    ensures Lists(order, s) && AncestorsWithinFirst(arcs, s, order)
    decreases s
  {
    order := [];
    if s != {} {
      var y := NextListed(arcs, s);
      var rest := AncestorsFirstListing(arcs, s - {y});
      order := [y] + rest;
      forall k, x | 0 <= k < |order| && Grounded(arcs, order[k]) && x in s && Reach(arcs, x, order[k])
        ensures x in order[..k]
      {
        assert k > 0;
        assert order[k] == rest[k - 1] && order[..k] == [y] + rest[..k - 1];
        assert x != y ==> x in s - {y};
      }
    }
  }

  lemma AncestorIsGrounded(arcs: Arcs, x: int, y: int)
    requires Grounded(arcs, y) && Reach(arcs, x, y)
    ensures Grounded(arcs, x)
  {
    forall b | AncestorOrSelf(arcs, b, x) ensures !OnCycle(arcs, b) {
      if b != x { ReachTrans(arcs, b, x, y); }
    }
  }

  // The ancestors of i, then i, then the rest.
  lemma SplitInOrder(arcs: Arcs, keys: set<int>, listed: set<int>, before: set<int>, i: int, a: seq<int>, b: seq<int>)
    requires forall x, y :: x in keys && y in listed && Reach(arcs, x, y) ==> x in listed
    requires before <= listed && i in listed && i !in before && (Grounded(arcs, i) ==> forall x :: x in before <==>
      x in listed && Reach(arcs, x, i))
    requires forall x, g :: g in before && x in listed && Reach(arcs, x, g) ==> x in before
    requires Lists(a, before) && AncestorsWithinFirst(arcs, before, a)
    requires Lists(b, listed - before - {i}) && AncestorsWithinFirst(arcs, listed - before - {i}, b)
    ensures Lists(a + [i] + b, listed)
    ensures KnownSourcesFirst(Behind(arcs), keys, GroundedAmong(arcs, keys), a + [i] + b)
  {
    var order := a + [i] + b;
    SplitLists(listed, before, i, a, b);
    forall k, x |
      0 <= k < |order| && order[k] in GroundedAmong(arcs, keys) && x in keys && (x, order[k]) in Behind(arcs)
      ensures x in order[..k]
    {
      var g := order[k];
      assert g in order;
      BehindIsReach(arcs, x, g);
      assert x in listed;
      if k < |a| {
        assert g == a[k] && g in a && order[..k] == a[..k];
      } else if k == |a| {
        assert order[..k] == a;
      } else {
        var h := k - |a| - 1;
        assert g == b[h] && order[..k] == a + [i] + b[..h];
        assert x in listed - before - {i} ==> x in b[..h];
      }
    }
  }

  lemma SplitLists(listed: set<int>, before: set<int>, i: int, a: seq<int>, b: seq<int>)
    requires before <= listed && i in listed && i !in before
    requires Lists(a, before) && Lists(b, listed - before - {i})
    ensures Lists(a + [i] + b, listed)
  {
    DistinctSnoc(a, i);
    var front := a + [i];
    forall p, q | 0 <= p < q < |front + b| ensures (front + b)[p] != (front + b)[q] {
      if q >= |front| { assert b[q - |front|] in b; }
      if p < |front| { assert front[p] in front; }
    }
  }

  lemma {:induction false} AllAreKept(order: seq<int>, keys: set<int>)
    requires forall x :: x in order ==> x in keys
    ensures Kept(order, keys) == order
  {
    if order != [] {
      var front, last := order[..|order| - 1], order[|order| - 1];
      assert order == front + [last] && last in order;
      AllAreKept(front, keys);
    }
  }

  // Unless j is bound to come before i, some chain lists it after.
  lemma ChainWithout(arcs: Arcs, nm: map<int, Node>, target: int, i: int, j: int) returns (chain: seq<Node>)
    requires forall k :: k in nm ==> nm[k].id == k
    requires IsListed(arcs, nm, target, i) && IsListed(arcs, nm, target, j) && i != j
    requires !(Grounded(arcs, i) && Reach(arcs, j, i))
    ensures UpstreamChain(arcs, nm, target, chain) && i in Ids(chain) && j in Ids(chain)
    ensures IndexOf(Ids(chain), i) < IndexOf(Ids(chain), j)
  {
    var listed := set x | x in nm.Keys && Reach(arcs, x, target);
    var before := set x | x in listed && Grounded(arcs, i) && Reach(arcs, x, i);
    var a := AncestorsFirstListing(arcs, before);
    var b := AncestorsFirstListing(arcs, listed - before - {i});
    forall x, y | x in nm.Keys && y in listed && Reach(arcs, x, y) ensures x in listed {
      ReachTrans(arcs, x, y, target);
    }
    forall x, g | g in before && x in listed && Reach(arcs, x, g) ensures x in before {
      ReachTrans(arcs, x, g, i);
    }
    assert i !in before by { assert AncestorOrSelf(arcs, i, i); }
    SplitInOrder(arcs, nm.Keys, listed, before, i, a, b);
    chain := OrderedChain(arcs, nm, target, a + [i] + b);
    Follows(a, i, b, j);
  }

  lemma Follows(a: seq<int>, i: int, b: seq<int>, j: int)
    requires j in a + [i] + b && j !in a && j != i
    ensures i in a + [i] + b && IndexOf(a + [i] + b, i) < IndexOf(a + [i] + b, j)
  {
    var order := a + [i] + b;
    assert order[|a|] == i;
    IndexIsFirst(order, i, |a|);
    var q := IndexOf(order, j);
    assert forall k :: 0 <= k < |a| ==> order[k] == a[k] && a[k] in a;
    assert q > |a|;
  }

  // Any order of the known ancestors that respects the paths among them is a chain.
  lemma OrderedChain(arcs: Arcs, nm: map<int, Node>, target: int, order: seq<int>) returns (chain: seq<Node>)
    requires forall k :: k in nm ==> nm[k].id == k
    requires Distinct(order) && forall x :: x in order <==> x in nm.Keys && Reach(arcs, x, target)
    requires KnownSourcesFirst(Behind(arcs), nm.Keys, GroundedAmong(arcs, nm.Keys), order)
    ensures UpstreamChain(arcs, nm, target, chain) && Ids(chain) == order
  {
    chain := Known(order, nm);
    KnownAreKept(nm, order);
    AllAreKept(order, nm.Keys);
  }

  // So on 1 -> 2 -> 3 every chain that meets the contract starts at the far end.
  lemma ChainStartsFar(nm: map<int, Node>, chain: seq<Node>)
    requires nm.Keys == {1, 2, 3}
    requires UpstreamChain({(1, 2), (2, 3)}, nm, 3, chain)
    ensures 1 in Ids(chain) && 2 in Ids(chain) && IndexOf(Ids(chain), 1) < IndexOf(Ids(chain), 2)
  {
    var arcs: Arcs := {(1, 2), (2, 3)};
    RankedIsAcyclic(arcs, (x: int) => x);
    forall a, b | Reach(arcs, a, b) ensures a < b <= 3 {
      var n: nat :| ReachIn(arcs, a, b, n);
      RankClimbs(arcs, (x: int) => x, a, b, n);
      var m := ReachInLast(arcs, a, b, n);
    }
    ReachArc(arcs, 1, 2);
    ReachArc(arcs, 2, 3);
    ReachTrans(arcs, 1, 2, 3);
    assert Grounded(arcs, 2);
    BehindIsReach(arcs, 1, 2);
    var near := IndexOf(Ids(chain), 2);
    assert 1 in Ids(chain)[..near];
  }

  // ---------- Downstream ----------

  // The arcs estimate_downstream_cost follows: an end that reads as 0 is skipped.
  function ProperArcs(edges: seq<Edge>): Arcs {
    set e | e in edges && e.dep.Input? && e.source != 0 && e.target != 0 :: (e.source, e.target)
  }

  ghost function Descendants(arcs: Arcs, a: int): set<int> {
    set x | x in Nodes(arcs) && Reach(arcs, a, x)
  }

  lemma DescendantsAreReached(arcs: Arcs, a: int, x: int)
    ensures x in Descendants(arcs, a) <==> Reach(arcs, a, x)
  {
    if Reach(arcs, a, x) {
      var m := ReachLast(arcs, a, x);
      assert (m, x) in arcs;
    }
  }

  // What a downstream node adds to the estimate: nothing unless it is still to be submitted, else the default
  // cost of its model; a compose node counts as a video.
  ghost function PendingCost(nm: map<int, Node>, i: int): nat {
    if i !in nm || !(nm[i].status in {Idle, Stale} || nm[i].status.OtherStatus?) then 0
    else match nm[i].ntype
      case Director | OtherType(_) => 0
      case Compose => 30
      case _ => match nm[i].creative
        case Clip | Composite => 30
        case Voice => 10
        case Script | Shot | Character | Keyframe => 8
        case _ => if nm[i].ntype.Video? then 30 else if nm[i].ntype.Audio? then 10 else 8
  }

  function TargetsOf(adj: map<int, seq<int>>, s: int): seq<int> {
    if s in adj then adj[s] else []
  }

  method GroupBySource(ins: seq<Edge>) returns (adj: map<int, seq<int>>)
    requires forall e :: e in ins ==> e.dep.Input?
    ensures forall s, t :: t in TargetsOf(adj, s) <==> (s, t) in ProperArcs(ins)
  {
    adj := map[];
    for k := 0 to |ins|
      invariant forall s, t :: t in TargetsOf(adj, s) <==> (s, t) in ProperArcs(ins[..k])
    {
      var s, t := ins[k].source, ins[k].target;
      assert ins[..k + 1] == ins[..k] + [ins[k]];
      if s != 0 && t != 0 {
        assert ProperArcs(ins[..k + 1]) == ProperArcs(ins[..k]) + {(s, t)};
        adj := adj[s := TargetsOf(adj, s) + [t]];
      } else {
        assert ProperArcs(ins[..k + 1]) == ProperArcs(ins[..k]);
      }
    }
    assert ins[..|ins|] == ins;
  }

  // One pop of the search: the targets not met before are marked and pushed.
  method PushTargets(targets: seq<int>, seen0: set<int>, stack0: seq<int>) returns (seen: set<int>, stack: seq<int>)
    ensures seen == seen0 + Elems(targets)
    ensures forall v :: v in stack <==> v in stack0 || (v in seen && v !in seen0)
    ensures seen == seen0 ==> stack == stack0
  {
    seen, stack := seen0, stack0;
    for k := 0 to |targets|
      invariant seen == seen0 + Elems(targets[..k])
      invariant forall v :: v in stack <==> v in stack0 || (v in seen && v !in seen0)
      invariant seen == seen0 ==> stack == stack0
    {
      var nxt := targets[k];
      assert Elems(targets[..k + 1]) == Elems(targets[..k]) + {nxt};
      if nxt !in seen {
        seen, stack := seen + {nxt}, stack + [nxt];
      }
    }
    assert targets[..|targets|] == targets;
  }

  // The nodes met so far are descendants, and only those still stacked may lead to new ones.
  ghost predicate Frontier(arcs: Arcs, start: int, seen: set<int>, stack: seq<int>) {
    && (forall v :: v in seen ==> Reach(arcs, start, v))
    && (forall v :: v in stack ==> v == start || v in seen)
    && (forall v, t :: (v == start || v in seen) && v !in stack && (v, t) in arcs ==> t in seen)
  }

  lemma PopKeepsFrontier(arcs: Arcs, start: int, seen0: set<int>, stack0: seq<int>, cur: int, targets: seq<int>,
                         seen: set<int>, stack: seq<int>)
    requires Frontier(arcs, start, seen0, stack0 + [cur])
    requires forall t :: t in targets <==> (cur, t) in arcs
    requires seen == seen0 + Elems(targets)
    requires forall v :: v in stack <==> v in stack0 || (v in seen && v !in seen0)
    ensures Frontier(arcs, start, seen, stack)
    ensures seen <= seen0 + Nodes(arcs)
  {
    assert cur in stack0 + [cur];
    assert forall v :: v in stack0 ==> v in stack0 + [cur];
    forall v | v in seen ensures Reach(arcs, start, v) {
      if v !in seen0 {
        ReachArc(arcs, cur, v);
        if cur != start { ReachTrans(arcs, start, cur, v); }
      }
    }
    forall t | t in targets ensures t in Nodes(arcs) {
      assert (cur, t) in arcs;
    }
    forall v, t | (v == start || v in seen) && v !in stack && (v, t) in arcs ensures t in seen {
      if v == cur {
        assert t in targets;
      } else {
        assert v !in stack0 + [cur];
      }
    }
  }

  // The stack search: every id it meets, the start only if a cycle leads back to it.
  method VisitDownstream(adj: map<int, seq<int>>, nodeId: int, ghost arcs: Arcs) returns (seen: set<int>)
    requires forall s, t :: t in TargetsOf(adj, s) <==> (s, t) in arcs
    ensures seen == Descendants(arcs, nodeId)
  {
    seen := {};
    var stack := [nodeId];
    while stack != []
      invariant seen <= Nodes(arcs)
      invariant Frontier(arcs, nodeId, seen, stack)
      decreases Nodes(arcs) - seen, |stack|
    {
      var cur := stack[|stack| - 1];
      assert stack == stack[..|stack| - 1] + [cur];
      ghost var seen0, stack0 := seen, stack[..|stack| - 1];
      seen, stack := PushTargets(TargetsOf(adj, cur), seen, stack[..|stack| - 1]);
      PopKeepsFrontier(arcs, nodeId, seen0, stack0, cur, TargetsOf(adj, cur), seen, stack);
    }
    forall x ensures x in seen <==> x in Descendants(arcs, nodeId) {
      DescendantsAreReached(arcs, nodeId, x);
      if Reach(arcs, nodeId, x) { SeenIsClosed(arcs, seen, nodeId, x); }
    }
  }

  ghost function CostIn(nm: map<int, Node>): int -> int {
    i => PendingCost(nm, i)
  }

  method SumPending(ids: set<int>, nm: map<int, Node>) returns (total: nat)
    ensures total == Sum(ids, CostIn(nm))
  {
    total := 0;
    var order := AnyOrder(ids);
    ghost var done: set<int> := {};
    for k := 0 to |order|
      invariant forall x :: x in done <==> x in order[..k]
      invariant total == Sum(done, CostIn(nm))
    {
      var nid := order[k];
      SumAdd(done, CostIn(nm), nid);
      done := done + {nid};
      if nid in nm && Submittable(nm[nid]) {
        total := total + DefaultCost(ModelType(nm[nid]));
      }
    }
    assert order[..|order|] == order;
    assert done == ids by {
      assert forall x :: x in done <==> x in ids;
    }
  }

  method EstimateDownstreamCost(nodeId: int, nodes: seq<Node>, edges: seq<Edge>) returns (total: nat)
    ensures total == Sum(Descendants(ProperArcs(edges), nodeId), CostIn(NodeMap(nodes)))
  {
    var nm := NodeMap(nodes);
    if nodes == [] {
      SumZero(Descendants(ProperArcs(edges), nodeId), CostIn(nm));
      return 0;
    }
    var ins := InputEdges(edges);
    assert ProperArcs(ins) == ProperArcs(edges);
    var adj := GroupBySource(ins);
    var seen := VisitDownstream(adj, nodeId, ProperArcs(edges));
    total := SumPending(seen, nm);
  }

  lemma {:induction false} SumZero(s: set<int>, f: int -> int)
    requires forall x :: x in s ==> f(x) == 0
    ensures Sum(s, f) == 0
    decreases s
  {
    if s != {} {
      HasMember(s);
      var x :| x in s;
      SumRemove(s, f, x);
      SumZero(s - {x}, f);
    }
  }

  lemma SeenIsClosed(arcs: Arcs, seen: set<int>, start: int, x: int)
    requires forall v, t :: v in seen + {start} && (v, t) in arcs ==> t in seen
    requires Reach(arcs, start, x)
    ensures x in seen
  {
    var n: nat :| ReachIn(arcs, start, x, n);
    if n > 0 {
      var k :| (start, k) in arcs && ReachIn(arcs, k, x, n - 1);
      assert Reach(arcs, k, x);
      ForwardClosed(arcs, seen, k, x);
    }
  }

  // ---------- The two closures against each other ----------

  // walk_input_upstream lists y for x exactly when estimate_downstream_cost visits x from y, for all
  // pairs, if and only if no input edge has an end that reads as 0.
  lemma ClosuresAreConverse(edges: seq<Edge>)
    ensures (forall x, y :: Reach(InputArcs(edges), y, x) <==> x in Descendants(ProperArcs(edges), y))
       <==> (forall e :: e in edges && e.dep.Input? ==> e.source != 0 && e.target != 0)
  {
    var all, proper := InputArcs(edges), ProperArcs(edges);
    forall x, y { DescendantsAreReached(proper, y, x); }
    if forall e :: e in edges && e.dep.Input? ==> e.source != 0 && e.target != 0 {
      assert all == proper;
    } else {
      var e :| e in edges && e.dep.Input? && (e.source == 0 || e.target == 0);
      ReachArc(all, e.source, e.target);
      if Reach(proper, e.source, e.target) {
        var n: nat :| ReachIn(proper, e.source, e.target, n);
        var m := ReachInLast(proper, e.source, e.target, n);
        ZeroHasNoArcs(edges, e.source, e.target, n);
      }
    }
  }

  lemma ZeroHasNoArcs(edges: seq<Edge>, a: int, b: int, n: nat)
    requires ReachIn(ProperArcs(edges), a, b, n)
    ensures a != 0 && b != 0
  {
    var m := ReachInLast(ProperArcs(edges), a, b, n);
  }
}
