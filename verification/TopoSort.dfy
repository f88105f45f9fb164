// Kahn's queue over the input edges among a requested set of node ids, with the rest appended.

module TopoSort {
  import opened Collections
  import opened Graph

  // The ids without a cycle among their ancestors come first, each after all of its sources.
  ghost predicate GroundedFirst(arcs: Arcs, order: seq<int>) {
    && (forall i, j :: 0 <= i < j < |order| && Grounded(arcs, order[j]) ==> Grounded(arcs, order[i]))
    && (forall k, x :: 0 <= k < |order| && Grounded(arcs, order[k]) && (x, order[k]) in arcs ==> x in order[..k])
  }

  // The edges with both ends in `ids`.
  function EdgesAmong(edges: seq<Edge>, ids: set<int>): (r: seq<Edge>)
    ensures forall e :: e in r <==> e in edges && e.source in ids && e.target in ids
  {
    if edges == [] then []
    else if edges[0].source in ids && edges[0].target in ids then [edges[0]] + EdgesAmong(edges[1..], ids)
    else EdgesAmong(edges[1..], ids)
  }

  // The targets of the edges out of s, in edge order, one entry per edge.
  ghost function TargetsFrom(es: seq<Edge>, s: int): seq<int> {
    if es == [] then []
    else
      var last := es[|es| - 1];
      TargetsFrom(es[..|es| - 1], s) + if last.source == s then [last.target] else []
  }

  // How many edges into t still wait for a source outside `done`.
  ghost function Waiting(es: seq<Edge>, t: int, done: set<int>): nat {
    if es == [] then 0
    else
      var last := es[|es| - 1];
      Waiting(es[..|es| - 1], t, done) + if last.target == t && last.source !in done then 1 else 0
  }

  lemma {:induction false} WaitingZero(es: seq<Edge>, t: int, done: set<int>)
    ensures Waiting(es, t, done) == 0 <==> forall e :: e in es && e.target == t ==> e.source in done
  {
    if es != [] {
      WaitingZero(es[..|es| - 1], t, done);
      assert es == es[..|es| - 1] + [es[|es| - 1]];
    }
  }

  lemma {:induction false} WaitingReleased(es: seq<Edge>, t: int, done: set<int>, n: int)
    requires n !in done
    ensures Waiting(es, t, done) == Waiting(es, t, done + {n}) + multiset(TargetsFrom(es, n))[t]
  {
    if es != [] {
      WaitingReleased(es[..|es| - 1], t, done, n);
    }
  }

  lemma {:induction false} TargetsAreTargets(es: seq<Edge>, s: int, t: int)
    requires t in TargetsFrom(es, s)
    ensures exists e :: e in es && e.source == s && e.target == t
  {
    var last := es[|es| - 1];
    if last.source == s && last.target == t {
      assert last in es;
    } else {
      TargetsAreTargets(es[..|es| - 1], s, t);
      var e :| e in es[..|es| - 1] && e.source == s && e.target == t;
      assert e in es;
    }
  }

  method CountInputs(ins: seq<Edge>, ids: set<int>) returns (indeg: map<int, int>, adj: map<int, seq<int>>)
    requires forall e :: e in ins ==> e.source in ids && e.target in ids
    ensures indeg.Keys == ids && forall t :: t in ids ==> indeg[t] == Waiting(ins, t, {})
    ensures adj.Keys == ids && forall s :: s in ids ==> adj[s] == TargetsFrom(ins, s)
  {
    indeg := map i | i in ids :: 0;
    adj := map i | i in ids :: [];
    for k := 0 to |ins|
      invariant indeg.Keys == ids && forall t :: t in ids ==> indeg[t] == Waiting(ins[..k], t, {})
      invariant adj.Keys == ids && forall s :: s in ids ==> adj[s] == TargetsFrom(ins[..k], s)
    {
      var s, t := ins[k].source, ins[k].target;
      assert ins[..k + 1][..k] == ins[..k];
      adj := adj[s := adj[s] + [t]];
      indeg := indeg[t := indeg[t] + 1];
    }
    assert ins[..|ins|] == ins;
  }

  // The ids whose in-degree is exhausted are those already emitted and those in the queue.
  ghost predicate Frontier(ids: set<int>, indeg: map<int, int>, q: seq<int>, done: set<int>) {
    && indeg.Keys == ids && done <= ids
    && Distinct(q)
    && (forall i :: i in q ==> i in ids && i !in done)
    && (forall i :: i in ids ==> (indeg[i] == 0 <==> i in done || i in q))
  }

  method InitialQueue(ids: set<int>, indeg: map<int, int>) returns (q: seq<int>)
    requires indeg.Keys == ids
    ensures Frontier(ids, indeg, q, {})
  {
    q := [];
    var order := AnyOrder(ids);
    for k := 0 to |order|
      invariant Distinct(q)
      invariant forall i :: i in q <==> i in order[..k] && indeg[i] == 0
    {
      var i := order[k];
      assert i in order && i in indeg.Keys;
      if indeg[i] == 0 { q := q + [i]; }
    }
    assert order[..|order|] == order;
  }

  // After n was emitted, every edge out of n stops waiting.
  method Release(ghost ins: seq<Edge>, ghost ids: set<int>, ghost done: set<int>, targets: seq<int>,
                 indeg0: map<int, int>, q0: seq<int>)
    returns (indeg: map<int, int>, q: seq<int>)
    requires Frontier(ids, indeg0, q0, done)
    requires forall t :: t in targets ==> t in ids
    requires forall t :: t in ids ==> indeg0[t] == Waiting(ins, t, done) + multiset(targets)[t]
    ensures Frontier(ids, indeg, q, done)
    ensures forall t :: t in ids ==> indeg[t] == Waiting(ins, t, done)
  {
    indeg, q := indeg0, q0;
    assert targets[0..] == targets;
    for j := 0 to |targets|
      invariant Frontier(ids, indeg, q, done)
      invariant forall t :: t in ids ==> indeg[t] == Waiting(ins, t, done) + multiset(targets[j..])[t]
    {
      var nxt := targets[j];
      assert targets[j..] == [nxt] + targets[j + 1..];
      assert multiset(targets[j..]) == multiset{nxt} + multiset(targets[j + 1..]);
      indeg := indeg[nxt := indeg[nxt] - 1];
      if indeg[nxt] == 0 { q := q + [nxt]; }
    }
  }

  // The queue phase.
  method Drain(ins: seq<Edge>, ghost ids: set<int>, adj: map<int, seq<int>>, indeg0: map<int, int>, q0: seq<int>)
    returns (out: seq<int>)
    requires forall e :: e in ins ==> e.source in ids && e.target in ids
    requires adj.Keys == ids && forall s :: s in ids ==> adj[s] == TargetsFrom(ins, s)
    requires Frontier(ids, indeg0, q0, {})
    requires forall t :: t in ids ==> indeg0[t] == Waiting(ins, t, {})
    ensures Distinct(out) && Elems(out) <= ids
    ensures SourcesFirst(ArcsOf(ins), out)
    ensures forall t :: t in ids - Elems(out) ==> FedFrom(ArcsOf(ins), ids - Elems(out), t)
  {
    var indeg, q := indeg0, q0;
    out := [];
    ghost var done: set<int> := {};
    while q != []
      invariant Frontier(ids, indeg, q, done)
      invariant done == Elems(out) && Distinct(out)
      invariant forall t :: t in ids ==> indeg[t] == Waiting(ins, t, done)
      invariant SourcesFirst(ArcsOf(ins), out)
      decreases ids - done
    {
      var n := q[0];
      assert forall i :: i in q <==> i == n || i in q[1..];
      ReleasePreparation(ins, ids, done, n);
      EmitNext(ins, out, n);
      q, out, done := q[1..], out + [n], done + {n};
      indeg, q := Release(ins, ids, done, adj[n], indeg, q);
    }
    forall t | t in ids - Elems(out) ensures FedFrom(ArcsOf(ins), ids - Elems(out), t) {
      WaitingZero(ins, t, done);
      var e :| e in ins && e.target == t && e.source !in done;
      assert (e.source, t) in ArcsOf(ins);
    }
  }

  lemma ReleasePreparation(ins: seq<Edge>, ids: set<int>, done: set<int>, n: int)
    requires forall e :: e in ins ==> e.source in ids && e.target in ids
    requires n !in done
    ensures forall t :: t in TargetsFrom(ins, n) ==> t in ids
    ensures forall t :: Waiting(ins, t, done) == Waiting(ins, t, done + {n}) + multiset(TargetsFrom(ins, n))[t]
  {
    forall t | t in TargetsFrom(ins, n) ensures t in ids {
      TargetsAreTargets(ins, n, t);
    }
    forall t { WaitingReleased(ins, t, done, n); }
  }

  lemma EmitNext(ins: seq<Edge>, out: seq<int>, n: int)
    requires SourcesFirst(ArcsOf(ins), out)
    requires Waiting(ins, n, Elems(out)) == 0
    ensures SourcesFirst(ArcsOf(ins), out + [n])
  {
    WaitingZero(ins, n, Elems(out));
    var next := out + [n];
    forall k, x | 0 <= k < |next| && (x, next[k]) in ArcsOf(ins) ensures x in next[..k] {
      if k < |out| {
        assert next[..k] == out[..k];
      } else {
        assert next[..k] == out;
      }
    }
  }

  // Whatever a cycle kept out of the queue is appended.
  method AppendRest(ids: set<int>, emitted: seq<int>) returns (out: seq<int>)
    requires Distinct(emitted) && Elems(emitted) <= ids
    ensures emitted <= out && Lists(out, ids)
  {
    out := emitted;
    var order := AnyOrder(ids);
    for k := 0 to |order|
      invariant emitted <= out && Distinct(out)
      invariant forall i :: i in out ==> i in ids
      invariant forall j :: 0 <= j < k ==> order[j] in out
    {
      assert order[k] in order;
      if order[k] !in out { out := out + [order[k]]; }
    }
  }

  // topo_sort_executable: whatever order the sets are walked in, the result is a permutation of the
  // requested ids that starts with exactly those without a cycle among their ancestors.
  method TopoSortExecutable(edges: seq<Edge>, nodeIds: seq<int>) returns (out: seq<int>)
    ensures Lists(out, Elems(nodeIds))
    ensures GroundedFirst(Induced(InputArcs(edges), Elems(nodeIds)), out)
  {
    var ids := set x | x in nodeIds;
    var ins := EdgesAmong(InputEdges(edges), ids);
    assert ArcsOf(ins) == Induced(InputArcs(edges), ids);
    var indeg, adj := CountInputs(ins, ids);
    var q := InitialQueue(ids, indeg);
    var emitted := Drain(ins, ids, adj, indeg, q);
    out := AppendRest(ids, emitted);
    EmittedComeFirst(ArcsOf(ins), ids, emitted, out);
  }

  lemma EmittedComeFirst(arcs: Arcs, ids: set<int>, emitted: seq<int>, out: seq<int>)
    requires Elems(emitted) <= ids && emitted <= out && Lists(out, ids)
    requires SourcesFirst(arcs, emitted)
    requires forall t :: t in ids - Elems(emitted) ==> FedFrom(arcs, ids - Elems(emitted), t)
    ensures GroundedFirst(arcs, out)
  {
    assert forall i :: 0 <= i < |emitted| ==> emitted[i] == out[i];
    EmittedAreGrounded(arcs, ids, emitted);
    forall k | 0 <= k < |out| ensures Grounded(arcs, out[k]) <==> k < |emitted| {
      assert out[k] in out;
      assert out[k] in emitted ==> exists j :: 0 <= j < |emitted| && out[j] == out[k];
    }
    forall k, x | 0 <= k < |emitted| && (x, out[k]) in arcs ensures x in out[..k] {
      assert out[k] == emitted[k] && out[..k] == emitted[..k];
    }
  }

  lemma EmittedAreGrounded(arcs: Arcs, ids: set<int>, emitted: seq<int>)
    requires Distinct(emitted) && Elems(emitted) <= ids
    requires SourcesFirst(arcs, emitted)
    requires forall t :: t in ids - Elems(emitted) ==> FedFrom(arcs, ids - Elems(emitted), t)
    ensures forall i :: i in ids ==> (i in emitted <==> Grounded(arcs, i))
  {
    forall i | i in ids ensures i in emitted <==> Grounded(arcs, i) {
      if i in emitted {
        SourcesFirstIsGrounded(arcs, emitted, i);
      } else {
        var c := CycleAmongAncestors(arcs, ids - Elems(emitted), i);
      }
    }
  }

  // Without cycles every input edge points forward in the result.
  lemma AcyclicOrderPointsForward(arcs: Arcs, order: seq<int>)
    requires GroundedFirst(arcs, order) && Acyclic(arcs)
    ensures SourcesFirst(arcs, order)
  {
    assert forall a :: Grounded(arcs, a);
  }
}
