// Which nodes may be submitted now: find_submittable_nodes and plan_downstream_submits.

module Scheduler {
  import opened Collections
  import opened Graph
  import opened TopoSort
  import opened Canvas

  type NodeTable = map<int, Node>

  // The sources of the input edges into t, one entry per edge; a source that reads as 0 is skipped.
  function InputSources(edges: seq<Edge>, t: int): seq<int> {
    if edges == [] then []
    else
      var e := edges[|edges| - 1];
      InputSources(edges[..|edges| - 1], t) + if e.dep.Input? && e.target == t && e.source != 0 then [e.source] else []
  }

  // The same relation as arcs.
  function SourceArcs(edges: seq<Edge>): Arcs {
    set e | e in edges && e.dep.Input? && e.source != 0 :: (e.source, e.target)
  }

  lemma {:induction false} InputSourcesAreArcs(edges: seq<Edge>, t: int)
    ensures forall s :: s in InputSources(edges, t) <==> (s, t) in SourceArcs(edges)
  {
    if edges != [] {
      InputSourcesAreArcs(edges[..|edges| - 1], t);
      assert edges == edges[..|edges| - 1] + [edges[|edges| - 1]];
    }
  }

  // A source that is not on the canvas reads as idle, so it is not ready.
  predicate IsReady(nm: NodeTable, i: int) {
    i in nm && ReadyStatus(nm[i].status)
  }

  predicate InputsReady(nm: NodeTable, edges: seq<Edge>, t: int) {
    forall s :: s in InputSources(edges, t) ==> IsReady(nm, s)
  }

  // The node can run and nothing it needs is missing; a compose node needs two inputs or more.
  predicate Enabled(nm: NodeTable, edges: seq<Edge>, n: Node) {
    && Submittable(n)
    && InputsReady(nm, edges, n.id)
    && (n.ntype.Compose? ==> |InputSources(edges, n.id)| >= 2)
  }

  predicate Feeds(edges: seq<Edge>, s: int, t: int) {
    exists e :: e in edges && e.dep.Input? && e.source == s && e.target == t
  }

  // What a scan offers: with `of` set, only direct children of that node.
  predicate Offered(nm: NodeTable, edges: seq<Edge>, of: Option<int>, n: Node) {
    Enabled(nm, edges, n) && (of.Some? ==> Feeds(edges, of.value, n.id))
  }

  // Some entry of the list with this id is offered.
  ghost predicate OfferedId(nodes: seq<Node>, edges: seq<Edge>, of: Option<int>, i: int) {
    exists n :: n in nodes && n.id == i && Offered(NodeMap(nodes), edges, of, n)
  }

  // ---------- What an offer means ----------

  // The k-th entry is the last one with the id i: the one the scheduler goes by.
  ghost predicate IsEntry(nodes: seq<Node>, k: int, i: int) {
    0 <= k < |nodes| && nodes[k].id == i && forall j :: k < j < |nodes| ==> nodes[j].id != i
  }

  lemma {:induction false} LastEntry(nodes: seq<Node>, i: int) returns (k: int)
    requires i in NodeMap(nodes)
    ensures IsEntry(nodes, k, i)
  {
    var front, last := nodes[..|nodes| - 1], nodes[|nodes| - 1];
    if last.id == i {
      k := |front|;
    } else {
      k := LastEntry(front, i);
      assert nodes[k] == front[k];
    }
  }

  lemma {:induction false} EntryIs(nodes: seq<Node>, k: int, i: int)
    requires IsEntry(nodes, k, i)
    ensures i in NodeMap(nodes) && NodeMap(nodes)[i] == nodes[k]
  {
    var front, last := nodes[..|nodes| - 1], nodes[|nodes| - 1];
    if k < |front| {
      assert front[k] == nodes[k] && last.id != i;
      EntryIs(front, k, i);
    }
  }

  ghost predicate HasResult(nodes: seq<Node>, i: int) {
    exists k :: IsEntry(nodes, k, i) && nodes[k].status in {Ready, Succeeded, Success}
  }

  // An input edge into t from a node with a proper id.
  ghost predicate Supplies(e: Edge, t: int) {
    e.dep.Input? && e.target == t && e.source != 0
  }

  ghost predicate Unrun(n: Node) {
    && (n.status in {Idle, Stale} || n.status.OtherStatus?)
    && n.ntype in {Text, Image, Video, Audio, NodeType.Compose}
  }

  lemma UnrunMeans(n: Node)
    ensures Submittable(n) <==> Unrun(n)
  {
  }

  ghost predicate AllSupplied(nodes: seq<Node>, edges: seq<Edge>, t: int) {
    forall e :: e in edges && Supplies(e, t) ==> HasResult(nodes, e.source)
  }

  ghost predicate TwoSupply(edges: seq<Edge>, t: int) {
    exists j, k :: 0 <= j < k < |edges| && Supplies(edges[j], t) && Supplies(edges[k], t)
  }

  // The node has not been run, is of a type that can be, and has what it needs: every source has a result, a
  // compose node has two inputs, and after a task the node is a child of the one that ended.
  ghost predicate MayRun(nodes: seq<Node>, edges: seq<Edge>, of: Option<int>, n: Node) {
    && Unrun(n)
    && AllSupplied(nodes, edges, n.id)
    && (n.ntype.Compose? ==> TwoSupply(edges, n.id))
    && (of.Some? ==> Edge(of.value, n.id, Input) in edges)
  }

  ghost predicate IdMayRun(nodes: seq<Node>, edges: seq<Edge>, of: Option<int>, i: int) {
    exists n :: n in nodes && n.id == i && MayRun(nodes, edges, of, n)
  }

  lemma ReadyHasResult(nodes: seq<Node>, i: int)
    ensures IsReady(NodeMap(nodes), i) <==> HasResult(nodes, i)
  {
    if i in NodeMap(nodes) {
      var k := LastEntry(nodes, i);
      EntryIs(nodes, k, i);
    }
    if HasResult(nodes, i) {
      var k :| IsEntry(nodes, k, i) && nodes[k].status in {Ready, Succeeded, Success};
      EntryIs(nodes, k, i);
    }
  }

  lemma {:induction false} SuppliesCount(edges: seq<Edge>, t: int)
    ensures |InputSources(edges, t)| >= 1 <==> exists k :: 0 <= k < |edges| && Supplies(edges[k], t)
    ensures |InputSources(edges, t)| >= 2 <==> TwoSupply(edges, t)
  {
    if edges != [] {
      var front, n := edges[..|edges| - 1], |edges| - 1;
      SuppliesCount(front, t);
      assert forall k :: 0 <= k < n ==> front[k] == edges[k];
      if k :| 0 <= k < n && Supplies(front[k], t) {
        assert Supplies(edges[k], t);
      }
      if j, k :| 0 <= j < k < n && Supplies(front[j], t) && Supplies(front[k], t) {
        assert Supplies(edges[j], t) && Supplies(edges[k], t);
      }
    }
  }

  lemma InputsReadyMeans(nodes: seq<Node>, edges: seq<Edge>, t: int)
    ensures InputsReady(NodeMap(nodes), edges, t) <==> AllSupplied(nodes, edges, t)
  {
    InputSourcesAreArcs(edges, t);
    forall s ensures IsReady(NodeMap(nodes), s) <==> HasResult(nodes, s) {
      ReadyHasResult(nodes, s);
    }
    forall e | e in edges && Supplies(e, t) ensures e.source in InputSources(edges, t) {
      assert (e.source, e.target) in SourceArcs(edges);
    }
    forall s | s in InputSources(edges, t) ensures exists e :: e in edges && Supplies(e, t) && e.source == s {
      var e :| e in edges && e.dep.Input? && e.source != 0 && (e.source, e.target) == (s, t);
    }
  }

  lemma FeedsMeans(edges: seq<Edge>, s: int, t: int)
    ensures Feeds(edges, s, t) <==> Edge(s, t, Input) in edges
  {
    if Feeds(edges, s, t) {
      var e :| e in edges && e.dep.Input? && e.source == s && e.target == t;
      assert e == Edge(s, t, Input);
    }
  }

  lemma OfferMeans(nodes: seq<Node>, edges: seq<Edge>, of: Option<int>, n: Node)
    ensures Offered(NodeMap(nodes), edges, of, n) <==> MayRun(nodes, edges, of, n)
  {
    UnrunMeans(n);
    InputsReadyMeans(nodes, edges, n.id);
    SuppliesCount(edges, n.id);
    if of.Some? { FeedsMeans(edges, of.value, n.id); }
  }

  // An id is offered exactly when one of its entries may run.
  lemma OfferedMeans(nodes: seq<Node>, edges: seq<Edge>, of: Option<int>, i: int)
    ensures OfferedId(nodes, edges, of, i) <==> IdMayRun(nodes, edges, of, i)
  {
    forall n | n in nodes ensures Offered(NodeMap(nodes), edges, of, n) <==> MayRun(nodes, edges, of, n) {
      OfferMeans(nodes, edges, of, n);
    }
  }

  // What is asked for a node: by which tool, of which model, at which price.
  ghost predicate Asks(n: Node, videoPrice: nat, a: Submission) {
    && Unrun(n) && a.nodeId == n.id
    && match n.ntype
       case Compose => a.tool == ComposeFinal && a.model == NodeType.Compose && a.cost == 15
       case _ =>
         && a.tool == SubmitGeneration
         && a.cost == (if a.model.Video? then videoPrice else if a.model.Audio? then 10 else 8)
         && match n.creative
            case Keyframe => a.model == Image
            case Clip | Composite => a.model == Video
            case Voice => a.model == Audio
            case Script | Shot | Character => a.model == Text
            case NoCreative | OtherCreative(_) => a.model == n.ntype
  }

  lemma AskedFor(n: Node, videoPrice: nat, a: Submission)
    ensures PlanSubmit(n, videoPrice) == Some(a) <==> Asks(n, videoPrice, a)
  {
  }

  method InputSourceIds(nodeId: int, edges: seq<Edge>) returns (out: seq<int>)
    ensures out == InputSources(edges, nodeId)
  {
    var ins := InputEdges(edges);
    out := [];
    for k := 0 to |ins|
      invariant out == InputSources(ins[..k], nodeId)
    {
      assert ins[..k + 1][..k] == ins[..k];
      if ins[k].target == nodeId && ins[k].source != 0 {
        out := out + [ins[k].source];
      }
    }
    assert ins[..|ins|] == ins;
    SourcesOfInputEdges(edges, nodeId);
  }

  lemma {:induction false} SourcesOfInputEdges(edges: seq<Edge>, t: int)
    ensures InputSources(InputEdges(edges), t) == InputSources(edges, t)
  {
    if edges != [] {
      var first, rest := [edges[0]], edges[1..];
      SourcesOfInputEdges(rest, t);
      assert edges == first + rest;
      SourcesConcat(first, rest, t);
      if edges[0].dep.Input? {
        assert InputEdges(edges) == first + InputEdges(rest);
        SourcesConcat(first, InputEdges(rest), t);
      } else {
        NoSource(edges[0], t);
        assert [] + InputSources(rest, t) == InputSources(rest, t);
      }
    }
  }

  lemma NoSource(e: Edge, t: int)
    requires !e.dep.Input?
    ensures InputSources([e], t) == []
  {
    assert [e][..0] == [];
  }

  lemma {:induction false} SourcesConcat(a: seq<Edge>, b: seq<Edge>, t: int)
    ensures InputSources(a + b, t) == InputSources(a, t) + InputSources(b, t)
  {
    if b == [] {
      assert a + b == a;
    } else {
      SourcesConcat(a, b[..|b| - 1], t);
      assert (a + b)[..|a + b| - 1] == a + b[..|b| - 1];
    }
  }

  method AllInputsReady(nodeId: int, nodes: seq<Node>, edges: seq<Edge>) returns (ready: bool)
    ensures ready == InputsReady(NodeMap(nodes), edges, nodeId)
  {
    var nm := NodeMap(nodes);
    var sources := InputSourceIds(nodeId, edges);
    for k := 0 to |sources|
      invariant forall j :: 0 <= j < k ==> IsReady(nm, sources[j])
    {
      if !IsReady(nm, sources[k]) {
        assert sources[k] in sources;
        return false;
      }
    }
    ready := true;
  }

  method ChildrenOf(edges: seq<Edge>, parent: int) returns (children: set<int>)
    ensures forall t :: t in children <==> Feeds(edges, parent, t)
  {
    children := {};
    var ins := InputEdges(edges);
    for k := 0 to |ins|
      invariant forall t :: t in children <==> exists e :: e in ins[..k] && e.source == parent && e.target == t
    {
      assert ins[..k + 1] == ins[..k] + [ins[k]];
      if ins[k].source == parent { children := children + {ins[k].target}; }
    }
    assert ins[..|ins|] == ins;
    forall t ensures t in children <==> Feeds(edges, parent, t) {
      if Feeds(edges, parent, t) {
        var e :| e in edges && e.dep.Input? && e.source == parent && e.target == t;
        assert e in ins;
      }
    }
  }

  // The ids of the offered entries, in list order.
  method Candidates(nodes: seq<Node>, edges: seq<Edge>, of: Option<int>) returns (ids: seq<int>)
    ensures forall i :: i in ids <==> OfferedId(nodes, edges, of, i)
  {
    ids := [];
    var children: set<int> := {};
    if of.Some? { children := ChildrenOf(edges, of.value); }
    for k := 0 to |nodes|
      invariant forall i :: i in ids <==>
        exists n :: n in nodes[..k] && n.id == i && Offered(NodeMap(nodes), edges, of, n)
    {
      var n := nodes[k];
      assert nodes[..k + 1] == nodes[..k] + [n];
      if !Submittable(n) { continue; }
      if of.Some? && n.id !in children { continue; }
      var sources := InputSourceIds(n.id, edges);
      var ready := AllInputsReady(n.id, nodes, edges);
      if n.ntype.Compose? {
        if |sources| >= 2 && ready { ids := ids + [n.id]; }
      } else if sources == [] || ready {
        ids := ids + [n.id];
      }
    }
    assert nodes[..|nodes|] == nodes;
  }

  // find_submittable_nodes: the offered nodes in topological order, each once.
  method FindSubmittableNodes(nodes: seq<Node>, edges: seq<Edge>, of: Option<int>) returns (found: seq<Node>)
    ensures Distinct(Ids(found)) && forall n :: n in found ==> n.id in NodeMap(nodes) && NodeMap(nodes)[n.id] == n
    ensures forall i :: i in Ids(found) <==> OfferedId(nodes, edges, of, i)
    ensures forall i :: i in Ids(found) <==> IdMayRun(nodes, edges, of, i)
    ensures GroundedFirst(Induced(InputArcs(edges), Elems(Ids(found))), Ids(found))
  {
    found := [];
    forall i ensures OfferedId(nodes, edges, of, i) <==> IdMayRun(nodes, edges, of, i) {
      OfferedMeans(nodes, edges, of, i);
    }
    if nodes == [] { return; }
    var ids := Candidates(nodes, edges, of);
    if ids == [] { return; }
    var order := TopoSortExecutable(edges, ids);
    var nm := NodeMap(nodes);
    forall i | i in order ensures i in nm { assert i in Elems(ids); }
    found := LookUp(order, nm);
    assert Elems(order) == Elems(ids) by {
      assert forall x :: x in Elems(order) <==> x in Elems(ids);
    }
  }

  method LookUp(order: seq<int>, nm: NodeTable) returns (found: seq<Node>)
    requires forall i :: i in order ==> i in nm
    requires forall i :: i in nm ==> nm[i].id == i
    ensures Ids(found) == order && forall n :: n in found ==> n.id in nm && nm[n.id] == n
  {
    found := [];
    for k := 0 to |order|
      invariant Ids(found) == order[..k]
      invariant forall n :: n in found ==> n.id in nm && nm[n.id] == n
    {
      var i := order[k];
      assert i in order;
      assert order[..k + 1] == order[..k] + [i] && (found + [nm[i]])[..k] == found;
      found := found + [nm[i]];
    }
    assert order[..|order|] == order;
  }

  // The submissions planned for a list of nodes, in order; a node that cannot be submitted has none.
  ghost function PlannedFor(ready: seq<Node>, videoPrice: nat): seq<Submission> {
    if ready == [] then []
    else
      var action := PlanSubmit(ready[|ready| - 1], videoPrice);
      PlannedFor(ready[..|ready| - 1], videoPrice) + if action.Some? then [action.value] else []
  }

  lemma {:induction false} PlannedMembers(ready: seq<Node>, videoPrice: nat)
    ensures forall a :: a in PlannedFor(ready, videoPrice) <==>
      exists n :: n in ready && PlanSubmit(n, videoPrice) == Some(a)
  {
    if ready != [] {
      assert ready == ready[..|ready| - 1] + [ready[|ready| - 1]];
      PlannedMembers(ready[..|ready| - 1], videoPrice);
    }
  }

  lemma PlannedHasId(ready: seq<Node>, videoPrice: nat, a: Submission)
    requires a in PlannedFor(ready, videoPrice)
    ensures a.nodeId in Ids(ready)
  {
    PlannedMembers(ready, videoPrice);
    var n :| n in ready && PlanSubmit(n, videoPrice) == Some(a);
    var k :| 0 <= k < |ready| && ready[k] == n;
    assert Ids(ready)[k] == a.nodeId;
  }

  lemma {:induction false} PlannedOnce(ready: seq<Node>, videoPrice: nat)
    requires Distinct(Ids(ready))
    ensures Distinct(PlannedFor(ready, videoPrice))
  {
    if ready != [] {
      var front, last := ready[..|ready| - 1], ready[|ready| - 1];
      assert Ids(ready) == Ids(front) + [last.id] && Distinct(Ids(front)) && last.id !in Ids(front);
      PlannedOnce(front, videoPrice);
      var action := PlanSubmit(last, videoPrice);
      if action.Some? {
        if action.value in PlannedFor(front, videoPrice) { PlannedHasId(front, videoPrice, action.value); }
        DistinctSnoc(PlannedFor(front, videoPrice), action.value);
      } else {
        assert PlannedFor(ready, videoPrice) == PlannedFor(front, videoPrice);
      }
    }
  }

  // plan_downstream_submits: one submission per offered node that its table entry still allows.
  method PlanDownstreamSubmits(nodes: seq<Node>, edges: seq<Edge>, completed: Option<int>, videoPrice: nat)
    returns (actions: seq<Submission>)
    ensures Distinct(actions)
    ensures forall a :: a in actions <==>
      && a.nodeId in NodeMap(nodes) && PlanSubmit(NodeMap(nodes)[a.nodeId], videoPrice) == Some(a)
      && OfferedId(nodes, edges, completed, a.nodeId)
    ensures forall a :: a in actions <==>
      IdMayRun(nodes, edges, completed, a.nodeId)
      && exists k :: IsEntry(nodes, k, a.nodeId) && Asks(nodes[k], videoPrice, a)
  {
    var ready := FindSubmittableNodes(nodes, edges, completed);
    actions := [];
    for k := 0 to |ready|
      invariant actions == PlannedFor(ready[..k], videoPrice)
    {
      assert ready[..k + 1][..k] == ready[..k];
      match PlanSubmit(ready[k], videoPrice)
      case Some(action) => actions := actions + [action];
      case None =>
    }
    assert ready[..|ready|] == ready;
    PlannedAre(ready, NodeMap(nodes), videoPrice);
    forall a: Submission
      ensures a.nodeId in NodeMap(nodes) && PlanSubmit(NodeMap(nodes)[a.nodeId], videoPrice) == Some(a) <==>
        exists k :: IsEntry(nodes, k, a.nodeId) && Asks(nodes[k], videoPrice, a)
    {
      EntryAsks(nodes, videoPrice, a);
    }
  }

  lemma EntryAsks(nodes: seq<Node>, videoPrice: nat, a: Submission)
    ensures a.nodeId in NodeMap(nodes) && PlanSubmit(NodeMap(nodes)[a.nodeId], videoPrice) == Some(a) <==>
      exists k :: IsEntry(nodes, k, a.nodeId) && Asks(nodes[k], videoPrice, a)
  {
    if a.nodeId in NodeMap(nodes) {
      var k := LastEntry(nodes, a.nodeId);
      EntryIs(nodes, k, a.nodeId);
      AskedFor(nodes[k], videoPrice, a);
    }
    if k :| IsEntry(nodes, k, a.nodeId) && Asks(nodes[k], videoPrice, a) {
      EntryIs(nodes, k, a.nodeId);
      AskedFor(nodes[k], videoPrice, a);
    }
  }

  lemma PlannedAre(ready: seq<Node>, nm: NodeTable, videoPrice: nat)
    requires Distinct(Ids(ready)) && forall n :: n in ready ==> n.id in nm && nm[n.id] == n
    ensures Distinct(PlannedFor(ready, videoPrice))
    ensures forall a :: a in PlannedFor(ready, videoPrice) <==>
      a.nodeId in nm && PlanSubmit(nm[a.nodeId], videoPrice) == Some(a) && a.nodeId in Ids(ready)
  {
    PlannedMembers(ready, videoPrice);
    PlannedOnce(ready, videoPrice);
    ListedEntries(ready, nm);
    forall a ensures a in PlannedFor(ready, videoPrice) <==>
      a.nodeId in nm && PlanSubmit(nm[a.nodeId], videoPrice) == Some(a) && a.nodeId in Ids(ready)
    {
      if a.nodeId in nm && PlanSubmit(nm[a.nodeId], videoPrice) == Some(a) && a.nodeId in Ids(ready) {
        assert nm[a.nodeId].id == a.nodeId;
        assert nm[a.nodeId] in ready;
      }
    }
  }

  lemma ListedEntries(ready: seq<Node>, nm: NodeTable)
    requires forall n :: n in ready ==> n.id in nm && nm[n.id] == n
    ensures forall n :: n in ready <==> n.id in nm && nm[n.id] == n && n.id in Ids(ready)
  {
    forall n ensures n in ready <==> n.id in nm && nm[n.id] == n && n.id in Ids(ready) {
      if n in ready {
        var k :| 0 <= k < |ready| && ready[k] == n;
        assert Ids(ready)[k] == n.id;
      }
      if n.id in nm && nm[n.id] == n && n.id in Ids(ready) {
        var k :| 0 <= k < |ready| && Ids(ready)[k] == n.id;
        assert ready[k] in ready;
      }
    }
  }

  // No two offered nodes are joined by an input edge: the source would have to be ready and is not.
  lemma BatchIsIndependent(nm: NodeTable, edges: seq<Edge>, s: int, t: int)
    requires s in nm && t in nm && nm[t].id == t
    requires Enabled(nm, edges, nm[s]) && Enabled(nm, edges, nm[t])
    ensures (s, t) !in SourceArcs(edges)
  {
    InputSourcesAreArcs(edges, t);
  }
}
