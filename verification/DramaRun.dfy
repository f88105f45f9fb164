// The short-drama graph on a canvas: legal, acyclic, and fit to run.

module DramaRun {
  import opened Collections
  import opened Graph
  import opened Canvas
  import opened Contract
  import opened ShortDrama
  import opened Scheduler
  import opened SchedulerRun
  import opened CalmRun

  // The ids the canvas hands out to the created nodes: distinct, none of them 0.
  ghost predicate IdsFor(b: Built, ids: seq<int>) {
    |ids| == |b.created| && Distinct(ids) && 0 !in ids
  }

  function NodeFor(spec: Spec, id: int): Node {
    Node(id, spec.ntype, spec.creative, Idle, 0.0, 0.0)
  }

  // The canvas after the actions: idle nodes under their ids, edges between them.
  ghost function Table(b: Built, ids: seq<int>): NodeTable
    requires IdsFor(b, ids)
  {
    map x | x in ids :: NodeFor(b.created[IndexOf(ids, x)], x)
  }

  function Wires(es: seq<Ref>, ids: seq<int>): seq<Edge>
    requires forall e :: e in es ==> e.source < |ids| && e.target < |ids|
  {
    if es == [] then []
    else
      var front, last := es[..|es| - 1], es[|es| - 1];
      assert es == front + [last] && last in es;
      Wires(front, ids) + [Edge(ids[last.source], ids[last.target], Input)]
  }

  lemma {:induction false} WiresAre(es: seq<Ref>, ids: seq<int>)
    requires forall e :: e in es ==> e.source < |ids| && e.target < |ids|
    ensures forall w :: w in Wires(es, ids) <==>
      exists e :: e in es && e.source < |ids| && e.target < |ids| && w == Edge(ids[e.source], ids[e.target], Input)
    ensures Distinct(es) && Distinct(ids) ==> Distinct(Wires(es, ids))
  {
    if es != [] {
      var front, last := es[..|es| - 1], es[|es| - 1];
      assert es == front + [last] && last in es;
      WiresAre(front, ids);
      if Distinct(es) && Distinct(ids) {
        var added := Edge(ids[last.source], ids[last.target], Input);
        forall w | w in Wires(front, ids) ensures w != added {
          var e :| e in front && e.source < |ids| && e.target < |ids| && w == Edge(ids[e.source], ids[e.target], Input);
          assert e != last;
        }
        assert forall i, j :: 0 <= i < j < |front| ==> front[i] == es[i] && front[j] == es[j];
        DistinctConcat(Wires(front, ids), [added]);
      }
    }
  }

  // A canvas holding a short drama.
  ghost predicate Staged(n: nat, withCharacter: bool, b: Built, ids: seq<int>) {
    n >= 1 && DrawsShortDrama(n, withCharacter, b) && IdsFor(b, ids)
  }

  lemma ArrowsInRange(n: nat, withCharacter: bool, e: Ref)
    requires n >= 1 && Arrow(n, withCharacter, e)
    ensures e.source < e.target <= ComposeIndex(n, withCharacter)
  {
  }

  // The wires are the plan's edges under their ids.
  lemma WiresMatch(es: seq<Ref>, ids: seq<int>, i: nat, j: nat)
    requires forall e :: e in es ==> e.source < |ids| && e.target < |ids|
    requires Distinct(ids) && i < |ids| && j < |ids| && ids[i] != 0
    ensures (ids[i], ids[j]) in SourceArcs(Wires(es, ids)) <==> Ref(i, j) in es
  {
    WiresAre(es, ids);
    var edges := Wires(es, ids);
    if Ref(i, j) in es {
      var w := Edge(ids[i], ids[j], Input);
      assert w in edges;
      assert (w.source, w.target) in SourceArcs(edges);
    }
    if (ids[i], ids[j]) in SourceArcs(edges) {
      var w :| w in edges && w.source == ids[i] && w.target == ids[j];
      var e :| e in es && e.source < |ids| && e.target < |ids| && w == Edge(ids[e.source], ids[e.target], Input);
      assert e.source == i && e.target == j;
      assert e == Ref(i, j);
    }
  }

  // The edges on the canvas are the arrows of the plan.
  lemma CanvasArcs(n: nat, withCharacter: bool, b: Built, ids: seq<int>, i: nat, j: nat)
    requires Staged(n, withCharacter, b, ids) && i < |ids| && j < |ids|
    ensures forall e :: e in b.edges ==> e.source < |ids| && e.target < |ids|
    ensures (ids[i], ids[j]) in SourceArcs(Wires(b.edges, ids)) <==> Arrow(n, withCharacter, Ref(i, j))
  {
    forall e | e in b.edges ensures e.source < |ids| && e.target < |ids| {
      ArrowsInRange(n, withCharacter, e);
    }
    assert ids[i] in ids;
    WiresMatch(b.edges, ids, i, j);
  }

  lemma CanvasEnds(n: nat, withCharacter: bool, b: Built, ids: seq<int>)
    requires Staged(n, withCharacter, b, ids)
    ensures forall e :: e in b.edges ==> e.source < |ids| && e.target < |ids|
    ensures forall w :: w in Wires(b.edges, ids) ==> w.dep.Input? && w.source in ids && w.target in ids
    ensures forall w :: w in Wires(b.edges, ids) ==>
      Arrow(n, withCharacter, Ref(IndexOf(ids, w.source), IndexOf(ids, w.target)))
  {
    forall e | e in b.edges ensures e.source < |ids| && e.target < |ids| {
      ArrowsInRange(n, withCharacter, e);
    }
    WiresAre(b.edges, ids);
    forall w | w in Wires(b.edges, ids)
      ensures w.source in ids && w.target in ids
      ensures Arrow(n, withCharacter, Ref(IndexOf(ids, w.source), IndexOf(ids, w.target)))
    {
      var e :| e in b.edges && e.source < |ids| && e.target < |ids| && w == Edge(ids[e.source], ids[e.target], Input);
      assert ids[e.source] in ids && ids[e.target] in ids;
      assert IndexOf(ids, w.source) == e.source && IndexOf(ids, w.target) == e.target;
    }
  }

  // ---------- Legality ----------

  lemma ArrowIsLegal(n: nat, withCharacter: bool, e: Ref)
    requires n >= 1 && Arrow(n, withCharacter, e)
    ensures var s, t := KindAt(n, withCharacter, e.source), KindAt(n, withCharacter, e.target);
      && CanFeed(s.ntype, t.ntype)
      && AllowedInputs(t.creative).Some? && s.creative in AllowedInputs(t.creative).value
      && !s.creative.NoCreative?
      && (t.ntype.Video? ==> s.creative.Keyframe?)
      && (t.ntype.Compose? ==> s.creative.Clip?)
  {
  }

  lemma TableAt(n: nat, withCharacter: bool, b: Built, ids: seq<int>, x: int)
    requires Staged(n, withCharacter, b, ids) && x in ids
    ensures x in Table(b, ids)
    ensures var kind := KindAt(n, withCharacter, IndexOf(ids, x)); Table(b, ids)[x] == NodeFor(kind, x)
  {
  }

  // Every edge passes the connection check, by node type and by creative role.
  lemma EveryEdgeIsLegal(n: nat, withCharacter: bool, b: Built, ids: seq<int>)
    requires Staged(n, withCharacter, b, ids)
    ensures forall e :: e in b.edges ==> e.source < |ids| && e.target < |ids|
    ensures forall w :: w in Wires(b.edges, ids) ==>
      && w.source in Table(b, ids) && w.target in Table(b, ids)
      && CanFeed(Table(b, ids)[w.source].ntype, Table(b, ids)[w.target].ntype)
      && ValidateConnect(Table(b, ids), w.source, w.target, w.dep) == None
  {
    CanvasEnds(n, withCharacter, b, ids);
    forall w | w in Wires(b.edges, ids)
      ensures w.source in Table(b, ids) && w.target in Table(b, ids)
      ensures CanFeed(Table(b, ids)[w.source].ntype, Table(b, ids)[w.target].ntype)
      ensures ValidateConnect(Table(b, ids), w.source, w.target, w.dep) == None
    {
      TableAt(n, withCharacter, b, ids, w.source);
      TableAt(n, withCharacter, b, ids, w.target);
      ArrowIsLegal(n, withCharacter, Ref(IndexOf(ids, w.source), IndexOf(ids, w.target)));
    }
  }

  // Every node passes the generation check for the model the scheduler picks for it.
  lemma EveryNodeMayGenerate(n: nat, withCharacter: bool, b: Built, ids: seq<int>, x: int,
                             roles: set<Creative>)
    requires Staged(n, withCharacter, b, ids) && x in ids
    requires forall e :: e in b.edges ==> e.source < |ids| && e.target < |ids|
    requires forall r :: r in roles <==> HasUpstreamRole(Table(b, ids), Wires(b.edges, ids), x, r)
    ensures x in Table(b, ids)
    ensures ValidateGeneration(Table(b, ids), x, ModelType(Table(b, ids)[x]), roles) == None
  {
    var nm, edges := Table(b, ids), Wires(b.edges, ids);
    TableAt(n, withCharacter, b, ids, x);
    CanvasEnds(n, withCharacter, b, ids);
    var kind := KindAt(n, withCharacter, IndexOf(ids, x));
    forall r | r in roles
      ensures AllowedInputs(kind.creative).Some? && r in AllowedInputs(kind.creative).value
      ensures (kind.ntype.Video? ==> r == Keyframe) && (kind.ntype.Compose? ==> r == Clip)
    {
      var e :| e in edges && e.dep.Input? && e.target == x && e.source in nm && UpstreamRole(nm[e.source]) == Some(r);
      TableAt(n, withCharacter, b, ids, e.source);
      ArrowIsLegal(n, withCharacter, Ref(IndexOf(ids, e.source), IndexOf(ids, x)));
    }
    RolesAreLegal(nm, x, kind, roles);
  }

  lemma RolesAreLegal(nm: NodeTable, x: int, kind: Spec, roles: set<Creative>)
    requires x in nm && nm[x] == NodeFor(kind, x)
    requires kind in {SCRIPT, CHARACTER, SHOT, KEYFRAME, CLIP, COMPOSITE}
    requires forall r :: r in roles ==> r in AllowedInputs(kind.creative).value
    requires forall r :: r in roles ==> (kind.ntype.Video? ==> r == Keyframe) && (kind.ntype.Compose? ==> r == Clip)
    ensures ValidateGeneration(nm, x, ModelType(nm[x]), roles) == None
  {
    if kind.ntype.Video? && Keyframe !in roles { assert roles == {}; }
    if kind.ntype.Compose? && Clip !in roles { assert roles == {}; }
  }

  // ---------- The nodes ----------

  // The first two or three nodes are texts, the next n images, then n videos and the composite.
  ghost function TypeAt(n: nat, withCharacter: bool, k: nat): NodeType {
    var texts := if withCharacter then 3 else 2;
    if k < texts then Text else if k < texts + n then Image else if k < texts + n + n then Video else Compose
  }

  // Every node is asked for as what it is: the composite from the composer, any other from the model of its
  // type, for a video at the price on the list.
  lemma EveryNodeAsksItsOwnModel(n: nat, withCharacter: bool, b: Built, ids: seq<int>, k: nat, videoPrice: nat)
    requires Staged(n, withCharacter, b, ids) && k < |ids|
    ensures |ids| == (if withCharacter then 4 else 3) + n + n
    ensures ids[k] in Table(b, ids) && Table(b, ids)[ids[k]].ntype == TypeAt(n, withCharacter, k)
    ensures PlanSubmit(Table(b, ids)[ids[k]], videoPrice) == Some(match TypeAt(n, withCharacter, k)
      case Text => Submission(Tool.SubmitGeneration, ids[k], Text, 8)
      case Image => Submission(Tool.SubmitGeneration, ids[k], Image, 8)
      case Video => Submission(Tool.SubmitGeneration, ids[k], Video, videoPrice)
      case _ => Submission(ComposeFinal, ids[k], Compose, 15))
  {
    assert ids[k] in ids && IndexOf(ids, ids[k]) == k;
    TableAt(n, withCharacter, b, ids, ids[k]);
  }

  // ---------- The run ----------

  lemma {:induction false} SourcesAreDistinct(edges: seq<Edge>, t: int)
    requires Distinct(edges) && forall e :: e in edges ==> e.dep.Input?
    ensures Distinct(InputSources(edges, t))
  {
    if edges != [] {
      var front, last := edges[..|edges| - 1], edges[|edges| - 1];
      assert edges == front + [last];
      assert forall i, j :: 0 <= i < j < |front| ==> front[i] == edges[i] && front[j] == edges[j];
      SourcesAreDistinct(front, t);
      if last.target == t && last.source != 0 {
        assert last !in front;
        SourceIsNew(front, last);
        DistinctConcat(InputSources(front, t), [last.source]);
      }
    }
  }

  lemma SourceIsNew(edges: seq<Edge>, e: Edge)
    requires e !in edges && (forall x :: x in edges ==> x.dep.Input?) && e.dep.Input?
    ensures e.source !in InputSources(edges, e.target)
  {
    InputSourcesAreArcs(edges, e.target);
  }

  // What the node at index k is fed by.
  lemma FedBy(n: nat, withCharacter: bool, b: Built, ids: seq<int>, k: nat)
    requires Staged(n, withCharacter, b, ids) && k < |ids|
    ensures forall e :: e in b.edges ==> e.source < |ids| && e.target < |ids|
    ensures var sources := InputSources(Wires(b.edges, ids), ids[k]);
      Distinct(sources) && forall c :: c in sources <==>
        c in ids && Arrow(n, withCharacter, Ref(IndexOf(ids, c), k))
  {
    CanvasEnds(n, withCharacter, b, ids);
    var edges := Wires(b.edges, ids);
    WiresAre(b.edges, ids);
    SourcesAreDistinct(edges, ids[k]);
    InputSourcesAreArcs(edges, ids[k]);
    assert ids[k] in ids;
    forall c ensures c in InputSources(edges, ids[k]) <==>
      c in ids && Arrow(n, withCharacter, Ref(IndexOf(ids, c), k))
    {
      if c in ids { CanvasArcs(n, withCharacter, b, ids, IndexOf(ids, c), k); }
    }
  }

  // Only the script starts without inputs.
  lemma ScriptIsTheRoot(n: nat, withCharacter: bool, b: Built, ids: seq<int>, k: nat)
    requires Staged(n, withCharacter, b, ids) && k < |ids|
    ensures forall e :: e in b.edges ==> e.source < |ids| && e.target < |ids|
    ensures IsRoot(Wires(b.edges, ids), ids[k]) <==> k == 0
  {
    FedBy(n, withCharacter, b, ids, k);
    var sources := InputSources(Wires(b.edges, ids), ids[k]);
    var shot := ShotIndex(withCharacter);
    if k > 0 {
      var i := if k <= shot then 0
        else if IsKeyframe(n, withCharacter, k) then shot
        else if IsClip(n, withCharacter, k) then k - n
        else FirstClip(n, withCharacter);
      assert Arrow(n, withCharacter, Ref(i, k)) && ids[i] in ids && IndexOf(ids, ids[i]) == i;
      assert ids[i] in sources;
    } else {
      DistinctLength(sources, {});
    }
  }

  // The compose node has one input a shot; two shots make it runnable, one does not.
  lemma ComposeInputs(n: nat, withCharacter: bool, b: Built, ids: seq<int>)
    requires Staged(n, withCharacter, b, ids)
    ensures forall e :: e in b.edges ==> e.source < |ids| && e.target < |ids|
    ensures |InputSources(Wires(b.edges, ids), ids[ComposeIndex(n, withCharacter)])| >= 2 <==> n >= 2
  {
    var k, first := ComposeIndex(n, withCharacter), FirstClip(n, withCharacter);
    FedBy(n, withCharacter, b, ids, k);
    var sources := InputSources(Wires(b.edges, ids), ids[k]);
    assert ids[first] in ids && IndexOf(ids, ids[first]) == first;
    if n >= 2 {
      assert ids[first + 1] in ids && IndexOf(ids, ids[first + 1]) == first + 1;
      assert ids[first] in sources && ids[first + 1] in sources;
      assert |sources| >= 2;
    } else {
      DistinctLength(sources, {ids[first]});
    }
  }

  lemma DramaIsAcyclic(n: nat, withCharacter: bool, b: Built, ids: seq<int>)
    requires Staged(n, withCharacter, b, ids)
    ensures forall e :: e in b.edges ==> e.source < |ids| && e.target < |ids|
    ensures Acyclic(SourceArcs(Wires(b.edges, ids)))
  {
    CanvasEnds(n, withCharacter, b, ids);
    var rank := (x: int) => if x in ids then IndexOf(ids, x) else 0;
    var arcs := SourceArcs(Wires(b.edges, ids));
    forall x, y | (x, y) in arcs ensures rank(x) < rank(y) {
      ArrowsInRange(n, withCharacter, Ref(IndexOf(ids, x), IndexOf(ids, y)));
    }
    RankedIsAcyclic(arcs, rank);
  }

  lemma DramaIsRunnable(n: nat, withCharacter: bool, b: Built, ids: seq<int>, k: nat)
    requires Staged(n, withCharacter, b, ids) && k < |ids|
    ensures forall e :: e in b.edges ==> e.source < |ids| && e.target < |ids|
    ensures Runnable(Table(b, ids), Wires(b.edges, ids), ids[k]) <==> n >= 2 || k < ComposeIndex(n, withCharacter)
  {
    ComposeInputs(n, withCharacter, b, ids);
    assert ids[k] in ids && IndexOf(ids, ids[k]) == k;
    TableAt(n, withCharacter, b, ids, ids[k]);
    KindIsRunnable(n, withCharacter, Table(b, ids), Wires(b.edges, ids), ids[k], k);
  }

  lemma KindIsRunnable(n: nat, withCharacter: bool, nm: NodeTable, edges: seq<Edge>, x: int, k: nat)
    requires k <= ComposeIndex(n, withCharacter) && x in nm && nm[x] == NodeFor(KindAt(n, withCharacter, k), x)
    requires k == ComposeIndex(n, withCharacter) ==> (|InputSources(edges, x)| >= 2 <==> n >= 2)
    ensures Runnable(nm, edges, x) <==> n >= 2 || k < ComposeIndex(n, withCharacter)
  {
  }
}
