// When the connection check lets a compiled text chain through.

module ChainLegality {
  import opened Collections
  import opened Graph
  import opened Canvas
  import opened Contract
  import opened ShortDrama
  import opened Scheduler
  import opened PlanCompilers
  import opened DramaRun

  const VOICE := Spec(Audio, Voice)

  // What a label can stand for.
  const LABEL_KINDS := {SCRIPT, CHARACTER, SHOT, KEYFRAME, CLIP, VOICE, COMPOSITE}

  // Which label may directly follow which. Nothing may follow a voice-over, which the role table would
  // let into a composite but the type table does not, and nothing but a clip may precede a composite.
  const LEGAL_LINKS := {
    (SCRIPT, CHARACTER), (SCRIPT, SHOT), (SCRIPT, KEYFRAME), (SCRIPT, VOICE),
    (CHARACTER, SHOT), (CHARACTER, KEYFRAME), (CHARACTER, CLIP),
    (SHOT, KEYFRAME), (SHOT, CLIP), (SHOT, VOICE),
    (KEYFRAME, CLIP),
    (CLIP, COMPOSITE)}

  lemma LinkIsLegalIff(nm: NodeTable, x: int, y: int, s: Spec, t: Spec)
    requires s in LABEL_KINDS && t in LABEL_KINDS && s != t
    requires x in nm && y in nm && nm[x] == NodeFor(s, x) && nm[y] == NodeFor(t, y)
    ensures ValidateConnect(nm, x, y, Input) == None <==> (s, t) in LEGAL_LINKS
  {
  }

  // The chain a list of labels is compiled to, on a canvas.
  ghost predicate Chained(labels: seq<Spec>, b: Built, ids: seq<int>) {
    && (forall kind :: kind in labels ==> kind in LABEL_KINDS)
    && b.created == Kinds(labels) && b.edges == ChainRefs(|b.created|) && IdsFor(b, ids)
  }

  predicate LinksAreLegal(kinds: seq<Spec>) {
    forall i, j :: 0 <= i && j == i + 1 < |kinds| ==> (kinds[i], kinds[j]) in LEGAL_LINKS
  }

  lemma ChainEnds(labels: seq<Spec>, b: Built, ids: seq<int>)
    requires Chained(labels, b, ids)
    ensures forall e :: e in b.edges ==> e.source < |ids| && e.target == e.source + 1 < |ids|
    ensures forall i: nat, j: nat :: j == i + 1 < |ids| ==> Ref(i, j) in b.edges
    ensures forall w :: w in Wires(b.edges, ids) <==>
      exists i: nat, j: nat :: j == i + 1 < |ids| && w == Edge(ids[i], ids[j], Input)
  {
    WiresAre(b.edges, ids);
    forall i: nat, j: nat | j == i + 1 < |ids| ensures Ref(i, j) in b.edges {
      assert b.edges[i] == Ref(i, j);
    }
    forall w | exists i: nat, j: nat :: j == i + 1 < |ids| && w == Edge(ids[i], ids[j], Input)
      ensures w in Wires(b.edges, ids)
    {
      var i: nat, j: nat :| j == i + 1 < |ids| && w == Edge(ids[i], ids[j], Input);
      assert Ref(i, j) in b.edges;
    }
  }

  lemma KindOnCanvas(labels: seq<Spec>, b: Built, ids: seq<int>, i: nat)
    requires Chained(labels, b, ids) && i < |ids|
    ensures ids[i] in Table(b, ids) && Table(b, ids)[ids[i]] == NodeFor(b.created[i], ids[i])
    ensures b.created[i] in LABEL_KINDS
  {
    KindsAreDistinct(labels);
    assert ids[i] in ids && IndexOf(ids, ids[i]) == i;
    assert b.created[i] in Kinds(labels);
  }

  lemma NeighbourIsLegalIff(labels: seq<Spec>, b: Built, ids: seq<int>, i: nat, j: nat)
    requires Chained(labels, b, ids) && j == i + 1 < |ids|
    ensures ValidateConnect(Table(b, ids), ids[i], ids[j], Input) == None <==>
      (b.created[i], b.created[j]) in LEGAL_LINKS
  {
    KindsAreDistinct(labels);
    KindOnCanvas(labels, b, ids, i);
    KindOnCanvas(labels, b, ids, j);
    LinkIsLegalIff(Table(b, ids), ids[i], ids[j], b.created[i], b.created[j]);
  }

  ghost predicate WiresAreLegal(b: Built, ids: seq<int>)
    requires IdsFor(b, ids) && forall e :: e in b.edges ==> e.source < |ids| && e.target < |ids|
  {
    forall w :: w in Wires(b.edges, ids) ==> ValidateConnect(Table(b, ids), w.source, w.target, w.dep) == None
  }

  // Every connection of the compiled chain passes the check if and only if each kind may follow the one
  // before it.
  lemma ChainIsLegalIff(labels: seq<Spec>, b: Built, ids: seq<int>)
    requires Chained(labels, b, ids)
    ensures forall e :: e in b.edges ==> e.source < |ids| && e.target < |ids|
    ensures WiresAreLegal(b, ids) <==> LinksAreLegal(Kinds(labels))
  {
    ChainEnds(labels, b, ids);
    if WiresAreLegal(b, ids) { LegalWiresLink(labels, b, ids); }
    if LinksAreLegal(Kinds(labels)) { LegalLinksWire(labels, b, ids); }
  }

  lemma LegalWiresLink(labels: seq<Spec>, b: Built, ids: seq<int>)
    requires Chained(labels, b, ids) && forall e :: e in b.edges ==> e.source < |ids| && e.target < |ids|
    requires WiresAreLegal(b, ids)
    ensures LinksAreLegal(b.created)
  {
    forall i, j | 0 <= i && j == i + 1 < |b.created| ensures (b.created[i], b.created[j]) in LEGAL_LINKS {
      ChainEnds(labels, b, ids);
      NeighbourIsLegalIff(labels, b, ids, i, j);
      assert Edge(ids[i], ids[j], Input) in Wires(b.edges, ids);
    }
  }

  lemma LegalLinksWire(labels: seq<Spec>, b: Built, ids: seq<int>)
    requires Chained(labels, b, ids) && forall e :: e in b.edges ==> e.source < |ids| && e.target < |ids|
    requires LinksAreLegal(b.created)
    ensures WiresAreLegal(b, ids)
  {
    forall w | w in Wires(b.edges, ids) ensures ValidateConnect(Table(b, ids), w.source, w.target, w.dep) == None {
      ChainEnds(labels, b, ids);
      var i: nat, j: nat :| j == i + 1 < |ids| && w == Edge(ids[i], ids[j], Input);
      NeighbourIsLegalIff(labels, b, ids, i, j);
    }
  }

  // So nothing follows a voice-over or a composite.
  lemma NothingFollows(kinds: seq<Spec>, i: nat)
    requires LinksAreLegal(kinds) && i + 1 < |kinds|
    ensures kinds[i] != VOICE && kinds[i] != COMPOSITE
  {
    assert (kinds[i], kinds[i + 1]) in LEGAL_LINKS;
  }
}
