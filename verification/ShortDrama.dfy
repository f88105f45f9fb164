// plan_short_drama_workflow: from a shot count to canvas actions, and the graph they build.

module ShortDrama {
  import opened Collections
  import opened Graph
  import opened Canvas

  datatype Spec = Spec(ntype: NodeType, creative: Creative)

  // `$created[k]` is written as the index k.
  datatype Ref = Ref(source: nat, target: nat)

  datatype Action =
    | GetCanvasSummary
    | CreateNodes(nodes: seq<Spec>)
    | ConnectNodes(edges: seq<Ref>)
    | ConnectReferences(edges: seq<Ref>)                  // reading order only; nothing waits for it
    | ConnectSelected(sources: seq<int>, target: nat)     // from nodes already on the canvas
    | LayoutNodes
    | SubmitGeneration(node: nat, model: NodeType, cost: nat, chainCost: nat)

  const SCRIPT := Spec(Text, Script)
  const CHARACTER := Spec(Text, Character)
  const SHOT := Spec(Text, Shot)
  const KEYFRAME := Spec(Image, Keyframe)
  const CLIP := Spec(Video, Clip)
  const COMPOSITE := Spec(Compose, Composite)

  // ---------- Executing actions ----------

  datatype Ask = Ask(node: nat, model: NodeType, cost: nat, chainCost: nat)

  // What the executor has built so far; `arranged` is how many nodes the last layout saw. A reference beyond
  // the created nodes falls back to the last one; `inRange` remembers whether that ever happened.
  datatype Built = Built(
    created: seq<Spec>,
    edges: seq<Ref>,
    references: seq<Ref>,
    selections: seq<(seq<int>, nat)>,
    submits: seq<Ask>,
    arranged: nat,
    inRange: bool)

  // Nodes and their edges, and nothing else.
  function Bare(created: seq<Spec>, edges: seq<Ref>): Built {
    Built(created, edges, [], [], [], 0, true)
  }

  function Resolve(b: Built, k: nat): nat {
    if k < |b.created| || b.created == [] then k else |b.created| - 1
  }

  function ResolveAll(b: Built, es: seq<Ref>): seq<Ref> {
    if es == [] then []
    else
      var e := es[|es| - 1];
      ResolveAll(b, es[..|es| - 1]) + [Ref(Resolve(b, e.source), Resolve(b, e.target))]
  }

  predicate Known(b: Built, k: nat) {
    k < |b.created|
  }

  function Perform(b: Built, a: Action): Built {
    match a
    case CreateNodes(nodes) => b.(created := b.created + nodes)
    case ConnectNodes(es) =>
      b.(edges := b.edges + ResolveAll(b, es),
         inRange := b.inRange && forall e :: e in es ==> Known(b, e.source) && Known(b, e.target))
    case ConnectReferences(es) =>
      b.(references := b.references + ResolveAll(b, es),
         inRange := b.inRange && forall e :: e in es ==> Known(b, e.source) && Known(b, e.target))
    case ConnectSelected(sources, target) =>
      b.(selections := b.selections + [(sources, Resolve(b, target))], inRange := b.inRange && Known(b, target))
    case SubmitGeneration(n, model, cost, chain) =>
      b.(submits := b.submits + [Ask(Resolve(b, n), model, cost, chain)], inRange := b.inRange && Known(b, n))
    case LayoutNodes => b.(arranged := |b.created|)
    case GetCanvasSummary => b
  }

  function Execute(actions: seq<Action>): Built {
    if actions == [] then Bare([], [])
    else Perform(Execute(actions[..|actions| - 1]), actions[|actions| - 1])
  }

  lemma ExecuteNext(actions: seq<Action>, a: Action)
    ensures Execute(actions + [a]) == Perform(Execute(actions), a)
  {
    assert (actions + [a])[..|actions|] == actions;
  }

  lemma {:induction false} InRangeResolves(b: Built, es: seq<Ref>)
    requires forall e :: e in es ==> Known(b, e.source) && Known(b, e.target)
    ensures ResolveAll(b, es) == es
  {
    if es != [] {
      assert es == es[..|es| - 1] + [es[|es| - 1]];
      InRangeResolves(b, es[..|es| - 1]);
    }
  }

  // ---------- The graph that is meant ----------

  // Index of the storyboard: after the script, and the character card if there is one.
  function ShotIndex(withCharacter: bool): nat {
    if withCharacter then 2 else 1
  }

  function FirstKeyframe(withCharacter: bool): nat {
    ShotIndex(withCharacter) + 1
  }

  function FirstClip(n: nat, withCharacter: bool): nat {
    FirstKeyframe(withCharacter) + n
  }

  function ComposeIndex(n: nat, withCharacter: bool): nat {
    FirstClip(n, withCharacter) + n
  }

  // What stands at each index.
  function KindAt(n: nat, withCharacter: bool, k: nat): Spec {
    if k == 0 then SCRIPT
    else if k == ShotIndex(withCharacter) then SHOT
    else if k < ShotIndex(withCharacter) then CHARACTER
    else if k < FirstClip(n, withCharacter) then KEYFRAME
    else if k < ComposeIndex(n, withCharacter) then CLIP
    else COMPOSITE
  }

  predicate IsKeyframe(n: nat, withCharacter: bool, k: nat) {
    FirstKeyframe(withCharacter) <= k < FirstClip(n, withCharacter)
  }

  predicate IsClip(n: nat, withCharacter: bool, k: nat) {
    FirstClip(n, withCharacter) <= k < ComposeIndex(n, withCharacter)
  }

  // Who feeds whom.
  predicate Arrow(n: nat, withCharacter: bool, e: Ref) {
    var shot := ShotIndex(withCharacter);
    || (e.source == 0 && e.target == shot)
    || (withCharacter && e.source == 0 && e.target == 1)
    || (withCharacter && e.source == 1 && e.target == shot)
    || (e.source == shot && IsKeyframe(n, withCharacter, e.target))
    || (withCharacter && e.source == 1 && IsKeyframe(n, withCharacter, e.target))
    || (IsKeyframe(n, withCharacter, e.source) && e.target == e.source + n)
    || (IsClip(n, withCharacter, e.source) && e.target == ComposeIndex(n, withCharacter))
  }

  // The cost of everything after the script.
  ghost function ChainCost(n: nat, withCharacter: bool, perVideo: nat): nat {
    (if withCharacter then 8 else 0) + 8 + 8 * n + perVideo * n + 15
  }

  // The graph is the one meant, and every reference pointed back at a node already created.
  ghost predicate DrawsShortDrama(n: nat, withCharacter: bool, b: Built) {
    && b.inRange
    && |b.created| == ComposeIndex(n, withCharacter) + 1
    && (forall k :: 0 <= k < |b.created| ==> b.created[k] == KindAt(n, withCharacter, k))
    && Distinct(b.edges) && (forall e :: e in b.edges <==> Arrow(n, withCharacter, e))
  }

  // All of it is laid out, and the only submission is the script's, carrying the cost of the rest.
  ghost predicate IsShortDrama(n: nat, withCharacter: bool, perVideo: nat, b: Built) {
    && DrawsShortDrama(n, withCharacter, b)
    && b.submits == [Ask(0, Text, 8, ChainCost(n, withCharacter, perVideo))]
    && b.references == [] && b.selections == [] && b.arranged == |b.created|
  }

  // ---------- The planner ----------

  function BaseNodes(withCharacter: bool): seq<Spec> {
    [SCRIPT] + (if withCharacter then [CHARACTER] else []) + [SHOT]
  }

  function BaseEdges(withCharacter: bool): seq<Ref> {
    [Ref(0, ShotIndex(withCharacter))] + if withCharacter then [Ref(0, 1), Ref(1, ShotIndex(withCharacter))] else []
  }

  function KeyframeEdges(withCharacter: bool, k: nat): seq<Ref> {
    if k == 0 then []
    else
      var kf := FirstKeyframe(withCharacter) + k - 1;
      KeyframeEdges(withCharacter, k - 1)
        + [Ref(ShotIndex(withCharacter), kf)] + if withCharacter then [Ref(1, kf)] else []
  }

  function ClipEdges(n: nat, withCharacter: bool, k: nat): seq<Ref> {
    if k == 0 then []
    else
      ClipEdges(n, withCharacter, k - 1)
        + [Ref(FirstKeyframe(withCharacter) + k - 1, FirstClip(n, withCharacter) + k - 1)]
  }

  function ComposeEdges(n: nat, withCharacter: bool, k: nat): seq<Ref> {
    if k == 0 then []
    else
      ComposeEdges(n, withCharacter, k - 1)
        + [Ref(FirstClip(n, withCharacter) + k - 1, ComposeIndex(n, withCharacter))]
  }

  function Copies(spec: Spec, n: nat): seq<Spec> {
    seq(n, _ => spec)
  }

  method Repeat(spec: Spec, n: nat) returns (specs: seq<Spec>)
    ensures specs == Copies(spec, n)
  {
    specs := [];
    for i := 0 to n
      invariant specs == Copies(spec, i)
    {
      specs := specs + [spec];
    }
  }

  // One connect action adds its edges, if they all point at created nodes.
  lemma Connects(actions: seq<Action>, es: seq<Ref>)
    requires forall e :: e in es ==> Known(Execute(actions), e.source) && Known(Execute(actions), e.target)
    ensures var b := Execute(actions);
      Execute(actions + [ConnectNodes(es)]) == b.(edges := b.edges + es)
  {
    ExecuteNext(actions, ConnectNodes(es));
    InRangeResolves(Execute(actions), es);
  }

  lemma Creates(actions: seq<Action>, specs: seq<Spec>)
    ensures var b := Execute(actions);
      Execute(actions + [CreateNodes(specs)]) == b.(created := b.created + specs)
  {
    ExecuteNext(actions, CreateNodes(specs));
  }

  // The text base: script, character card, storyboard.
  method PlanBase(withCharacter: bool) returns (actions: seq<Action>)
    ensures Execute(actions) == Bare(BaseNodes(withCharacter), BaseEdges(withCharacter))
  {
    var shot := if withCharacter then 2 else 1;
    actions := [GetCanvasSummary];
    assert Execute(actions) == Bare([], []) by { assert actions[..0] == []; }
    var base := [SCRIPT];
    if withCharacter { base := base + [CHARACTER]; }
    base := base + [SHOT];
    Creates(actions, base);
    actions := actions + [CreateNodes(base)];
    var edges := [Ref(0, shot)];
    if withCharacter { edges := edges + [Ref(0, 1), Ref(1, shot)]; }
    Connects(actions, edges);
    actions := actions + [ConnectNodes(edges)];
  }

  // One first frame a shot, each fed by the storyboard and the character card.
  method PlanKeyframes(actions0: seq<Action>, n: nat, withCharacter: bool, ghost b: Built)
      returns (actions: seq<Action>)
    requires Execute(actions0) == b && b.inRange && |b.created| == FirstKeyframe(withCharacter)
    ensures Execute(actions) ==
      b.(created := b.created + Copies(KEYFRAME, n), edges := b.edges + KeyframeEdges(withCharacter, n))
  {
    var shot := if withCharacter then 2 else 1;
    var kfBase := shot + 1;
    var images := Repeat(KEYFRAME, n);
    Creates(actions0, images);
    actions := actions0 + [CreateNodes(images)];
    ghost var c := b.(created := b.created + images);
    for i := 0 to n
      invariant Execute(actions) == c.(edges := b.edges + KeyframeEdges(withCharacter, i))
    {
      var edges := [Ref(shot, kfBase + i)];
      if withCharacter { edges := edges + [Ref(1, kfBase + i)]; }
      Connects(actions, edges);
      actions := actions + [ConnectNodes(edges)];
      assert b.edges + KeyframeEdges(withCharacter, i) + edges == b.edges + KeyframeEdges(withCharacter, i + 1);
    }
  }

  // One clip a shot, fed by its first frame.
  method PlanClips(actions0: seq<Action>, n: nat, withCharacter: bool, ghost b: Built) returns (actions: seq<Action>)
    requires Execute(actions0) == b && b.inRange && |b.created| == FirstClip(n, withCharacter)
    ensures Execute(actions) ==
      b.(created := b.created + Copies(CLIP, n), edges := b.edges + ClipEdges(n, withCharacter, n))
  {
    var kfBase := (if withCharacter then 2 else 1) + 1;
    var clipBase := kfBase + n;
    var videos := Repeat(CLIP, n);
    Creates(actions0, videos);
    actions := actions0 + [CreateNodes(videos)];
    ghost var c := b.(created := b.created + videos);
    for i := 0 to n
      invariant Execute(actions) == c.(edges := b.edges + ClipEdges(n, withCharacter, i))
    {
      var edges := [Ref(kfBase + i, clipBase + i)];
      Connects(actions, edges);
      actions := actions + [ConnectNodes(edges)];
      assert b.edges + ClipEdges(n, withCharacter, i) + edges == b.edges + ClipEdges(n, withCharacter, i + 1);
    }
  }

  // The compose node, fed by every clip in shot order.
  method PlanCompose(actions0: seq<Action>, n: nat, withCharacter: bool, ghost b: Built) returns (actions: seq<Action>)
    requires Execute(actions0) == b && b.inRange && |b.created| == ComposeIndex(n, withCharacter)
    ensures Execute(actions) ==
      b.(created := b.created + [COMPOSITE], edges := b.edges + ComposeEdges(n, withCharacter, n))
  {
    var clipBase := (if withCharacter then 2 else 1) + 1 + n;
    var composeIdx := clipBase + n;
    Creates(actions0, [COMPOSITE]);
    actions := actions0 + [CreateNodes([COMPOSITE])];
    var edges: seq<Ref> := [];
    for i := 0 to n
      invariant edges == ComposeEdges(n, withCharacter, i)
    {
      edges := edges + [Ref(clipBase + i, composeIdx)];
    }
    ComposeEdgeMembers(n, withCharacter, n);
    Connects(actions, edges);
    actions := actions + [ConnectNodes(edges)];
  }

  // The nodes and edges, before anything is laid out or submitted.
  method PlanGraph(n: nat, withCharacter: bool) returns (actions: seq<Action>, ghost b: Built)
    ensures Execute(actions) == b && DrawsShortDrama(n, withCharacter, b)
    ensures b == Bare(b.created, b.edges)
  {
    actions := PlanBase(withCharacter);
    b := Bare(BaseNodes(withCharacter), BaseEdges(withCharacter));
    actions := PlanKeyframes(actions, n, withCharacter, b);
    b := b.(created := b.created + Copies(KEYFRAME, n), edges := b.edges + KeyframeEdges(withCharacter, n));
    actions := PlanClips(actions, n, withCharacter, b);
    b := b.(created := b.created + Copies(CLIP, n), edges := b.edges + ClipEdges(n, withCharacter, n));
    actions := PlanCompose(actions, n, withCharacter, b);
    b := b.(created := b.created + [COMPOSITE], edges := b.edges + ComposeEdges(n, withCharacter, n));
    EdgesAreArrows(n, withCharacter);
    assert b.edges == AllEdges(n, withCharacter);
  }

  method PlanShortDrama(n: nat, withCharacter: bool, perVideo: nat) returns (actions: seq<Action>)
    ensures IsShortDrama(n, withCharacter, perVideo, Execute(actions))
  {
    ghost var b;
    actions, b := PlanGraph(n, withCharacter);
    ExecuteNext(actions, LayoutNodes);
    actions := actions + [LayoutNodes];
    var chain := (if withCharacter then DefaultCost(Text) else 0) + DefaultCost(Text) + DefaultCost(Image) * n
      + perVideo * n + DefaultCost(Compose);
    var submit := Action.SubmitGeneration(0, Text, DefaultCost(Text), chain);
    ExecuteNext(actions, submit);
    actions := actions + [submit];
  }

  function AllEdges(n: nat, withCharacter: bool): seq<Ref> {
    BaseEdges(withCharacter) + KeyframeEdges(withCharacter, n) + ClipEdges(n, withCharacter, n)
      + ComposeEdges(n, withCharacter, n)
  }

  lemma {:induction false} KeyframeEdgeMembers(withCharacter: bool, k: nat)
    ensures forall e :: e in KeyframeEdges(withCharacter, k) <==>
      && FirstKeyframe(withCharacter) <= e.target < FirstKeyframe(withCharacter) + k
      && (e.source == ShotIndex(withCharacter) || (withCharacter && e.source == 1))
    ensures Distinct(KeyframeEdges(withCharacter, k))
  {
    if k > 0 { KeyframeEdgeMembers(withCharacter, k - 1); }
  }

  lemma {:induction false} ClipEdgeMembers(n: nat, withCharacter: bool, k: nat)
    ensures forall e :: e in ClipEdges(n, withCharacter, k) <==>
      FirstKeyframe(withCharacter) <= e.source < FirstKeyframe(withCharacter) + k && e.target == e.source + n
    ensures Distinct(ClipEdges(n, withCharacter, k))
  {
    if k > 0 { ClipEdgeMembers(n, withCharacter, k - 1); }
  }

  lemma {:induction false} ComposeEdgeMembers(n: nat, withCharacter: bool, k: nat)
    ensures forall e :: e in ComposeEdges(n, withCharacter, k) <==>
      FirstClip(n, withCharacter) <= e.source < FirstClip(n, withCharacter) + k
      && e.target == ComposeIndex(n, withCharacter)
    ensures Distinct(ComposeEdges(n, withCharacter, k))
  {
    if k > 0 { ComposeEdgeMembers(n, withCharacter, k - 1); }
  }

  lemma DistinctConcat<T>(a: seq<T>, b: seq<T>)
    requires Distinct(a) && Distinct(b) && forall x :: x in a ==> x !in b
    ensures Distinct(a + b)
  {
    forall i, j | 0 <= i < j < |a + b| ensures (a + b)[i] != (a + b)[j] {
      assert i < |a| ==> (a + b)[i] in a;
      assert j >= |a| ==> (a + b)[j] in b;
    }
  }

  lemma EdgesAreArrows(n: nat, withCharacter: bool)
    ensures Distinct(AllEdges(n, withCharacter))
    ensures forall e :: e in AllEdges(n, withCharacter) <==> Arrow(n, withCharacter, e)
  {
    KeyframeEdgeMembers(withCharacter, n);
    ClipEdgeMembers(n, withCharacter, n);
    ComposeEdgeMembers(n, withCharacter, n);
    var a, b := BaseEdges(withCharacter), KeyframeEdges(withCharacter, n);
    var c, d := ClipEdges(n, withCharacter, n), ComposeEdges(n, withCharacter, n);
    DistinctConcat(a, b);
    DistinctConcat(a + b, c);
    DistinctConcat(a + b + c, d);
  }
}
