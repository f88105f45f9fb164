// The three plan compilers: how they order and wire their steps, and what the steps build.

module PlanCompilers {
  import opened Collections
  import opened Canvas
  import opened ShortDrama
  import opened PlanSteps

  // Step ids are drawn from a source that never repeats.
  ghost predicate Fresh(sid: nat -> string) {
    forall i, j :: sid(i) == sid(j) ==> i == j
  }

  // A plan in the making: the k-th step carries the k-th id drawn, and nothing has run.
  ghost predicate IsPlan(steps: seq<Step>, sid: nat -> string) {
    && DependsEarlier(steps)
    && forall k :: 0 <= k < |steps| ==> steps[k].id == sid(k) && steps[k].status == Planned && steps[k].action.Some?
  }

  lemma PlanIsWellOrdered(steps: seq<Step>, sid: nat -> string)
    requires Fresh(sid) && IsPlan(steps, sid)
    ensures WellOrdered(steps) && InProgress(steps)
  {
    forall i, j | 0 <= i < j < |steps| ensures steps[i].id != steps[j].id {
      assert sid(i) == sid(j) ==> i == j;
    }
  }

  // The actions the executor is handed, in order.
  function ActionsOf(steps: seq<Step>): seq<Action> {
    var flat := Flatten(steps);
    seq(|flat|, i requires 0 <= i < |flat| => flat[i].action)
  }

  // A step with a drawn id, after steps already there.
  method Append(steps: seq<Step>, sid: nat -> string, deps: seq<string>, action: Action)
      returns (more: seq<Step>, id: string)
    requires IsPlan(steps, sid) && forall d :: d in deps ==> d in IdsOf(steps)
    ensures IsPlan(more, sid) && IdsOf(more) == IdsOf(steps) + {id} && ActionsOf(more) == ActionsOf(steps) + [action]
  {
    id := sid(|steps|);
    more := steps + [Step(id, deps, Some(action), Planned)];
    forall k, d | 0 <= k < |more| && d in more[k].dependsOn ensures d in IdsOf(more[..k]) {
      if k < |steps| { assert more[..k] == steps[..k]; } else { assert more[..k] == steps; }
    }
    assert more[..|more| - 1] == steps;
  }

  // Of all action lists, exactly the one the steps hand over: quantified in Builds only so that the
  // recursive Execute stays folded in the compilers; BuildsPlan states it plainly.
  predicate Hands(steps: seq<Step>, actions: seq<Action>) {
    actions == ActionsOf(steps)
  }

  // The steps so far are a plan, and executing the actions it hands over builds this.
  ghost predicate Builds(steps: seq<Step>, sid: nat -> string, b: Built) {
    forall actions :: Hands(steps, actions) ==> IsPlan(steps, sid) && Execute(actions) == b
  }

  lemma Built0(sid: nat -> string)
    ensures Builds([], sid, Bare([], []))
  {
  }

  lemma BuildsPlan(steps: seq<Step>, sid: nat -> string, b: Built)
    requires Builds(steps, sid, b)
    ensures IsPlan(steps, sid) && Execute(ActionsOf(steps)) == b
  {
    assert Hands(steps, ActionsOf(steps));
  }

  ghost predicate Among(deps: seq<string>, steps: seq<Step>) {
    forall d :: d in deps ==> d in IdsOf(steps)
  }

  method AppendOther(steps: seq<Step>, sid: nat -> string, deps: seq<string>, action: Action, ghost b: Built)
      returns (more: seq<Step>, id: string)
    requires Builds(steps, sid, b) && Among(deps, steps)
    ensures Builds(more, sid, Perform(b, action)) && IdsOf(more) == IdsOf(steps) + {id}
  {
    BuildsPlan(steps, sid, b);
    ExecuteNext(ActionsOf(steps), action);
    more, id := Append(steps, sid, deps, action);
  }

  method AppendCreate(steps: seq<Step>, sid: nat -> string, deps: seq<string>, specs: seq<Spec>, ghost b: Built)
      returns (more: seq<Step>, id: string)
    requires Builds(steps, sid, b) && Among(deps, steps)
    ensures Builds(more, sid, b.(created := b.created + specs)) && IdsOf(more) == IdsOf(steps) + {id}
  {
    more, id := AppendOther(steps, sid, deps, CreateNodes(specs), b);
  }

  method AppendConnect(steps: seq<Step>, sid: nat -> string, deps: seq<string>, edges: seq<Ref>, ghost b: Built)
      returns (more: seq<Step>, id: string)
    requires Builds(steps, sid, b) && Among(deps, steps) && b.inRange
    requires forall e :: e in edges ==> Known(b, e.source) && Known(b, e.target)
    ensures Builds(more, sid, b.(edges := b.edges + edges)) && IdsOf(more) == IdsOf(steps) + {id}
  {
    InRangeResolves(b, edges);
    more, id := AppendOther(steps, sid, deps, ConnectNodes(edges), b);
  }

  function ChainRefs(n: nat): seq<Ref> {
    if n < 2 then [] else seq(n - 1, i requires 0 <= i < n - 1 => Ref(i, i + 1))
  }

  // Every plan starts by reading the canvas and creating its first nodes.
  method CompileCreate(specs: seq<Spec>, sid: nat -> string) returns (steps: seq<Step>, create: string)
    ensures Builds(steps, sid, Bare(specs, [])) && create in IdsOf(steps)
  {
    var read;
    Built0(sid);
    steps, read := AppendOther([], sid, [], GetCanvasSummary, Bare([], []));
    steps, create := AppendCreate(steps, sid, [read], specs, Bare([], []));
  }

  // ---------- _compile_short_drama ----------

  method CompileBase(withCharacter: bool, sid: nat -> string) returns (steps: seq<Step>, connected: string)
    ensures Builds(steps, sid, Bare(BaseNodes(withCharacter), BaseEdges(withCharacter)))
    ensures connected in IdsOf(steps)
  {
    var shot := if withCharacter then 2 else 1;
    var base := [SCRIPT] + (if withCharacter then [CHARACTER] else []) + [SHOT];
    var edges := [Ref(0, shot)] + if withCharacter then [Ref(0, 1), Ref(1, shot)] else [];
    var create;
    steps, create := CompileCreate(base, sid);
    steps, connected := AppendConnect(steps, sid, [create], edges, Bare(base, []));
  }

  lemma KeyframeEdgesNext(edges: seq<Ref>, withCharacter: bool, i: nat)
    ensures var kf := FirstKeyframe(withCharacter) + i;
      edges + KeyframeEdges(withCharacter, i)
        + ([Ref(ShotIndex(withCharacter), kf)] + if withCharacter then [Ref(1, kf)] else [])
      == edges + KeyframeEdges(withCharacter, i + 1)
  {
  }

  lemma ClipEdgesNext(edges: seq<Ref>, n: nat, withCharacter: bool, i: nat)
    ensures edges + ClipEdges(n, withCharacter, i)
      + [Ref(FirstKeyframe(withCharacter) + i, FirstClip(n, withCharacter) + i)]
      == edges + ClipEdges(n, withCharacter, i + 1)
  {
  }

  method ConnectKeyframe(steps0: seq<Step>, sid: nat -> string, i: nat, withCharacter: bool, created: string,
                         ghost b: Built, ghost edges: seq<Ref>)
      returns (steps: seq<Step>, id: string)
    requires Builds(steps0, sid, b) && created in IdsOf(steps0) && b.inRange
    requires b.edges == edges + KeyframeEdges(withCharacter, i) && FirstKeyframe(withCharacter) + i < |b.created|
    ensures Builds(steps, sid, b.(edges := edges + KeyframeEdges(withCharacter, i + 1)))
    ensures IdsOf(steps) == IdsOf(steps0) + {id}
  {
    var shot := if withCharacter then 2 else 1;
    var kf := shot + 1 + i;
    var added := [Ref(shot, kf)] + if withCharacter then [Ref(1, kf)] else [];
    KeyframeEdgesNext(edges, withCharacter, i);
    steps, id := AppendConnect(steps0, sid, [created], added, b);
  }

  // First frames, and a connecting step each.
  method CompileKeyframes(steps0: seq<Step>, sid: nat -> string, n: nat, withCharacter: bool, after: string,
      ghost b: Built)
      returns (steps: seq<Step>, created: string, connected: seq<string>)
    requires Builds(steps0, sid, b) && after in IdsOf(steps0) && b.inRange
    requires |b.created| == FirstKeyframe(withCharacter)
    ensures Builds(steps, sid,
      b.(created := b.created + Copies(KEYFRAME, n), edges := b.edges + KeyframeEdges(withCharacter, n)))
    ensures created in IdsOf(steps) && |connected| == n && Among(connected, steps)
  {
    var images := Repeat(KEYFRAME, n);
    steps, created := AppendCreate(steps0, sid, [after], images, b);
    steps, connected := ConnectKeyframes(steps, sid, n, withCharacter, created, b.(created := b.created + images));
  }

  method ConnectKeyframes(steps0: seq<Step>, sid: nat -> string, n: nat, withCharacter: bool, created: string,
      ghost b: Built)
      returns (steps: seq<Step>, connected: seq<string>)
    requires Builds(steps0, sid, b) && created in IdsOf(steps0) && b.inRange
    requires |b.created| == FirstKeyframe(withCharacter) + n
    ensures Builds(steps, sid, b.(edges := b.edges + KeyframeEdges(withCharacter, n)))
    ensures created in IdsOf(steps) && |connected| == n && Among(connected, steps)
  {
    steps, connected := steps0, [];
    assert b.edges + KeyframeEdges(withCharacter, 0) == b.edges;
    for i := 0 to n
      invariant Builds(steps, sid, b.(edges := b.edges + KeyframeEdges(withCharacter, i)))
      invariant created in IdsOf(steps) && |connected| == i && Among(connected, steps)
    {
      var id;
      steps, id := ConnectKeyframe(steps, sid, i, withCharacter, created,
        b.(edges := b.edges + KeyframeEdges(withCharacter, i)), b.edges);
      connected := connected + [id];
    }
  }

  method ConnectClip(steps0: seq<Step>, sid: nat -> string, i: nat, n: nat, withCharacter: bool, created: string,
                     ghost b: Built, ghost edges: seq<Ref>)
      returns (steps: seq<Step>, id: string)
    requires Builds(steps0, sid, b) && created in IdsOf(steps0) && b.inRange
    requires b.edges == edges + ClipEdges(n, withCharacter, i) && i < n
    requires FirstClip(n, withCharacter) + n <= |b.created|
    ensures Builds(steps, sid, b.(edges := edges + ClipEdges(n, withCharacter, i + 1)))
    ensures IdsOf(steps) == IdsOf(steps0) + {id}
  {
    var kfBase := (if withCharacter then 2 else 1) + 1;
    ClipEdgesNext(edges, n, withCharacter, i);
    steps, id := AppendConnect(steps0, sid, [created], [Ref(kfBase + i, kfBase + n + i)], b);
  }

  // Clips, after all first frames are connected, and a connecting step each.
  method CompileClips(steps0: seq<Step>, sid: nat -> string, n: nat, withCharacter: bool, deps: seq<string>,
      ghost b: Built)
      returns (steps: seq<Step>, created: string)
    requires Builds(steps0, sid, b) && Among(deps, steps0) && b.inRange && |b.created| == FirstClip(n, withCharacter)
    ensures Builds(steps, sid,
      b.(created := b.created + Copies(CLIP, n), edges := b.edges + ClipEdges(n, withCharacter, n)))
    ensures created in IdsOf(steps)
  {
    var videos := Repeat(CLIP, n);
    steps, created := AppendCreate(steps0, sid, deps, videos, b);
    ghost var c := b.(created := b.created + videos);
    for i := 0 to n
      invariant Builds(steps, sid, c.(edges := b.edges + ClipEdges(n, withCharacter, i))) && created in IdsOf(steps)
    {
      var id;
      steps, id := ConnectClip(steps, sid, i, n, withCharacter, created,
        c.(edges := b.edges + ClipEdges(n, withCharacter, i)), b.edges);
    }
  }

  // The compose node and its clips, then the layout.
  method CompileCompose(steps0: seq<Step>, sid: nat -> string, n: nat, withCharacter: bool, after: string,
      ghost b: Built)
      returns (steps: seq<Step>, arranged: string)
    requires Builds(steps0, sid, b) && after in IdsOf(steps0) && b.inRange
    requires |b.created| == ComposeIndex(n, withCharacter)
    ensures Builds(steps, sid,
      b.(created := b.created + [COMPOSITE], edges := b.edges + ComposeEdges(n, withCharacter, n),
         arranged := |b.created| + 1))
    ensures arranged in IdsOf(steps)
  {
    var created, connected;
    steps, created := AppendCreate(steps0, sid, [after], [COMPOSITE], b);
    ghost var c := b.(created := b.created + [COMPOSITE]);
    steps, connected := ConnectComposite(steps, sid, n, withCharacter, created, c);
    ghost var done := c.(edges := b.edges + ComposeEdges(n, withCharacter, n));
    steps, arranged := AppendOther(steps, sid, [created], LayoutNodes, done);
  }

  method ConnectComposite(steps0: seq<Step>, sid: nat -> string, n: nat, withCharacter: bool, created: string,
      ghost b: Built)
      returns (steps: seq<Step>, id: string)
    requires Builds(steps0, sid, b) && created in IdsOf(steps0) && b.inRange
    requires |b.created| == ComposeIndex(n, withCharacter) + 1
    ensures Builds(steps, sid, b.(edges := b.edges + ComposeEdges(n, withCharacter, n)))
    ensures IdsOf(steps) == IdsOf(steps0) + {id}
  {
    var edges := ClipsIntoComposite(n, withCharacter);
    steps, id := AppendConnect(steps0, sid, [created], edges, b);
  }

  method ClipsIntoComposite(n: nat, withCharacter: bool) returns (edges: seq<Ref>)
    ensures edges == ComposeEdges(n, withCharacter, n)
    ensures forall e :: e in edges ==> e.source < e.target == ComposeIndex(n, withCharacter)
  {
    var baseVid := (if withCharacter then 2 else 1) + 1 + n;
    edges := [];
    for i := 0 to n
      invariant edges == ComposeEdges(n, withCharacter, i)
    {
      edges := edges + [Ref(baseVid + i, baseVid + n)];
    }
    ComposeEdgeMembers(n, withCharacter, n);
  }

  // The whole chain after the text base.
  method CompileChain(steps0: seq<Step>, sid: nat -> string, n: nat, withCharacter: bool, after: string)
      returns (steps: seq<Step>, arranged: string, ghost b: Built)
    requires Builds(steps0, sid, Bare(BaseNodes(withCharacter), BaseEdges(withCharacter)))
    requires after in IdsOf(steps0)
    ensures Builds(steps, sid, b) && DrawsShortDrama(n, withCharacter, b) && arranged in IdsOf(steps)
    ensures b == Bare(b.created, b.edges).(arranged := |b.created|)
  {
    var created, connected;
    b := Bare(BaseNodes(withCharacter), BaseEdges(withCharacter));
    steps, created, connected := CompileKeyframes(steps0, sid, n, withCharacter, after, b);
    b := b.(created := b.created + Copies(KEYFRAME, n), edges := b.edges + KeyframeEdges(withCharacter, n));
    steps, created := CompileClips(steps, sid, n, withCharacter, if connected != [] then connected else [created], b);
    b := b.(created := b.created + Copies(CLIP, n), edges := b.edges + ClipEdges(n, withCharacter, n));
    steps, arranged := CompileCompose(steps, sid, n, withCharacter, created, b);
    b := b.(created := b.created + [COMPOSITE], edges := b.edges + ComposeEdges(n, withCharacter, n),
            arranged := |b.created| + 1);
    EdgesAreArrows(n, withCharacter);
    assert b.edges == AllEdges(n, withCharacter);
  }

  const SCRIPT_ONLY_COST := 5

  // Script and storyboard, with the character card between them if there is one, and not laid out.
  ghost predicate IsTextBase(withCharacter: bool, b: Built) {
    && b.created == (if withCharacter then [SCRIPT, CHARACTER, SHOT] else [SCRIPT, SHOT])
    && b.edges == (if withCharacter then [Ref(0, 2), Ref(0, 1), Ref(1, 2)] else [Ref(0, 1)])
    && b.arranged == 0
  }

  // What a compiled short drama of n shots builds. It draws the same graph as
  // plan_short_drama_workflow; its chain cost is that of a drama without a character card,
  // whether there is one or not.
  ghost predicate IsCompiledDrama(n: nat, withCharacter: bool, stopAfterScript: bool, noExec: bool, b: Built) {
    && (if stopAfterScript then b.inRange && IsTextBase(withCharacter, b)
        else DrawsShortDrama(n, withCharacter, b) && b.arranged == |b.created|)
    && b.submits == (if noExec then [] else if stopAfterScript then [Ask(0, Text, 5, 0)]
        else [Ask(0, Text, 8, ChainCost(n, false, 30))])
    && b.references == [] && b.selections == []
  }

  method CompileDrama(n: nat, withCharacter: bool, stopAfterScript: bool, noExec: bool, sid: nat -> string)
      returns (steps: seq<Step>, ghost b: Built)
    ensures Builds(steps, sid, b) && IsCompiledDrama(n, withCharacter, stopAfterScript, noExec, b)
  {
    var last;
    steps, last := CompileBase(withCharacter, sid);
    b := Bare(BaseNodes(withCharacter), BaseEdges(withCharacter));
    var cost, chain := SCRIPT_ONLY_COST, 0;
    if !stopAfterScript {
      cost := DefaultCost(Text);
      steps, last, b := CompileChain(steps, sid, n, withCharacter, last);
      chain := DefaultCost(Text) + DefaultCost(Image) * n + DefaultCost(Video) * n + DefaultCost(Compose);
    }
    if !noExec {
      var submit := Action.SubmitGeneration(0, Text, cost, chain);
      steps, last := AppendOther(steps, sid, [last], submit, b);
      b := Perform(b, submit);
    }
  }

  // At most eight shots are compiled.
  method CompileShortDrama(shots: nat, withCharacter: bool, stopAfterScript: bool, noExec: bool, sid: nat -> string)
      returns (steps: seq<Step>)
    requires shots >= 1
    ensures IsPlan(steps, sid)
    ensures var n := if shots < 8 then shots else 8;
      IsCompiledDrama(n, withCharacter, stopAfterScript, noExec, Execute(ActionsOf(steps)))
  {
    ghost var b;
    steps, b := CompileDrama(if shots < 8 then shots else 8, withCharacter, stopAfterScript, noExec, sid);
    BuildsPlan(steps, sid, b);
  }

  // ---------- _steps_connect_selected ----------

  // One step feeding the selected nodes into a created one, or none when nothing is selected.
  method ConnectSelection(steps: seq<Step>, sid: nat -> string, deps: seq<string>, sources: seq<int>, target: nat,
      ghost b: Built)
      returns (more: seq<Step>, last: seq<string>)
    requires Builds(steps, sid, b) && Among(deps, steps) && b.inRange && target < |b.created|
    ensures Builds(more, sid, if sources == [] then b else b.(selections := b.selections + [(sources, target)]))
    ensures Among(last, more) && IdsOf(steps) <= IdsOf(more)
    ensures sources == [] ==> more == steps && last == deps
  {
    if sources == [] { return steps, deps; }
    var id;
    more, id := AppendOther(steps, sid, deps, ConnectSelected(sources, target), b);
    last := [id];
  }

  // ---------- _compile_simple_visual ----------

  const IMAGE_COST := 8

  // The images are created once each, each is fed by what was selected and submitted once, in order, and they
  // are tied together left to right; the triptych's reading order is no input edge, so none waits for another.
  ghost predicate IsVisual(count: nat, selected: seq<int>, b: Built) {
    && b.inRange && b.created == Copies(KEYFRAME, count) && b.edges == []
    && |b.submits| == count && (forall i :: 0 <= i < count ==> b.submits[i] == Ask(i, Image, 8, 0))
    && (if selected == [] then b.selections == []
        else |b.selections| == count && forall i :: 0 <= i < count ==> b.selections[i] == (selected, i))
    && b.references == (if count == 3 then [Ref(0, 1), Ref(1, 2)] else [])
  }

  function ImageSubmits(count: nat): seq<Ask> {
    seq(count, (i: nat) => Ask(i, Image, IMAGE_COST, 0))
  }

  function Selections(selected: seq<int>, count: nat): seq<(seq<int>, nat)> {
    if selected == [] then [] else seq(count, (i: nat) => (selected, i))
  }

  method CompileSimpleVisual(count: nat, selected: seq<int>, sid: nat -> string) returns (steps: seq<Step>)
    requires count in {1, 3}
    ensures IsPlan(steps, sid) && IsVisual(count, selected, Execute(ActionsOf(steps)))
  {
    ghost var b;
    steps, b := CompileImages(count, selected, sid);
    BuildsPlan(steps, sid, b);
  }

  method CompileImages(count: nat, selected: seq<int>, sid: nat -> string)
      returns (steps: seq<Step>, ghost b: Built)
    requires count in {1, 3}
    ensures Builds(steps, sid, b) && IsVisual(count, selected, b)
  {
    var images := Repeat(KEYFRAME, count);
    var create, last;
    steps, create := CompileCreate(images, sid);
    b := Bare(images, []);
    steps, last := SelectForAll(steps, sid, [create], selected, count, b);
    b := b.(selections := Selections(selected, count));
    steps, last := TieTogether(steps, sid, last, count, b);
    b := b.(references := ChainRefs(count));
    steps := SubmitImages(steps, sid, last, count, b);
    b := b.(submits := ImageSubmits(count));
  }

  // The reading order of more than one image.
  method TieTogether(steps: seq<Step>, sid: nat -> string, deps: seq<string>, count: nat, ghost b: Built)
      returns (more: seq<Step>, last: seq<string>)
    requires Builds(steps, sid, b) && Among(deps, steps) && b.inRange && |b.created| == count && b.references == []
    ensures Builds(more, sid, b.(references := ChainRefs(count))) && Among(last, more)
  {
    if count < 2 { return steps, deps; }
    var id;
    InRangeResolves(b, ChainRefs(count));
    more, id := AppendOther(steps, sid, deps, ConnectReferences(ChainRefs(count)), b);
    last := [id];
  }

  // The selected nodes feed each of the images.
  method SelectForAll(steps0: seq<Step>, sid: nat -> string, deps: seq<string>, selected: seq<int>, count: nat,
      ghost b: Built)
      returns (steps: seq<Step>, last: seq<string>)
    requires Builds(steps0, sid, b) && Among(deps, steps0) && b.inRange && |b.created| == count
    requires b.selections == []
    ensures Builds(steps, sid, b.(selections := Selections(selected, count))) && Among(last, steps)
  {
    steps, last := steps0, deps;
    if selected == [] { return; }
    assert b.(selections := Selections(selected, 0)) == b;
    for i := 0 to count
      invariant Builds(steps, sid, b.(selections := Selections(selected, i))) && Among(last, steps)
    {
      assert Selections(selected, i) + [(selected, i)] == Selections(selected, i + 1);
      steps, last := ConnectSelection(steps, sid, last, selected, i, b.(selections := Selections(selected, i)));
    }
  }

  method SubmitImages(steps0: seq<Step>, sid: nat -> string, deps: seq<string>, count: nat, ghost b: Built)
      returns (steps: seq<Step>)
    requires Builds(steps0, sid, b) && Among(deps, steps0) && b.inRange && |b.created| == count && b.submits == []
    ensures Builds(steps, sid, b.(submits := ImageSubmits(count)))
  {
    steps := steps0;
    var last := deps;
    for i := 0 to count
      invariant Builds(steps, sid, b.(submits := ImageSubmits(i))) && Among(last, steps)
    {
      var id;
      var submit := Action.SubmitGeneration(i, Image, IMAGE_COST, 0);
      ghost var now := b.(submits := ImageSubmits(i));
      steps, id := AppendOther(steps, sid, last, submit, now);
      assert ImageSubmits(i) + [Ask(i, Image, IMAGE_COST, 0)] == ImageSubmits(i + 1);
      last := [id];
    }
  }

  // ---------- _compile_text_chain ----------

  // The specs of the skeleton's labels, a kind already seen being skipped.
  function Kinds(labels: seq<Spec>): seq<Spec> {
    if labels == [] then []
    else
      var kinds := Kinds(labels[..|labels| - 1]);
      if labels[|labels| - 1] in kinds then kinds else kinds + [labels[|labels| - 1]]
  }

  // x occurs among the labels before y does.
  ghost predicate OccursBefore(labels: seq<Spec>, x: Spec, y: Spec) {
    exists p :: 0 <= p < |labels| && labels[p] == x && y !in labels[..p + 1]
  }

  lemma {:induction false} KindsAreDistinct(labels: seq<Spec>)
    ensures Distinct(Kinds(labels)) && forall x :: x in Kinds(labels) <==> x in labels
    ensures forall i, j :: 0 <= i < j < |Kinds(labels)| ==> OccursBefore(labels, Kinds(labels)[i], Kinds(labels)[j])
  {
    if labels != [] {
      var front, last := labels[..|labels| - 1], labels[|labels| - 1];
      KindsAreDistinct(front);
      assert labels == front + [last];
      var kinds := Kinds(labels);
      forall i, j | 0 <= i < j < |kinds| ensures OccursBefore(labels, kinds[i], kinds[j]) {
        if j < |Kinds(front)| {
          assert OccursBefore(front, kinds[i], kinds[j]);
          var p :| 0 <= p < |front| && front[p] == kinds[i] && kinds[j] !in front[..p + 1];
          assert labels[..p + 1] == front[..p + 1];
        } else {
          assert kinds[i] in front && last !in front;
          var p :| 0 <= p < |front| && front[p] == kinds[i];
          assert labels[..p + 1] == front[..p + 1];
        }
      }
    }
  }

  // The first image, or the first node when there is none.
  function FirstImage(kinds: seq<Spec>, from: nat := 0): (k: nat)
    requires from <= |kinds|
    ensures k == 0 || (from <= k < |kinds| && kinds[k].ntype == Image)
    ensures forall i :: from <= i < k ==> kinds[i].ntype != Image
    ensures (exists i :: from <= i < |kinds| && kinds[i].ntype == Image) ==> k < |kinds| && kinds[k].ntype == Image
    decreases |kinds| - from
  {
    if from == |kinds| then 0 else if kinds[from].ntype == Image then from else FirstImage(kinds, from + 1)
  }

  function StartCost(t: NodeType): nat {
    match t
    case Image => 8
    case Audio => 10
    case _ => 5
  }

  // Each kind feeds the next, all are laid out, and what was selected feeds the first image, or the first node
  // without one; that node, or the first when nothing was selected, is submitted, unless it cannot be or was
  // not to be.
  ghost predicate IsChain(kinds: seq<Spec>, selected: seq<int>, noExec: bool, b: Built)
    requires kinds != []
  {
    && b.inRange && b.created == kinds && b.arranged == |kinds| && b.references == []
    && |b.edges| == |kinds| - 1 && (forall i :: 0 <= i < |b.edges| ==> b.edges[i] == Ref(i, i + 1))
    && exists image: nat :: IsFirstImage(kinds, image)
         && b.selections == (if selected == [] then [] else [(selected, image)])
         && b.submits == StartOf(kinds, if selected == [] then 0 else image, noExec)
  }

  ghost predicate IsFirstImage(kinds: seq<Spec>, k: nat) {
    if forall i :: 0 <= i < |kinds| ==> kinds[i].ntype != Image then k == 0
    else k < |kinds| && kinds[k].ntype == Image && forall i :: 0 <= i < k ==> kinds[i].ntype != Image
  }

  ghost function StartOf(kinds: seq<Spec>, start: nat, noExec: bool): seq<Ask> {
    if noExec || start >= |kinds| then []
    else match kinds[start].ntype
      case Text => [Ask(start, Text, 5, 0)]
      case Image => [Ask(start, Image, 8, 0)]
      case Audio => [Ask(start, Audio, 10, 0)]
      case _ => []
  }

  // The nodes of the chain, wired in order and arranged.
  method CompileLinks(kinds: seq<Spec>, selected: seq<int>, sid: nat -> string)
      returns (steps: seq<Step>, arranged: string, ghost b: Built)
    requires kinds != []
    ensures Builds(steps, sid, b) && arranged in IdsOf(steps)
    ensures b == Bare(kinds, ChainRefs(|kinds|)).(
      selections := if selected == [] then [] else [(selected, FirstImage(kinds))], arranged := |kinds|)
  {
    var create, last;
    steps, create := CompileCreate(kinds, sid);
    b := Bare(kinds, []);
    steps, last := ConnectSelection(steps, sid, [create], selected, FirstImage(kinds), b);
    b := b.(selections := if selected == [] then [] else [(selected, FirstImage(kinds))]);
    steps, last := LinkAll(steps, sid, last, |kinds|, b);
    b := b.(edges := ChainRefs(|kinds|));
    steps, arranged := AppendOther(steps, sid, last, LayoutNodes, b);
    b := b.(arranged := |kinds|);
  }

  method LinkAll(steps: seq<Step>, sid: nat -> string, deps: seq<string>, n: nat, ghost b: Built)
      returns (more: seq<Step>, last: seq<string>)
    requires Builds(steps, sid, b) && Among(deps, steps) && b.inRange && |b.created| == n && b.edges == []
    ensures Builds(more, sid, b.(edges := ChainRefs(n))) && Among(last, more)
  {
    if n < 2 { return steps, deps; }
    var id;
    more, id := AppendConnect(steps, sid, deps, ChainRefs(n), b);
    last := [id];
  }

  // A chain of distinct kinds, each feeding the next; at most its start is submitted.
  method CompileTextChain(labels: seq<Spec>, selected: seq<int>, noExec: bool, sid: nat -> string)
      returns (steps: seq<Step>)
    ensures labels == [] ==> steps == []
    ensures labels != [] ==>
      Kinds(labels) != [] && IsPlan(steps, sid) && IsChain(Kinds(labels), selected, noExec, Execute(ActionsOf(steps)))
  {
    var kinds := CollectKinds(labels);
    KindsEmpty(labels);
    if kinds == [] { return []; }
    ghost var b;
    steps, b := CompileChosen(kinds, selected, noExec, sid);
    BuildsPlan(steps, sid, b);
  }

  // The links, and at most one submission.
  method CompileChosen(kinds: seq<Spec>, selected: seq<int>, noExec: bool, sid: nat -> string)
      returns (steps: seq<Step>, ghost b: Built)
    requires kinds != []
    ensures Builds(steps, sid, b) && IsChain(kinds, selected, noExec, b)
  {
    var arranged;
    steps, arranged, b := CompileLinks(kinds, selected, sid);
    var start := if selected != [] then FirstImage(kinds) else 0;
    if !noExec && kinds[start].ntype in {Text, Image, Audio} {
      var submit := Action.SubmitGeneration(start, kinds[start].ntype, StartCost(kinds[start].ntype), 0);
      steps, arranged := AppendOther(steps, sid, [arranged], submit, b);
      b := Perform(b, submit);
    }
    assert IsFirstImage(kinds, FirstImage(kinds));
  }

  lemma {:induction false} KindsEmpty(labels: seq<Spec>)
    ensures Kinds(labels) == [] <==> labels == []
  {
    if labels != [] { KindsEmpty(labels[..|labels| - 1]); }
  }

  method CollectKinds(labels: seq<Spec>) returns (kinds: seq<Spec>)
    ensures kinds == Kinds(labels)
  {
    kinds := [];
    for i := 0 to |labels|
      invariant kinds == Kinds(labels[..i])
    {
      assert labels[..i + 1][..i] == labels[..i];
      if labels[i] !in kinds { kinds := kinds + [labels[i]]; }
    }
    assert labels[..|labels|] == labels;
  }

  // ---------- Every compiled plan ----------

  // Whatever a compiler built: its order is sound, its actions come in dependency order, there is
  // always a next step, and it is complete after exactly as many marks as it has steps.
  lemma CompiledPlanCompletes(steps: seq<Step>, sid: nat -> string, b: Built, marks: seq<nat>)
    requires Fresh(sid) && Builds(steps, sid, b) && LegalMarks(steps, marks)
    ensures WellOrdered(steps) && |marks| <= |steps|
    ensures IsTaskComplete(Some(AfterMarks(steps, marks)), 0) <==> |marks| == |steps|
    ensures GetReadySteps(AfterMarks(steps, marks)) != [] <==> |marks| < |steps|
  {
    BuildsPlan(steps, sid, b);
    PlanIsWellOrdered(steps, sid);
    NoneSucceeded(steps);
    CompleteInExactlyAllMarks(steps, marks);
  }

  lemma {:induction false} NoneSucceeded(steps: seq<Step>)
    requires forall k :: 0 <= k < |steps| ==> steps[k].status == Planned
    ensures CountSucceeded(steps) == 0
  {
    if steps != [] { NoneSucceeded(steps[..|steps| - 1]); }
  }
}
