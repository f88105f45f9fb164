// Plan steps: which may run next, marking one, when the plan is complete, and flattening the
// steps into actions.

module PlanSteps {
  import opened Collections
  import opened ShortDrama

  datatype StepStatus = Planned | Ready | Running | Queued | Blocked | Succeeded | Failed | Cancelled | Skipped

  datatype Step = Step(id: string, dependsOn: seq<string>, action: Option<Action>, status: StepStatus)

  ghost function IdsOf(steps: seq<Step>): set<string> {
    set s | s in steps :: s.id
  }

  ghost predicate UniqueSteps(steps: seq<Step>) {
    forall i, j :: 0 <= i < j < |steps| ==> steps[i].id != steps[j].id
  }

  // Every dependency names a strictly earlier step.
  ghost predicate DependsEarlier(steps: seq<Step>) {
    forall k, d :: 0 <= k < |steps| && d in steps[k].dependsOn ==> d in IdsOf(steps[..k])
  }

  ghost predicate WellOrdered(steps: seq<Step>) {
    UniqueSteps(steps) && DependsEarlier(steps)
  }

  // ---------- get_ready_steps ----------

  // The status under an id, a repeated id keeping its last.
  function StatusOf(steps: seq<Step>, id: string): Option<StepStatus> {
    if steps == [] then None
    else if steps[|steps| - 1].id == id then Some(steps[|steps| - 1].status)
    else StatusOf(steps[..|steps| - 1], id)
  }

  predicate CanStart(steps: seq<Step>, s: Step) {
    s.status == Planned && forall d :: d in s.dependsOn ==> StatusOf(steps, d) == Some(Succeeded)
  }

  function Starting(all: seq<Step>, steps: seq<Step>): seq<Step> {
    if steps == [] then []
    else
      var last := steps[|steps| - 1];
      Starting(all, steps[..|steps| - 1]) + if CanStart(all, last) then [last] else []
  }

  function GetReadySteps(steps: seq<Step>): seq<Step> { Starting(steps, steps) }

  lemma {:induction false} StartingMembers(all: seq<Step>, steps: seq<Step>)
    ensures forall s :: s in Starting(all, steps) <==> s in steps && CanStart(all, s)
  {
    if steps != [] {
      StartingMembers(all, steps[..|steps| - 1]);
      assert steps == steps[..|steps| - 1] + [steps[|steps| - 1]];
    }
  }

  // The last step with this id has succeeded.
  ghost predicate HasSucceeded(steps: seq<Step>, id: string) {
    exists k :: 0 <= k < |steps| && steps[k].id == id && steps[k].status == Succeeded
      && forall i :: k < i < |steps| ==> steps[i].id != id
  }

  lemma {:induction false} StatusIsSucceeded(steps: seq<Step>, id: string)
    ensures StatusOf(steps, id) == Some(Succeeded) <==> HasSucceeded(steps, id)
  {
    if steps != [] {
      var n := |steps| - 1;
      if steps[n].id != id {
        StatusIsSucceeded(steps[..n], id);
        if HasSucceeded(steps[..n], id) {
          var k :| 0 <= k < n && steps[..n][k].id == id && steps[..n][k].status == Succeeded
            && forall i :: k < i < n ==> steps[..n][i].id != id;
          assert steps[k].id == id && forall i :: k < i < n ==> steps[i].id == steps[..n][i].id;
        }
        if HasSucceeded(steps, id) {
          var k :| 0 <= k < |steps| && steps[k].id == id && steps[k].status == Succeeded
            && forall i :: k < i < |steps| ==> steps[i].id != id;
          assert steps[..n][k].id == id;
        }
      }
    }
  }

  lemma StartMeans(steps: seq<Step>, s: Step)
    ensures CanStart(steps, s) <==> s.status == Planned && forall d :: d in s.dependsOn ==> HasSucceeded(steps, d)
  {
    forall d ensures StatusOf(steps, d) == Some(Succeeded) <==> HasSucceeded(steps, d) {
      StatusIsSucceeded(steps, d);
    }
  }

  // The ready steps are picked one by one, in the order of the plan: those still planned whose every
  // dependency has succeeded.
  lemma {:induction false} ReadyOneByOne(all: seq<Step>, a: seq<Step>, b: seq<Step>, s: Step)
    ensures GetReadySteps(all) == Starting(all, all)
    ensures Starting(all, a + b) == Starting(all, a) + Starting(all, b)
    ensures Starting(all, [s]) ==
      if s.status == Planned && forall d :: d in s.dependsOn ==> HasSucceeded(all, d) then [s] else []
  {
    StartMeans(all, s);
    assert [s][..0] == [];
    if b == [] {
      assert a + b == a;
    } else {
      ReadyOneByOne(all, a, b[..|b| - 1], s);
      assert (a + b)[..|a + b| - 1] == a + b[..|b| - 1];
    }
  }

  lemma {:induction false} StatusOfUnique(steps: seq<Step>, k: nat)
    requires UniqueSteps(steps) && k < |steps|
    ensures StatusOf(steps, steps[k].id) == Some(steps[k].status)
  {
    if k < |steps| - 1 {
      assert steps[k].id != steps[|steps| - 1].id;
      StatusOfUnique(steps[..|steps| - 1], k);
    }
  }

  // Every step is still to do or done.
  ghost predicate InProgress(steps: seq<Step>) {
    forall k :: 0 <= k < |steps| ==> steps[k].status in {Planned, Succeeded}
  }

  // The first step still to do.
  function FirstPlanned(steps: seq<Step>): (k: nat)
    ensures k <= |steps| && (k < |steps| ==> steps[k].status == Planned)
    ensures forall i :: 0 <= i < k ==> steps[i].status != Planned
  {
    if steps == [] || steps[0].status == Planned then 0 else 1 + FirstPlanned(steps[1..])
  }

  lemma ReadyIsPlanned(steps: seq<Step>) returns (k: nat)
    requires GetReadySteps(steps) != []
    ensures k < |steps| && steps[k].status == Planned && CanStart(steps, steps[k])
  {
    StartingMembers(steps, steps);
    var s := GetReadySteps(steps)[0];
    assert s in GetReadySteps(steps);
    k :| 0 <= k < |steps| && steps[k] == s;
  }

  lemma FirstPlannedCanStart(steps: seq<Step>, k: nat)
    requires WellOrdered(steps) && k < |steps| && steps[k].status == Planned
    requires forall i :: 0 <= i < k ==> steps[i].status == Succeeded
    ensures CanStart(steps, steps[k])
  {
    forall d | d in steps[k].dependsOn ensures StatusOf(steps, d) == Some(Succeeded) {
      assert d in IdsOf(steps[..k]);
      var e :| e in steps[..k] && e.id == d;
      var i :| 0 <= i < k && steps[i] == e;
      StatusOfUnique(steps, i);
    }
  }

  // While some step is still to do and the rest succeeded, some step may start.
  lemma SomethingIsReady(steps: seq<Step>)
    requires WellOrdered(steps) && InProgress(steps)
    ensures GetReadySteps(steps) == [] <==> forall k :: 0 <= k < |steps| ==> steps[k].status == Succeeded
  {
    var k := FirstPlanned(steps);
    if k < |steps| {
      FirstPlannedCanStart(steps, k);
      StartingMembers(steps, steps);
      assert steps[k] in steps;
      assert steps[k] in GetReadySteps(steps);
    }
    if GetReadySteps(steps) != [] { var j := ReadyIsPlanned(steps); }
  }

  // ---------- mark_step and is_task_complete ----------

  function Marked(steps: seq<Step>, id: string, status: StepStatus): (r: seq<Step>)
    ensures |r| == |steps|
  {
    seq(|steps|, i requires 0 <= i < |steps| => if steps[i].id == id then steps[i].(status := status) else steps[i])
  }

  method MarkStep(plan: seq<Step>, id: string, status: StepStatus) returns (steps: seq<Step>)
    ensures steps == Marked(plan, id, status)
    ensures |steps| == |plan| && forall k :: 0 <= k < |plan| ==>
      steps[k] == if plan[k].id == id then plan[k].(status := status) else plan[k]
    ensures forall k :: 0 <= k < |plan| && UniqueSteps(plan) && plan[k].id == id ==>
      steps == plan[k := plan[k].(status := status)]
  {
    steps := [];
    for i := 0 to |plan|
      invariant steps == Marked(plan, id, status)[..i]
    {
      var s := plan[i];
      if s.id == id { s := s.(status := status); }
      steps := steps + [s];
    }
    forall k | 0 <= k < |plan| && UniqueSteps(plan) && plan[k].id == id
      ensures steps == plan[k := plan[k].(status := status)]
    {
      MarkedOne(plan, k, status);
    }
  }

  lemma MarkedOne(steps: seq<Step>, k: nat, status: StepStatus)
    requires UniqueSteps(steps) && k < |steps|
    ensures Marked(steps, steps[k].id, status) == steps[k := steps[k].(status := status)]
  {
    forall i | 0 <= i < |steps| && i != k ensures steps[i].id != steps[k].id {
      if i < k { assert steps[i].id != steps[k].id; } else { assert steps[k].id != steps[i].id; }
    }
  }

  const ACTIVE := {Planned, Ready, Running, Queued, Blocked}

  predicate IsTaskComplete(plan: Option<seq<Step>>, pendingRuns: nat): (complete: bool)
    ensures complete <==>
      plan.Some? && pendingRuns == 0
      && forall k :: 0 <= k < |plan.value| ==> plan.value[k].status in {Succeeded, Cancelled, Skipped}
  {
    && plan.Some? && pendingRuns == 0
    && forall s :: s in plan.value ==> s.status !in ACTIVE && s.status != Failed
  }

  function CountSucceeded(steps: seq<Step>): (n: nat)
    ensures n <= |steps|
  {
    if steps == [] then 0
    else CountSucceeded(steps[..|steps| - 1]) + if steps[|steps| - 1].status == Succeeded then 1 else 0
  }

  lemma {:induction false} CountFollowsMark(steps: seq<Step>, k: nat)
    requires k < |steps| && steps[k].status != Succeeded
    ensures CountSucceeded(steps[k := steps[k].(status := Succeeded)]) == CountSucceeded(steps) + 1
  {
    var more := steps[k := steps[k].(status := Succeeded)];
    var n := |steps| - 1;
    if k == n {
      assert more[..n] == steps[..n];
    } else {
      CountFollowsMark(steps[..n], k);
      assert more[..n] == steps[..n][k := steps[k].(status := Succeeded)];
    }
  }

  lemma {:induction false} CompleteIffAllCounted(steps: seq<Step>)
    requires InProgress(steps)
    ensures CountSucceeded(steps) == |steps| <==> IsTaskComplete(Some(steps), 0)
  {
    if steps != [] {
      var front, last := steps[..|steps| - 1], steps[|steps| - 1];
      assert steps == front + [last];
      CompleteIffAllCounted(front);
    }
  }

  // Marking one ready step after another, each by its position.
  ghost predicate LegalMarks(steps: seq<Step>, marks: seq<nat>)
    decreases marks
  {
    marks != [] ==>
      && marks[0] < |steps| && CanStart(steps, steps[marks[0]])
      && LegalMarks(Marked(steps, steps[marks[0]].id, Succeeded), marks[1..])
  }

  ghost function AfterMarks(steps: seq<Step>, marks: seq<nat>): seq<Step>
    requires LegalMarks(steps, marks)
    decreases marks
  {
    if marks == [] then steps else AfterMarks(Marked(steps, steps[marks[0]].id, Succeeded), marks[1..])
  }

  lemma MarkKeepsPlan(steps: seq<Step>, k: nat)
    requires WellOrdered(steps) && InProgress(steps) && k < |steps| && steps[k].status == Planned
    ensures var after := Marked(steps, steps[k].id, Succeeded);
      WellOrdered(after) && InProgress(after) && CountSucceeded(after) == CountSucceeded(steps) + 1
  {
    var after := Marked(steps, steps[k].id, Succeeded);
    MarkedOne(steps, k, Succeeded);
    CountFollowsMark(steps, k);
    forall j, d | 0 <= j < |after| && d in after[j].dependsOn ensures d in IdsOf(after[..j]) {
      assert d in IdsOf(steps[..j]);
      var e :| e in steps[..j] && e.id == d;
      var i :| 0 <= i < j && steps[i] == e;
      assert after[..j][i] in after[..j] && after[i].id == d;
    }
  }

  // However the ready steps are picked, a plan is complete after exactly as many marks as it
  // has steps, and until then there is a next one.
  lemma {:induction false} CompleteInExactlyAllMarks(steps: seq<Step>, marks: seq<nat>)
    requires WellOrdered(steps) && InProgress(steps) && LegalMarks(steps, marks)
    ensures CountSucceeded(steps) + |marks| <= |steps| && |AfterMarks(steps, marks)| == |steps|
    ensures IsTaskComplete(Some(AfterMarks(steps, marks)), 0) <==> CountSucceeded(steps) + |marks| == |steps|
    ensures GetReadySteps(AfterMarks(steps, marks)) != [] <==> CountSucceeded(steps) + |marks| < |steps|
    decreases marks
  {
    if marks == [] {
      CompleteIffAllCounted(steps);
      SomethingIsReady(steps);
      assert IsTaskComplete(Some(steps), 0) <==> forall k :: 0 <= k < |steps| ==> steps[k].status == Succeeded by {
        forall k | 0 <= k < |steps| ensures steps[k] in steps {}
      }
    } else {
      MarkKeepsPlan(steps, marks[0]);
      CompleteInExactlyAllMarks(Marked(steps, steps[marks[0]].id, Succeeded), marks[1..]);
    }
  }

  // ---------- Flattening ----------

  datatype PlannedAction = PlannedAction(stepId: string, action: Action)

  predicate Skips(s: Step) {
    s.status in {Succeeded, Skipped, Cancelled} || s.action.None?
  }

  function Flatten(steps: seq<Step>): seq<PlannedAction> {
    if steps == [] then []
    else
      var last := steps[|steps| - 1];
      Flatten(steps[..|steps| - 1]) + if Skips(last) then [] else [PlannedAction(last.id, last.action.value)]
  }

  // steps_to_planned_actions
  method StepsToPlannedActions(steps: seq<Step>) returns (out: seq<PlannedAction>)
    ensures out == Flatten(steps)
  {
    out := [];
    for i := 0 to |steps|
      invariant out == Flatten(steps[..i])
    {
      assert steps[..i + 1][..i] == steps[..i];
      var step := steps[i];
      if step.status in {Succeeded, Skipped, Cancelled} { continue; }
      if step.action.None? { continue; }
      out := out + [PlannedAction(step.id, step.action.value)];
    }
    assert steps[..|steps|] == steps;
  }

  // Steps hand over one by one, in order: nothing when done with or without an action, else their action.
  lemma {:induction false} HandsOverOneByOne(a: seq<Step>, b: seq<Step>, s: Step)
    ensures Flatten(a + b) == Flatten(a) + Flatten(b)
    ensures Flatten([s]) ==
      if s.action.None? || s.status == Succeeded || s.status == Skipped || s.status == Cancelled then []
      else [PlannedAction(s.id, s.action.value)]
  {
    assert [s][..0] == [];
    if b == [] {
      assert a + b == a;
    } else {
      HandsOverOneByOne(a, b[..|b| - 1], s);
      assert (a + b)[..|a + b| - 1] == a + b[..|b| - 1];
    }
  }

  lemma {:induction false} FlattenedIds(steps: seq<Step>)
    ensures forall a :: a in Flatten(steps) ==> a.stepId in IdsOf(steps)
  {
    if steps != [] {
      FlattenedIds(steps[..|steps| - 1]);
      assert steps == steps[..|steps| - 1] + [steps[|steps| - 1]];
    }
  }

  lemma LastIdIsNew(steps: seq<Step>, k: nat)
    requires UniqueSteps(steps) && k < |steps|
    ensures steps[|steps| - 1].id !in IdsOf(steps[..k])
  {
    forall s | s in steps[..k] ensures s.id != steps[|steps| - 1].id {
      var i :| 0 <= i < k && steps[i] == s;
    }
  }

  // Nothing depends on the last step, and the rest is a plan of its own.
  lemma LastIsNew(steps: seq<Step>)
    requires WellOrdered(steps) && steps != []
    ensures WellOrdered(steps[..|steps| - 1]) && steps[|steps| - 1].id !in IdsOf(steps[..|steps| - 1])
    ensures forall s :: s in steps ==> steps[|steps| - 1].id !in s.dependsOn
  {
    var front, last := steps[..|steps| - 1], steps[|steps| - 1];
    LastIdIsNew(steps, |front|);
    forall k, d | 0 <= k < |front| && d in front[k].dependsOn ensures d in IdsOf(front[..k]) {
      assert front[..k] == steps[..k];
    }
    forall s | s in steps ensures last.id !in s.dependsOn {
      var k :| 0 <= k < |steps| && steps[k] == s;
      LastIdIsNew(steps, k);
    }
  }

  lemma FlattenedEarlier(steps: seq<Step>, j: nat, s: Step)
    requires WellOrdered(steps) && steps != [] && s in steps
    requires j < |Flatten(steps[..|steps| - 1])| && Flatten(steps[..|steps| - 1])[j].stepId == s.id
    ensures s in steps[..|steps| - 1]
  {
    var front := steps[..|steps| - 1];
    FlattenedIds(front);
    LastIsNew(steps);
    assert Flatten(front)[j] in Flatten(front);
    assert steps == front + [steps[|steps| - 1]];
  }

  lemma FlattenedLast(steps: seq<Step>, i: nat)
    requires steps != [] && i < |Flatten(steps)|
    ensures i < |Flatten(steps[..|steps| - 1])| || Flatten(steps)[i].stepId == steps[|steps| - 1].id
  {
  }

  // In the flattened list no action comes before one its step depends on.
  lemma {:induction false} FlattenedIsTopological(steps: seq<Step>, i: nat, j: nat, s: Step)
    requires WellOrdered(steps) && i < |Flatten(steps)| && j < |Flatten(steps)|
    requires s in steps && Flatten(steps)[j].stepId == s.id && Flatten(steps)[i].stepId in s.dependsOn
    ensures i < j
  {
    var front, last := steps[..|steps| - 1], steps[|steps| - 1];
    var early := Flatten(front);
    FlattenedLast(steps, i);
    LastIsNew(steps);
    if j < |early| {
      FlattenedEarlier(steps, j, s);
      FlattenedIsTopological(front, i, j, s);
    }
  }
}
