// Runs whose wakeups are taken one at a time: what is submitted, how long they last, and where they end.

module CalmRun {
  import opened Collections
  import opened Graph
  import opened Canvas
  import opened Scheduler
  import opened SchedulerRun

  // One wakeup at a time, of a notice or of a clock job.
  ghost predicate CalmDo(s: State, edges: seq<Edge>, ev: Event) {
    CanDo(s, edges, ev) && (ev.Begin? || ev.Clock? ==> s.active == map[])
  }

  ghost predicate CalmStep(edges: seq<Edge>, s: State, s': State) {
    exists ev :: CalmDo(s, edges, ev) && s' == Do(s, edges, ev)
  }

  // The nodes a run is followed on: closed under inputs, and untouched when it begins. The other nodes of
  // the canvas may have any status.
  ghost predicate FreshPart(nm: NodeTable, edges: seq<Edge>, part: set<int>) {
    && (forall i :: i in nm ==> i != 0 && nm[i].id == i)
    && (forall n :: n in part ==> !Touched(nm, n))
    && ClosedUnderInputs(edges, part)
  }

  ghost predicate ClosedUnderInputs(edges: seq<Edge>, part: set<int>) {
    forall c, m :: m in part && c in InputSources(edges, m) ==> c in part
  }

  function Start(nm: NodeTable): State {
    State(nm, [], [], {}, multiset{}, map[], {}, {}, [], {}, 0)
  }

  ghost predicate IsCalmRun(nm: NodeTable, edges: seq<Edge>, part: set<int>, run: seq<State>) {
    run != [] && FreshPart(nm, edges, part) && run[0] == Start(nm) && CalmSteps(edges, run)
  }

  ghost predicate CalmSteps(edges: seq<Edge>, run: seq<State>) {
    forall i, j :: 0 <= i && j == i + 1 < |run| ==> CalmStep(edges, run[i], run[j])
  }

  // The node is on the canvas, of a type that runs, and not a compose node short of inputs.
  predicate Runnable(nm: NodeTable, edges: seq<Edge>, n: int) {
    n in nm && Executable(nm[n].ntype) && (nm[n].ntype.Compose? ==> |InputSources(edges, n)| >= 2)
  }

  // ---------- What every state of a calm run satisfies ----------

  ghost predicate Calm(s: State, edges: seq<Edge>, part: set<int>) {
    && Sound(s, edges) && OnePlan(s) && ClosedUnderInputs(edges, part)
    && (forall n :: n in part ==> NodeIsCalm(s, edges, n))
    && SourcesFirst(ArcsInto(edges, part), s.log)
  }

  ghost predicate OnePlan(s: State) {
    && (forall v, w :: v in s.active && w in s.active ==> v == w)
    && (forall w :: w in s.active ==> Distinct(s.active[w].plan))
  }

  ghost function ArcsInto(edges: seq<Edge>, part: set<int>): Arcs {
    set a | a in SourceArcs(edges) && a.1 in part
  }

  ghost predicate NodeIsCalm(s: State, edges: seq<Edge>, n: int) {
    && NotLost(s, edges, n)
    && FedIfTaken(s, edges, n)
    && CountIsBounded(s, n)
    && StatusIsExplained(s, n)
    && HaltsAreExact(s, n)
    && MarksAreExplained(s, n)
  }

  // Each input was submitted before, and is ready unless it was written back since.
  ghost predicate Fed(s: State, edges: seq<Edge>, n: int) {
    && Runnable(s.nm, edges, n)
    && forall c :: c in InputSources(edges, n) ==> c in s.log && (IsReady(s.nm, c) || c in s.undone)
  }

  ghost predicate FedIfTaken(s: State, edges: seq<Edge>, n: int) {
    n in s.log || InPlan(s, n) ==> Fed(s, edges, n)
  }

  // A node is submitted at most once more often than it was written back to a status that allows it.
  ghost predicate CountIsBounded(s: State, n: int) {
    multiset(s.log)[n] + (if InPlan(s, n) && Touched(s.nm, n) then 1 else 0) <=
    multiset(s.freed)[n] + (if Touched(s.nm, n) then 1 else 0)
  }

  predicate RunsFor(s: State, t: nat, n: int) {
    t < |s.log| && t < |s.outcomes| && s.log[t] == n && s.outcomes[t].InFlight?
  }

  predicate ResultFor(s: State, t: nat, n: int) {
    t < |s.log| && t < |s.outcomes| && s.log[t] == n && s.outcomes[t] in {Done, Unsettled}
  }

  predicate LostFor(s: State, t: nat, n: int) {
    t < |s.log| && t < |s.outcomes| && s.log[t] == n && s.outcomes[t] in {Broken, Cancelled, Expired}
  }

  // A node in flight has a task in flight, a ready one a task with a result, a failed one a task without.
  ghost predicate StatusIsExplained(s: State, n: int) {
    && (Active(s.nm, n) ==> exists t :: RunsFor(s, t, n))
    && (IsReady(s.nm, n) ==> exists t :: ResultFor(s, t, n))
    && (n in s.nm && s.nm[n].status.Failed? ==> exists t :: LostFor(s, t, n))
  }

  // A halted node is failed or open; a submitted node that is open is halted; a missed one is open.
  ghost predicate HaltsAreExact(s: State, n: int) {
    && (n in s.halted && Touched(s.nm, n) ==> s.nm[n].status.Failed?)
    && (n in s.nm && s.nm[n].status.Failed? ==> n in s.halted)
    && (n in s.log && !Touched(s.nm, n) ==> n in s.halted)
    && (n in s.missed ==> !Touched(s.nm, n))
  }

  // A node is open again only if a task of it ended without a result, and only then can it be undone.
  ghost predicate MarksAreExplained(s: State, n: int) {
    && (n in s.freed ==> exists t :: LostFor(s, t, n))
    && (n in s.undone ==> n in s.freed)
  }

  // ---------- Plans ----------

  lemma PlanIsOnly(s: State, w: int, m: int)
    requires OnePlan(s) && w in s.active
    ensures InPlan(s, m) <==> m in s.active[w].plan
  {
    if m in s.active[w].plan { assert w in s.active && m in s.active[w].plan; }
  }

  lemma NoPlan(s: State, m: int)
    requires s.active == map[]
    ensures !InPlan(s, m)
  {
  }

  // How a step changes what is planned, and what is submitted.
  predicate TakesHead(s: State, ev: Event, m: int)
    requires (ev.SubmitNext? || ev.RejectNext?) ==> ev.w in s.active && s.active[ev.w].plan != []
  {
    (ev.SubmitNext? || ev.RejectNext?) && s.active[ev.w].plan[0] == m
  }

  lemma PlanAfter(s: State, edges: seq<Edge>, ev: Event, m: int)
    requires OnePlan(s) && CalmDo(s, edges, ev)
    ensures var s' := Do(s, edges, ev);
      InPlan(s', m) <==>
        if ev.Begin? || ev.Clock? then m in ev.plan
        else if ev.Finish? || ev.Drop? || ev.Abort? then false
        else InPlan(s, m) && !TakesHead(s, ev, m)
  {
    var s' := Do(s, edges, ev);
    if ev.Begin? || ev.Clock? {
      assert s'.active == map[ev.w := s'.active[ev.w]];
      if m in ev.plan { assert m in s'.active[ev.w].plan; }
    } else if ev.Finish? || ev.Drop? || ev.Abort? {
      assert forall v :: v in s.active ==> v == ev.w;
    } else if ev.SubmitNext? || ev.RejectNext? {
      HeadLeaves(s, s', ev.w, m);
    } else {
      assert s'.active == s.active;
    }
  }

  lemma HeadLeaves(s: State, s': State, w: int, m: int)
    requires OnePlan(s) && w in s.active && s.active[w].plan != [] && s'.active == Advance(s, w).active
    ensures InPlan(s', m) <==> InPlan(s, m) && m != s.active[w].plan[0]
    ensures OnePlan(s')
  {
    var plan := s.active[w].plan;
    assert plan == [plan[0]] + plan[1..];
    assert s'.active[w].plan == plan[1..];
    assert forall v :: v in s'.active <==> v in s.active;
    PlanIsOnly(s, w, m);
    if m in plan[1..] { assert m in s'.active[w].plan; }
    assert plan[0] !in plan[1..];
  }

  lemma StaysOnePlan(s: State, edges: seq<Edge>, ev: Event)
    requires OnePlan(s) && CalmDo(s, edges, ev)
    ensures OnePlan(Do(s, edges, ev))
  {
    if ev.SubmitNext? || ev.RejectNext? { HeadLeaves(s, Do(s, edges, ev), ev.w, 0); }
  }

  // ---------- Inputs ----------

  // Inputs stay ready or become undone.
  lemma StepUndoes(s: State, edges: seq<Edge>, ev: Event, c: int)
    requires CanDo(s, edges, ev)
    ensures IsReady(s.nm, c) || c in s.undone ==> IsReady(Do(s, edges, ev).nm, c) || c in Do(s, edges, ev).undone
  {
  }

  lemma SameRunnable(s: State, edges: seq<Edge>, ev: Event, n: int)
    requires CanDo(s, edges, ev)
    ensures Runnable(Do(s, edges, ev).nm, edges, n) <==> Runnable(s.nm, edges, n)
  {
    DoKeepsIds(s, edges, ev);
    assert n in Do(s, edges, ev).nm.Keys <==> n in s.nm.Keys;
    if n in s.nm { DoKeepsNode(s, edges, ev, n); }
  }

  lemma FedStays(s: State, edges: seq<Edge>, ev: Event, n: int)
    requires Sound(s, edges) && CanDo(s, edges, ev) && Fed(s, edges, n)
    ensures Fed(Do(s, edges, ev), edges, n)
  {
    SameRunnable(s, edges, ev, n);
    StepSucceeds(s, edges, ev);
    forall c | c in InputSources(edges, n)
      ensures c in Do(s, edges, ev).log && (IsReady(Do(s, edges, ev).nm, c) || c in Do(s, edges, ev).undone)
    {
      StepUndoes(s, edges, ev, c);
    }
  }

  // What a scan plans is fed.
  lemma PlannedIsFed(s: State, edges: seq<Edge>, ev: Event, n: int)
    requires Sound(s, edges) && CanDo(s, edges, ev) && (ev.Begin? || ev.Clock?) && n in ev.plan
    requires forall c :: c in InputSources(edges, n) ==> StatusIsExplained(s, c)
    ensures Fed(Do(s, edges, ev), edges, n)
  {
    forall c | c in InputSources(edges, n) ensures c in s.log {
      assert IsReady(Look(s, ev.t).nm, c);
      if c != s.log[ev.t] {
        assert IsReady(s.nm, c);
        var t: nat :| ResultFor(s, t, c);
      }
    }
  }

  lemma RootIsFed(s: State, edges: seq<Edge>, n: int)
    requires CanDo(s, edges, SubmitRoot(n)) && s.nm[n].id == n
    ensures Fed(s, edges, n)
  {
    assert |InputSources(edges, n)| == 0;
  }

  lemma FedIfTakenStays(s: State, edges: seq<Edge>, ev: Event, n: int)
    requires Sound(s, edges) && OnePlan(s) && CalmDo(s, edges, ev) && FedIfTaken(s, edges, n)
    requires forall c :: c in InputSources(edges, n) ==> StatusIsExplained(s, c)
    ensures FedIfTaken(Do(s, edges, ev), edges, n)
  {
    PlanAfter(s, edges, ev, n);
    LogAfter(s, edges, ev, n);
    if n in s.log || InPlan(s, n) {
      FedStays(s, edges, ev, n);
    } else if (ev.Begin? || ev.Clock?) && n in ev.plan {
      PlannedIsFed(s, edges, ev, n);
    } else if ev.SubmitRoot? && ev.n == n {
      RootIsFed(s, edges, n);
      FedStays(s, edges, ev, n);
    } else if ev.SubmitNext? {
      PlanIsOnly(s, ev.w, n);
    }
  }

  // ---------- Counts ----------

  predicate Submits(s: State, ev: Event, n: int)
    requires ev.SubmitNext? ==> ev.w in s.active && s.active[ev.w].plan != []
  {
    (ev.SubmitRoot? && ev.n == n) || (ev.SubmitNext? && s.active[ev.w].plan[0] == n)
  }

  lemma LogAfter(s: State, edges: seq<Edge>, ev: Event, n: int)
    requires CanDo(s, edges, ev)
    ensures var s' := Do(s, edges, ev);
      && multiset(s'.log)[n] == multiset(s.log)[n] + (if Submits(s, ev, n) then 1 else 0)
      && (n in s'.log <==> n in s.log || Submits(s, ev, n))
  {
    var s' := Do(s, edges, ev);
    if ev.SubmitRoot? {
      assert s'.log == s.log + [ev.n];
    } else if ev.SubmitNext? {
      assert s'.log == s.log + [s.active[ev.w].plan[0]];
    } else {
      assert s'.log == s.log;
    }
  }

  lemma WriteCounts(s: State, x: int, st: Status, n: int)
    requires x in s.nm
    ensures var s' := Write(s, x, st);
      multiset(s'.freed)[n] + (if Touched(s'.nm, n) then 1 else 0) ==
      multiset(s.freed)[n] + (if Touched(s.nm, n) || (x == n && !Untouched(st)) then 1 else 0)
  {
  }

  // What the step writes, if it writes a status at all.
  predicate Writes(s: State, ev: Event, x: int, st: Status) {
    match ev
    case SubmitRoot(n) => x == n && st == Queued
    case SubmitNext(w) => w in s.active && s.active[w].plan != [] && x == s.active[w].plan[0] && st == Queued
    case End(t, outcome) => Known(s, t) && x == s.log[t] && st == outcome.Reported()
    case Begin(_, t, _) => Known(s, t) && x == s.log[t] && st == s.outcomes[t].LookedUp()
    case Clock(_, t, _) => Known(s, t) && x == s.log[t] && st == s.outcomes[t].LookedUp()
    case Busy(t) => Known(s, t) && x == s.log[t] && st == s.outcomes[t].LookedUp()
    case Mark(_, m) => x == m && st == Stale
    case _ => false
  }

  ghost predicate Touches(s: State, ev: Event, n: int) {
    exists st :: Writes(s, ev, n, st) && !Untouched(st)
  }

  lemma FreedAfter(s: State, edges: seq<Edge>, ev: Event, n: int)
    requires CanDo(s, edges, ev)
    ensures var s' := Do(s, edges, ev);
      multiset(s'.freed)[n] + (if Touched(s'.nm, n) then 1 else 0) ==
      multiset(s.freed)[n] + (if Touched(s.nm, n) || Touches(s, ev, n) then 1 else 0)
    ensures Touched(Do(s, edges, ev).nm, n) ==> Touched(s.nm, n) || Touches(s, ev, n)
  {
    match ev
    case SubmitRoot(x) => WriteCounts(s, x, Queued, n); assert Writes(s, ev, x, Queued);
    case SubmitNext(w) =>
      WriteCounts(Advance(s, w), s.active[w].plan[0], Queued, n);
      assert Writes(s, ev, s.active[w].plan[0], Queued);
    case End(t, outcome) =>
      WriteCounts(s, s.log[t], outcome.Reported(), n);
      assert Writes(s, ev, s.log[t], outcome.Reported());
    case Begin(_, t, _) =>
      WriteCounts(s, s.log[t], s.outcomes[t].LookedUp(), n);
      assert Writes(s, ev, s.log[t], s.outcomes[t].LookedUp());
    case Clock(_, t, _) =>
      WriteCounts(s, s.log[t], s.outcomes[t].LookedUp(), n);
      assert Writes(s, ev, s.log[t], s.outcomes[t].LookedUp());
    case Busy(t) =>
      WriteCounts(s, s.log[t], s.outcomes[t].LookedUp(), n);
      assert Writes(s, ev, s.log[t], s.outcomes[t].LookedUp());
    case Mark(_, m) => WriteCounts(s, m, Stale, n); assert Writes(s, ev, m, Stale);
    case _ =>
  }

  lemma CountStaysBounded(s: State, edges: seq<Edge>, ev: Event, n: int)
    requires Sound(s, edges) && OnePlan(s) && CalmDo(s, edges, ev) && CountIsBounded(s, n)
    ensures CountIsBounded(Do(s, edges, ev), n)
  {
    LogAfter(s, edges, ev, n);
    PlanAfter(s, edges, ev, n);
    FreedAfter(s, edges, ev, n);
    if ev.SubmitRoot? && ev.n == n {
      RootIsUnplanned(s, edges, n);
    } else if ev.SubmitNext? {
      PlanIsOnly(s, ev.w, n);
      if s.active[ev.w].plan[0] == n { assert Writes(s, ev, n, Queued); }
    }
  }

  lemma RootIsUnplanned(s: State, edges: seq<Edge>, n: int)
    requires Sound(s, edges) && IsRoot(edges, n)
    ensures !InPlan(s, n)
  {
  }

  // ---------- Statuses ----------

  lemma ResultStays(s: State, edges: seq<Edge>, ev: Event, n: int)
    requires Sound(s, edges) && CanDo(s, edges, ev) && exists t :: ResultFor(s, t, n)
    ensures exists t :: ResultFor(Do(s, edges, ev), t, n)
  {
    var t: nat :| ResultFor(s, t, n);
    StepSucceeds(s, edges, ev);
    assert ResultFor(Do(s, edges, ev), t, n);
  }

  lemma LossStays(s: State, edges: seq<Edge>, ev: Event, n: int)
    requires Sound(s, edges) && CanDo(s, edges, ev) && exists t :: LostFor(s, t, n)
    ensures exists t :: LostFor(Do(s, edges, ev), t, n)
  {
    var t: nat :| LostFor(s, t, n);
    StepSucceeds(s, edges, ev);
    assert LostFor(Do(s, edges, ev), t, n);
  }

  lemma FlightStays(s: State, edges: seq<Edge>, ev: Event, n: int)
    requires Sound(s, edges) && CanDo(s, edges, ev) && exists t :: RunsFor(s, t, n)
    requires !(ev.End? && s.log[ev.t] == n)
    ensures exists t :: RunsFor(Do(s, edges, ev), t, n)
  {
    var t: nat :| RunsFor(s, t, n);
    StepSucceeds(s, edges, ev);
    assert RunsFor(Do(s, edges, ev), t, n);
  }

  // A status that was not written is the one the node had.
  lemma Unwritten(s: State, edges: seq<Edge>, ev: Event, n: int)
    requires CanDo(s, edges, ev) && !exists st :: Writes(s, ev, n, st)
    ensures n in Do(s, edges, ev).nm <==> n in s.nm
    ensures n in s.nm ==> Do(s, edges, ev).nm[n] == s.nm[n]
    ensures n in Do(s, edges, ev).undone <==> n in s.undone
    ensures n in Do(s, edges, ev).freed <==> n in s.freed
  {
    var s' := Do(s, edges, ev);
    match ev
    case SubmitRoot(x) => assert Writes(s, ev, x, Queued);
    case SubmitNext(w) => assert Writes(s, ev, s.active[w].plan[0], Queued);
    case End(t, outcome) => assert Writes(s, ev, s.log[t], outcome.Reported());
    case Begin(_, t, _) => assert Writes(s, ev, s.log[t], s.outcomes[t].LookedUp());
    case Clock(_, t, _) => assert Writes(s, ev, s.log[t], s.outcomes[t].LookedUp());
    case Busy(t) => assert Writes(s, ev, s.log[t], s.outcomes[t].LookedUp());
    case Mark(_, m) => assert Writes(s, ev, m, Stale);
    case _ =>
  }

  // A written status is explained by the task that wrote it.
  lemma WrittenIsExplained(s: State, edges: seq<Edge>, ev: Event, n: int, st: Status)
    requires Sound(s, edges) && CanDo(s, edges, ev) && Writes(s, ev, n, st) && StatusIsExplained(s, n)
    ensures var s' := Do(s, edges, ev);
      && n in s'.nm && s'.nm[n].status == st
      && (ActiveStatus(st) ==> exists t :: RunsFor(s', t, n))
      && (ReadyStatus(st) ==> exists t :: ResultFor(s', t, n))
      && (Untouched(st) || st.Failed? ==> exists t :: LostFor(s', t, n))
  {
    var s' := Do(s, edges, ev);
    if ev.SubmitRoot? || ev.SubmitNext? {
      assert RunsFor(s', |s.log|, n);
    } else if ev.Mark? {
      LossStays(s, edges, ev, n);
    } else {
      assert ev.Begin? ==> !s.outcomes[ev.t].InFlight?;
      var o := if ev.End? then ev.outcome else s.outcomes[ev.t];
      assert s'.outcomes[ev.t] == o && s'.log[ev.t] == n;
      assert o.InFlight? ==> RunsFor(s', ev.t, n);
      assert o in {Done, Unsettled} ==> ResultFor(s', ev.t, n);
      assert o in {Broken, Cancelled, Expired} ==> LostFor(s', ev.t, n);
    }
  }

  lemma StatusStaysExplained(s: State, edges: seq<Edge>, ev: Event, n: int)
    requires Sound(s, edges) && CanDo(s, edges, ev) && StatusIsExplained(s, n)
    ensures StatusIsExplained(Do(s, edges, ev), n)
  {
    if st :| Writes(s, ev, n, st) {
      WrittenIsExplained(s, edges, ev, n, st);
    } else {
      Unwritten(s, edges, ev, n);
      if ev.End? { assert Writes(s, ev, s.log[ev.t], ev.outcome.Reported()); }
      if Active(s.nm, n) { FlightStays(s, edges, ev, n); }
      if IsReady(s.nm, n) { ResultStays(s, edges, ev, n); }
      if n in s.nm && s.nm[n].status.Failed? { LossStays(s, edges, ev, n); }
    }
  }

  // ---------- Halts ----------

  lemma HaltsStayExact(s: State, edges: seq<Edge>, ev: Event, n: int)
    requires Sound(s, edges) && CanDo(s, edges, ev) && HaltsAreExact(s, n)
    ensures HaltsAreExact(Do(s, edges, ev), n)
  {
    LogAfter(s, edges, ev, n);
    if st :| Writes(s, ev, n, st) {
      WrittenHalts(s, edges, ev, n, st);
    } else {
      Unwritten(s, edges, ev, n);
      UnwrittenHalts(s, edges, ev, n);
    }
  }

  lemma WrittenHalts(s: State, edges: seq<Edge>, ev: Event, n: int, st: Status)
    requires CanDo(s, edges, ev) && Writes(s, ev, n, st) && n in s.nm
    ensures var s' := Do(s, edges, ev);
      && n in s'.nm && s'.nm[n].status == st
      && (n in s'.halted <==> !ReadyStatus(st) && !ActiveStatus(st))
      && (n in s'.missed <==> n in s.missed && Untouched(st))
      && s'.nm[n] == s.nm[n].(status := st)
  {
  }

  lemma UnwrittenHalts(s: State, edges: seq<Edge>, ev: Event, n: int)
    requires CanDo(s, edges, ev) && forall st :: !Writes(s, ev, n, st)
    ensures var s' := Do(s, edges, ev);
      && (n in s.halted ==> n in s'.halted) && (n in s'.halted ==> n in s.halted || !Touched(s.nm, n))
      && (n in s.missed ==> n in s'.missed) && (n in s'.missed ==> n in s.missed || !Touched(s.nm, n))
      && !Submits(s, ev, n)
  {
    match ev
    case SubmitRoot(x) => OtherHalts(s, x, Queued, n); assert Writes(s, ev, x, Queued);
    case SubmitNext(w) =>
      OtherHalts(Advance(s, w), s.active[w].plan[0], Queued, n);
      assert Writes(s, ev, s.active[w].plan[0], Queued);
    case End(t, outcome) =>
      OtherHalts(s, s.log[t], outcome.Reported(), n);
      assert Writes(s, ev, s.log[t], outcome.Reported());
    case Begin(_, t, _) =>
      OtherHalts(s, s.log[t], s.outcomes[t].LookedUp(), n);
      assert Writes(s, ev, s.log[t], s.outcomes[t].LookedUp());
    case Clock(_, t, _) =>
      OtherHalts(s, s.log[t], s.outcomes[t].LookedUp(), n);
      assert Writes(s, ev, s.log[t], s.outcomes[t].LookedUp());
    case Busy(t) =>
      OtherHalts(s, s.log[t], s.outcomes[t].LookedUp(), n);
      assert Writes(s, ev, s.log[t], s.outcomes[t].LookedUp());
    case Mark(_, m) => OtherHalts(s, m, Stale, n); assert Writes(s, ev, m, Stale);
    case _ =>
  }

  lemma OtherHalts(s: State, x: int, st: Status, n: int)
    requires x in s.nm
    ensures n != x ==> (n in Write(s, x, st).halted <==> n in s.halted)
    ensures n != x ==> (n in Write(s, x, st).missed <==> n in s.missed)
  {
  }

  // ---------- Marks ----------

  lemma TwoTasks(log: seq<int>, t: nat, u: nat)
    requires t < |log| && u < |log| && t != u && log[t] == log[u]
    ensures multiset(log)[log[t]] >= 2
  {
    var i, j := if t < u then t else u, if t < u then u else t;
    assert log == log[..j] + ([log[j]] + log[j + 1..]);
    assert multiset(log) == multiset(log[..j]) + (multiset{log[j]} + multiset(log[j + 1..]));
    assert log[..j][i] == log[i] && log[i] in multiset(log[..j]);
  }

  lemma LoggedOnce(log: seq<int>, t: nat)
    requires t < |log|
    ensures multiset(log)[log[t]] >= 1
  {
    assert log[t] in multiset(log);
  }

  // A ready node that is written to be failed or in flight again was opened before.
  lemma UndoneWasFreed(s: State, edges: seq<Edge>, ev: Event, n: int, st: Status)
    requires Sound(s, edges) && OnePlan(s) && CanDo(s, edges, ev) && Writes(s, ev, n, st)
    requires CountIsBounded(s, n) && StatusIsExplained(s, n)
    requires IsReady(s.nm, n) && !ReadyStatus(st) && !Untouched(st)
    ensures n in s.freed
  {
    var t: nat :| ResultFor(s, t, n);
    LoggedOnce(s.log, t);
    if ev.SubmitNext? {
      PlanIsOnly(s, ev.w, n);
    } else {
      assert !ev.SubmitRoot? && !ev.Mark?;
      assert ev.t != t && s.log[ev.t] == n;
      TwoTasks(s.log, t, ev.t);
    }
    assert n in multiset(s.freed);
  }

  lemma MarksStayExplained(s: State, edges: seq<Edge>, ev: Event, n: int)
    requires Sound(s, edges) && OnePlan(s) && CanDo(s, edges, ev)
    requires CountIsBounded(s, n) && StatusIsExplained(s, n) && MarksAreExplained(s, n)
    ensures MarksAreExplained(Do(s, edges, ev), n)
  {
    if n in s.freed { LossStays(s, edges, ev, n); }
    if st :| Writes(s, ev, n, st) {
      WrittenMarks(s, edges, ev, n, st);
      WrittenIsExplained(s, edges, ev, n, st);
      if IsReady(s.nm, n) && !ReadyStatus(st) && !Untouched(st) { UndoneWasFreed(s, edges, ev, n, st); }
    } else {
      Unwritten(s, edges, ev, n);
    }
  }

  lemma WrittenMarks(s: State, edges: seq<Edge>, ev: Event, n: int, st: Status)
    requires CanDo(s, edges, ev) && Writes(s, ev, n, st)
    ensures var s' := Do(s, edges, ev);
      && (n in s'.freed <==> n in s.freed || (Touched(s.nm, n) && Untouched(st)))
      && (n in s'.undone <==> n in s.undone || (IsReady(s.nm, n) && !ReadyStatus(st)))
  {
  }

  // ---------- Every step ----------

  lemma NodeStaysCalm(s: State, edges: seq<Edge>, ev: Event, n: int)
    requires Sound(s, edges) && OnePlan(s) && CalmDo(s, edges, ev) && NodeIsCalm(s, edges, n)
    requires forall c :: c in InputSources(edges, n) ==> StatusIsExplained(s, c)
    ensures NodeIsCalm(Do(s, edges, ev), edges, n)
  {
    StepKeepsNode(s, edges, ev, n);
    FedIfTakenStays(s, edges, ev, n);
    CountStaysBounded(s, edges, ev, n);
    StatusStaysExplained(s, edges, ev, n);
    HaltsStayExact(s, edges, ev, n);
    MarksStayExplained(s, edges, ev, n);
  }

  lemma SubmittedIsFed(s: State, edges: seq<Edge>, part: set<int>, ev: Event, n: int)
    requires Calm(s, edges, part) && CalmDo(s, edges, ev) && Submits(s, ev, n) && n in part
    ensures forall c :: c in InputSources(edges, n) ==> c in s.log
  {
    assert NodeIsCalm(s, edges, n);
    if ev.SubmitRoot? { RootIsFed(s, edges, n); } else { PlanIsOnly(s, ev.w, n); }
  }

  lemma OneMoreInOrder(arcs: Arcs, log: seq<int>, n: int)
    requires SourcesFirst(arcs, log) && forall c :: (c, n) in arcs ==> c in log
    ensures SourcesFirst(arcs, log + [n])
  {
    var more := log + [n];
    forall k, x | 0 <= k < |more| && (x, more[k]) in arcs ensures x in more[..k] {
      if k < |log| {
        assert more[..k] == log[..k] && more[k] == log[k];
      } else {
        assert more[..k] == log;
      }
    }
  }

  lemma LogStaysInOrder(s: State, edges: seq<Edge>, part: set<int>, ev: Event)
    requires Calm(s, edges, part) && CalmDo(s, edges, ev)
    ensures SourcesFirst(ArcsInto(edges, part), Do(s, edges, ev).log)
  {
    var s' := Do(s, edges, ev);
    if ev.SubmitRoot? || ev.SubmitNext? {
      var n := if ev.SubmitRoot? then ev.n else s.active[ev.w].plan[0];
      assert s'.log == s.log + [n];
      if n in part { SubmittedIsFed(s, edges, part, ev, n); }
      InputSourcesAreArcs(edges, n);
      OneMoreInOrder(ArcsInto(edges, part), s.log, n);
    } else {
      assert s'.log == s.log;
    }
  }

  lemma CalmStepKeepsCalm(s: State, edges: seq<Edge>, part: set<int>, ev: Event)
    requires Calm(s, edges, part) && CalmDo(s, edges, ev)
    ensures Calm(Do(s, edges, ev), edges, part)
  {
    StepIsSound(s, edges, ev);
    StaysOnePlan(s, edges, ev);
    LogStaysInOrder(s, edges, part, ev);
    forall n | n in part ensures NodeIsCalm(Do(s, edges, ev), edges, n) {
      assert forall c :: c in InputSources(edges, n) ==> NodeIsCalm(s, edges, c);
      NodeStaysCalm(s, edges, ev, n);
    }
  }

  lemma StartIsCalm(nm: NodeTable, edges: seq<Edge>, part: set<int>)
    requires FreshPart(nm, edges, part)
    ensures Calm(Start(nm), edges, part)
  {
    var s := Start(nm);
    forall n | n in part ensures NodeIsCalm(s, edges, n) {
      assert multiset(s.log)[n] == 0;
      if !IsRoot(edges, n) {
        var c := InputSources(edges, n)[0];
        assert c in InputSources(edges, n) && c in part && !Touched(nm, c);
      }
    }
  }

  lemma {:induction false} CalmRunIsCalm(nm: NodeTable, edges: seq<Edge>, part: set<int>, run: seq<State>, k: nat)
    requires IsCalmRun(nm, edges, part, run) && k < |run|
    ensures Calm(run[k], edges, part)
  {
    if k == 0 {
      StartIsCalm(nm, edges, part);
    } else {
      CalmRunIsCalm(nm, edges, part, run, k - 1);
      var ev := EventOf(edges, run, k);
      CalmStepKeepsCalm(run[k - 1], edges, part, ev);
    }
  }

  lemma EventOf(edges: seq<Edge>, run: seq<State>, k: nat) returns (ev: Event)
    requires 0 < k < |run| && CalmSteps(edges, run)
    ensures CalmDo(run[k - 1], edges, ev) && run[k] == Do(run[k - 1], edges, ev)
  {
    assert CalmStep(edges, run[k - 1], run[k]);
    ev :| CalmDo(run[k - 1], edges, ev) && run[k] == Do(run[k - 1], edges, ev);
  }

  // Only statuses change.
  ghost predicate SameGraph(nm: NodeTable, nm': NodeTable) {
    nm'.Keys == nm.Keys && forall i :: i in nm ==> nm'[i] == nm[i].(status := nm'[i].status)
  }

  lemma DoKeepsNode(s: State, edges: seq<Edge>, ev: Event, i: int)
    requires CanDo(s, edges, ev) && i in s.nm
    ensures i in Do(s, edges, ev).nm
    ensures Do(s, edges, ev).nm[i] == s.nm[i].(status := Do(s, edges, ev).nm[i].status)
  {
    if st :| Writes(s, ev, i, st) { WrittenHalts(s, edges, ev, i, st); } else { Unwritten(s, edges, ev, i); }
  }

  lemma DoKeepsIds(s: State, edges: seq<Edge>, ev: Event)
    requires CanDo(s, edges, ev)
    ensures Do(s, edges, ev).nm.Keys == s.nm.Keys
  {
  }

  lemma DoKeepsGraph(s: State, edges: seq<Edge>, ev: Event)
    requires CanDo(s, edges, ev)
    ensures SameGraph(s.nm, Do(s, edges, ev).nm)
  {
    DoKeepsIds(s, edges, ev);
    forall i | i in s.nm ensures Do(s, edges, ev).nm[i] == s.nm[i].(status := Do(s, edges, ev).nm[i].status) {
      DoKeepsNode(s, edges, ev, i);
    }
  }

  lemma {:induction false} RunKeepsGraph(nm: NodeTable, edges: seq<Edge>, part: set<int>, run: seq<State>, k: nat)
    requires IsCalmRun(nm, edges, part, run) && k < |run|
    ensures SameGraph(nm, run[k].nm)
  {
    if k > 0 {
      RunKeepsGraph(nm, edges, part, run, k - 1);
      var ev := EventOf(edges, run, k);
      DoKeepsGraph(run[k - 1], edges, ev);
    }
  }

  // A node is submitted after its inputs, and no more than once more often than it was written back to a
  // status that allows it; so at most once unless a task of it failed, was cancelled or expired. Its
  // inputs stay ready unless that happened to them.
  lemma SubmittedOnceInOrder(nm: NodeTable, edges: seq<Edge>, part: set<int>, run: seq<State>, k: nat, n: int)
    requires IsCalmRun(nm, edges, part, run) && k < |run| && n in part
    ensures var s := run[k];
      && multiset(s.log)[n] <= multiset(s.freed)[n] + (if Touched(s.nm, n) then 1 else 0)
      && (multiset(s.log)[n] >= 2 ==> exists t :: LostFor(s, t, n))
      && SourcesFirst(ArcsInto(edges, part), s.log)
      && (n in s.log ==> forall c :: c in InputSources(edges, n) ==>
           c in s.log && (IsReady(s.nm, c) || exists t :: LostFor(s, t, c)))
  {
    var s := run[k];
    CalmRunIsCalm(nm, edges, part, run, k);
    assert NodeIsCalm(s, edges, n);
    if multiset(s.log)[n] >= 2 { assert n in multiset(s.freed); }
    forall c | c in InputSources(edges, n) ensures NodeIsCalm(s, edges, c) {
    }
  }
}
