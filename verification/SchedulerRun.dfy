// Whole runs of the scheduler: nodes are submitted as tasks, tasks end, and each success wakes a scan of
// the children of its node.

module SchedulerRun {
  import opened Collections
  import opened Graph
  import opened Canvas
  import opened Scheduler

  // How a task ended: with a result, settled or not; with an error; cancelled, or expired in the queue.
  datatype Outcome = InFlight | Done | Unsettled | Broken | Cancelled | Expired {
    predicate HasResult() { Done? || Unsettled? }

    // The status the generation service writes to the node when the task ends.
    function Reported(): Status {
      match this
      case InFlight => Status.Running
      case Done | Unsettled => Status.Succeeded
      case Broken => Status.Failed
      case Cancelled => OtherStatus("cancelled")
      case Expired => OtherStatus("expired")
    }

    // The status a wakeup or a clock job writes once it has looked the task up.
    function LookedUp(): Status {
      match this
      case InFlight => Status.Running
      case Done | Unsettled => Status.Ready
      case Broken => Status.Failed
      case Cancelled => Status.Idle
      case Expired => OtherStatus("expired")
    }
  }

  // A wakeup under way: the task it is for, what is left of its plan, made from one snapshot, and whether
  // a delivery holds its lease; a clock job's wakeup has none.
  datatype Wakeup = Wakeup(task: nat, plan: seq<int>, leased: bool)

  // Task t is the t-th accepted submission, of node log[t].
  datatype State = State(
    nm: NodeTable,
    log: seq<int>,
    outcomes: seq<Outcome>,
    due: set<nat>,               // ended tasks whose notice has not been taken up
    clocks: multiset<nat>,       // clock jobs outstanding, by task
    active: map<int, Wakeup>,    // wakeups under way, by ticket
    halted: set<int>,            // last submission was turned down, or last written to be without a result
    missed: set<int>,            // planned by a wakeup that was recorded before it submitted them
    freed: seq<int>,             // nodes written back to a status that may be submitted
    undone: set<int>,            // nodes that were ready and were then written to be something else
    retries: nat)                // wakeups that died, timeouts of clock jobs, and looks at running tasks

  datatype Event =
    | SubmitRoot(n: int)
    | End(t: nat, outcome: Outcome)
    | Begin(w: int, t: nat, plan: seq<int>)
    | Clock(w: int, t: nat, plan: seq<int>)
    | Skip(t: nat, plan: seq<int>)
    | Busy(t: nat)
    | Mark(t: nat, m: int)
    | Lapse(t: nat)
    | Timeout(w: int)
    | SubmitNext(w: int)
    | RejectNext(w: int)
    | Finish(w: int)
    | Drop(w: int)
    | Abort(w: int)

  predicate Active(nm: NodeTable, n: int) {
    n in nm && ActiveStatus(nm[n].status)
  }

  predicate EnabledId(nm: NodeTable, edges: seq<Edge>, n: int) {
    n in nm && Enabled(nm, edges, nm[n])
  }

  predicate IsRoot(edges: seq<Edge>, n: int) {
    InputSources(edges, n) == []
  }

  function SetStatus(nm: NodeTable, n: int, st: Status): NodeTable
    requires n in nm
  {
    nm[n := nm[n].(status := st)]
  }

  // Neither submitted nor done nor failed: the scheduler may take it.
  predicate Untouched(st: Status) {
    !ReadyStatus(st) && !ActiveStatus(st) && !st.Failed?
  }

  predicate Touched(nm: NodeTable, n: int) {
    n in nm && !Untouched(nm[n].status)
  }

  predicate Known(s: State, t: nat) {
    t < |s.log| && t < |s.outcomes| && s.log[t] in s.nm
  }

  predicate InPlan(s: State, m: int) {
    exists w :: w in s.active && m in s.active[w].plan
  }

  // A status is written over whatever the node has, by whichever task.
  function Write(s: State, n: int, st: Status): State
    requires n in s.nm
  {
    s.(nm := SetStatus(s.nm, n, st),
       halted := if ReadyStatus(st) || ActiveStatus(st) then s.halted - {n} else s.halted + {n},
       missed := if Untouched(st) then s.missed else s.missed - {n},
       freed := if Touched(s.nm, n) && Untouched(st) then s.freed + [n] else s.freed,
       undone := if IsReady(s.nm, n) && !ReadyStatus(st) then s.undone + {n} else s.undone)
  }

  // Of a plan, what nobody else has touched since it was made.
  ghost function StillOpen(nm: NodeTable, plan: seq<int>): set<int> {
    set m | m in plan && !Touched(nm, m)
  }

  // What looking task t up writes.
  function Look(s: State, t: nat): State
    requires Known(s, t)
  {
    Write(s, s.log[t], s.outcomes[t].LookedUp())
  }

  // What a scan for task t finds in this state.
  ghost predicate ScanOf(s: State, edges: seq<Edge>, t: nat, plan: seq<int>)
    requires Known(s, t)
  {
    && Distinct(plan)
    && forall m :: m in plan <==> s.outcomes[t].Done? && EnabledId(s.nm, edges, m) && Feeds(edges, s.log[t], m)
  }

  ghost predicate CanDo(s: State, edges: seq<Edge>, ev: Event) {
    match ev
    case SubmitRoot(n) => EnabledId(s.nm, edges, n) && IsRoot(edges, n)
    case End(t, outcome) => Known(s, t) && s.outcomes[t].InFlight? && !outcome.InFlight?
    case Begin(w, t, plan) => t in s.due && Known(s, t) && w !in s.active && ScanOf(Look(s, t), edges, t, plan)
    case Clock(w, t, plan) =>
      && t in s.clocks && Known(s, t) && !s.outcomes[t].InFlight?
      && w !in s.active && ScanOf(Look(s, t), edges, t, plan)
    case Skip(t, plan) => t in s.due && Known(s, t) && ScanOf(s, edges, t, plan)
    case Busy(t) => t in s.clocks && Known(s, t) && s.outcomes[t].InFlight?
    case Mark(t, m) =>
      && (t in s.due || t in s.clocks) && Known(s, t) && s.outcomes[t].HasResult()
      && m in s.nm && s.nm[m].status.Failed? && Reach(SourceArcs(edges), s.log[t], m)
    case Lapse(t) => t in s.clocks
    case Timeout(w) => w in s.active && !s.active[w].leased
    case SubmitNext(w) => w in s.active && s.active[w].plan != [] && s.active[w].plan[0] in s.nm
    case RejectNext(w) => w in s.active && s.active[w].plan != []
    case Finish(w) => w in s.active && s.active[w].plan == []
    case Drop(w) => w in s.active
    case Abort(w) => w in s.active && s.active[w].leased
  }

  // An accepted submission is a new task; a clock job is scheduled for it.
  function Submit(s: State, n: int): State
    requires n in s.nm
  {
    Write(s, n, Queued).(log := s.log + [n], outcomes := s.outcomes + [InFlight],
      clocks := s.clocks + multiset{|s.log|})
  }

  function Advance(s: State, w: int): State
    requires w in s.active && s.active[w].plan != []
  {
    s.(active := s.active[w := s.active[w].(plan := s.active[w].plan[1..])])
  }

  ghost function Do(s: State, edges: seq<Edge>, ev: Event): State
    requires CanDo(s, edges, ev)
  {
    match ev
    case SubmitRoot(n) => Submit(s, n)
    case End(t, outcome) =>
      Write(s, s.log[t], outcome.Reported()).(outcomes := s.outcomes[t := outcome], due := s.due + {t})
    case Begin(w, t, plan) => Look(s, t).(due := s.due - {t}, active := s.active[w := Wakeup(t, plan, true)])
    case Clock(w, t, plan) =>
      Look(s, t).(clocks := s.clocks - multiset{t}, active := s.active[w := Wakeup(t, plan, false)])
    // the task's status cannot be fetched, or its notice never arrives: nothing is written or submitted,
    // and the notice is not due again
    case Skip(t, plan) => s.(due := s.due - {t}, missed := s.missed + Elems(plan))
    // a clock job that finds its task running is put off, by itself and by the graph it ran in
    case Busy(t) => Look(s, t).(clocks := s.clocks + multiset{t}, retries := s.retries + 1)
    // with its status a task's output is written, and the canvas marks failed nodes downstream as stale
    case Mark(t, m) => Write(s, m, Stale)
    case Lapse(t) => s.(clocks := s.clocks - multiset{t})
    // the wakeup of a clock job goes on, and the job is scheduled again
    case Timeout(w) => s.(clocks := s.clocks + multiset{s.active[w].task}, retries := s.retries + 1)
    case SubmitNext(w) => Submit(Advance(s, w), s.active[w].plan[0])
    case RejectNext(w) => Advance(s, w).(halted := s.halted + StillOpen(s.nm, [s.active[w].plan[0]]))
    case Finish(w) => s.(active := s.active - {w})
    // an error inside the wakeup is swallowed, and its notice recorded all the same
    case Drop(w) => s.(active := s.active - {w}, missed := s.missed + StillOpen(s.nm, s.active[w].plan))
    // the process died, or an error escaped: the notice becomes due again
    case Abort(w) =>
      s.(active := s.active - {w}, due := s.due + {s.active[w].task}, retries := s.retries + 1)
  }

  // The status a task's end leaves on its node, and the one a later look at it leaves.
  ghost function StatusAtEnd(outcome: Outcome): Status {
    if outcome in {Done, Unsettled} then Succeeded
    else if outcome.Broken? then Status.Failed
    else if outcome.Cancelled? then OtherStatus("cancelled")
    else if outcome.Expired? then OtherStatus("expired")
    else Status.Running
  }

  ghost function StatusAtLook(outcome: Outcome): Status {
    if outcome in {Done, Unsettled} then Status.Ready
    else if outcome.Broken? then Status.Failed
    else if outcome.Cancelled? then Idle
    else if outcome.Expired? then OtherStatus("expired")
    else Status.Running
  }

  // Exactly this entry has changed, and in its status only.
  ghost predicate WroteOnly(s: State, s': State, n: int, st: Status) {
    n in s.nm && s'.nm == s.nm[n := s.nm[n].(status := st)]
  }

  // A submission marks its node queued; when the task ends its node is told how.
  lemma SubmissionWrites(s: State, edges: seq<Edge>, ev: Event)
    requires CanDo(s, edges, ev)
    ensures ev.SubmitRoot? ==> WroteOnly(s, Do(s, edges, ev), ev.n, Queued)
    ensures ev.SubmitNext? ==> WroteOnly(s, Do(s, edges, ev), s.active[ev.w].plan[0], Queued)
    ensures ev.End? ==> WroteOnly(s, Do(s, edges, ev), s.log[ev.t], StatusAtEnd(ev.outcome))
  {
  }

  // A look at a task, by the wakeup of its notice or by a clock job, writes what the task is now.
  lemma LookWrites(s: State, edges: seq<Edge>, ev: Event)
    requires CanDo(s, edges, ev)
    ensures ev.Begin? || ev.Clock? || ev.Busy? ==>
      WroteOnly(s, Do(s, edges, ev), s.log[ev.t], StatusAtLook(s.outcomes[ev.t]))
  {
  }

  // A failed node is marked stale; nothing else writes a status.
  lemma OthersWriteNothing(s: State, edges: seq<Edge>, ev: Event)
    requires CanDo(s, edges, ev)
    ensures ev.Mark? ==> WroteOnly(s, Do(s, edges, ev), ev.m, Stale)
    ensures ev.Skip? || ev.Lapse? || ev.Timeout? || ev.RejectNext? || ev.Finish? || ev.Drop? || ev.Abort? ==>
      Do(s, edges, ev).nm == s.nm
  {
  }

  lemma EventSubmits(s: State, edges: seq<Edge>, ev: Event)
    requires CanDo(s, edges, ev)
    ensures Do(s, edges, ev).log ==
      if ev.SubmitRoot? then s.log + [ev.n] else if ev.SubmitNext? then s.log + [s.active[ev.w].plan[0]] else s.log
    ensures Do(s, edges, ev).outcomes ==
      if ev.SubmitRoot? || ev.SubmitNext? then s.outcomes + [InFlight]
      else if ev.End? then s.outcomes[ev.t := ev.outcome]
      else s.outcomes
  {
  }

  // The states of a run, each the outcome of an event in the one before.
  ghost predicate Steps(edges: seq<Edge>, s: State, s': State) {
    exists ev :: CanDo(s, edges, ev) && s' == Do(s, edges, ev)
  }

  ghost predicate Run(edges: seq<Edge>, run: seq<State>) {
    run != [] && forall i :: 0 < i < |run| ==> Steps(edges, run[i - 1], run[i])
  }

  // What plan_downstream_submits promises of its result.
  ghost predicate IsPlanned(nodes: seq<Node>, edges: seq<Edge>, c: int, videoPrice: nat, a: Submission) {
    var nm := NodeMap(nodes);
    && a.nodeId in nm && PlanSubmit(nm[a.nodeId], videoPrice) == Some(a)
    && OfferedId(nodes, edges, Some(c), a.nodeId)
  }

  // The last entry of the id is a compose node short of inputs, planned on the strength of another entry
  // of the same id that is none.
  ghost predicate Shadowed(nodes: seq<Node>, edges: seq<Edge>, c: int, m: int) {
    var nm := NodeMap(nodes);
    && m in nm && Submittable(nm[m]) && nm[m].ntype.Compose? && |InputSources(edges, m)| < 2
    && InputsReady(nm, edges, m) && Feeds(edges, c, m)
    && exists n :: n in nodes && n.id == m && Submittable(n) && !n.ntype.Compose?
  }

  lemma PlannedIffEnabled(nodes: seq<Node>, edges: seq<Edge>, c: int, videoPrice: nat, m: int)
    ensures (exists a :: IsPlanned(nodes, edges, c, videoPrice, a) && a.nodeId == m)
      <==> (EnabledId(NodeMap(nodes), edges, m) && Feeds(edges, c, m)) || Shadowed(nodes, edges, c, m)
  {
    var nm := NodeMap(nodes);
    if EnabledId(nm, edges, m) && Feeds(edges, c, m) {
      assert nm[m] in nodes && Offered(nm, edges, Some(c), nm[m]);
      var a := PlanSubmit(nm[m], videoPrice).value;
      assert IsPlanned(nodes, edges, c, videoPrice, a) && a.nodeId == m;
    }
    if Shadowed(nodes, edges, c, m) {
      var n :| n in nodes && n.id == m && Submittable(n) && !n.ntype.Compose?;
      assert Offered(nm, edges, Some(c), n);
      var a := PlanSubmit(nm[m], videoPrice).value;
      assert IsPlanned(nodes, edges, c, videoPrice, a) && a.nodeId == m;
    }
    if a :| IsPlanned(nodes, edges, c, videoPrice, a) && a.nodeId == m {
      var n :| n in nodes && n.id == m && Offered(nm, edges, Some(c), n);
      assert Submittable(nm[m]);
    }
  }

  lemma UniqueIsNotShadowed(nodes: seq<Node>, edges: seq<Edge>, c: int, m: int)
    requires UniqueIds(nodes)
    ensures !Shadowed(nodes, edges, c, m)
  {
    forall n | n in nodes && n.id == m ensures NodeMap(nodes)[m] == n {
      UniqueEntry(nodes, n);
    }
  }

  function TargetIds(actions: seq<Submission>): seq<int> {
    seq(|actions|, i requires 0 <= i < |actions| => actions[i].nodeId)
  }

  lemma TargetsAre(actions: seq<Submission>, m: int)
    ensures m in TargetIds(actions) <==> exists a :: a in actions && a.nodeId == m
  {
    if m in TargetIds(actions) {
      var i :| 0 <= i < |actions| && TargetIds(actions)[i] == m;
      assert actions[i] in actions;
    }
    if exists a :: a in actions && a.nodeId == m {
      var a :| a in actions && a.nodeId == m;
      var i :| 0 <= i < |actions| && actions[i] == a;
      assert TargetIds(actions)[i] == m;
    }
  }

  lemma TargetsAreDistinct(nodes: seq<Node>, edges: seq<Edge>, c: int, videoPrice: nat, actions: seq<Submission>)
    requires Distinct(actions) && forall a :: a in actions ==> IsPlanned(nodes, edges, c, videoPrice, a)
    ensures Distinct(TargetIds(actions))
  {
    forall i, j | 0 <= i < j < |actions| ensures actions[i].nodeId != actions[j].nodeId {
      assert IsPlanned(nodes, edges, c, videoPrice, actions[i]) && IsPlanned(nodes, edges, c, videoPrice, actions[j]);
    }
  }

  // The plan a wakeup makes is the one plan_downstream_submits returns for its snapshot: the enabled
  // children of its node, each once. A canvas that lists an id twice may add shadowed compose nodes.
  method PlanWakeup(nodes: seq<Node>, edges: seq<Edge>, videoPrice: nat, ghost s: State, t: nat, c: int)
      returns (plan: seq<int>)
    requires NodeMap(nodes) == s.nm && Known(s, t) && s.outcomes[t].Done? && s.log[t] == c
    ensures Distinct(plan)
    ensures forall m :: m in plan <==>
      (EnabledId(s.nm, edges, m) && Feeds(edges, c, m)) || Shadowed(nodes, edges, c, m)
    ensures UniqueIds(nodes) ==> ScanOf(s, edges, t, plan)
  {
    var actions := PlanDownstreamSubmits(nodes, edges, Some(c), videoPrice);
    assert forall a :: a in actions <==> IsPlanned(nodes, edges, c, videoPrice, a);
    plan := TargetIds(actions);
    TargetsAreDistinct(nodes, edges, c, videoPrice, actions);
    forall m
      ensures m in plan <==> (EnabledId(s.nm, edges, m) && Feeds(edges, c, m)) || Shadowed(nodes, edges, c, m)
      ensures UniqueIds(nodes) ==> !Shadowed(nodes, edges, c, m)
    {
      TargetsAre(actions, m);
      PlannedIffEnabled(nodes, edges, c, videoPrice, m);
      if UniqueIds(nodes) { UniqueIsNotShadowed(nodes, edges, c, m); }
    }
  }

  // ---------- No lost wakeup ----------

  predicate FedBy(s: State, edges: seq<Edge>, t: nat, m: int) {
    Known(s, t) && s.log[t] in InputSources(edges, m)
  }

  // A settlement error made an input of m ready, and no scan follows it.
  predicate Strands(s: State, edges: seq<Edge>, t: nat, m: int) {
    FedBy(s, edges, t, m) && s.outcomes[t].Unsettled?
  }

  // The notice of a success of an input of m has yet to be taken up.
  predicate Awaits(s: State, edges: seq<Edge>, t: nat, m: int) {
    t in s.due && FedBy(s, edges, t, m) && s.outcomes[t].Done?
  }

  // Some wakeup that has not ended will still look at m, or m is excused: its own submission went wrong or
  // was taken back, a wakeup that was to submit it was recorded without doing so, or a task of one of its
  // inputs ended in settlement_error.
  ghost predicate Covered(s: State, edges: seq<Edge>, m: int) {
    || m in s.halted
    || m in s.missed
    || (exists t :: Strands(s, edges, t, m))
    || (exists t :: Awaits(s, edges, t, m))
    || InPlan(s, m)
  }

  ghost predicate NotLost(s: State, edges: seq<Edge>, m: int) {
    EnabledId(s.nm, edges, m) && !IsRoot(edges, m) ==> Covered(s, edges, m)
  }

  // Ids, tasks and plans refer to what is there.
  ghost predicate Sound(s: State, edges: seq<Edge>) {
    && (forall i :: i in s.nm ==> i != 0 && s.nm[i].id == i)
    && TasksAreSound(s)
    && PlansAreSound(s, edges)
  }

  ghost predicate TasksAreSound(s: State) {
    && |s.outcomes| == |s.log| && (forall n :: n in s.log ==> n in s.nm)
    && (forall t :: t in s.due ==> t < |s.log| && !s.outcomes[t].InFlight?)
    && (forall t :: t in s.clocks ==> t < |s.log|)
  }

  ghost predicate PlansAreSound(s: State, edges: seq<Edge>) {
    forall w :: w in s.active ==> WakeupIsSound(s, edges, s.active[w])
  }

  predicate WakeupIsSound(s: State, edges: seq<Edge>, wakeup: Wakeup) {
    && Known(s, wakeup.task) && !s.outcomes[wakeup.task].InFlight?
    && forall m :: m in wakeup.plan ==> m in s.nm && FedBy(s, edges, wakeup.task, m) && s.outcomes[wakeup.task].Done?
  }

  ghost predicate NoLostWakeup(s: State, edges: seq<Edge>) {
    Sound(s, edges) && forall m :: NotLost(s, edges, m)
  }

  lemma FeedsIsSource(edges: seq<Edge>, c: int, m: int)
    ensures c in InputSources(edges, m) <==> c != 0 && Feeds(edges, c, m)
  {
    InputSourcesAreArcs(edges, m);
  }

  // A status change of n can enable another node only by making an input of it ready.
  lemma StatusChange(nm: NodeTable, edges: seq<Edge>, n: int, st: Status, m: int)
    requires n in nm && (forall i :: i in nm ==> nm[i].id == i)
    requires EnabledId(SetStatus(nm, n, st), edges, m)
    ensures m != n ==> EnabledId(nm, edges, m) || (ReadyStatus(st) && n in InputSources(edges, m))
    ensures m == n ==> Untouched(st)
  {
    if m != n && !(ReadyStatus(st) && n in InputSources(edges, m)) {
      forall c | c in InputSources(edges, m) ensures IsReady(nm, c) {
        assert IsReady(SetStatus(nm, n, st), c);
      }
    }
  }

  // What excuses or awaits m stays, as long as tasks keep their outcomes.
  ghost predicate Succeeds(s: State, s': State) {
    && s.log <= s'.log && |s.outcomes| <= |s'.outcomes| && s'.nm.Keys == s.nm.Keys
    && forall t :: 0 <= t < |s.outcomes| && !s.outcomes[t].InFlight? ==> s'.outcomes[t] == s.outcomes[t]
  }

  lemma StillCovered(s: State, s': State, edges: seq<Edge>, m: int)
    requires Succeeds(s, s') && Covered(s, edges, m)
    requires m in s.halted ==> m in s'.halted
    requires m in s.missed ==> m in s'.missed
    requires InPlan(s, m) ==> Covered(s', edges, m)
    requires forall t :: Awaits(s, edges, t, m) && t !in s'.due ==> Covered(s', edges, m)
    ensures Covered(s', edges, m)
  {
    if t: nat :| Strands(s, edges, t, m) {
      assert s'.log[t] == s.log[t] && Strands(s', edges, t, m);
    } else if t: nat :| Awaits(s, edges, t, m) {
      assert s'.log[t] == s.log[t];
      assert t in s'.due ==> Awaits(s', edges, t, m);
    }
  }

  // A wakeup that is not touched keeps its plan.
  lemma StillPlanned(s: State, s': State, m: int, w: int)
    requires InPlan(s, m) && (w in s.active ==> m !in s.active[w].plan)
    requires forall v :: v in s.active && v != w ==> v in s'.active && s'.active[v] == s.active[v]
    ensures InPlan(s', m)
  {
    var v :| v in s.active && m in s.active[v].plan;
    assert v in s'.active && m in s'.active[v].plan;
  }

  lemma SubmitKeeps(s: State, edges: seq<Edge>, n: int, m: int)
    requires Sound(s, edges) && NotLost(s, edges, m) && n in s.nm
    ensures NotLost(Submit(s, n), edges, m)
  {
    var s' := Submit(s, n);
    if EnabledId(s'.nm, edges, m) && !IsRoot(edges, m) {
      StatusChange(s.nm, edges, n, Queued, m);
      assert InPlan(s, m) ==> InPlan(s', m) by { assert s'.active == s.active; }
      StillCovered(s, s', edges, m);
    }
  }

  lemma EndKeeps(s: State, edges: seq<Edge>, t: nat, outcome: Outcome, m: int)
    requires Sound(s, edges) && NotLost(s, edges, m) && CanDo(s, edges, End(t, outcome))
    ensures NotLost(Do(s, edges, End(t, outcome)), edges, m)
  {
    var s' := Do(s, edges, End(t, outcome));
    var n := s.log[t];
    if EnabledId(s'.nm, edges, m) && !IsRoot(edges, m) {
      StatusChange(s.nm, edges, n, outcome.Reported(), m);
      if m != n && n in InputSources(edges, m) && (outcome.Done? || outcome.Unsettled?) {
        assert if outcome.Done? then Awaits(s', edges, t, m) else Strands(s', edges, t, m);
      } else if m != n {
        assert InPlan(s, m) ==> InPlan(s', m) by { assert s'.active == s.active; }
        StillCovered(s, s', edges, m);
      }
    }
  }

  // A wakeup or clock job for task t writes its status and makes its plan.
  lemma LookKeeps(s: State, edges: seq<Edge>, ev: Event, m: int)
    requires Sound(s, edges) && NotLost(s, edges, m) && CanDo(s, edges, ev) && (ev.Begin? || ev.Clock?)
    ensures NotLost(Do(s, edges, ev), edges, m)
  {
    var s', t := Do(s, edges, ev), ev.t;
    var n := s.log[t];
    if EnabledId(s'.nm, edges, m) && !IsRoot(edges, m) {
      StatusChange(s.nm, edges, n, s.outcomes[t].LookedUp(), m);
      FeedsIsSource(edges, n, m);
      if m != n && n in InputSources(edges, m) && (s.outcomes[t].Done? || s.outcomes[t].Unsettled?) {
        if s.outcomes[t].Done? {
          assert m in ev.plan && ev.w in s'.active && m in s'.active[ev.w].plan;
        } else {
          assert Strands(s', edges, t, m);
        }
      } else if m != n {
        if InPlan(s, m) { StillPlanned(s, s', m, ev.w); }
        StillCovered(s, s', edges, m);
      }
    }
  }

  lemma SkipKeeps(s: State, edges: seq<Edge>, t: nat, plan: seq<int>, m: int)
    requires Sound(s, edges) && NotLost(s, edges, m) && CanDo(s, edges, Skip(t, plan))
    ensures NotLost(Do(s, edges, Skip(t, plan)), edges, m)
  {
    var s' := Do(s, edges, Skip(t, plan));
    if EnabledId(s'.nm, edges, m) && !IsRoot(edges, m) {
      FeedsIsSource(edges, s.log[t], m);
      assert InPlan(s, m) ==> InPlan(s', m) by { assert s'.active == s.active; }
      StillCovered(s, s', edges, m);
    }
  }

  lemma BusyKeeps(s: State, edges: seq<Edge>, t: nat, m: int)
    requires Sound(s, edges) && NotLost(s, edges, m) && CanDo(s, edges, Busy(t))
    ensures NotLost(Do(s, edges, Busy(t)), edges, m)
  {
    var s' := Do(s, edges, Busy(t));
    if EnabledId(s'.nm, edges, m) && !IsRoot(edges, m) {
      StatusChange(s.nm, edges, s.log[t], Status.Running, m);
      assert InPlan(s, m) ==> InPlan(s', m) by { assert s'.active == s.active; }
      StillCovered(s, s', edges, m);
    }
  }

  lemma MarkKeeps(s: State, edges: seq<Edge>, t: nat, n: int, m: int)
    requires Sound(s, edges) && NotLost(s, edges, m) && CanDo(s, edges, Mark(t, n))
    ensures NotLost(Do(s, edges, Mark(t, n)), edges, m)
  {
    var s' := Do(s, edges, Mark(t, n));
    if EnabledId(s'.nm, edges, m) && !IsRoot(edges, m) {
      StatusChange(s.nm, edges, n, Stale, m);
      assert InPlan(s, m) ==> InPlan(s', m) by { assert s'.active == s.active; }
      if m != n { StillCovered(s, s', edges, m); }
    }
  }

  // Of a plan that is left by its head, only the head may lose its cover.
  lemma AdvanceKeeps(s: State, s': State, edges: seq<Edge>, w: int, m: int)
    requires Sound(s, edges) && w in s.active && s.active[w].plan != [] && m != s.active[w].plan[0]
    requires Covered(s, edges, m) && Succeeds(s, s') && s'.active == Advance(s, w).active && s'.due == s.due
    requires (m in s.halted ==> m in s'.halted) && (m in s.missed ==> m in s'.missed)
    ensures Covered(s', edges, m)
  {
    if v :| v in s.active && m in s.active[v].plan {
      assert v == w ==> s.active[w].plan == [s.active[w].plan[0]] + s'.active[w].plan;
      assert v in s'.active && m in s'.active[v].plan;
    }
    StillCovered(s, s', edges, m);
  }

  lemma HeadKeeps(s: State, edges: seq<Edge>, ev: Event, m: int)
    requires Sound(s, edges) && NotLost(s, edges, m) && CanDo(s, edges, ev) && (ev.SubmitNext? || ev.RejectNext?)
    ensures NotLost(Do(s, edges, ev), edges, m)
  {
    var s', n := Do(s, edges, ev), s.active[ev.w].plan[0];
    if EnabledId(s'.nm, edges, m) && !IsRoot(edges, m) {
      if ev.SubmitNext? { StatusChange(s.nm, edges, n, Queued, m); }
      if m != n { AdvanceKeeps(s, s', edges, ev.w, m); }
    }
  }

  // What a wakeup had planned and not submitted when its error was swallowed is missed; nothing else is.
  lemma DropKeeps(s: State, edges: seq<Edge>, w: int, m: int)
    requires Sound(s, edges) && NotLost(s, edges, m) && CanDo(s, edges, Drop(w))
    ensures NotLost(Do(s, edges, Drop(w)), edges, m)
  {
    var s' := Do(s, edges, Drop(w));
    if EnabledId(s'.nm, edges, m) && !IsRoot(edges, m) {
      if InPlan(s, m) && m !in s.active[w].plan { StillPlanned(s, s', m, w); }
      StillCovered(s, s', edges, m);
    }
  }

  lemma CloseKeeps(s: State, edges: seq<Edge>, w: int, m: int)
    requires Sound(s, edges) && NotLost(s, edges, m) && CanDo(s, edges, Finish(w))
    ensures NotLost(Do(s, edges, Finish(w)), edges, m)
  {
    var s' := Do(s, edges, Finish(w));
    if EnabledId(s'.nm, edges, m) && !IsRoot(edges, m) {
      if InPlan(s, m) { StillPlanned(s, s', m, w); }
      StillCovered(s, s', edges, m);
    }
  }

  lemma AbortKeeps(s: State, edges: seq<Edge>, w: int, m: int)
    requires Sound(s, edges) && NotLost(s, edges, m) && CanDo(s, edges, Abort(w))
    ensures NotLost(Do(s, edges, Abort(w)), edges, m)
  {
    var s' := Do(s, edges, Abort(w));
    if EnabledId(s'.nm, edges, m) && !IsRoot(edges, m) {
      if m in s.active[w].plan {
        assert Awaits(s', edges, s.active[w].task, m);
      } else {
        if InPlan(s, m) { StillPlanned(s, s', m, w); }
        StillCovered(s, s', edges, m);
      }
    }
  }

  lemma IdleKeeps(s: State, edges: seq<Edge>, ev: Event, m: int)
    requires Sound(s, edges) && NotLost(s, edges, m) && CanDo(s, edges, ev) && (ev.Lapse? || ev.Timeout?)
    ensures NotLost(Do(s, edges, ev), edges, m)
  {
    var s' := Do(s, edges, ev);
    if EnabledId(s'.nm, edges, m) && !IsRoot(edges, m) {
      assert InPlan(s, m) ==> InPlan(s', m) by { assert s'.active == s.active; }
      StillCovered(s, s', edges, m);
    }
  }

  // Every step keeps every node, whatever the other wakeups are doing: any number may be under way, each
  // acting on its own snapshot; any of them may break off and come again, or be recorded half done; and
  // late looks at ended tasks may write any node back.
  lemma StepKeepsNode(s: State, edges: seq<Edge>, ev: Event, m: int)
    requires Sound(s, edges) && NotLost(s, edges, m) && CanDo(s, edges, ev)
    ensures NotLost(Do(s, edges, ev), edges, m)
  {
    match ev
    case SubmitRoot(n) => SubmitKeeps(s, edges, n, m);
    case End(t, outcome) => EndKeeps(s, edges, t, outcome, m);
    case Begin(_, _, _) => LookKeeps(s, edges, ev, m);
    case Clock(_, _, _) => LookKeeps(s, edges, ev, m);
    case Skip(t, plan) => SkipKeeps(s, edges, t, plan, m);
    case Busy(t) => BusyKeeps(s, edges, t, m);
    case Mark(t, n) => MarkKeeps(s, edges, t, n, m);
    case Lapse(_) => IdleKeeps(s, edges, ev, m);
    case Timeout(_) => IdleKeeps(s, edges, ev, m);
    case SubmitNext(_) => HeadKeeps(s, edges, ev, m);
    case RejectNext(_) => HeadKeeps(s, edges, ev, m);
    case Finish(w) => CloseKeeps(s, edges, w, m);
    case Drop(w) => DropKeeps(s, edges, w, m);
    case Abort(w) => AbortKeeps(s, edges, w, m);
  }

  // ---------- Soundness ----------

  lemma TasksStaySound(s: State, edges: seq<Edge>, ev: Event)
    requires Sound(s, edges) && CanDo(s, edges, ev)
    ensures TasksAreSound(Do(s, edges, ev))
  {
    match ev
    case End(t, outcome) => assert Do(s, edges, ev).outcomes == s.outcomes[t := outcome];
    case SubmitRoot(n) => assert Do(s, edges, ev).log == s.log + [n];
    case SubmitNext(w) => assert Do(s, edges, ev).log == s.log + [s.active[w].plan[0]];
    case _ =>
  }

  lemma TaskStays(s: State, s': State, t: nat)
    requires Succeeds(s, s') && |s'.outcomes| == |s'.log| && Known(s, t)
    ensures Known(s', t) && s'.log[t] == s.log[t]
    ensures !s.outcomes[t].InFlight? ==> s'.outcomes[t] == s.outcomes[t]
  {
  }

  lemma WakeupStaysSound(s: State, s': State, edges: seq<Edge>, wakeup: Wakeup, later: Wakeup)
    requires WakeupIsSound(s, edges, wakeup) && Succeeds(s, s') && |s'.outcomes| == |s'.log|
    requires later.task == wakeup.task && forall m :: m in later.plan ==> m in wakeup.plan
    ensures WakeupIsSound(s', edges, later)
  {
    TaskStays(s, s', wakeup.task);
    forall m | m in later.plan ensures m in s'.nm && FedBy(s', edges, later.task, m) && s'.outcomes[later.task].Done? {
      assert m in wakeup.plan && m in s.nm.Keys;
    }
  }

  // Plans that only shrink refer to what they referred to.
  lemma PlansStaySound(s: State, s': State, edges: seq<Edge>)
    requires PlansAreSound(s, edges) && Succeeds(s, s') && |s'.outcomes| == |s'.log|
    requires PlansShrink(s, s')
    ensures PlansAreSound(s', edges)
  {
    forall w | w in s'.active ensures WakeupIsSound(s', edges, s'.active[w]) {
      WakeupStaysSound(s, s', edges, s.active[w], s'.active[w]);
    }
  }

  predicate PlansShrink(s: State, s': State) {
    forall w :: w in s'.active ==>
      && w in s.active && s'.active[w].task == s.active[w].task
      && forall m :: m in s'.active[w].plan ==> m in s.active[w].plan
  }

  lemma NewPlanIsSound(s: State, edges: seq<Edge>, ev: Event)
    requires Sound(s, edges) && CanDo(s, edges, ev) && (ev.Begin? || ev.Clock?)
    ensures PlansAreSound(Do(s, edges, ev), edges)
  {
    var s' := Do(s, edges, ev);
    assert WakeupIsSound(s', edges, s'.active[ev.w]) by {
      forall m | m in ev.plan ensures FedBy(s, edges, ev.t, m) && m in s.nm {
        FeedsIsSource(edges, s.log[ev.t], m);
      }
    }
    forall w | w in s.active ensures WakeupIsSound(s', edges, s.active[w]) {
      WakeupStaysSound(s, s', edges, s.active[w], s.active[w]);
    }
  }

  lemma PlansOnlyShrink(s: State, edges: seq<Edge>, ev: Event)
    requires CanDo(s, edges, ev) && !ev.Begin? && !ev.Clock?
    ensures PlansShrink(s, Do(s, edges, ev))
  {
  }

  lemma StepSucceeds(s: State, edges: seq<Edge>, ev: Event)
    requires Sound(s, edges) && CanDo(s, edges, ev)
    ensures Succeeds(s, Do(s, edges, ev)) && |Do(s, edges, ev).outcomes| == |Do(s, edges, ev).log|
  {
    EventSubmits(s, edges, ev);
  }

  lemma StepIsSound(s: State, edges: seq<Edge>, ev: Event)
    requires Sound(s, edges) && CanDo(s, edges, ev)
    ensures Sound(Do(s, edges, ev), edges)
  {
    TasksStaySound(s, edges, ev);
    assert PlansAreSound(Do(s, edges, ev), edges) by {
      if ev.Begin? || ev.Clock? {
        NewPlanIsSound(s, edges, ev);
      } else {
        StepSucceeds(s, edges, ev);
        PlansOnlyShrink(s, edges, ev);
        PlansStaySound(s, Do(s, edges, ev), edges);
      }
    }
  }

  // ---------- Runs ----------

  lemma StepKeepsWakeups(s: State, edges: seq<Edge>, ev: Event)
    requires NoLostWakeup(s, edges) && CanDo(s, edges, ev)
    ensures NoLostWakeup(Do(s, edges, ev), edges)
  {
    StepIsSound(s, edges, ev);
    forall m ensures NotLost(Do(s, edges, ev), edges, m) {
      StepKeepsNode(s, edges, ev, m);
    }
  }

  lemma {:induction false} RunKeepsWakeups(edges: seq<Edge>, run: seq<State>, k: nat)
    requires Run(edges, run) && k < |run| && NoLostWakeup(run[0], edges)
    ensures NoLostWakeup(run[k], edges)
  {
    if k > 0 {
      RunKeepsWakeups(edges, run, k - 1);
      assert Steps(edges, run[k - 1], run[k]);
      var ev :| CanDo(run[k - 1], edges, ev) && run[k] == Do(run[k - 1], edges, ev);
      StepKeepsWakeups(run[k - 1], edges, ev);
    }
  }

  // The wakeup that task t is due would offer m.
  predicate OfferedBy(s: State, edges: seq<Edge>, t: nat, m: int)
    requires m in s.nm
  {
    t in s.due && Known(s, t) && s.outcomes[t].Done? && Offered(s.nm, edges, Some(s.log[t]), s.nm[m])
  }

  // Between wakeups, with nothing halted or missed and no settlement error, a rescan of the whole canvas
  // would find exactly what the scans for the due tasks find.
  lemma ChildScansSuffice(s: State, edges: seq<Edge>, m: int)
    requires NoLostWakeup(s, edges) && s.active == map[] && s.halted == {} && s.missed == {}
    requires forall t :: 0 <= t < |s.outcomes| ==> !s.outcomes[t].Unsettled?
    ensures EnabledId(s.nm, edges, m) && !IsRoot(edges, m)
      <==> m in s.nm && exists t :: OfferedBy(s, edges, t, m)
  {
    if EnabledId(s.nm, edges, m) && !IsRoot(edges, m) {
      assert NotLost(s, edges, m) && !InPlan(s, m);
      var t: nat :| Awaits(s, edges, t, m);
      FeedsIsSource(edges, s.log[t], m);
      assert OfferedBy(s, edges, t, m);
    }
    if m in s.nm && exists t :: OfferedBy(s, edges, t, m) {
      var t: nat :| OfferedBy(s, edges, t, m);
      FeedsIsSource(edges, s.log[t], m);
    }
  }
}
