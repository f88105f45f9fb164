// States that runs reach, which show why the scheduler's guarantees carry their hypotheses.

module RunWitnesses {
  import opened Collections
  import opened Graph
  import opened Canvas
  import opened Scheduler
  import opened SchedulerRun
  import opened CalmRun
  import opened RunEnd

  // A calm run ends in this state.
  ghost predicate Reaches(nm: NodeTable, edges: seq<Edge>, part: set<int>, s: State) {
    exists run :: IsCalmRun(nm, edges, part, run) && run[|run| - 1] == s
  }

  lemma Begins(nm: NodeTable, edges: seq<Edge>, part: set<int>)
    requires FreshPart(nm, edges, part)
    ensures Reaches(nm, edges, part, Start(nm))
  {
    var run := [Start(nm)];
    assert IsCalmRun(nm, edges, part, run) && run[|run| - 1] == Start(nm);
  }

  lemma Continues(nm: NodeTable, edges: seq<Edge>, part: set<int>, s: State, ev: Event)
    requires Reaches(nm, edges, part, s) && CalmDo(s, edges, ev)
    ensures Reaches(nm, edges, part, Do(s, edges, ev))
  {
    var run :| IsCalmRun(nm, edges, part, run) && run[|run| - 1] == s;
    var longer := run + [Do(s, edges, ev)];
    forall i, j | 0 <= i && j == i + 1 < |longer| ensures CalmStep(edges, longer[i], longer[j]) {
      if j < |run| { assert CalmStep(edges, run[i], run[j]); }
    }
    assert IsCalmRun(nm, edges, part, longer) && longer[|longer| - 1] == Do(s, edges, ev);
  }

  // ---------- Stretches of a run ----------

  // A root is submitted, and its task ends.
  function AfterRoot(s: State, n: int, outcome: Outcome): State
    requires n in s.nm
  {
    var sent := Submit(s, n);
    Write(sent, n, outcome.Reported()).(outcomes := s.outcomes + [outcome], due := s.due + {|s.log|})
  }

  lemma RootEnds(nm: NodeTable, edges: seq<Edge>, part: set<int>, s: State, n: int, outcome: Outcome)
    requires Reaches(nm, edges, part, s) && |s.outcomes| == |s.log|
    requires EnabledId(s.nm, edges, n) && IsRoot(edges, n) && !outcome.InFlight?
    ensures Reaches(nm, edges, part, AfterRoot(s, n, outcome))
  {
    var sent := Do(s, edges, SubmitRoot(n));
    Continues(nm, edges, part, s, SubmitRoot(n));
    Continues(nm, edges, part, sent, End(|s.log|, outcome));
    assert sent.outcomes[|s.log| := outcome] == s.outcomes + [outcome];
  }

  // The edges join each of the sources to the one child.
  ghost predicate Joins(edges: seq<Edge>, sources: seq<int>, child: int) {
    && (forall n :: InputSources(edges, n) == if n == child then sources else [])
    && (forall c, n :: Feeds(edges, c, n) <==> c in sources && n == child)
  }

  lemma OneMore(edges: seq<Edge>, sources: seq<int>, s: int, child: int)
    requires Joins(edges, sources, child) && s != 0
    ensures Joins(edges + [Wire(s, child)], sources + [s], child)
  {
    var more := edges + [Wire(s, child)];
    assert more[..|edges|] == edges;
    forall c, n ensures Feeds(more, c, n) <==> c in sources + [s] && n == child {
      if Feeds(edges, c, n) {
        var e :| e in edges && e.dep.Input? && e.source == c && e.target == n;
        assert e in more;
      }
      assert Wire(s, child) in more;
    }
  }

  // What the wakeup of task t plans then.
  function PlanFor(s: State, sources: seq<int>, child: int, t: nat): seq<int>
    requires Known(s, t)
  {
    var nm := Look(s, t).nm;
    if s.outcomes[t].Done? && s.log[t] in sources && child in nm && Submittable(nm[child])
       && (forall c :: c in sources ==> IsReady(nm, c))
    then [child] else []
  }

  lemma PlanIsScan(s: State, edges: seq<Edge>, sources: seq<int>, child: int, t: nat)
    requires Joins(edges, sources, child) && Known(s, t) && child in s.nm && s.nm[child].id == child
    requires !s.nm[child].ntype.Compose?
    ensures ScanOf(Look(s, t), edges, t, PlanFor(s, sources, child, t))
  {
    var looked, plan := Look(s, t), PlanFor(s, sources, child, t);
    forall m ensures m in plan <==>
      looked.outcomes[t].Done? && EnabledId(looked.nm, edges, m) && Feeds(edges, looked.log[t], m)
    {
      assert m == child ==> (InputsReady(looked.nm, edges, m) <==> forall c :: c in sources ==> IsReady(looked.nm, c));
    }
  }

  // The notice of task t is taken up, what its wakeup plans is submitted, and the wakeup ends.
  function AfterWakeup(s: State, t: nat, plan: seq<int>): State
    requires Known(s, t) && |plan| <= 1 && forall m :: m in plan ==> m in s.nm
  {
    var looked := Look(s, t).(due := s.due - {t});
    if plan == [] then looked else Submit(looked, plan[0])
  }

  function Begun(s: State, t: nat, plan: seq<int>): State
    requires Known(s, t)
  {
    Look(s, t).(due := s.due - {t}, active := s.active[0 := Wakeup(t, plan, true)])
  }

  lemma WakeupBegins(nm: NodeTable, edges: seq<Edge>, part: set<int>, s: State, sources: seq<int>, child: int, t: nat)
    requires Reaches(nm, edges, part, s) && s.active == map[] && t in s.due && Known(s, t)
    requires Joins(edges, sources, child) && child in s.nm && s.nm[child].id == child && !s.nm[child].ntype.Compose?
    ensures Reaches(nm, edges, part, Begun(s, t, PlanFor(s, sources, child, t)))
  {
    var plan := PlanFor(s, sources, child, t);
    PlanIsScan(s, edges, sources, child, t);
    Continues(nm, edges, part, s, Begin(0, t, plan));
  }

  lemma PlanIsSubmitted(nm: NodeTable, edges: seq<Edge>, part: set<int>, s: State, t: nat, m: int)
    requires Known(s, t) && Reaches(nm, edges, part, Begun(s, t, [m])) && m in s.nm && s.active == map[]
    ensures Reaches(nm, edges, part, Submit(Begun(s, t, []), m))
  {
    var begun := Begun(s, t, [m]);
    Continues(nm, edges, part, begun, SubmitNext(0));
    assert Do(begun, edges, SubmitNext(0)) == Submit(Begun(s, t, []), m) by {
      assert begun.active[0].(plan := [m][1..]) == Wakeup(t, [], true);
    }
  }

  lemma WakeupEnds(nm: NodeTable, edges: seq<Edge>, part: set<int>, s: State, sources: seq<int>, child: int, t: nat)
    requires Reaches(nm, edges, part, s) && s.active == map[] && t in s.due && Known(s, t)
    requires Joins(edges, sources, child) && child in s.nm && s.nm[child].id == child && !s.nm[child].ntype.Compose?
    ensures Reaches(nm, edges, part, AfterWakeup(s, t, PlanFor(s, sources, child, t)))
  {
    var plan := PlanFor(s, sources, child, t);
    WakeupBegins(nm, edges, part, s, sources, child, t);
    if plan == [] {
      Finishes(nm, edges, part, Begun(s, t, []), AfterWakeup(s, t, plan));
    } else {
      PlanIsSubmitted(nm, edges, part, s, t, child);
      Finishes(nm, edges, part, Submit(Begun(s, t, []), child), AfterWakeup(s, t, plan));
    }
  }

  lemma Finishes(nm: NodeTable, edges: seq<Edge>, part: set<int>, s: State, s': State)
    requires Reaches(nm, edges, part, s) && s.active.Keys == {0} && s.active[0].plan == []
    requires s' == s.(active := map[])
    ensures Reaches(nm, edges, part, s')
  {
    Continues(nm, edges, part, s, Finish(0));
    assert s.active - {0} == map[];
  }

  // ---------- Settlement errors and dropped wakeups ----------

  function Shot(id: int, st: Status): Node {
    Node(id, Text, Creative.Shot, st, 0.0, 0.0)
  }

  function Wire(s: int, t: int): Edge {
    Edge(s, t, Input)
  }

  const CHAIN := [Wire(1, 2)]

  function Chain(first: Status, second: Status): NodeTable {
    map[1 := Shot(1, first), 2 := Shot(2, second)]
  }

  ghost predicate ChainReaches(s: State) {
    Reaches(Chain(Idle, Idle), CHAIN, {1, 2}, s)
  }

  lemma ChainJoins()
    ensures Joins(CHAIN, [1], 2) && FreshPart(Chain(Idle, Idle), CHAIN, {1, 2})
  {
    OneMore([], [], 1, 2);
    assert [] + CHAIN == CHAIN && [] + [1] == [1];
  }

  // The first node's task has ended.
  function FirstEnded(outcome: Outcome): State
    requires outcome.Done? || outcome.Unsettled?
  {
    State(Chain(Succeeded, Idle), [1], [outcome], {0}, multiset{0}, map[], {}, {}, [], {}, 0)
  }

  lemma FirstEndedIs(outcome: Outcome)
    requires outcome.Done? || outcome.Unsettled?
    ensures AfterRoot(Start(Chain(Idle, Idle)), 1, outcome) == FirstEnded(outcome)
  {
    assert AfterRoot(Start(Chain(Idle, Idle)), 1, outcome).nm == Chain(Succeeded, Idle);
  }

  lemma FirstIsRoot()
    ensures EnabledId(Chain(Idle, Idle), CHAIN, 1) && IsRoot(CHAIN, 1)
  {
    ChainJoins();
  }

  lemma FirstEnds(outcome: Outcome)
    requires outcome.Done? || outcome.Unsettled?
    ensures ChainReaches(FirstEnded(outcome))
  {
    var nm := Chain(Idle, Idle);
    ChainJoins();
    Begins(nm, CHAIN, {1, 2});
    FirstIsRoot();
    RootEnds(nm, CHAIN, {1, 2}, Start(nm), 1, outcome);
    FirstEndedIs(outcome);
  }

  // Nothing is under way or due.
  lemma NothingLeft(s: State, edges: seq<Edge>)
    requires s.active == map[] && s.due == {} && s.clocks == multiset{}
    requires forall t :: 0 <= t < |s.outcomes| ==> !s.outcomes[t].InFlight?
    ensures Over(s, edges)
  {
  }

  // The wakeup of the notice has written the first node's status.
  function FirstTaken(outcome: Outcome): State {
    State(Chain(Ready, Idle), [1], [outcome], {}, multiset{0}, map[], {}, {}, [], {}, 0)
  }

  lemma FirstLooked(s: State, outcome: Outcome)
    requires (outcome.Done? || outcome.Unsettled?) && (s == FirstEnded(outcome) || s == FirstTaken(outcome))
    ensures Known(s, 0) && Look(s, 0) == FirstTaken(outcome).(due := s.due)
  {
    assert Look(s, 0).nm == Chain(Ready, Idle);
  }

  lemma SecondIsEnabled()
    ensures EnabledId(Chain(Ready, Idle), CHAIN, 2)
  {
    ChainJoins();
  }

  // A task that ends in settlement_error leaves its node ready, yet its notice and its clock job submit
  // nothing: the run is over with 2 idle and enabled, though it was never turned down.
  lemma SettlementErrorStrands() returns (s: State)
    ensures ChainReaches(s) && Over(s, CHAIN) && EnabledId(s.nm, CHAIN, 2)
    ensures s.halted == {} && s.missed == {} && s.outcomes == [Unsettled]
  {
    var taken := UnsettledIsTaken();
    s := taken.(clocks := multiset{});
    var looking := s.(active := map[0 := Wakeup(0, [], false)]);
    FirstLooked(taken, Unsettled);
    Continues(Chain(Idle, Idle), CHAIN, {1, 2}, taken, Clock(0, 0, []));
    assert Do(taken, CHAIN, Clock(0, 0, [])) == looking;
    Finishes(Chain(Idle, Idle), CHAIN, {1, 2}, looking, s);
    NothingLeft(s, CHAIN);
    SecondIsEnabled();
  }

  lemma UnsettledIsTaken() returns (s: State)
    ensures s == FirstTaken(Unsettled) && ChainReaches(s)
  {
    s := FirstTaken(Unsettled);
    FirstEnds(Unsettled);
    FirstLooked(FirstEnded(Unsettled), Unsettled);
    ChainJoins();
    WakeupEnds(Chain(Idle, Idle), CHAIN, {1, 2}, FirstEnded(Unsettled), [1], 2, 0);
    assert AfterWakeup(FirstEnded(Unsettled), 0, []) == s;
  }

  // An error inside a wakeup is swallowed and its notice recorded as processed: what it had not submitted
  // stays enabled and idle, with nothing turned down and every task settled.
  lemma DroppedWakeupStrands() returns (s: State)
    ensures ChainReaches(s) && Over(s, CHAIN) && EnabledId(s.nm, CHAIN, 2)
    ensures s.halted == {} && s.outcomes == [Done]
  {
    var begun := DoneIsTaken();
    Continues(Chain(Idle, Idle), CHAIN, {1, 2}, begun, Drop(0));
    var dropped := FirstTaken(Done).(missed := {2});
    assert Do(begun, CHAIN, Drop(0)) == dropped by {
      assert begun.active - {0} == map[] && StillOpen(begun.nm, [2]) == {2};
    }
    Continues(Chain(Idle, Idle), CHAIN, {1, 2}, dropped, Lapse(0));
    s := dropped.(clocks := multiset{});
    NothingLeft(s, CHAIN);
    SecondIsEnabled();
  }

  lemma DoneIsTaken() returns (s: State)
    ensures s == FirstTaken(Done).(active := map[0 := Wakeup(0, [2], true)]) && ChainReaches(s)
  {
    s := FirstTaken(Done).(active := map[0 := Wakeup(0, [2], true)]);
    FirstEnds(Done);
    FirstLooked(FirstEnded(Done), Done);
    ChainJoins();
    WakeupBegins(Chain(Idle, Idle), CHAIN, {1, 2}, FirstEnded(Done), [1], 2, 0);
    assert PlanFor(FirstEnded(Done), [1], 2, 0) == [2];
    assert Begun(FirstEnded(Done), 0, [2]) == s;
  }

  // ---------- Cancelled and failed tasks ----------

  const FORK := [Wire(1, 4), Wire(2, 4), Wire(3, 4)]

  // Three inputs and their child.
  const FORK_TABLE: NodeTable := map[1 := Shot(1, Idle), 2 := Shot(2, Idle), 3 := Shot(3, Idle), 4 := Shot(4, Idle)]

  ghost predicate ForkReaches(s: State) {
    Reaches(FORK_TABLE, FORK, {1, 2, 3, 4}, s)
  }

  lemma ForkJoins()
    ensures Joins(FORK, [1, 2, 3], 4)
  {
    OneMore([], [], 1, 4);
    OneMore([] + [Wire(1, 4)], [] + [1], 2, 4);
    OneMore([] + [Wire(1, 4)] + [Wire(2, 4)], [] + [1] + [2], 3, 4);
    assert [] + [Wire(1, 4)] + [Wire(2, 4)] + [Wire(3, 4)] == FORK && [] + [1] + [2] + [3] == [1, 2, 3];
  }

  // No wakeup is under way, the first k inputs are done and the others idle, and the child has this status.
  ghost predicate ForkIs(s: State, k: nat, child: Status) {
    && s.active == map[] && |s.outcomes| == |s.log| && ForkNodes(s.nm, k) && s.nm[4].status == child
  }

  ghost predicate ForkNodes(nm: NodeTable, k: nat) {
    && (forall i :: 1 <= i <= 4 ==> i in nm && nm[i] == Shot(i, nm[i].status))
    && (forall i :: 1 <= i <= 3 ==> if i <= k then ReadyStatus(nm[i].status) else nm[i].status.Idle?)
  }

  ghost predicate ForkAt(s: State, k: nat, child: Status) {
    ForkReaches(s) && ForkIs(s, k, child)
  }

  lemma ForkIsFree()
    ensures FreshPart(FORK_TABLE, FORK, {1, 2, 3, 4})
  {
    ForkJoins();
    forall c, m | m in {1, 2, 3, 4} && c in InputSources(FORK, m) ensures c in {1, 2, 3, 4} {
      assert c in [1, 2, 3];
    }
  }

  lemma ForkStarts()
    ensures ForkAt(Start(FORK_TABLE), 0, Idle)
  {
    ForkIsFree();
    Begins(FORK_TABLE, FORK, {1, 2, 3, 4});
  }

  lemma InputIsEnabled(nm: NodeTable, n: int)
    requires 1 <= n <= 3 && n in nm && nm[n] == Shot(n, Idle)
    ensures EnabledId(nm, FORK, n) && IsRoot(FORK, n)
  {
    ForkJoins();
  }

  lemma InputEnds(s: State, k: nat) returns (s': State)
    requires ForkAt(s, k, Idle) && k < 3
    ensures ForkAt(s', k + 1, Idle)
    ensures s'.log == s.log + [k + 1] && s'.outcomes == s.outcomes + [Done] && s'.due == s.due + {|s.log|}
  {
    InputIsEnabled(s.nm, k + 1);
    RootEnds(FORK_TABLE, FORK, {1, 2, 3, 4}, s, k + 1, Done);
    s' := AfterRoot(s, k + 1, Done);
    InputWritten(s, k);
  }

  lemma InputWritten(s: State, k: nat)
    requires ForkIs(s, k, Idle) && k < 3
    ensures ForkIs(AfterRoot(s, k + 1, Done), k + 1, Idle)
  {
  }

  // A wakeup of an input plans the child if it is open.
  lemma ForkPlan(s: State, t: nat)
    requires Known(s, t) && ForkNodes(s.nm, 3) && 1 <= s.log[t] <= 4
    requires if s.log[t] == 4 then s.outcomes[t].Cancelled? else s.outcomes[t].Done?
    ensures PlanFor(s, [1, 2, 3], 4, t) == if s.log[t] != 4 && Untouched(s.nm[4].status) then [4] else []
  {
  }

  // The notice of an input's success is taken up while the child is open.
  lemma ForkOffers(s: State, t: nat, child: Status) returns (s': State)
    requires ForkAt(s, 3, child) && Untouched(child)
    requires t in s.due && t < |s.log| && s.outcomes[t].Done? && 1 <= s.log[t] <= 3
    ensures ForkAt(s', 3, Queued)
    ensures s'.log == s.log + [4] && s'.outcomes == s.outcomes + [InFlight] && s'.due == s.due - {t}
  {
    ForkPlan(s, t);
    ForkJoins();
    WakeupEnds(FORK_TABLE, FORK, {1, 2, 3, 4}, s, [1, 2, 3], 4, t);
    s' := AfterWakeup(s, t, [4]);
    ForkSent(s, t, child);
  }

  lemma ForkSent(s: State, t: nat, child: Status)
    requires ForkIs(s, 3, child) && t < |s.log| && s.outcomes[t].Done? && 1 <= s.log[t] <= 3
    ensures Known(s, t) && ForkIs(AfterWakeup(s, t, [4]), 3, Queued)
  {
  }

  lemma ChildEnds(s: State, t: nat, child: Status, outcome: Outcome) returns (s': State)
    requires ForkAt(s, 3, child) && t < |s.log| && s.outcomes[t].InFlight? && s.log[t] == 4 && !outcome.InFlight?
    ensures ForkAt(s', 3, outcome.Reported())
    ensures s'.log == s.log && s'.outcomes == s.outcomes[t := outcome] && s'.due == s.due + {t}
  {
    Continues(FORK_TABLE, FORK, {1, 2, 3, 4}, s, End(t, outcome));
    s' := Do(s, FORK, End(t, outcome));
  }

  // The output of an input is written again while the child is failed.
  lemma ChildIsMarked(s: State, t: nat) returns (s': State)
    requires ForkAt(s, 3, Status.Failed) && t in s.due && t < |s.log| && s.outcomes[t].Done? && 1 <= s.log[t] <= 3
    ensures ForkAt(s', 3, Stale) && s'.log == s.log && s'.outcomes == s.outcomes && s'.due == s.due
  {
    ForkReach(s.log[t]);
    Continues(FORK_TABLE, FORK, {1, 2, 3, 4}, s, Mark(t, 4));
    s' := Do(s, FORK, Mark(t, 4));
  }

  lemma ForkReach(n: int)
    requires 1 <= n <= 3
    ensures Reach(SourceArcs(FORK), n, 4)
  {
    assert FORK[n - 1] == Wire(n, 4);
    ReachArc(SourceArcs(FORK), n, 4);
  }

  // The notice of a cancelled task of the child is taken up.
  lemma CancellationIsTaken(s: State, t: nat, child: Status) returns (s': State)
    requires ForkAt(s, 3, child) && t in s.due && t < |s.log| && s.outcomes[t].Cancelled? && s.log[t] == 4
    ensures ForkAt(s', 3, Idle) && s'.log == s.log && s'.outcomes == s.outcomes && s'.due == s.due - {t}
  {
    ForkPlan(s, t);
    ForkJoins();
    WakeupEnds(FORK_TABLE, FORK, {1, 2, 3, 4}, s, [1, 2, 3], 4, t);
    s' := AfterWakeup(s, t, []);
  }

  lemma AllInputsEnd() returns (s: State)
    ensures ForkAt(s, 3, Idle) && s.log == [1, 2, 3] && s.outcomes == [Done, Done, Done] && s.due == {0, 1, 2}
  {
    ForkStarts();
    s := InputEnds(Start(FORK_TABLE), 0);
    s := InputEnds(s, 1);
    s := InputEnds(s, 2);
  }

  // Taken one at a time, wakeups still submit a node twice if its task is cancelled in between.
  lemma CancelledIsResubmitted() returns (s: State)
    ensures ForkReaches(s) && s.log == [1, 2, 3, 4, 4] && s.outcomes == [Done, Done, Done, Cancelled, InFlight]
    ensures ForkIs(s, 3, Queued) && s.due == {2, 3}
  {
    s := AllInputsEnd();
    s := ForkOffers(s, 0, Idle);
    s := ChildEnds(s, 3, Queued, Cancelled);
    s := ForkOffers(s, 1, OtherStatus("cancelled"));
  }

  // So does a node whose task failed: the wakeup of another input writes that input's output again, which
  // marks the failed child as stale, and plans it.
  lemma FailedIsResubmitted() returns (s: State)
    ensures ForkReaches(s) && s.log == [1, 2, 3, 4, 4] && s.outcomes == [Done, Done, Done, Broken, InFlight]
  {
    s := AllInputsEnd();
    s := ForkOffers(s, 0, Idle);
    s := ChildEnds(s, 3, Queued, Broken);
    s := ChildIsMarked(s, 1);
    s := ForkOffers(s, 1, Stale);
  }

  // The wakeup of the cancelled task comes after the node was submitted again, and opens it once more
  // while that task runs: three submissions, of which one was cancelled.
  lemma LateLookResubmits() returns (s: State)
    ensures ForkReaches(s) && s.log == [1, 2, 3, 4, 4, 4]
    ensures s.outcomes == [Done, Done, Done, Cancelled, InFlight, InFlight]
  {
    s := CancelledIsResubmitted();
    s := CancellationIsTaken(s, 3, Queued);
    s := ForkOffers(s, 2, Idle);
  }

  // ---------- Wakeups at once ----------

  // Two wakeups under way, each about to submit the child, do so one after the other.
  lemma BothSubmit(s: State, s': State, s'': State)
    requires s.active.Keys == {0, 1} && s.active[0].plan == [4] && s.active[1].plan == [4] && 4 in s.nm
    requires s' == Submit(Advance(s, 0), 4) && s'' == Submit(Advance(s', 1), 4)
    ensures Steps(FORK, s, s') && Steps(FORK, s', s'') && s''.log == s.log + [4] + [4]
  {
    assert CanDo(s, FORK, SubmitNext(0)) && s' == Do(s, FORK, SubmitNext(0));
    assert CanDo(s', FORK, SubmitNext(1)) && s'' == Do(s', FORK, SubmitNext(1));
  }

  // The second wakeup begins while the first is under way.
  lemma SecondBegins(s: State, s': State)
    requires ForkNodes(s.nm, 3) && s.nm[4].status.Idle? && 1 in s.due
    requires s.active.Keys == {0} && s.active[0].plan == [4]
    requires s.log == [1, 2, 3] && s.outcomes == [Done, Done, Done]
    requires s' == Look(s, 1).(due := s.due - {1}, active := s.active[1 := Wakeup(1, [4], true)])
    ensures Steps(FORK, s, s')
  {
    SecondScan(s);
    assert CanDo(s, FORK, Begin(1, 1, [4])) && s' == Do(s, FORK, Begin(1, 1, [4]));
  }

  lemma SecondScan(s: State)
    requires ForkNodes(s.nm, 3) && s.nm[4].status.Idle? && s.log == [1, 2, 3] && s.outcomes == [Done, Done, Done]
    ensures Known(s, 1) && ScanOf(Look(s, 1), FORK, 1, [4])
  {
    ForkPlan(s, 1);
    ForkJoins();
    PlanIsScan(s, FORK, [1, 2, 3], 4, 1);
  }

  lemma FirstBegins(s: State) returns (s': State)
    requires ForkAt(s, 3, Idle) && s.log == [1, 2, 3] && s.outcomes == [Done, Done, Done] && 0 in s.due
    ensures ForkReaches(s') && s' == Begun(s, 0, [4]) && ForkNodes(s'.nm, 3) && s'.nm[4].status.Idle?
  {
    ForkPlan(s, 0);
    ForkJoins();
    WakeupBegins(FORK_TABLE, FORK, {1, 2, 3, 4}, s, [1, 2, 3], 4, 0);
    s' := Begun(s, 0, [4]);
    BegunNodes(s);
  }

  lemma BegunNodes(s: State)
    requires ForkNodes(s.nm, 3) && s.log == [1, 2, 3] && s.outcomes == [Done, Done, Done] && s.nm[4].status.Idle?
    ensures Known(s, 0) && ForkNodes(Begun(s, 0, [4]).nm, 3) && Begun(s, 0, [4]).nm[4].status.Idle?
  {
  }

  // From a state a calm run reaches, a second wakeup begins, plans the child the first has planned, and it
  // is submitted twice with every task settled.
  lemma ConcurrentWakeupsResubmit() returns (run: seq<State>)
    ensures Run(FORK, run) && ForkReaches(run[0])
    ensures var s := run[|run| - 1]; s.log == [1, 2, 3, 4, 4] && s.outcomes == [Done, Done, Done, InFlight, InFlight]
  {
    var s := AllInputsEnd();
    var s0 := FirstBegins(s);
    var s1 := Look(s0, 1).(due := s0.due - {1}, active := s0.active[1 := Wakeup(1, [4], true)]);
    SecondBegins(s0, s1);
    var s2 := Submit(Advance(s1, 0), 4);
    var s3 := Submit(Advance(s2, 1), 4);
    BothSubmit(s1, s2, s3);
    run := [s0, s1, s2, s3];
    forall i | 0 < i < |run| ensures Steps(FORK, run[i - 1], run[i]) {
      assert i == 1 || i == 2 || i == 3;
    }
  }

  // ---------- Inputs written back ----------

  // 1 is cancelled, submitted again by hand, and done; its child is submitted; then the notice of the
  // cancelled task is taken up.
  const FIRST_CANCELLED := State(Chain(OtherStatus("cancelled"), Idle), [1], [Cancelled], {0}, multiset{0}, map[],
    {1}, {}, [1], {}, 0)

  const FIRST_DONE := State(Chain(Succeeded, Idle), [1, 1], [Cancelled, Done], {0, 1}, multiset{0, 1}, map[],
    {}, {}, [1], {}, 0)

  const SECOND_SENT := State(Chain(Ready, Queued), [1, 1, 2], [Cancelled, Done, InFlight], {0}, multiset{0, 1, 2},
    map[], {}, {}, [1], {}, 0)

  lemma FirstIsCancelled()
    ensures ChainReaches(FIRST_CANCELLED)
  {
    var nm := Chain(Idle, Idle);
    ChainJoins();
    Begins(nm, CHAIN, {1, 2});
    FirstIsRoot();
    RootEnds(nm, CHAIN, {1, 2}, Start(nm), 1, Cancelled);
    CancelledValues();
  }

  lemma CancelledIsEnabled()
    ensures EnabledId(FIRST_CANCELLED.nm, CHAIN, 1) && IsRoot(CHAIN, 1)
  {
    ChainJoins();
  }

  lemma FirstTwice()
    ensures ChainReaches(FIRST_DONE)
  {
    FirstIsCancelled();
    CancelledIsEnabled();
    FirstValues();
    RootEnds(Chain(Idle, Idle), CHAIN, {1, 2}, FIRST_CANCELLED, 1, Done);
  }

  lemma CancelledValues()
    ensures AfterRoot(Start(Chain(Idle, Idle)), 1, Cancelled) == FIRST_CANCELLED
  {
    assert AfterRoot(Start(Chain(Idle, Idle)), 1, Cancelled).nm == FIRST_CANCELLED.nm;
  }

  lemma FirstValues()
    ensures AfterRoot(FIRST_CANCELLED, 1, Done) == FIRST_DONE
  {
    assert AfterRoot(FIRST_CANCELLED, 1, Done).nm == FIRST_DONE.nm;
  }

  lemma SecondIsSent()
    ensures ChainReaches(SECOND_SENT)
  {
    FirstTwice();
    ChainJoins();
    SecondValues();
    WakeupEnds(Chain(Idle, Idle), CHAIN, {1, 2}, FIRST_DONE, [1], 2, 1);
  }

  lemma SecondValues()
    ensures PlanFor(FIRST_DONE, [1], 2, 1) == [2] && AfterWakeup(FIRST_DONE, 1, [2]) == SECOND_SENT
  {
    assert AfterWakeup(FIRST_DONE, 1, [2]).nm == SECOND_SENT.nm;
  }

  // A late look at a cancelled task writes idle over a node that is ready, and whose child is in flight.
  lemma LateLookUndoes() returns (s: State)
    ensures ChainReaches(s) && RunsFor(s, 2, 2) && ResultFor(s, 1, 1)
    ensures !IsReady(s.nm, 1) && s.undone == {1}
  {
    SecondIsSent();
    ChainJoins();
    LastValues();
    WakeupEnds(Chain(Idle, Idle), CHAIN, {1, 2}, SECOND_SENT, [1], 2, 0);
    s := AfterWakeup(SECOND_SENT, 0, []);
  }

  lemma LastValues()
    ensures PlanFor(SECOND_SENT, [1], 2, 0) == []
    ensures var s := AfterWakeup(SECOND_SENT, 0, []);
      RunsFor(s, 2, 2) && ResultFor(s, 1, 1) && !IsReady(s.nm, 1) && s.undone == {1}
  {
  }
}
