// Two wakeups under way together: exactly when they submit a node twice.

module WakeupsAtOnce {
  import opened Collections
  import opened Graph
  import opened Canvas
  import opened Scheduler
  import opened SchedulerRun
  import opened CalmRun

  // The two plans are worked off in any order; nothing else happens meanwhile.
  ghost predicate PlanDo(s: State, edges: seq<Edge>, ev: Event) {
    CanDo(s, edges, ev) && (ev.SubmitNext? || ev.Finish?)
  }

  ghost predicate PlanStep(edges: seq<Edge>, s: State, s': State) {
    exists ev :: PlanDo(s, edges, ev) && s' == Do(s, edges, ev)
  }

  ghost predicate PlanSteps(edges: seq<Edge>, run: seq<State>) {
    run != [] && forall i :: 0 < i < |run| ==> PlanStep(edges, run[i - 1], run[i])
  }

  function PlanOf(s: State, w: int): seq<int> {
    if w in s.active then s.active[w].plan else []
  }

  // What was submitted and what the two wakeups still hold.
  function Holds(s: State, w: int, v: int): multiset<int> {
    multiset(s.log) + multiset(PlanOf(s, w)) + multiset(PlanOf(s, v))
  }

  lemma SubmitHolds(s: State, w: int, v: int)
    requires w in s.active && s.active[w].plan != [] && s.active[w].plan[0] in s.nm && v != w
    ensures var s' := Submit(Advance(s, w), s.active[w].plan[0]);
      Holds(s', w, v) == Holds(s, w, v) && Holds(s', v, w) == Holds(s, v, w)
  {
    var plan := s.active[w].plan;
    var s' := Submit(Advance(s, w), plan[0]);
    assert plan == [plan[0]] + plan[1..];
    assert multiset(plan) == multiset{plan[0]} + multiset(plan[1..]);
    assert multiset(s'.log) == multiset(s.log) + multiset{plan[0]};
    assert PlanOf(s', w) == plan[1..] && PlanOf(s', v) == PlanOf(s, v);
  }

  lemma FinishHolds(s: State, u: int, v: int)
    requires u in s.active && s.active[u].plan == []
    ensures PlanOf(s.(active := s.active - {u}), v) == PlanOf(s, v)
  {
  }

  lemma PlanStepHolds(s: State, edges: seq<Edge>, ev: Event, w: int, v: int)
    requires PlanDo(s, edges, ev)
    requires w != v && s.active.Keys <= {w, v}
    ensures Do(s, edges, ev).active.Keys <= {w, v}
    ensures Holds(Do(s, edges, ev), w, v) == Holds(s, w, v)
  {
    var s' := Do(s, edges, ev);
    assert ev.w in s.active.Keys;
    if ev.SubmitNext? {
      SubmitHolds(s, ev.w, if ev.w == w then v else w);
      assert s'.active.Keys == s.active.Keys;
    } else {
      FinishHolds(s, ev.w, w);
      FinishHolds(s, ev.w, v);
    }
  }

  lemma {:induction false} PlanStepsHold(edges: seq<Edge>, run: seq<State>, w: int, v: int, k: nat)
    requires PlanSteps(edges, run) && k < |run| && w != v && run[0].active.Keys <= {w, v}
    ensures run[k].active.Keys <= {w, v} && Holds(run[k], w, v) == Holds(run[0], w, v)
  {
    if k > 0 {
      PlanStepsHold(edges, run, w, v, k - 1);
      assert PlanStep(edges, run[k - 1], run[k]);
      var ev :| PlanDo(run[k - 1], edges, ev) && run[k] == Do(run[k - 1], edges, ev);
      PlanStepHolds(run[k - 1], edges, ev, w, v);
    }
  }

  // Once both are done, each has submitted its plan.
  lemma BothPlansAreSubmitted(s: State, edges: seq<Edge>, w: int, ev: Event, run: seq<State>)
    requires OnePlan(s) && w in s.active && (ev.Begin? || ev.Clock?) && CanDo(s, edges, ev)
    requires PlanSteps(edges, run) && run[0] == Do(s, edges, ev) && run[|run| - 1].active == map[]
    ensures multiset(run[|run| - 1].log) == multiset(s.log) + multiset(s.active[w].plan) + multiset(ev.plan)
  {
    var last := run[|run| - 1];
    assert forall v :: v in s.active.Keys ==> v == w;
    assert run[0].active.Keys <= {w, ev.w};
    PlanStepsHold(edges, run, w, ev.w, |run| - 1);
    assert PlanOf(last, w) == [] && PlanOf(last, ev.w) == [];
    assert PlanOf(run[0], w) == s.active[w].plan && PlanOf(run[0], ev.w) == ev.plan;
  }

  // A wakeup that begins while another is under way leads to a second submission, in whatever order the
  // two go on, if and only if its task is settled and its node feeds an enabled one the other has yet to
  // submit.
  lemma SecondWakeupResubmitsIff(s: State, edges: seq<Edge>, w: int, ev: Event, run: seq<State>)
    requires Sound(s, edges) && OnePlan(s) && w in s.active && (ev.Begin? || ev.Clock?) && CanDo(s, edges, ev)
    requires PlanSteps(edges, run) && run[0] == Do(s, edges, ev) && run[|run| - 1].active == map[]
    ensures (exists m :: multiset(run[|run| - 1].log)[m] > multiset(s.log)[m] + 1) <==>
      && s.outcomes[ev.t].Done?
      && exists m :: m in s.active[w].plan && EnabledId(run[0].nm, edges, m) && Feeds(edges, s.log[ev.t], m)
  {
    var log, p, q := run[|run| - 1].log, s.active[w].plan, ev.plan;
    BothPlansAreSubmitted(s, edges, w, ev, run);
    forall m ensures multiset(log)[m] > multiset(s.log)[m] + 1 <==>
      s.outcomes[ev.t].Done? && m in p && EnabledId(run[0].nm, edges, m) && Feeds(edges, s.log[ev.t], m)
    {
      DistinctCounts(p, m);
      DistinctCounts(q, m);
      assert multiset(log)[m] == multiset(s.log)[m] + multiset(p)[m] + multiset(q)[m];
      PlannedBySecond(s, edges, ev, m);
    }
  }

  lemma PlannedBySecond(s: State, edges: seq<Edge>, ev: Event, m: int)
    requires (ev.Begin? || ev.Clock?) && CanDo(s, edges, ev)
    ensures m in ev.plan <==>
      s.outcomes[ev.t].Done? && EnabledId(Do(s, edges, ev).nm, edges, m) && Feeds(edges, s.log[ev.t], m)
  {
    assert Do(s, edges, ev).nm == Look(s, ev.t).nm;
  }

  // Two wakeups begun at once submit a node twice if and only if both tasks are settled and their nodes
  // share a child that is enabled when each of them has looked.
  lemma WakeupsAtOnceResubmitIff(s: State, edges: seq<Edge>, first: Event, second: Event, run: seq<State>)
    requires Sound(s, edges) && OnePlan(s) && (first.Begin? || first.Clock?) && CalmDo(s, edges, first)
    requires (second.Begin? || second.Clock?) && CanDo(Do(s, edges, first), edges, second)
    requires var both := Do(Do(s, edges, first), edges, second);
      PlanSteps(edges, run) && run[0] == both && run[|run| - 1].active == map[]
    ensures (exists m :: multiset(run[|run| - 1].log)[m] > multiset(s.log)[m] + 1) <==>
      && s.outcomes[first.t].Done? && s.outcomes[second.t].Done?
      && exists m :: SharedChild(s, edges, first, second, run[0], m)
  {
    var s' := Do(s, edges, first);
    StepIsSound(s, edges, first);
    StaysOnePlan(s, edges, first);
    SecondWakeupResubmitsIff(s', edges, first.w, second, run);
    assert s'.log == s.log && s'.outcomes == s.outcomes && s'.active[first.w].plan == first.plan;
    forall m ensures s.outcomes[first.t].Done? && SharedChild(s, edges, first, second, run[0], m) <==>
      m in s'.active[first.w].plan && EnabledId(run[0].nm, edges, m) && Feeds(edges, s.log[second.t], m)
    {
      PlannedBySecond(s, edges, first, m);
    }
  }

  // Fed by both tasks' nodes, and enabled after each of the two looks.
  ghost predicate SharedChild(s: State, edges: seq<Edge>, first: Event, second: Event, both: State, m: int)
    requires (first.Begin? || first.Clock?) && CanDo(s, edges, first) && (second.Begin? || second.Clock?)
    requires second.t < |s.log|
  {
    && EnabledId(Do(s, edges, first).nm, edges, m) && EnabledId(both.nm, edges, m)
    && Feeds(edges, s.log[first.t], m) && Feeds(edges, s.log[second.t], m)
  }
}
