// How long a calm run can last.

module RunLength {
  import opened Collections
  import opened Graph
  import opened Canvas
  import opened Scheduler
  import opened SchedulerRun
  import opened CalmRun

  // Nodes that may still be submitted: open ones, and those planned.
  ghost function Open(s: State): set<int> {
    set n | n in s.nm.Keys && (!Touched(s.nm, n) || InPlan(s, n))
  }

  ghost function Flying(outcomes: seq<Outcome>): set<nat> {
    set t: nat | t < |outcomes| && outcomes[t].InFlight?
  }

  ghost function Planned(active: map<int, Wakeup>): nat {
    if w :| w in active then |active[w].plan| + 1 else 0
  }

  // Multiplication by addition.
  function Times(a: nat, b: nat): nat {
    if a == 0 then 0 else Times(a - 1, b) + b
  }

  lemma {:induction false} TimesIs(a: nat, b: nat)
    ensures Times(a, b) == a * b
  {
    if a > 0 { TimesIs(a - 1, b); }
  }

  // How many events are left at most, by what there is: a task in flight ends and is due; a notice or a
  // clock job begins a wakeup; a wakeup submits what it planned; an open node is submitted.
  function Load(size: nat, open: nat, flying: nat, waiting: nat, planned: nat): nat {
    Times(open, 2 * size + 6) + Times(flying, size + 3) + Times(waiting, size + 2) + planned
  }

  ghost function Left(s: State): nat {
    Load(|s.nm|, |Open(s)|, |Flying(s.outcomes)|, |s.due| + |s.clocks|, Planned(s.active))
  }

  lemma LoadUp(size: nat, open: nat, flying: nat, waiting: nat, planned: nat)
    ensures Load(size, open + 1, flying, waiting, planned) == Load(size, open, flying, waiting, planned) + 2 * size + 6
    ensures Load(size, open, flying + 1, waiting, planned) == Load(size, open, flying, waiting, planned) + size + 3
    ensures Load(size, open, flying, waiting + 1, planned) == Load(size, open, flying, waiting, planned) + size + 2
  {
  }

  lemma {:induction false} TimesGrows(a: nat, b: nat, c: nat)
    requires a <= b
    ensures Times(a, c) <= Times(b, c)
  {
    if a < b { TimesGrows(a, b - 1, c); }
  }

  lemma PlannedIs(s: State, w: int)
    requires OnePlan(s) && w in s.active
    ensures Planned(s.active) == |s.active[w].plan| + 1
  {
  }

  lemma PlanFits(s: State, edges: seq<Edge>, t: nat, plan: seq<int>)
    requires Known(s, t) && ScanOf(s, edges, t, plan)
    ensures |plan| <= |s.nm|
  {
    DistinctLength(plan, s.nm.Keys);
    assert |s.nm.Keys| == |s.nm|;
  }

  lemma SameSize(s: State, edges: seq<Edge>, ev: Event)
    requires CanDo(s, edges, ev)
    ensures Do(s, edges, ev).nm.Keys == s.nm.Keys && |Do(s, edges, ev).nm| == |s.nm|
  {
    DoKeepsIds(s, edges, ev);
    assert |Do(s, edges, ev).nm.Keys| == |s.nm.Keys|;
  }

  // How many nodes the step opens again.
  function Reopened(s: State, s': State): int {
    |s'.freed| - |s.freed|
  }

  // Besides a node that is written back nothing becomes open.
  lemma OpenAfter(s: State, edges: seq<Edge>, ev: Event)
    requires OnePlan(s) && CalmDo(s, edges, ev)
    ensures var s' := Do(s, edges, ev);
      0 <= Reopened(s, s') <= 1 && |Open(s')| <= |Open(s)| + Reopened(s, s')
  {
    var s' := Do(s, edges, ev);
    SameSize(s, edges, ev);
    var added := if Reopened(s, s') == 1 then {s'.freed[|s'.freed| - 1]} else {};
    forall n | n in Open(s') ensures n in Open(s) + added {
      OpenIsOld(s, edges, ev, n);
    }
    assert Open(s') <= Open(s) + added;
    SubsetSize(Open(s'), Open(s) + added);
  }

  lemma OpenIsOld(s: State, edges: seq<Edge>, ev: Event, n: int)
    requires OnePlan(s) && CalmDo(s, edges, ev) && n in Open(Do(s, edges, ev))
    ensures var s' := Do(s, edges, ev);
      n in Open(s) || (Reopened(s, s') == 1 && s'.freed[|s'.freed| - 1] == n)
  {
    var s' := Do(s, edges, ev);
    PlanAfter(s, edges, ev, n);
    if ev.Begin? || ev.Clock? {
      assert n in ev.plan ==> !Touched(s'.nm, n);
    }
    if !Touched(s'.nm, n) && Touched(s.nm, n) { WrittenBack(s, edges, ev, n); }
  }

  lemma WrittenBack(s: State, edges: seq<Edge>, ev: Event, n: int)
    requires CanDo(s, edges, ev) && Touched(s.nm, n) && !Touched(Do(s, edges, ev).nm, n)
    ensures Do(s, edges, ev).freed == s.freed + [n]
  {
  }

  lemma SubsetSize<T>(a: set<T>, b: set<T>)
    requires a <= b
    ensures |a| <= |b|
  {
    if a != {} {
      var x :| x in a;
      SubsetSize(a - {x}, b - {x});
    }
  }

  predicate IsSubmit(ev: Event) {
    ev.SubmitRoot? || ev.SubmitNext?
  }

  lemma FlyingAdd(outcomes: seq<Outcome>)
    ensures |Flying(outcomes + [InFlight])| == |Flying(outcomes)| + 1
  {
    var more := outcomes + [InFlight];
    forall t: nat ensures t in Flying(more) <==> t in Flying(outcomes) + {|outcomes|} {
      assert t < |outcomes| ==> more[t] == outcomes[t];
    }
    assert Flying(more) == Flying(outcomes) + {|outcomes|};
  }

  lemma FlyingEnd(outcomes: seq<Outcome>, t: nat, outcome: Outcome)
    requires t < |outcomes| && outcomes[t].InFlight? && !outcome.InFlight?
    ensures |Flying(outcomes[t := outcome])| == |Flying(outcomes)| - 1
  {
    assert Flying(outcomes[t := outcome]) == Flying(outcomes) - {t};
  }

  lemma OutcomesAfter(s: State, edges: seq<Edge>, ev: Event)
    requires CanDo(s, edges, ev)
    ensures Do(s, edges, ev).outcomes ==
      if IsSubmit(ev) then s.outcomes + [InFlight]
      else if ev.End? then s.outcomes[ev.t := ev.outcome]
      else s.outcomes
  {
  }

  lemma FlyingAfter(s: State, edges: seq<Edge>, ev: Event)
    requires CanDo(s, edges, ev)
    ensures |Flying(Do(s, edges, ev).outcomes)| ==
      |Flying(s.outcomes)| + (if IsSubmit(ev) then 1 else if ev.End? then -1 else 0)
  {
    OutcomesAfter(s, edges, ev);
    if IsSubmit(ev) { FlyingAdd(s.outcomes); }
    if ev.End? { FlyingEnd(s.outcomes, ev.t, ev.outcome); }
  }

  // Notices due and clock jobs outstanding.
  lemma WaitingAfter(s: State, edges: seq<Edge>, ev: Event)
    requires Sound(s, edges) && CanDo(s, edges, ev)
    ensures var s' := Do(s, edges, ev);
      |s'.due| + |s'.clocks| <= |s.due| + |s.clocks| +
        if IsSubmit(ev) || ev.End? || ev.Busy? || ev.Timeout? || ev.Abort? then 1
        else if ev.Begin? || ev.Clock? || ev.Skip? || ev.Lapse? then -1
        else 0
  {
  }

  lemma PlannedAfter(s: State, edges: seq<Edge>, ev: Event)
    requires OnePlan(s) && CalmDo(s, edges, ev)
    ensures var p, p' := Planned(s.active), Planned(Do(s, edges, ev).active);
      if ev.Begin? || ev.Clock? then p == 0 && p' <= |s.nm| + 1
      else if ev.SubmitNext? || ev.RejectNext? || ev.Finish? || ev.Drop? || ev.Abort? then p' < p
      else p' == p
  {
    var s' := Do(s, edges, ev);
    StaysOnePlan(s, edges, ev);
    if ev.Begin? || ev.Clock? {
      PlanFits(Look(s, ev.t), edges, ev.t, ev.plan);
      PlannedIs(s', ev.w);
    } else if ev.SubmitNext? || ev.RejectNext? || ev.Finish? || ev.Drop? || ev.Abort? {
      PlannedIs(s, ev.w);
      if ev.SubmitNext? || ev.RejectNext? {
        PlannedIs(s', ev.w);
      } else {
        assert forall v :: v in s.active ==> v == ev.w;
        assert s'.active.Keys == {};
      }
    } else {
      assert s'.active == s.active;
    }
  }

  lemma SubmitCloses(s: State, edges: seq<Edge>, ev: Event)
    requires Sound(s, edges) && OnePlan(s) && CalmDo(s, edges, ev) && IsSubmit(ev)
    ensures var s' := Do(s, edges, ev); s'.freed == s.freed && |Open(s')| < |Open(s)|
  {
    var s' := Do(s, edges, ev);
    var n := if ev.SubmitRoot? then ev.n else s.active[ev.w].plan[0];
    SameSize(s, edges, ev);
    assert n in Open(s) by {
      if ev.SubmitNext? { PlanIsOnly(s, ev.w, n); }
    }
    forall m | m in Open(s') ensures m in Open(s) - {n} {
      PlanAfter(s, edges, ev, m);
      if ev.SubmitRoot? && m == n { RootIsUnplanned(s, edges, n); }
    }
    SubsetSize(Open(s'), Open(s) - {n});
  }

  // What a step gives back: a node that is open again, or a wakeup or clock job to come again.
  function Regained(s: State, s': State): int {
    (if |s'.freed| > |s.freed| then 2 * |s.nm| + 7 else 0) + (if s'.retries > s.retries then |s.nm| + 3 else 0)
  }

  lemma SubmitSpends(s: State, edges: seq<Edge>, ev: Event)
    requires Sound(s, edges) && OnePlan(s) && CalmDo(s, edges, ev) && IsSubmit(ev)
    ensures Left(Do(s, edges, ev)) < Left(s)
  {
    var s' := Do(s, edges, ev);
    SameSize(s, edges, ev);
    SubmitCloses(s, edges, ev);
    FlyingAfter(s, edges, ev);
    WaitingAfter(s, edges, ev);
    PlannedAfter(s, edges, ev);
    LoadFalls(|s.nm|, |Open(s)|, |Open(s')|, |Flying(s.outcomes)|, |s.due| + |s.clocks|, |s'.due| + |s'.clocks|,
      Planned(s.active), Planned(s'.active));
  }

  // A submission turns an open node into a task in flight with a clock job.
  lemma LoadFalls(size: nat, o: nat, o': nat, f: nat, w: nat, w': nat, p: nat, p': nat)
    requires o' < o && w' <= w + 1 && p' <= p
    ensures Load(size, o', f + 1, w', p') < Load(size, o, f, w, p)
  {
    LoadBound(size, o', o - 1, f + 1, w', w + 1, p', p);
    LoadUp(size, o - 1, f, w, p);
    LoadUp(size, o - 1, f + 1, w, p);
  }

  // No more of anything is no more load.
  lemma LoadBound(size: nat, open: nat, open': nat, flying: nat, waiting: nat, waiting': nat, planned: nat,
                  planned': nat)
    requires open <= open' && waiting <= waiting' && planned <= planned'
    ensures Load(size, open, flying, waiting, planned) <= Load(size, open', flying, waiting', planned')
  {
    TimesGrows(open, open', 2 * size + 6);
    TimesGrows(waiting, waiting', size + 2);
  }

  lemma LeftAfter(s: State, edges: seq<Edge>, ev: Event)
    requires Sound(s, edges) && OnePlan(s) && CalmDo(s, edges, ev)
    ensures var s' := Do(s, edges, ev);
      Left(s') <= LoadBut(s, s') + if |s'.freed| > |s.freed| then 2 * |s.nm| + 6 else 0
  {
    var s', k, o := Do(s, edges, ev), |s.nm|, |Open(s)|;
    SameSize(s, edges, ev);
    OpenAfter(s, edges, ev);
    var f', w', p' := |Flying(s'.outcomes)|, |s'.due| + |s'.clocks|, Planned(s'.active);
    LoadBound(k, |Open(s')|, o + Reopened(s, s'), f', w', w', p', p');
    LoadUp(k, o, f', w', p');
  }

  // The load after a step, but with the nodes that were open before.
  ghost function LoadBut(s: State, s': State): nat {
    Load(|s.nm|, |Open(s)|, |Flying(s'.outcomes)|, |s'.due| + |s'.clocks|, Planned(s'.active))
  }

  lemma EndSpends(s: State, edges: seq<Edge>, ev: Event)
    requires Sound(s, edges) && OnePlan(s) && CalmDo(s, edges, ev)
    requires ev.End?
    ensures LoadBut(s, Do(s, edges, ev)) < Left(s)
  {
    var s' := Do(s, edges, ev);
    FlyingAfter(s, edges, ev);
    WaitingAfter(s, edges, ev);
    PlannedAfter(s, edges, ev);
    LoadMoves(|s.nm|, |Open(s)|, |Flying(s.outcomes)|, |Flying(s'.outcomes)|, |s.due| + |s.clocks|,
      |s'.due| + |s'.clocks|, Planned(s.active), Planned(s'.active));
  }

  lemma WaitingSpends(s: State, edges: seq<Edge>, ev: Event)
    requires Sound(s, edges) && OnePlan(s) && CalmDo(s, edges, ev)
    requires ev.Begin? || ev.Clock? || ev.Skip? || ev.Lapse?
    ensures LoadBut(s, Do(s, edges, ev)) < Left(s)
  {
    var s' := Do(s, edges, ev);
    FlyingAfter(s, edges, ev);
    WaitingAfter(s, edges, ev);
    PlannedAfter(s, edges, ev);
    LoadMoves(|s.nm|, |Open(s)|, |Flying(s.outcomes)|, |Flying(s'.outcomes)|, |s.due| + |s.clocks|,
      |s'.due| + |s'.clocks|, Planned(s.active), Planned(s'.active));
  }

  lemma PlanSpends(s: State, edges: seq<Edge>, ev: Event)
    requires Sound(s, edges) && OnePlan(s) && CalmDo(s, edges, ev)
    requires ev.RejectNext? || ev.Finish? || ev.Drop?
    ensures LoadBut(s, Do(s, edges, ev)) < Left(s)
  {
    var s' := Do(s, edges, ev);
    FlyingAfter(s, edges, ev);
    WaitingAfter(s, edges, ev);
    PlannedAfter(s, edges, ev);
    LoadMoves(|s.nm|, |Open(s)|, |Flying(s.outcomes)|, |Flying(s'.outcomes)|, |s.due| + |s.clocks|,
      |s'.due| + |s'.clocks|, Planned(s.active), Planned(s'.active));
  }

  lemma RetrySpends(s: State, edges: seq<Edge>, ev: Event)
    requires Sound(s, edges) && OnePlan(s) && CalmDo(s, edges, ev)
    requires ev.Busy? || ev.Timeout? || ev.Abort?
    ensures LoadBut(s, Do(s, edges, ev)) < Left(s) + |s.nm| + 3
  {
    var s' := Do(s, edges, ev);
    FlyingAfter(s, edges, ev);
    WaitingAfter(s, edges, ev);
    PlannedAfter(s, edges, ev);
    LoadMoves(|s.nm|, |Open(s)|, |Flying(s.outcomes)|, |Flying(s'.outcomes)|, |s.due| + |s.clocks|,
      |s'.due| + |s'.clocks|, Planned(s.active), Planned(s'.active));
  }

  lemma MarkOpens(s: State, edges: seq<Edge>, ev: Event)
    requires Sound(s, edges) && OnePlan(s) && CalmDo(s, edges, ev) && ev.Mark?
    ensures LoadBut(s, Do(s, edges, ev)) == Left(s) && |Do(s, edges, ev).freed| > |s.freed|
  {
    FlyingAfter(s, edges, ev);
    PlannedAfter(s, edges, ev);
  }

  // The load of open nodes aside.
  lemma LoadMoves(size: nat, open: nat, f: nat, f': nat, w: nat, w': nat, p: nat, p': nat)
    requires (f' == f - 1 && w' <= w + 1) || (f' == f && w' <= w + 1)
    ensures f' == f - 1 && p' <= p ==> Load(size, open, f', w', p') < Load(size, open, f, w, p)
    ensures f' == f && w' <= w - 1 && p' <= p + size + 1 ==> Load(size, open, f', w', p') < Load(size, open, f, w, p)
    ensures f' == f && w' <= w && p' < p ==> Load(size, open, f', w', p') < Load(size, open, f, w, p)
    ensures f' == f && p' <= p ==> Load(size, open, f', w', p') < Load(size, open, f, w, p) + size + 3
  {
    TimesGrows(w', w + 1, size + 2);
    if w' <= w { TimesGrows(w', w, size + 2); }
    if w' <= w - 1 { TimesGrows(w', w - 1, size + 2); }
    LoadUp(size, open, f, w, p);
    if f' == f - 1 { LoadUp(size, open, f', w, p); }
    if w > 0 { LoadUp(size, open, f, w - 1, p); }
  }

  lemma RetriesAfter(s: State, edges: seq<Edge>, ev: Event)
    requires CanDo(s, edges, ev)
    ensures Do(s, edges, ev).retries == s.retries + if ev.Busy? || ev.Timeout? || ev.Abort? then 1 else 0
  {
  }

  lemma StepSpends(s: State, edges: seq<Edge>, ev: Event)
    requires Sound(s, edges) && OnePlan(s) && CalmDo(s, edges, ev)
    ensures Left(Do(s, edges, ev)) < Left(s) + Regained(s, Do(s, edges, ev))
  {
    RetriesAfter(s, edges, ev);
    LeftAfter(s, edges, ev);
    match ev
    case SubmitRoot(_) => SubmitSpends(s, edges, ev);
    case SubmitNext(_) => SubmitSpends(s, edges, ev);
    case End(_, _) => EndSpends(s, edges, ev);
    case Begin(_, _, _) => WaitingSpends(s, edges, ev);
    case Clock(_, _, _) => WaitingSpends(s, edges, ev);
    case Skip(_, _) => WaitingSpends(s, edges, ev);
    case Lapse(_) => WaitingSpends(s, edges, ev);
    case Busy(_) => RetrySpends(s, edges, ev);
    case Timeout(_) => RetrySpends(s, edges, ev);
    case Abort(_) => RetrySpends(s, edges, ev);
    case Mark(_, _) => MarkOpens(s, edges, ev);
    case _ => PlanSpends(s, edges, ev);
  }

  function Allowance(size: nat, freed: nat, retries: nat): nat {
    Times(freed, 2 * size + 7) + Times(retries, size + 3)
  }

  lemma AllowanceMoves(size: nat, freed: nat, freed': nat, retries: nat, retries': nat)
    requires freed <= freed' <= freed + 1 && retries <= retries' <= retries + 1
    ensures Allowance(size, freed', retries') == Allowance(size, freed, retries)
      + (if freed' > freed then 2 * size + 7 else 0) + (if retries' > retries then size + 3 else 0)
  {
  }

  // What is left, not counting what was given back.
  ghost function Saved(size: nat): State -> int {
    s => Left(s) - Allowance(size, |s.freed|, s.retries)
  }

  lemma FreedGrows(s: State, edges: seq<Edge>, ev: Event)
    requires CanDo(s, edges, ev)
    ensures 0 <= Reopened(s, Do(s, edges, ev)) <= 1
  {
  }

  lemma StepSaves(s: State, edges: seq<Edge>, ev: Event)
    requires Sound(s, edges) && OnePlan(s) && CalmDo(s, edges, ev)
    ensures Saved(|s.nm|)(Do(s, edges, ev)) < Saved(|s.nm|)(s)
  {
    var s' := Do(s, edges, ev);
    StepSpends(s, edges, ev);
    FreedGrows(s, edges, ev);
    RetriesAfter(s, edges, ev);
    AllowanceMoves(|s.nm|, |s.freed|, |s'.freed|, s.retries, s'.retries);
  }

  lemma SizeStays(nm: NodeTable, edges: seq<Edge>, part: set<int>, run: seq<State>, k: nat)
    requires IsCalmRun(nm, edges, part, run) && k < |run|
    ensures |run[k].nm| == |nm|
  {
    RunKeepsGraph(nm, edges, part, run, k);
    assert |run[k].nm.Keys| == |nm.Keys|;
  }

  lemma KthStepSaves(nm: NodeTable, edges: seq<Edge>, part: set<int>, run: seq<State>, k: nat)
    requires IsCalmRun(nm, edges, part, run) && 0 < k < |run|
    ensures Saved(|nm|)(run[k]) < Saved(|nm|)(run[k - 1])
  {
    CalmRunIsCalm(nm, edges, part, run, k - 1);
    SizeStays(nm, edges, part, run, k - 1);
    var ev := EventOf(edges, run, k);
    StepSaves(run[k - 1], edges, ev);
  }

  lemma {:induction false} FallsByOne(f: State -> int, run: seq<State>, k: nat)
    requires k < |run| && forall i, j :: 0 <= i && j == i + 1 < |run| ==> f(run[j]) < f(run[i])
    ensures f(run[k]) + k <= f(run[0])
  {
    if k > 0 {
      FallsByOne(f, run, k - 1);
      assert f(run[k]) < f(run[k - 1]);
    }
  }

  lemma RunSaves(nm: NodeTable, edges: seq<Edge>, part: set<int>, run: seq<State>, f: State -> int)
    requires IsCalmRun(nm, edges, part, run) && f == Saved(|nm|)
    ensures f(run[|run| - 1]) + |run| - 1 <= f(Start(nm))
  {
    forall i, j | 0 <= i && j == i + 1 < |run| ensures f(run[j]) < f(run[i]) {
      KthStepSaves(nm, edges, part, run, j);
    }
    FallsByOne(f, run, |run| - 1);
  }

  lemma NothingLeft(s: State)
    requires s.outcomes == [] && s.due == {} && s.clocks == multiset{} && s.active == map[]
    ensures |Flying(s.outcomes)| == 0 && |s.due| + |s.clocks| == 0 && Planned(s.active) == 0
  {
    assert Flying(s.outcomes) == {};
  }

  lemma OpenFits(s: State)
    ensures |Open(s)| <= |s.nm|
  {
    SubsetSize(Open(s), s.nm.Keys);
    assert |s.nm.Keys| == |s.nm|;
  }

  lemma StartLeft(s: State)
    requires s.outcomes == [] && s.due == {} && s.clocks == multiset{} && s.active == map[]
    ensures Left(s) <= |s.nm| * (2 * |s.nm| + 6)
  {
    NothingLeft(s);
    OpenFits(s);
    TimesGrows(|Open(s)|, |s.nm|, 2 * |s.nm| + 6);
    TimesIs(|s.nm|, 2 * |s.nm| + 6);
  }

  // The number of steps of a run of which this much is recorded.
  function StepBound(n: nat, freed: nat, retries: nat): nat {
    n * (2 * n + 6) + freed * (2 * n + 7) + retries * (n + 3)
  }

  lemma FinalBound(n: nat, first: State, last: State, steps: int)
    requires Saved(n)(last) + steps <= Saved(n)(first) && first.freed == [] && first.retries == 0
    requires Left(first) <= n * (2 * n + 6)
    ensures steps <= StepBound(n, |last.freed|, last.retries)
  {
    TimesIs(|last.freed|, 2 * n + 7);
    TimesIs(last.retries, n + 3);
  }

  // Every calm run ends. On n nodes it takes at most n * (2n + 6) steps; a node that is written back to a
  // status that may be submitted adds at most 2n + 7, and a wakeup that dies, a clock job that times out or a
  // look at a running task at most n + 3.
  lemma CalmRunIsShort(nm: NodeTable, edges: seq<Edge>, part: set<int>, run: seq<State>)
    requires IsCalmRun(nm, edges, part, run)
    ensures |run| - 1 <= StepBound(|nm|, |run[|run| - 1].freed|, run[|run| - 1].retries)
  {
    var last := run[|run| - 1];
    assert |run| - 1 <= StepBound(|nm|, |last.freed|, last.retries) by {
      RunSaves(nm, edges, part, run, Saved(|nm|));
      StartLeft(Start(nm));
      FinalBound(|nm|, Start(nm), last, |run| - 1);
    }
  }
}
