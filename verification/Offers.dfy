// When wakeups take a node up: exactly which nodes are left behind, and how often each is submitted.

module Offers {
  import opened Collections
  import opened Graph
  import opened Canvas
  import opened Scheduler
  import opened SchedulerRun
  import opened CalmRun
  import opened RunEnd

  // The state a notice or clock job finds, once it has written the task's status.
  function Found(s: State, ev: Event): State
    requires (ev.Begin? || ev.Clock? || ev.Skip?) && Known(s, ev.t)
  {
    if ev.Skip? then s else Look(s, ev.t)
  }

  // The event takes up a notice or clock job of a success of an input of m, while all inputs of m are ready.
  ghost predicate OffersTo(s: State, edges: seq<Edge>, ev: Event, m: int) {
    && CalmDo(s, edges, ev) && (ev.Begin? || ev.Clock? || ev.Skip?)
    && s.outcomes[ev.t].Done? && s.log[ev.t] in InputSources(edges, m)
    && InputsReady(Found(s, ev).nm, edges, m)
  }

  ghost predicate OfferStep(edges: seq<Edge>, s: State, s': State, m: int) {
    exists ev :: OffersTo(s, edges, ev, m) && s' == Do(s, edges, ev)
  }

  ghost predicate OfferAt(edges: seq<Edge>, run: seq<State>, j: nat, m: int)
    requires 0 < j < |run|
  {
    OfferStep(edges, run[j - 1], run[j], m)
  }

  ghost predicate OfferedBetween(edges: seq<Edge>, run: seq<State>, from: nat, to: nat, m: int)
    requires to < |run|
  {
    exists j :: from < j <= to && OfferAt(edges, run, j, m)
  }

  // What is planned is what is offered, save what was taken already.
  lemma PlanIsOffer(s: State, edges: seq<Edge>, ev: Event, m: int)
    requires Sound(s, edges) && CalmDo(s, edges, ev) && (ev.Begin? || ev.Clock? || ev.Skip?)
    requires Runnable(s.nm, edges, m)
    ensures m in ev.plan <==> OffersTo(s, edges, ev, m) && !Touched(Found(s, ev).nm, m)
  {
    FeedsIsSource(edges, s.log[ev.t], m);
  }

  // ---------- Nodes left behind ----------

  // Submitted, turned down, dropped, or about to be submitted.
  ghost predicate TakenUp(s: State, m: int) {
    m in s.log || m in s.halted || m in s.missed || InPlan(s, m)
  }

  // The wakeup that was to submit m dies.
  predicate Dies(s: State, ev: Event, m: int) {
    ev.Abort? && ev.w in s.active && m in s.active[ev.w].plan
  }

  lemma TouchedIsTaken(s: State, edges: seq<Edge>, m: int)
    requires NodeIsCalm(s, edges, m) && Touched(s.nm, m)
    ensures m in s.log || m in s.halted
  {
    if Active(s.nm, m) {
      var t: nat :| RunsFor(s, t, m);
      LoggedOnce(s.log, t);
    } else if IsReady(s.nm, m) {
      var t: nat :| ResultFor(s, t, m);
      LoggedOnce(s.log, t);
    }
  }

  // What the step adds to the halts and misses of a node that was never submitted.
  ghost predicate TurnsDown(s: State, ev: Event, m: int) {
    && ev.RejectNext? && ev.w in s.active && s.active[ev.w].plan != [] && s.active[ev.w].plan[0] == m
    && !Touched(s.nm, m)
  }

  ghost predicate Misses(s: State, ev: Event, m: int) {
    || (ev.Skip? && m in ev.plan)
    || (ev.Drop? && ev.w in s.active && m in s.active[ev.w].plan && !Touched(s.nm, m))
  }

  lemma NotWritten(s: State, edges: seq<Edge>, ev: Event, m: int)
    requires CanDo(s, edges, ev) && m !in s.log && !Submits(s, ev, m) && StatusIsExplained(s, m)
    ensures forall st :: !Writes(s, ev, m, st)
  {
    if ev.Mark? && ev.m == m {
      var t: nat :| LostFor(s, t, m);
      LoggedOnce(s.log, t);
    }
    if ev.End? || ev.Begin? || ev.Clock? || ev.Busy? {
      var n := s.log[ev.t];
      assert n in s.log && n != m;
    }
  }

  lemma WriteLeaves(s: State, n: int, st: Status, m: int)
    requires n in s.nm && n != m
    ensures var s' := Write(s, n, st); (m in s'.halted <==> m in s.halted) && (m in s'.missed <==> m in s.missed)
  {
  }

  // The status a step writes, if any, is another node's.
  lemma OthersAfter(s: State, edges: seq<Edge>, ev: Event, m: int)
    requires CanDo(s, edges, ev) && m !in s.log && !Submits(s, ev, m)
    requires !ev.RejectNext? && !ev.Drop? && !ev.Skip? && (ev.Mark? ==> ev.m != m)
    ensures var s' := Do(s, edges, ev); (m in s'.halted <==> m in s.halted) && (m in s'.missed <==> m in s.missed)
  {
    match ev
    case SubmitRoot(n) => WriteLeaves(s, n, Queued, m);
    case SubmitNext(w) => WriteLeaves(Advance(s, w), s.active[w].plan[0], Queued, m);
    case End(t, outcome) =>
      assert s.log[t] in s.log;
      WriteLeaves(s, s.log[t], outcome.Reported(), m);
    case Begin(_, t, _) =>
      assert s.log[t] in s.log;
      WriteLeaves(s, s.log[t], s.outcomes[t].LookedUp(), m);
    case Clock(_, t, _) =>
      assert s.log[t] in s.log;
      WriteLeaves(s, s.log[t], s.outcomes[t].LookedUp(), m);
    case Busy(t) =>
      assert s.log[t] in s.log;
      WriteLeaves(s, s.log[t], s.outcomes[t].LookedUp(), m);
    case Mark(_, n) => WriteLeaves(s, n, Stale, m);
    case _ =>
  }

  // Of a node that was never submitted, what the halts and misses do.
  lemma MarksAfter(s: State, edges: seq<Edge>, ev: Event, m: int)
    requires CanDo(s, edges, ev) && m !in s.log && !Submits(s, ev, m) && StatusIsExplained(s, m)
    ensures var s' := Do(s, edges, ev);
      && (m in s'.halted <==> m in s.halted || TurnsDown(s, ev, m))
      && (m in s'.missed <==> m in s.missed || Misses(s, ev, m))
      && (Touched(s'.nm, m) <==> Touched(s.nm, m))
  {
    NotWritten(s, edges, ev, m);
    if ev.Mark? { assert Writes(s, ev, ev.m, Stale); }
    if !ev.RejectNext? && !ev.Drop? && !ev.Skip? { OthersAfter(s, edges, ev, m); }
    Unwritten(s, edges, ev, m);
  }

  lemma TakenByStep(s: State, edges: seq<Edge>, part: set<int>, ev: Event, m: int)
    requires Calm(s, edges, part) && CalmDo(s, edges, ev) && m in part
    requires Runnable(s.nm, edges, m) && !IsRoot(edges, m)
    ensures TakenUp(Do(s, edges, ev), m) ==> TakenUp(s, m) || OffersTo(s, edges, ev, m)
    ensures !Dies(s, ev, m) && (TakenUp(s, m) || OffersTo(s, edges, ev, m)) ==> TakenUp(Do(s, edges, ev), m)
  {
    LogAfter(s, edges, ev, m);
    assert NodeIsCalm(s, edges, m);
    if Touched(s.nm, m) { TouchedIsTaken(s, edges, m); }
    if m !in s.log {
      PlanAfter(s, edges, ev, m);
      if ev.Begin? || ev.Clock? || ev.Skip? { PlanIsOffer(s, edges, ev, m); }
      if ev.SubmitNext? || ev.RejectNext? || ev.Finish? || ev.Drop? || ev.Abort? { PlanIsOnly(s, ev.w, m); }
      if !Submits(s, ev, m) { MarksAfter(s, edges, ev, m); }
    }
  }

  ghost predicate DeathStep(edges: seq<Edge>, s: State, s': State, m: int) {
    exists ev :: CalmDo(s, edges, ev) && s' == Do(s, edges, ev) && Dies(s, ev, m)
  }

  ghost predicate DeathAt(edges: seq<Edge>, run: seq<State>, j: nat, m: int)
    requires 0 < j < |run|
  {
    DeathStep(edges, run[j - 1], run[j], m)
  }

  // Across a step, m is taken up exactly if it was or is offered, save for deaths.
  ghost predicate TakenByOffer(edges: seq<Edge>, s: State, s': State, m: int) {
    && (TakenUp(s', m) ==> TakenUp(s, m) || OfferStep(edges, s, s', m))
    && (!DeathStep(edges, s, s', m) && (TakenUp(s, m) || OfferStep(edges, s, s', m)) ==> TakenUp(s', m))
  }

  lemma TakenOver(edges: seq<Edge>, part: set<int>, s: State, s': State, m: int)
    requires CalmStep(edges, s, s') && Calm(s, edges, part) && m in part
    requires Runnable(s.nm, edges, m) && !IsRoot(edges, m)
    ensures TakenByOffer(edges, s, s', m)
  {
    var ev :| CalmDo(s, edges, ev) && s' == Do(s, edges, ev);
    TakenByStep(s, edges, part, ev, m);
    if OfferStep(edges, s, s', m) {
      var ev' :| OffersTo(s, edges, ev', m) && s' == Do(s, edges, ev');
      TakenByStep(s, edges, part, ev', m);
    }
  }

  ghost predicate TakenByOffers(edges: seq<Edge>, run: seq<State>, m: int) {
    && (run != [] ==> !TakenUp(run[0], m))
    && forall i, j :: 0 <= i && j == i + 1 < |run| ==> TakenByOffer(edges, run[i], run[j], m)
  }

  lemma StartIsNotTaken(nm: NodeTable, m: int)
    ensures !TakenUp(Start(nm), m)
  {
  }

  lemma RunIsTakenByOffers(nm: NodeTable, edges: seq<Edge>, part: set<int>, run: seq<State>, m: int)
    requires IsCalmRun(nm, edges, part, run) && m in part
    requires Runnable(nm, edges, m) && !IsRoot(edges, m)
    ensures TakenByOffers(edges, run, m)
  {
    StartIsNotTaken(nm, m);
    forall i, j | 0 <= i && j == i + 1 < |run| ensures TakenByOffer(edges, run[i], run[j], m) {
      CalmRunIsCalm(nm, edges, part, run, i);
      StaysRunnable(nm, edges, part, run, i, m);
      TakenOver(edges, part, run[i], run[j], m);
    }
  }

  lemma {:induction false} TakenUpWasOffered(edges: seq<Edge>, run: seq<State>, k: nat, m: int)
    requires TakenByOffers(edges, run, m) && k < |run| && TakenUp(run[k], m)
    ensures OfferedBetween(edges, run, 0, k, m)
  {
    if k > 0 {
      assert TakenByOffer(edges, run[k - 1], run[k], m);
      if OfferAt(edges, run, k, m) {
      } else {
        TakenUpWasOffered(edges, run, k - 1, m);
      }
    }
  }

  // No wakeup that had planned m dies between the two states.
  ghost predicate NoDeath(edges: seq<Edge>, run: seq<State>, from: nat, to: nat, m: int)
    requires to < |run|
  {
    forall j :: from < j <= to ==> !DeathAt(edges, run, j, m)
  }

  lemma {:induction false} OfferedIsTakenUp(edges: seq<Edge>, run: seq<State>, k: nat, j: nat, m: int)
    requires TakenByOffers(edges, run, m) && 0 < j <= k < |run|
    requires OfferAt(edges, run, j, m) && NoDeath(edges, run, j - 1, k, m)
    ensures TakenUp(run[k], m)
  {
    assert !DeathAt(edges, run, k, m);
    assert TakenByOffer(edges, run[k - 1], run[k], m);
    if j < k { OfferedIsTakenUp(edges, run, k - 1, j, m); }
  }

  // A node with inputs is taken up, at any time of a run, only if it was offered by then; and if no wakeup
  // that had planned it died, exactly if it was.
  lemma TakenUpIffOffered(
      nm: NodeTable, edges: seq<Edge>, part: set<int>, run: seq<State>, k: nat, m: int)
    requires IsCalmRun(nm, edges, part, run) && k < |run| && m in part
    requires Runnable(nm, edges, m) && !IsRoot(edges, m)
    ensures TakenUp(run[k], m) ==> OfferedBetween(edges, run, 0, k, m)
    ensures NoDeath(edges, run, 0, k, m) ==>
      (TakenUp(run[k], m) <==> OfferedBetween(edges, run, 0, k, m))
  {
    RunIsTakenByOffers(nm, edges, part, run, m);
    if TakenUp(run[k], m) { TakenUpWasOffered(edges, run, k, m); }
    if OfferedBetween(edges, run, 0, k, m) && NoDeath(edges, run, 0, k, m) {
      var j: nat :| 0 < j <= k && OfferAt(edges, run, j, m);
      OfferedIsTakenUp(edges, run, k, j, m);
    }
  }

  lemma StaysRunnable(nm: NodeTable, edges: seq<Edge>, part: set<int>, run: seq<State>, k: nat, m: int)
    requires IsCalmRun(nm, edges, part, run) && k < |run| && Runnable(nm, edges, m)
    ensures Runnable(run[k].nm, edges, m)
  {
    RunKeepsGraph(nm, edges, part, run, k);
    assert m in nm.Keys;
  }

  // A node with inputs that could run is left behind by a run that is over, neither submitted nor turned
  // down nor dropped, if no notice or clock job of a success of an input came up with all its inputs ready;
  // and if no wakeup that had planned it died, only then.
  lemma LeftBehindIffNeverOffered(nm: NodeTable, edges: seq<Edge>, part: set<int>, run: seq<State>, m: int)
    requires IsCalmRun(nm, edges, part, run) && Over(run[|run| - 1], edges) && m in part
    requires Runnable(nm, edges, m) && !IsRoot(edges, m)
    ensures var s := run[|run| - 1];
      var left := m !in s.log && m !in s.halted && m !in s.missed;
      && (!OfferedBetween(edges, run, 0, |run| - 1, m) ==> left)
      && (NoDeath(edges, run, 0, |run| - 1, m) ==>
           (left <==> !OfferedBetween(edges, run, 0, |run| - 1, m)))
  {
    var s := run[|run| - 1];
    TakenUpIffOffered(nm, edges, part, run, |run| - 1, m);
    CalmRunIsCalm(nm, edges, part, run, |run| - 1);
    OverIsQuiet(s, edges);
    NoPlan(s, m);
  }

  // Left behind with all inputs ready: a task of one of them ended in settlement_error.
  lemma LeftBehindIsUnsettled(s: State, edges: seq<Edge>, part: set<int>, m: int)
    requires Calm(s, edges, part) && Over(s, edges) && m in part
    requires EnabledId(s.nm, edges, m) && !IsRoot(edges, m) && m !in s.halted && m !in s.missed
    ensures exists t :: Strands(s, edges, t, m)
  {
    OverIsQuiet(s, edges);
    NoPlan(s, m);
    assert NodeIsCalm(s, edges, m);
  }

  // ---------- How often a node is submitted ----------

  // A wakeup begins that offers m while its status allows a submission.
  ghost predicate OpensTo(s: State, edges: seq<Edge>, ev: Event, m: int) {
    OffersTo(s, edges, ev, m) && !ev.Skip? && !Touched(Do(s, edges, ev).nm, m)
  }

  ghost predicate OpenStep(edges: seq<Edge>, s: State, s': State, m: int) {
    exists ev :: OpensTo(s, edges, ev, m) && s' == Do(s, edges, ev)
  }

  // A wakeup gives m up: it is turned down, dropped, or the wakeup dies.
  ghost predicate GivenUp(s: State, s': State, m: int) {
    InPlan(s, m) && !InPlan(s', m) && multiset(s'.log)[m] == multiset(s.log)[m]
  }

  ghost function Openings(edges: seq<Edge>, run: seq<State>, k: nat, m: int): nat
    requires k < |run|
  {
    if k == 0 then 0
    else Openings(edges, run, k - 1, m) + if OpenStep(edges, run[k - 1], run[k], m) then 1 else 0
  }

  ghost function GiveUps(run: seq<State>, k: nat, m: int): nat
    requires k < |run|
  {
    if k == 0 then 0 else GiveUps(run, k - 1, m) + if GivenUp(run[k - 1], run[k], m) then 1 else 0
  }

  lemma PlansAreOpenings(s: State, edges: seq<Edge>, ev: Event, m: int)
    requires Sound(s, edges) && OnePlan(s) && CalmDo(s, edges, ev)
    requires Runnable(s.nm, edges, m) && !IsRoot(edges, m)
    ensures var s' := Do(s, edges, ev);
      && (OpensTo(s, edges, ev, m) <==> !InPlan(s, m) && InPlan(s', m))
      && multiset(s'.log)[m] == multiset(s.log)[m] +
         (if InPlan(s, m) && !InPlan(s', m) && !GivenUp(s, s', m) then 1 else 0)
  {
    LogAfter(s, edges, ev, m);
    PlanAfter(s, edges, ev, m);
    if ev.Begin? || ev.Clock? {
      PlanIsOffer(s, edges, ev, m);
      NoPlan(s, m);
    } else if ev.SubmitNext? {
      PlanIsOnly(s, ev.w, m);
    }
  }

  lemma BalanceAt(edges: seq<Edge>, run: seq<State>, k: nat, m: int)
    requires 0 < k < |run| && CalmSteps(edges, run) && Sound(run[k - 1], edges) && OnePlan(run[k - 1])
    requires Runnable(run[k - 1].nm, edges, m) && !IsRoot(edges, m)
    ensures OpenStep(edges, run[k - 1], run[k], m) <==> !InPlan(run[k - 1], m) && InPlan(run[k], m)
    ensures multiset(run[k].log)[m] == multiset(run[k - 1].log)[m] +
      (if InPlan(run[k - 1], m) && !InPlan(run[k], m) && !GivenUp(run[k - 1], run[k], m) then 1 else 0)
  {
    var s := run[k - 1];
    var ev := EventOf(edges, run, k);
    PlansAreOpenings(s, edges, ev, m);
    if OpenStep(edges, s, run[k], m) {
      var ev' :| OpensTo(s, edges, ev', m) && run[k] == Do(s, edges, ev');
      PlansAreOpenings(s, edges, ev', m);
    }
  }

  // A node with inputs is submitted exactly as often as a wakeup of a success of an input begins while all
  // its inputs are ready and its own status allows it, not counting those that gave it up, and the one that
  // has yet to submit it.
  lemma {:induction false} SubmissionsAreOpenings(
      nm: NodeTable, edges: seq<Edge>, part: set<int>, run: seq<State>, k: nat, m: int)
    requires IsCalmRun(nm, edges, part, run) && k < |run| && Runnable(nm, edges, m) && !IsRoot(edges, m)
    ensures multiset(run[k].log)[m] + GiveUps(run, k, m) + (if InPlan(run[k], m) then 1 else 0) ==
      Openings(edges, run, k, m)
  {
    if k == 0 {
      NoPlan(run[0], m);
    } else {
      SubmissionsAreOpenings(nm, edges, part, run, k - 1, m);
      CalmRunIsCalm(nm, edges, part, run, k - 1);
      StaysRunnable(nm, edges, part, run, k - 1, m);
      BalanceAt(edges, run, k, m);
    }
  }

  lemma {:induction false} OpeningsBetween(edges: seq<Edge>, run: seq<State>, from: nat, k: nat, m: int)
    requires from <= k < |run|
    ensures Openings(edges, run, from, m) <= Openings(edges, run, k, m)
    ensures Openings(edges, run, from, m) < Openings(edges, run, k, m) <==>
      exists j :: from < j <= k && OpenAt(edges, run, j, m)
  {
    if k > from {
      OpeningsBetween(edges, run, from, k - 1, m);
      if OpenStep(edges, run[k - 1], run[k], m) { assert OpenAt(edges, run, k, m); }
    }
  }

  ghost predicate OpenAt(edges: seq<Edge>, run: seq<State>, j: nat, m: int)
    requires 0 < j < |run|
  {
    OpenStep(edges, run[j - 1], run[j], m)
  }

  lemma {:induction false} GiveUpsBetween(run: seq<State>, from: nat, k: nat, m: int)
    requires from <= k < |run|
    requires forall i, j :: from <= i && j == i + 1 <= k ==> !GivenUp(run[i], run[j], m)
    ensures GiveUps(run, from, m) == GiveUps(run, k, m)
  {
    if k > from { GiveUpsBetween(run, from, k - 1, m); }
  }

  // Between two states in which no wakeup holds it, and if none gives it up, a node with inputs is submitted
  // again if and only if a wakeup of a success of an input begins while all its inputs are ready and its own
  // status allows it.
  lemma ResubmittedIffOffered(
      nm: NodeTable, edges: seq<Edge>, part: set<int>, run: seq<State>, from: nat, k: nat, m: int)
    requires IsCalmRun(nm, edges, part, run) && from <= k < |run| && Runnable(nm, edges, m) && !IsRoot(edges, m)
    requires !InPlan(run[from], m) && !InPlan(run[k], m)
    requires forall i, j :: from <= i && j == i + 1 <= k ==> !GivenUp(run[i], run[j], m)
    ensures multiset(run[k].log)[m] > multiset(run[from].log)[m] <==>
      exists j :: from < j <= k && OpenAt(edges, run, j, m)
  {
    SubmissionsAreOpenings(nm, edges, part, run, from, m);
    SubmissionsAreOpenings(nm, edges, part, run, k, m);
    GiveUpsBetween(run, from, k, m);
    OpeningsBetween(edges, run, from, k, m);
  }

  // A submitted node of the part is open again only after a task of it ended without a result.
  lemma OpenAgainWasLost(s: State, edges: seq<Edge>, part: set<int>, m: int)
    requires Calm(s, edges, part) && m in part && m in s.log && !Touched(s.nm, m)
    ensures exists t :: LostFor(s, t, m)
  {
    assert NodeIsCalm(s, edges, m);
    assert m in multiset(s.log);
    assert m in multiset(s.freed);
  }
}
