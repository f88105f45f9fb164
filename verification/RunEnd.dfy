// Where calm runs end: which nodes are ready when nothing more happens.

module RunEnd {
  import opened Collections
  import opened Graph
  import opened Canvas
  import opened Scheduler
  import opened SchedulerRun
  import opened CalmRun

  // Nothing more happens unless the user submits a root.
  ghost predicate Over(s: State, edges: seq<Edge>) {
    forall ev :: CalmDo(s, edges, ev) ==> ev.SubmitRoot?
  }

  // No task of the part ended in settlement_error.
  ghost predicate AllSettled(s: State, part: set<int>) {
    forall t :: 0 <= t < |s.log| && t < |s.outcomes| && s.log[t] in part ==> !s.outcomes[t].Unsettled?
  }

  ghost predicate EndedWell(s: State, edges: seq<Edge>, part: set<int>) {
    && Over(s, edges) && AllSettled(s, part)
    && forall n :: n in part ==> n !in s.halted && n !in s.missed
  }

  // Everything n rests on can run, closes no cycle, and has not gone wrong; the roots among it were
  // submitted.
  ghost predicate Viable(s: State, edges: seq<Edge>, n: int) {
    var arcs := SourceArcs(edges);
    && Grounded(arcs, n)
    && forall b :: AncestorOrSelf(arcs, b, n) ==> WentWell(s, edges, b)
  }

  predicate WentWell(s: State, edges: seq<Edge>, b: int) {
    && Runnable(s.nm, edges, b) && b !in s.halted && b !in s.missed
    && (IsRoot(edges, b) ==> b in s.log)
  }

  lemma NextWakeupEvent(s: State, edges: seq<Edge>) returns (ev: Event)
    requires Sound(s, edges) && (s.active != map[] || s.due != {})
    ensures CalmDo(s, edges, ev) && !ev.SubmitRoot?
  {
    if s.active != map[] {
      assert s.active.Keys != {};
      HasMember(s.active.Keys);
      var w :| w in s.active.Keys;
      assert WakeupIsSound(s, edges, s.active[w]);
      ev := Drop(w);
    } else {
      var t :| t in s.due;
      TaskIsKnown(s, t);
      ghost var looked := Look(s, t);
      var plan := Listing(set m |
        m in s.nm && s.outcomes[t].Done? && EnabledId(looked.nm, edges, m) && Feeds(edges, s.log[t], m));
      ev := Begin(0, t, plan);
    }
  }

  lemma TaskIsKnown(s: State, t: nat)
    requires TasksAreSound(s) && t < |s.log|
    ensures Known(s, t)
  {
    var n := s.log[t];
    assert n in s.log && n in s.nm;
  }

  lemma OverIsQuiet(s: State, edges: seq<Edge>)
    requires Sound(s, edges) && Over(s, edges)
    ensures s.due == {} && s.clocks == multiset{} && s.active == map[]
    ensures forall t :: 0 <= t < |s.outcomes| ==> !s.outcomes[t].InFlight?
  {
    forall t | 0 <= t < |s.outcomes| ensures !s.outcomes[t].InFlight? {
      TaskIsKnown(s, t);
      assert s.outcomes[t].InFlight? ==> CalmDo(s, edges, End(t, Done));
    }
    forall t ensures t !in s.clocks {
      assert !CalmDo(s, edges, Lapse(t));
    }
    if s.active != map[] || s.due != {} {
      var ev := NextWakeupEvent(s, edges);
      assert false;
    }
  }

  lemma QuietNodeIsInactive(s: State, edges: seq<Edge>, n: int)
    requires Sound(s, edges) && Over(s, edges) && StatusIsExplained(s, n)
    ensures !Active(s.nm, n)
  {
    OverIsQuiet(s, edges);
  }

  lemma NotStranded(s: State, edges: seq<Edge>, part: set<int>, n: int)
    requires ClosedUnderInputs(edges, part) && AllSettled(s, part) && n in part
    ensures forall t :: !Strands(s, edges, t, n)
  {
    forall t: nat | FedBy(s, edges, t, n) ensures !s.outcomes[t].Unsettled? {
      var c := s.log[t];
      assert c in InputSources(edges, n) && c in part;
    }
  }

  // A node that could run and is not ready lacks an input.
  lemma QuietNodeIsBlocked(s: State, edges: seq<Edge>, part: set<int>, n: int)
    requires Calm(s, edges, part) && Over(s, edges) && AllSettled(s, part) && n in part
    requires WentWell(s, edges, n) && !IsReady(s.nm, n)
    ensures exists c :: c in InputSources(edges, n) && !IsReady(s.nm, c)
  {
    OverIsQuiet(s, edges);
    QuietNodeIsInactive(s, edges, n);
    assert NodeIsCalm(s, edges, n) && !Touched(s.nm, n) && n !in s.log;
    NotStranded(s, edges, part, n);
  }

  lemma InputIsViable(s: State, edges: seq<Edge>, c: int, m: int)
    requires Viable(s, edges, m) && (c, m) in SourceArcs(edges)
    ensures Viable(s, edges, c)
  {
    var arcs := SourceArcs(edges);
    ReachArc(arcs, c, m);
    forall b | AncestorOrSelf(arcs, b, c) ensures AncestorOrSelf(arcs, b, m) {
      if b != c { ReachTrans(arcs, b, c, m); }
    }
    assert AncestorOrSelf(arcs, c, c);
  }

  lemma ViableIsReady(s: State, edges: seq<Edge>, part: set<int>, n: int)
    requires Calm(s, edges, part) && Over(s, edges) && AllSettled(s, part) && n in part
    requires Viable(s, edges, n)
    ensures IsReady(s.nm, n)
  {
    if !IsReady(s.nm, n) {
      var arcs := SourceArcs(edges);
      var stuck := set m | m in part && Viable(s, edges, m) && !IsReady(s.nm, m);
      forall m | m in stuck ensures FedFrom(arcs, stuck, m) {
        assert AncestorOrSelf(arcs, m, m);
        QuietNodeIsBlocked(s, edges, part, m);
        var c :| c in InputSources(edges, m) && !IsReady(s.nm, c);
        InputSourcesAreArcs(edges, m);
        InputIsViable(s, edges, c, m);
        assert c in stuck;
      }
      assert AncestorOrSelf(arcs, n, n);
      var c := CycleAmongAncestors(arcs, stuck, n);
      assert false;
    }
  }

  // Nodes of the part have their ancestors in it, and reach each other within it.
  lemma {:induction false} ReachInPart(edges: seq<Edge>, part: set<int>, a: int, b: int, len: nat)
    requires ClosedUnderInputs(edges, part) && b in part && ReachIn(SourceArcs(edges), a, b, len)
    ensures a in part && ReachIn(ArcsInto(edges, part), a, b, len)
    decreases len
  {
    if len == 0 {
      InputSourcesAreArcs(edges, b);
    } else {
      var k :| (a, k) in SourceArcs(edges) && ReachIn(SourceArcs(edges), k, b, len - 1);
      ReachInPart(edges, part, k, b, len - 1);
      InputSourcesAreArcs(edges, k);
    }
  }

  lemma AncestorInPart(edges: seq<Edge>, part: set<int>, a: int, b: int)
    requires ClosedUnderInputs(edges, part) && b in part && AncestorOrSelf(SourceArcs(edges), a, b)
    ensures a in part && AncestorOrSelf(ArcsInto(edges, part), a, b)
  {
    if a != b {
      var len: nat :| ReachIn(SourceArcs(edges), a, b, len);
      ReachInPart(edges, part, a, b, len);
    }
  }

  lemma GroundedInPart(edges: seq<Edge>, part: set<int>, n: int)
    requires ClosedUnderInputs(edges, part) && n in part && Grounded(ArcsInto(edges, part), n)
    ensures Grounded(SourceArcs(edges), n)
  {
    var arcs := SourceArcs(edges);
    forall b | AncestorOrSelf(arcs, b, n) ensures !OnCycle(arcs, b) {
      AncestorInPart(edges, part, b, n);
      if OnCycle(arcs, b) {
        var len: nat :| ReachIn(arcs, b, b, len);
        ReachInPart(edges, part, b, b, len);
        assert OnCycle(ArcsInto(edges, part), b);
      }
    }
  }

  // What was submitted rests on no cycle, and all it rests on was submitted.
  lemma SubmittedIsGrounded(s: State, edges: seq<Edge>, part: set<int>, n: int)
    requires Calm(s, edges, part) && n in part && n in s.log
    ensures Grounded(SourceArcs(edges), n)
    ensures forall b :: AncestorOrSelf(SourceArcs(edges), b, n) ==> b in part && b in s.log
  {
    SourcesFirstIsGrounded(ArcsInto(edges, part), s.log, n);
    GroundedInPart(edges, part, n);
    forall b | AncestorOrSelf(SourceArcs(edges), b, n) ensures b in part && b in s.log {
      AncestorInPart(edges, part, b, n);
    }
  }

  lemma ReadyWentWell(s: State, edges: seq<Edge>, n: int)
    requires NodeIsCalm(s, edges, n) && IsReady(s.nm, n)
    ensures WentWell(s, edges, n) && n in s.log
  {
    var t: nat :| ResultFor(s, t, n);
    LoggedOnce(s.log, t);
  }

  // A proper ancestor of a submitted node fed one that was submitted, so it is ready or was undone.
  lemma AncestorWasReady(s: State, edges: seq<Edge>, part: set<int>, b: int, n: int)
    requires Calm(s, edges, part) && n in part && n in s.log && Reach(SourceArcs(edges), b, n)
    ensures IsReady(s.nm, b) || b in s.undone
  {
    var arcs := SourceArcs(edges);
    var len: nat :| ReachIn(arcs, b, n, len);
    var k := if len == 0 then n else (var k :| (b, k) in arcs && ReachIn(arcs, k, n, len - 1); k);
    assert AncestorOrSelf(arcs, k, n) by {
      if len > 0 { assert Reach(arcs, k, n); }
    }
    SubmittedIsGrounded(s, edges, part, n);
    assert k in s.log && NodeIsCalm(s, edges, k);
    InputSourcesAreArcs(edges, k);
  }

  // Once nothing more can happen, a node and all its ancestors are ready if and only if they are viable: on
  // any graph, cyclic or with missing ends or starved compose nodes, and whatever failed, was turned down,
  // dropped, cancelled or written back on the way. If none of the ancestors was written back after it was
  // ready, the node alone tells.
  lemma ReadyIffViable(s: State, edges: seq<Edge>, part: set<int>, n: int)
    requires Calm(s, edges, part) && Over(s, edges) && AllSettled(s, part) && n in part
    ensures Viable(s, edges, n) <==> forall b :: AncestorOrSelf(SourceArcs(edges), b, n) ==> IsReady(s.nm, b)
    ensures (forall b :: Reach(SourceArcs(edges), b, n) ==> b !in s.undone) ==>
      (Viable(s, edges, n) <==> IsReady(s.nm, n))
  {
    var arcs := SourceArcs(edges);
    assert AncestorOrSelf(arcs, n, n);
    if Viable(s, edges, n) {
      forall b | AncestorOrSelf(arcs, b, n) ensures IsReady(s.nm, b) {
        AncestorIsViable(s, edges, b, n);
        AncestorInPart(edges, part, b, n);
        ViableIsReady(s, edges, part, b);
      }
    }
    if forall b :: AncestorOrSelf(arcs, b, n) ==> IsReady(s.nm, b) { AllReadyIsViable(s, edges, part, n); }
    if IsReady(s.nm, n) && forall b :: Reach(arcs, b, n) ==> b !in s.undone {
      ReadyWentWell(s, edges, n);
      forall b | AncestorOrSelf(arcs, b, n) ensures IsReady(s.nm, b) {
        if b != n { AncestorWasReady(s, edges, part, b, n); }
      }
    }
  }

  lemma AncestorIsViable(s: State, edges: seq<Edge>, b: int, n: int)
    requires Viable(s, edges, n) && AncestorOrSelf(SourceArcs(edges), b, n)
    ensures Viable(s, edges, b)
  {
    var arcs := SourceArcs(edges);
    forall a | AncestorOrSelf(arcs, a, b) ensures AncestorOrSelf(arcs, a, n) {
      if a != b && b != n { ReachTrans(arcs, a, b, n); }
    }
  }

  lemma AllReadyIsViable(s: State, edges: seq<Edge>, part: set<int>, n: int)
    requires Calm(s, edges, part) && n in part
    requires forall b :: AncestorOrSelf(SourceArcs(edges), b, n) ==> IsReady(s.nm, b)
    ensures Viable(s, edges, n)
  {
    var arcs := SourceArcs(edges);
    assert AncestorOrSelf(arcs, n, n);
    ReadyWentWell(s, edges, n);
    SubmittedIsGrounded(s, edges, part, n);
    forall b | AncestorOrSelf(arcs, b, n) ensures WentWell(s, edges, b) {
      ReadyWentWell(s, edges, b);
    }
  }

  // On an acyclic part of runnable nodes with no missing ends, a run in which the roots were submitted and
  // that ends well ends with every node ready; each was submitted, and only once unless a task of it ended
  // without a result.
  lemma AllReadyInTheEnd(nm: NodeTable, edges: seq<Edge>, part: set<int>, run: seq<State>)
    requires IsCalmRun(nm, edges, part, run) && EndedWell(run[|run| - 1], edges, part)
    requires forall n :: n in part ==> Runnable(nm, edges, n) && !OnCycle(SourceArcs(edges), n)
    requires forall n :: n in part && IsRoot(edges, n) ==> n in run[|run| - 1].log
    ensures var s := run[|run| - 1];
      forall n :: n in part ==>
        IsReady(s.nm, n) && n in s.log && (multiset(s.log)[n] == 1 || exists t :: LostFor(s, t, n))
  {
    var arcs, s := SourceArcs(edges), run[|run| - 1];
    CalmRunIsCalm(nm, edges, part, run, |run| - 1);
    RunKeepsGraph(nm, edges, part, run, |run| - 1);
    forall n | n in part
      ensures IsReady(s.nm, n) && n in s.log && (multiset(s.log)[n] == 1 || exists t :: LostFor(s, t, n))
    {
      forall b | AncestorOrSelf(arcs, b, n) ensures WentWell(s, edges, b) && !OnCycle(arcs, b) {
        AncestorInPart(edges, part, b, n);
        assert Runnable(nm, edges, b) && b in nm.Keys;
      }
      ViableIsReady(s, edges, part, n);
      ReadyWentWell(s, edges, n);
      SubmittedOnceInOrder(nm, edges, part, run, |run| - 1, n);
      assert n in multiset(s.log);
    }
  }
}
