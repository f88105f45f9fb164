// Runs of a short drama: what is ready in the end, and what is charged.

module DramaEnd {
  import opened Collections
  import opened Graph
  import opened Canvas
  import opened ShortDrama
  import opened Scheduler
  import opened SchedulerRun
  import opened CalmRun
  import opened RunEnd
  import opened DramaRun
  import PlanCompilers

  // A canvas that holds the drama among other nodes, none of which feeds it.
  ghost predicate StagedOn(n: nat, withCharacter: bool, b: Built, ids: seq<int>, nm: NodeTable, edges: seq<Edge>) {
    && Staged(n, withCharacter, b, ids)
    && (forall e :: e in b.edges ==> e.source < |ids| && e.target < |ids|)
    && (forall i :: i in nm ==> i != 0 && nm[i].id == i)
    && (forall x :: x in ids ==> x in nm && nm[x] == Table(b, ids)[x])
    && (forall x :: x in ids ==> InputSources(edges, x) == InputSources(Wires(b.edges, ids), x))
  }

  // So do any other nodes, in any status, and any edges between them or out of the drama.
  lemma OthersLeaveIt(n: nat, withCharacter: bool, b: Built, ids: seq<int>, others: NodeTable,
                      before: seq<Edge>, after: seq<Edge>)
    requires Staged(n, withCharacter, b, ids)
    requires forall e :: e in b.edges ==> e.source < |ids| && e.target < |ids|
    requires forall i :: i in others ==> i != 0 && others[i].id == i
    requires forall e :: e in before + after ==> e.dep.Input? ==> e.target !in ids
    ensures StagedOn(n, withCharacter, b, ids, others + Table(b, ids), before + Wires(b.edges, ids) + after)
  {
    var wires := Wires(b.edges, ids);
    forall x | x in ids ensures InputSources(before + wires + after, x) == InputSources(wires, x) {
      SourcesConcat(before, wires, x);
      SourcesConcat(before + wires, after, x);
      NotFed(before, x);
      NotFed(after, x);
    }
    forall x | x in ids ensures x in Table(b, ids) && Table(b, ids)[x].id == x {
      TableAt(n, withCharacter, b, ids, x);
    }
  }

  lemma {:induction false} NotFed(edges: seq<Edge>, x: int)
    requires forall e :: e in edges ==> e.dep.Input? ==> e.target != x
    ensures InputSources(edges, x) == []
  {
    if edges != [] {
      var front, last := edges[..|edges| - 1], edges[|edges| - 1];
      assert edges == front + [last] && last in edges;
      NotFed(front, x);
    }
  }

  // What feeds the node at index k.
  lemma FedOn(n: nat, withCharacter: bool, b: Built, ids: seq<int>, nm: NodeTable, edges: seq<Edge>, k: nat)
    requires StagedOn(n, withCharacter, b, ids, nm, edges) && k < |ids|
    ensures forall c :: c in InputSources(edges, ids[k]) <==>
      c in ids && Arrow(n, withCharacter, Ref(IndexOf(ids, c), k))
  {
    DramaRun.FedBy(n, withCharacter, b, ids, k);
    assert ids[k] in ids;
  }

  lemma RootOn(n: nat, withCharacter: bool, b: Built, ids: seq<int>, nm: NodeTable, edges: seq<Edge>, k: nat)
    requires StagedOn(n, withCharacter, b, ids, nm, edges) && k < |ids|
    ensures IsRoot(edges, ids[k]) <==> k == 0
  {
    ScriptIsTheRoot(n, withCharacter, b, ids, k);
    assert ids[k] in ids;
  }

  lemma DramaIsClosed(n: nat, withCharacter: bool, b: Built, ids: seq<int>, nm: NodeTable, edges: seq<Edge>)
    requires StagedOn(n, withCharacter, b, ids, nm, edges)
    ensures ClosedUnderInputs(edges, Elems(ids))
  {
    forall c, m | m in Elems(ids) && c in InputSources(edges, m) ensures c in Elems(ids) {
      FedOn(n, withCharacter, b, ids, nm, edges, IndexOf(ids, m));
    }
  }

  lemma GroundedOn(n: nat, withCharacter: bool, b: Built, ids: seq<int>, nm: NodeTable, edges: seq<Edge>, k: nat)
    requires StagedOn(n, withCharacter, b, ids, nm, edges) && k < |ids|
    ensures Grounded(SourceArcs(edges), ids[k])
  {
    var rank := (x: int) => if x in ids then IndexOf(ids, x) else 0;
    var arcs := ArcsInto(edges, Elems(ids));
    forall x, y | (x, y) in arcs ensures rank(x) < rank(y) {
      ClimbsOn(n, withCharacter, b, ids, nm, edges, x, y);
    }
    RankedIsAcyclic(arcs, rank);
    DramaIsClosed(n, withCharacter, b, ids, nm, edges);
    GroundedInPart(edges, Elems(ids), ids[k]);
  }

  lemma ClimbsOn(n: nat, withCharacter: bool, b: Built, ids: seq<int>, nm: NodeTable, edges: seq<Edge>, x: int, y: int)
    requires StagedOn(n, withCharacter, b, ids, nm, edges) && (x, y) in SourceArcs(edges) && y in ids
    ensures x in ids && IndexOf(ids, x) < IndexOf(ids, y)
  {
    InputSourcesAreArcs(edges, y);
    FedOn(n, withCharacter, b, ids, nm, edges, IndexOf(ids, y));
    ArrowsInRange(n, withCharacter, Ref(IndexOf(ids, x), IndexOf(ids, y)));
  }

  lemma AncestorsAreEarlier(n: nat, withCharacter: bool, b: Built, ids: seq<int>, nm: NodeTable, edges: seq<Edge>,
                            a: int, k: nat)
    requires StagedOn(n, withCharacter, b, ids, nm, edges) && k < |ids|
    requires AncestorOrSelf(SourceArcs(edges), a, ids[k])
    ensures a in ids && IndexOf(ids, a) <= k
  {
    var arcs := SourceArcs(edges);
    var early := set i | 0 <= i <= k :: ids[i];
    forall x, y | (x, y) in arcs && y in early ensures x in early {
      var j :| 0 <= j <= k && ids[j] == y;
      IndexIsFirst(ids, y, j);
      ClimbsOn(n, withCharacter, b, ids, nm, edges, x, y);
      assert ids[IndexOf(ids, x)] == x;
    }
    assert ids[k] in early;
    BackwardClosed(arcs, early, a, ids[k]);
    var i :| 0 <= i <= k && ids[i] == a;
    IndexIsFirst(ids, a, i);
  }

  // How many of the nodes run: all of them, or all but a compose node with a single clip.
  function Running(n: nat, withCharacter: bool): nat {
    if n >= 2 then ComposeIndex(n, withCharacter) + 1 else ComposeIndex(n, withCharacter)
  }

  lemma RunsOn(n: nat, withCharacter: bool, b: Built, ids: seq<int>, nm: NodeTable, edges: seq<Edge>, k: nat)
    requires StagedOn(n, withCharacter, b, ids, nm, edges) && k < |ids|
    ensures Runnable(nm, edges, ids[k]) <==> k < Running(n, withCharacter)
  {
    DramaIsRunnable(n, withCharacter, b, ids, k);
    assert ids[k] in ids;
  }

  // ---------- What the run charges ----------

  // The points plan_submit_for_node asks for a node still to be submitted.
  function Charge(nm: NodeTable, videoPrice: nat, i: int): nat {
    if i !in nm then 0
    else match PlanSubmit(nm[i].(status := Idle), videoPrice)
      case Some(submission) => submission.cost
      case None => 0
  }

  function ChargeIn(nm: NodeTable, videoPrice: nat): int -> int {
    i => Charge(nm, videoPrice, i)
  }

  // The total over a log of submissions.
  ghost function Charged(nm: NodeTable, videoPrice: nat, log: seq<int>): int {
    if log == [] then 0
    else Charged(nm, videoPrice, log[..|log| - 1]) + Charge(nm, videoPrice, log[|log| - 1])
  }

  lemma {:induction false} ChargedIsSum(nm: NodeTable, videoPrice: nat, log: seq<int>)
    requires Distinct(log)
    ensures Charged(nm, videoPrice, log) == Sum(Elems(log), ChargeIn(nm, videoPrice))
  {
    if log != [] {
      var front, last := log[..|log| - 1], log[|log| - 1];
      assert log == front + [last] && last !in front;
      assert Distinct(front) by { assert forall i :: 0 <= i < |front| ==> front[i] == log[i]; }
      ChargedIsSum(nm, videoPrice, front);
      assert Elems(log) == Elems(front) + {last} && last !in Elems(front);
      SumAdd(Elems(front), ChargeIn(nm, videoPrice), last);
    }
  }

  function SpecCharge(kind: Spec, videoPrice: nat): nat {
    if kind.ntype.Video? then videoPrice else DefaultCost(kind.ntype)
  }

  // The charge for the first m nodes.
  ghost function PrefixCharge(n: nat, withCharacter: bool, videoPrice: nat, m: nat): int {
    if m == 0 then 0
    else PrefixCharge(n, withCharacter, videoPrice, m - 1) + SpecCharge(KindAt(n, withCharacter, m - 1), videoPrice)
  }

  lemma {:induction false} PrefixChargeIs(n: nat, withCharacter: bool, videoPrice: nat, m: nat)
    requires m <= ComposeIndex(n, withCharacter)
    ensures PrefixCharge(n, withCharacter, videoPrice, m) ==
      if m <= FirstClip(n, withCharacter) then 8 * m
      else 8 * FirstClip(n, withCharacter) + videoPrice * (m - FirstClip(n, withCharacter))
  {
    if m > 0 {
      PrefixChargeIs(n, withCharacter, videoPrice, m - 1);
      if m > FirstClip(n, withCharacter) {
        var done := m - 1 - FirstClip(n, withCharacter);
        assert videoPrice * (done + 1) == videoPrice * done + videoPrice;
      }
    }
  }

  lemma ChargeAt(n: nat, withCharacter: bool, b: Built, ids: seq<int>, videoPrice: nat, k: nat)
    requires Staged(n, withCharacter, b, ids) && k < |ids|
    ensures Charge(Table(b, ids), videoPrice, ids[k]) == SpecCharge(KindAt(n, withCharacter, k), videoPrice)
  {
    assert ids[k] in ids && IndexOf(ids, ids[k]) == k;
    TableAt(n, withCharacter, b, ids, ids[k]);
  }

  lemma {:induction false} SumOfPrefix(n: nat, withCharacter: bool, videoPrice: nat, ids: seq<int>, f: int -> int,
      m: nat)
    requires Distinct(ids) && m <= |ids|
    requires forall k :: 0 <= k < |ids| ==> f(ids[k]) == SpecCharge(KindAt(n, withCharacter, k), videoPrice)
    ensures Sum(Elems(ids[..m]), f) == PrefixCharge(n, withCharacter, videoPrice, m)
  {
    if m == 0 {
      assert Elems(ids[..0]) == {};
    } else {
      SumOfPrefix(n, withCharacter, videoPrice, ids, f, m - 1);
      var x := ids[m - 1];
      assert ids[..m] == ids[..m - 1] + [x] && x !in ids[..m - 1];
      assert Elems(ids[..m]) == Elems(ids[..m - 1]) + {x} && x !in Elems(ids[..m - 1]);
      SumAdd(Elems(ids[..m - 1]), f, x);
      assert f(x) == SpecCharge(KindAt(n, withCharacter, m - 1), videoPrice);
    }
  }

  // They are charged the script plus the announced cost of the chain, less the compose node if that
  // cannot run.
  lemma RunningCharge(n: nat, withCharacter: bool, videoPrice: nat)
    requires n >= 1
    ensures PrefixCharge(n, withCharacter, videoPrice, Running(n, withCharacter)) ==
      8 + ChainCost(n, withCharacter, videoPrice) - if n >= 2 then 0 else 15
  {
    PrefixChargeIs(n, withCharacter, videoPrice, ComposeIndex(n, withCharacter));
  }

  lemma {:induction false} ChargedConcat(nm: NodeTable, videoPrice: nat, a: seq<int>, b: seq<int>)
    ensures Charged(nm, videoPrice, a + b) == Charged(nm, videoPrice, a) + Charged(nm, videoPrice, b)
  {
    if b == [] {
      assert a + b == a;
    } else {
      ChargedConcat(nm, videoPrice, a, b[..|b| - 1]);
      assert (a + b)[..|a + b| - 1] == a + b[..|b| - 1];
    }
  }

  lemma SameWithout(a: seq<int>, b: seq<int>, i: nat)
    requires a != [] && i < |b| && b[i] == a[|a| - 1] && multiset(a) == multiset(b)
    ensures multiset(a[..|a| - 1]) == multiset(b[..i] + b[i + 1..])
  {
    var front, before, after := a[..|a| - 1], b[..i], b[i + 1..];
    assert a == front + [b[i]] && b == before + [b[i]] + after;
    assert multiset(a) == multiset(front) + multiset{b[i]};
    assert multiset(b) == multiset(before) + multiset{b[i]} + multiset(after);
    forall x ensures multiset(front)[x] == multiset(before + after)[x] {
      assert multiset(a)[x] == multiset(b)[x];
    }
  }

  lemma {:induction false} ChargedReordered(nm: NodeTable, videoPrice: nat, a: seq<int>, b: seq<int>)
    requires multiset(a) == multiset(b)
    ensures Charged(nm, videoPrice, a) == Charged(nm, videoPrice, b)
  {
    if a == [] {
      assert |multiset(b)| == 0;
    } else {
      var last := a[|a| - 1];
      assert last in multiset(b);
      var i :| 0 <= i < |b| && b[i] == last;
      var before, after := b[..i], b[i + 1..];
      SameWithout(a, b, i);
      ChargedReordered(nm, videoPrice, a[..|a| - 1], before + after);
      ChargedConcat(nm, videoPrice, before, after);
      assert b == before + ([last] + after);
      ChargedConcat(nm, videoPrice, before, [last] + after);
      ChargedConcat(nm, videoPrice, [last], after);
      assert [last][..0] == [];
    }
  }

  // ---------- Where the run ends ----------

  // A calm run in which the script was submitted, and that ended with nothing of the drama halted, missed or
  // unsettled.
  ghost predicate EndsWell(n: nat, withCharacter: bool, b: Built, ids: seq<int>, nm: NodeTable, edges: seq<Edge>,
                           run: seq<State>) {
    && StagedOn(n, withCharacter, b, ids, nm, edges) && IsCalmRun(nm, edges, Elems(ids), run)
    && EndedWell(run[|run| - 1], edges, Elems(ids)) && ids[0] in run[|run| - 1].log
  }

  lemma RunsAtEnd(n: nat, withCharacter: bool, b: Built, ids: seq<int>, nm: NodeTable, edges: seq<Edge>,
                  run: seq<State>, k: nat)
    requires EndsWell(n, withCharacter, b, ids, nm, edges, run) && k < |ids|
    ensures Runnable(run[|run| - 1].nm, edges, ids[k]) <==> k < Running(n, withCharacter)
  {
    RunsOn(n, withCharacter, b, ids, nm, edges, k);
    RunKeepsGraph(nm, edges, Elems(ids), run, |run| - 1);
    assert ids[k] in nm.Keys;
  }

  lemma RunningIsViable(n: nat, withCharacter: bool, b: Built, ids: seq<int>, nm: NodeTable, edges: seq<Edge>,
                        run: seq<State>, k: nat)
    requires EndsWell(n, withCharacter, b, ids, nm, edges, run) && k < |ids| && k < Running(n, withCharacter)
    ensures Viable(run[|run| - 1], edges, ids[k])
  {
    GroundedOn(n, withCharacter, b, ids, nm, edges, k);
    forall a | AncestorOrSelf(SourceArcs(edges), a, ids[k]) ensures WentWell(run[|run| - 1], edges, a) {
      AncestorsAreEarlier(n, withCharacter, b, ids, nm, edges, a, k);
      var i := IndexOf(ids, a);
      RunsAtEnd(n, withCharacter, b, ids, nm, edges, run, i);
      RootOn(n, withCharacter, b, ids, nm, edges, i);
    }
  }

  // Ready, submitted and running are the same.
  lemma ReadyWhenRunning(n: nat, withCharacter: bool, b: Built, ids: seq<int>, nm: NodeTable, edges: seq<Edge>,
                         run: seq<State>, k: nat)
    requires EndsWell(n, withCharacter, b, ids, nm, edges, run) && k < |ids|
    ensures var s := run[|run| - 1];
      && (IsReady(s.nm, ids[k]) <==> k < Running(n, withCharacter))
      && (ids[k] in s.log <==> k < Running(n, withCharacter))
  {
    var s, part := run[|run| - 1], Elems(ids);
    CalmRunIsCalm(nm, edges, part, run, |run| - 1);
    RunsAtEnd(n, withCharacter, b, ids, nm, edges, run, k);
    assert ids[k] in part && NodeIsCalm(s, edges, ids[k]);
    if k < Running(n, withCharacter) {
      RunningIsViable(n, withCharacter, b, ids, nm, edges, run, k);
      ViableIsReady(s, edges, part, ids[k]);
    }
    if IsReady(s.nm, ids[k]) { ReadyWentWell(s, edges, ids[k]); }
  }

  // Of the drama, the script is submitted first.
  ghost predicate BeginsWith(log: seq<int>, ids: seq<int>)
    requires ids != []
  {
    exists i :: 0 <= i < |log| && log[i] == ids[0] && forall j :: 0 <= j < i ==> log[j] !in ids
  }

  lemma ScriptIsFirst(n: nat, withCharacter: bool, b: Built, ids: seq<int>, nm: NodeTable, edges: seq<Edge>,
                      run: seq<State>)
    requires EndsWell(n, withCharacter, b, ids, nm, edges, run)
    ensures BeginsWith(run[|run| - 1].log, ids)
  {
    var log := run[|run| - 1].log;
    CalmRunIsCalm(nm, edges, Elems(ids), run, |run| - 1);
    assert ids[0] in ids;
    var i := FirstOf(log, ids, ids[0]);
    var k := IndexOf(ids, log[i]);
    RootOn(n, withCharacter, b, ids, nm, edges, k);
    FedEarlier(n, withCharacter, b, ids, nm, edges, log, i);
    NoMembers(InputSources(edges, log[i]));
  }

  lemma FedEarlier(n: nat, withCharacter: bool, b: Built, ids: seq<int>, nm: NodeTable, edges: seq<Edge>,
                   log: seq<int>, i: nat)
    requires StagedOn(n, withCharacter, b, ids, nm, edges) && i < |log| && log[i] in ids
    requires SourcesFirst(ArcsInto(edges, Elems(ids)), log)
    ensures forall c :: c in InputSources(edges, log[i]) ==> c in ids && c in log[..i]
  {
    InputSourcesAreArcs(edges, log[i]);
    FedOn(n, withCharacter, b, ids, nm, edges, IndexOf(ids, log[i]));
    forall c | c in InputSources(edges, log[i]) ensures c in log[..i] {
      assert (c, log[i]) in ArcsInto(edges, Elems(ids));
    }
  }

  lemma {:induction false} FirstOf(log: seq<int>, ids: seq<int>, x: int) returns (i: nat)
    requires x in log && x in ids
    ensures i < |log| && log[i] in ids && forall j :: 0 <= j < i ==> log[j] !in ids
  {
    if log[0] in ids {
      i := 0;
    } else {
      i := FirstOf(log[1..], ids, x);
      i := i + 1;
      assert forall j :: 0 < j < i ==> log[j] == log[1..][j - 1];
    }
  }

  // ---------- What is charged in the end ----------

  // Only tasks that are done are charged; what was frozen for the others is given back.
  ghost function Successes(log: seq<int>, outcomes: seq<Outcome>, part: set<int>): seq<int>
    requires |log| == |outcomes|
  {
    if log == [] then []
    else
      var k := |log| - 1;
      Successes(log[..k], outcomes[..k], part) + if outcomes[k].Done? && log[k] in part then [log[k]] else []
  }

  lemma {:induction false} SuccessCount(log: seq<int>, outcomes: seq<Outcome>, part: set<int>, x: int)
    requires |log| == |outcomes|
    ensures multiset(Successes(log, outcomes, part))[x] <= multiset(log)[x]
  {
    if log != [] {
      var k := |log| - 1;
      SuccessCount(log[..k], outcomes[..k], part, x);
      assert log == log[..k] + [log[k]];
    }
  }

  ghost predicate SucceededFor(log: seq<int>, outcomes: seq<Outcome>, x: int)
    requires |log| == |outcomes|
  {
    exists t :: 0 <= t < |log| && log[t] == x && outcomes[t].Done?
  }

  lemma {:induction false} SuccessesAre(log: seq<int>, outcomes: seq<Outcome>, part: set<int>, x: int)
    requires |log| == |outcomes|
    ensures x in Successes(log, outcomes, part) <==> x in part && SucceededFor(log, outcomes, x)
  {
    if log != [] {
      var k := |log| - 1;
      var front, before := log[..k], outcomes[..k];
      SuccessesAre(front, before, part, x);
      if SucceededFor(front, before, x) {
        var t :| 0 <= t < k && front[t] == x && before[t].Done?;
        assert log[t] == x && outcomes[t].Done?;
      }
      if SucceededFor(log, outcomes, x) {
        var t :| 0 <= t <= k && log[t] == x && outcomes[t].Done?;
        if t < k { assert front[t] == x && before[t].Done?; }
      }
    }
  }

  ghost function NetCharge(nm: NodeTable, videoPrice: nat, s: State, ids: seq<int>): int
    requires |s.log| == |s.outcomes|
  {
    Charged(nm, videoPrice, Successes(s.log, s.outcomes, Elems(ids)))
  }

  ghost function DramaCost(n: nat, withCharacter: bool, videoPrice: nat): int {
    8 + ChainCost(n, withCharacter, videoPrice) - if n >= 2 then 0 else 15
  }

  lemma RanCharge(n: nat, withCharacter: bool, b: Built, ids: seq<int>, nm: NodeTable, edges: seq<Edge>,
                  videoPrice: nat)
    requires StagedOn(n, withCharacter, b, ids, nm, edges)
    ensures Charged(nm, videoPrice, ids[..Running(n, withCharacter)]) == DramaCost(n, withCharacter, videoPrice)
  {
    var ran := ids[..Running(n, withCharacter)];
    assert Distinct(ran);
    ChargedIsSum(nm, videoPrice, ran);
    forall k | 0 <= k < |ids|
      ensures ChargeIn(nm, videoPrice)(ids[k]) == SpecCharge(KindAt(n, withCharacter, k), videoPrice)
    {
      ChargeAt(n, withCharacter, b, ids, videoPrice, k);
      assert ids[k] in ids;
    }
    SumOfPrefix(n, withCharacter, videoPrice, ids, ChargeIn(nm, videoPrice), |ran|);
    RunningCharge(n, withCharacter, videoPrice);
  }

  ghost predicate WasLost(s: State, x: int) {
    exists t :: LostFor(s, t, x)
  }

  // No task of the drama ended without a result.
  ghost predicate NoneLost(s: State, ids: seq<int>) {
    forall x :: x in ids ==> !WasLost(s, x)
  }

  // How often each node was charged.
  lemma ChargedAtEnd(n: nat, withCharacter: bool, b: Built, ids: seq<int>, nm: NodeTable, edges: seq<Edge>,
                     run: seq<State>, x: int)
    requires EndsWell(n, withCharacter, b, ids, nm, edges, run)
    ensures var s := run[|run| - 1]; |s.log| == |s.outcomes|
    ensures var s := run[|run| - 1]; var times := multiset(Successes(s.log, s.outcomes, Elems(ids)))[x];
      && (times > 0 <==> x in ids[..Running(n, withCharacter)])
      && (times > 1 ==> WasLost(s, x))
  {
    var s, part := run[|run| - 1], Elems(ids);
    CalmRunIsCalm(nm, edges, part, run, |run| - 1);
    SuccessCount(s.log, s.outcomes, part, x);
    SuccessesAre(s.log, s.outcomes, part, x);
    assert x in Successes(s.log, s.outcomes, part) <==> multiset(Successes(s.log, s.outcomes, part))[x] > 0;
    assert x in ids[..Running(n, withCharacter)] ==> x in ids;
    if x in ids {
      var k := IndexOf(ids, x);
      ReadyWhenRunning(n, withCharacter, b, ids, nm, edges, run, k);
      SubmittedOnceInOrder(nm, edges, part, run, |run| - 1, x);
      assert x in ids[..Running(n, withCharacter)] <==> k < Running(n, withCharacter);
      assert NodeIsCalm(s, edges, x);
      if IsReady(s.nm, x) {
        var t: nat :| ResultFor(s, t, x);
        assert s.log[t] == x && s.outcomes[t].Done?;
      }
    }
  }

  lemma MultisetMember(m: multiset<int>)
    ensures m != multiset{} ==> exists x :: x in m
  {
    if forall x :: x !in m { assert m == multiset{}; }
  }

  lemma {:induction false} MultisetListing(m: multiset<int>) returns (s: seq<int>)
    ensures multiset(s) == m
    decreases |m|
  {
    s := [];
    if m != multiset{} {
      MultisetMember(m);
      var x :| x in m;
      s := MultisetListing(m - multiset{x});
      s := s + [x];
    }
  }

  // What was charged beyond once for each node that ran.
  lemma ChargedTwice(n: nat, withCharacter: bool, b: Built, ids: seq<int>, nm: NodeTable, edges: seq<Edge>,
                     run: seq<State>) returns (extra: seq<int>)
    requires EndsWell(n, withCharacter, b, ids, nm, edges, run)
    ensures var s, ran := run[|run| - 1], ids[..Running(n, withCharacter)];
      && |s.log| == |s.outcomes|
      && multiset(Successes(s.log, s.outcomes, Elems(ids))) == multiset(ran + extra)
      && (forall x :: x in extra ==> x in ran && WasLost(s, x))
  {
    var s, ran := run[|run| - 1], ids[..Running(n, withCharacter)];
    ChargedAtEnd(n, withCharacter, b, ids, nm, edges, run, 0);
    var all := multiset(Successes(s.log, s.outcomes, Elems(ids)));
    extra := MultisetListing(all - multiset(ran));
    forall x
      ensures multiset(ran)[x] <= all[x]
      ensures all[x] > multiset(ran)[x] ==> x in ran && WasLost(s, x)
    {
      ChargedAtEnd(n, withCharacter, b, ids, nm, edges, run, x);
      DistinctCounts(ran, x);
    }
    RanAndMore(ran, extra, all);
  }

  lemma RanAndMore(ran: seq<int>, extra: seq<int>, all: multiset<int>)
    requires multiset(extra) == all - multiset(ran) && forall x :: multiset(ran)[x] <= all[x]
    ensures all == multiset(ran + extra)
    ensures forall x :: x in extra ==> all[x] > multiset(ran)[x]
  {
    forall x ensures all[x] == multiset(ran + extra)[x] {
      assert multiset(ran)[x] <= all[x];
      assert multiset(extra)[x] == all[x] - multiset(ran)[x];
      assert multiset(ran + extra)[x] == multiset(ran)[x] + multiset(extra)[x];
    }
    forall x | x in extra ensures all[x] > multiset(ran)[x] {
      assert x in multiset(extra);
    }
  }

  // A short drama on a canvas, however it was drawn and whatever else the canvas holds. When a run in which
  // the script was submitted ends well, the ready nodes of the drama are all of them, or all but the compose
  // node for a single shot, and they are the ones submitted, the script first. What is charged is the script
  // and its chain, less the compose node if that cannot run, and once more for every further success of a
  // node that had a task fail, cancelled or expired. Without such tasks each was submitted and charged once.
  lemma ShortDramaCompletes(n: nat, withCharacter: bool, b: Built, ids: seq<int>, nm: NodeTable, edges: seq<Edge>,
                            run: seq<State>, videoPrice: nat) returns (extra: seq<int>)
    requires EndsWell(n, withCharacter, b, ids, nm, edges, run)
    ensures var s, ran := run[|run| - 1], ids[..Running(n, withCharacter)];
      && (forall x :: x in ids ==> (IsReady(s.nm, x) <==> x in ran) && (x in s.log <==> x in ran))
      && BeginsWith(s.log, ids)
      && |s.log| == |s.outcomes|
      && multiset(Successes(s.log, s.outcomes, Elems(ids))) == multiset(ran + extra)
      && (forall x :: x in extra ==> x in ran && WasLost(s, x))
      && (NoneLost(s, ids) ==> extra == [] && forall x :: x in ran ==> multiset(s.log)[x] == 1)
      && NetCharge(nm, videoPrice, s, ids) ==
         DramaCost(n, withCharacter, videoPrice) + Charged(nm, videoPrice, extra)
  {
    var s, ran := run[|run| - 1], ids[..Running(n, withCharacter)];
    extra := ChargedTwice(n, withCharacter, b, ids, nm, edges, run);
    ScriptIsFirst(n, withCharacter, b, ids, nm, edges, run);
    forall x | x in ids
      ensures (IsReady(s.nm, x) <==> x in ran) && (x in s.log <==> x in ran)
      ensures NoneLost(s, ids) && x in ran ==> multiset(s.log)[x] == 1
    {
      ReadyWhenRunning(n, withCharacter, b, ids, nm, edges, run, IndexOf(ids, x));
      SubmittedOnceInOrder(nm, edges, Elems(ids), run, |run| - 1, x);
      assert x in s.log <==> x in multiset(s.log);
      assert x in ran <==> IndexOf(ids, x) < Running(n, withCharacter);
    }
    if NoneLost(s, ids) { NoMembers(extra); }
    ChargeIs(n, withCharacter, b, ids, nm, edges, s, videoPrice, extra);
  }

  lemma ChargeIs(n: nat, withCharacter: bool, b: Built, ids: seq<int>, nm: NodeTable, edges: seq<Edge>, s: State,
                 videoPrice: nat, extra: seq<int>)
    requires StagedOn(n, withCharacter, b, ids, nm, edges) && |s.log| == |s.outcomes|
    requires multiset(Successes(s.log, s.outcomes, Elems(ids))) ==
      multiset(ids[..Running(n, withCharacter)] + extra)
    ensures NetCharge(nm, videoPrice, s, ids) ==
      DramaCost(n, withCharacter, videoPrice) + Charged(nm, videoPrice, extra)
  {
    var ran := ids[..Running(n, withCharacter)];
    ChargedReordered(nm, videoPrice, Successes(s.log, s.outcomes, Elems(ids)), ran + extra);
    ChargedConcat(nm, videoPrice, ran, extra);
    RanCharge(n, withCharacter, b, ids, nm, edges, videoPrice);
  }

  // What was charged twice, and the sum.
  lemma NetChargeIs(n: nat, withCharacter: bool, b: Built, ids: seq<int>, nm: NodeTable, edges: seq<Edge>,
                    run: seq<State>, videoPrice: nat) returns (extra: seq<int>)
    requires EndsWell(n, withCharacter, b, ids, nm, edges, run)
    ensures var s := run[|run| - 1]; |s.log| == |s.outcomes|
    ensures forall x :: x in extra ==> WasLost(run[|run| - 1], x)
    ensures NoneLost(run[|run| - 1], ids) ==> Charged(nm, videoPrice, extra) == 0
    ensures NetCharge(nm, videoPrice, run[|run| - 1], ids) ==
      DramaCost(n, withCharacter, videoPrice) + Charged(nm, videoPrice, extra)
  {
    extra := ShortDramaCompletes(n, withCharacter, b, ids, nm, edges, run, videoPrice);
  }

  // What the plan told the user its one submission and everything behind it would cost.
  function Announced(b: Built): nat
    requires |b.submits| == 1
  {
    b.submits[0].cost + b.submits[0].chainCost
  }

  // For a drama planned by plan_short_drama_workflow the run charges what was announced, at the price it
  // was planned with, if and only if what is charged twice makes up for the compose node of a single shot.
  // So if every task has a result it does if and only if there are two shots or more.
  lemma PlannedChargeIsAnnounced(n: nat, withCharacter: bool, b: Built, ids: seq<int>, nm: NodeTable,
                                 edges: seq<Edge>, run: seq<State>, perVideo: nat) returns (extra: seq<int>)
    requires EndsWell(n, withCharacter, b, ids, nm, edges, run) && IsShortDrama(n, withCharacter, perVideo, b)
    ensures |b.submits| == 1
    ensures var s := run[|run| - 1];
      && |s.log| == |s.outcomes|
      && (forall x :: x in extra ==> WasLost(s, x))
      && (NetCharge(nm, perVideo, s, ids) == Announced(b) <==>
           Charged(nm, perVideo, extra) == if n >= 2 then 0 else 15)
      && (NoneLost(s, ids) ==> (NetCharge(nm, perVideo, s, ids) == Announced(b) <==> n >= 2))
  {
    extra := NetChargeIs(n, withCharacter, b, ids, nm, edges, run, perVideo);
  }

  // For a compiled drama the announced chain cost also leaves the character card out. So if every task has a
  // result it charges what was announced, at the default video price, if and only if there are two shots or
  // more and no character card.
  lemma CompiledChargeIsAnnounced(n: nat, withCharacter: bool, b: Built, ids: seq<int>, nm: NodeTable,
                                  edges: seq<Edge>, run: seq<State>) returns (extra: seq<int>)
    requires EndsWell(n, withCharacter, b, ids, nm, edges, run)
    requires PlanCompilers.IsCompiledDrama(n, withCharacter, false, false, b)
    ensures |b.submits| == 1
    ensures var s, price := run[|run| - 1], 30;
      && |s.log| == |s.outcomes|
      && (forall x :: x in extra ==> WasLost(s, x))
      && NetCharge(nm, price, s, ids) == Announced(b) + Charged(nm, price, extra)
           + (if withCharacter then 8 else 0) - (if n >= 2 then 0 else 15)
      && (NoneLost(s, ids) ==> (NetCharge(nm, price, s, ids) == Announced(b) <==> n >= 2 && !withCharacter))
  {
    extra := NetChargeIs(n, withCharacter, b, ids, nm, edges, run, 30);
  }
}
