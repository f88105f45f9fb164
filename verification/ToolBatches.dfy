// Batches that do not run call by call: parallel execution, and calls refused as a whole.

module ToolBatches {
  import opened Collections
  import opened AgentEvents
  import opened EventGrammar
  import opened AgentCore
  import opened ToolCalls

  // A refused call is started and at once ended, with no execution between.
  function RefusalEvents(call: ToolCall): seq<Event> {
    var m := ResultMessage(call, Refusal(call));
    [ToolStart(call.id), ToolEnd(call.id, Refusal(call).isError), MessageStart(m), MessageEnd(m)]
  }

  method RefuseCall(agent: Agent, call: ToolCall, ghost before: seq<Event>,
                    ghost trace: seq<Event>, ghost ids: seq<string>, ghost results: seq<Message>)
      returns (m: Message, ghost after: seq<Event>)
    requires agent.Running() && agent.delivered == before + trace && Progress(trace, ids, results)
    requires forall x :: InFlight(trace, x) == 0
    modifies agent
    ensures agent.Running() && agent.base == old(agent.base) && agent.delivered == before + after
    ensures m == ResultMessage(call, Refusal(call))
    ensures Progress(after, ids + [call.id], results + [m]) && forall x :: InFlight(after, x) == 0
    ensures after == trace + RefusalEvents(call)
  {
    m := ResultMessage(call, Refusal(call));
    after := EmitOne(agent, ToolStart(call.id), before, trace, ids, results);
    after := EmitOne(agent, ToolEnd(call.id, Refusal(call).isError), before, after, ids + [call.id], results);
    after := EmitResult(agent, m, before, after, ids + [call.id], results);
  }

  method RefuseAll(agent: Agent, calls: seq<ToolCall>, ghost before: seq<Event>)
      returns (results: seq<Message>, terminate: bool, ghost trace: seq<Event>)
    requires agent.Running() && agent.delivered == before
    modifies agent
    ensures agent.Running() && agent.base == old(agent.base) && agent.delivered == before + trace
    ensures results == Results(calls, Refusals(calls)) && BatchTrace(calls, results, trace)
    ensures |results| == |calls| && !terminate
    ensures RefusedInOrder(calls, trace)
  {
    results, trace, terminate := [], [], false;
    ghost var outcomes: seq<Outcome> := [];
    NoProgress();
    for i := 0 to |calls|
      invariant agent.Running() && agent.base == old(agent.base) && agent.delivered == before + trace
      invariant outcomes == Refusals(calls)[..i] && results == Results(calls, outcomes)
      invariant Progress(trace, CallIds(calls[..i]), results) && forall x :: InFlight(trace, x) == 0
      invariant RefusedInOrder(calls[..i], trace)
    {
      ghost var sofar := trace;
      var m;
      m, trace := RefuseCall(agent, calls[i], before, trace, CallIds(calls[..i]), results);
      assert RefusedInOrder(calls[..i + 1], trace) by { RefuseOneMore(calls, i, sofar); }
      OneMoreResult(calls, outcomes, Refusal(calls[i]));
      outcomes, results := outcomes + [Refusal(calls[i])], results + [m];
    }
    BatchDone(calls, outcomes, trace);
    assert calls[..|calls|] == calls;
  }

  // The four events of each call follow one another, and those of the calls in call order: no call is in
  // flight for longer than it takes to end it.
  predicate RefusedInOrder(calls: seq<ToolCall>, trace: seq<Event>) {
    && |trace| == 4 * |calls|
    && forall k :: 0 <= k < |calls| ==> trace[4 * k..4 * k + 4] == RefusalEvents(calls[k])
  }

  lemma RefuseOneMore(calls: seq<ToolCall>, i: nat, trace: seq<Event>)
    requires i < |calls| && RefusedInOrder(calls[..i], trace)
    ensures RefusedInOrder(calls[..i + 1], trace + RefusalEvents(calls[i]))
  {
    var after := trace + RefusalEvents(calls[i]);
    forall k | 0 <= k < i + 1 ensures after[4 * k..4 * k + 4] == RefusalEvents(calls[k]) {
      if k < i { assert after[4 * k..4 * k + 4] == trace[4 * k..4 * k + 4] && calls[..i][k] == calls[k]; }
    }
  }

  // ---------- Parallel execution ----------

  // A call taken up: finished, or executing with that many updates still to come.
  datatype Entry = Finished(outcome: Outcome) | Executing(left: nat)

  function Work(entries: seq<Entry>): nat {
    if entries == [] then 0
    else
      var last := entries[|entries| - 1];
      Work(entries[..|entries| - 1]) + if last.Executing? then last.left + 1 else 0
  }

  // How many calls with this id are executing.
  function Underway(calls: seq<ToolCall>, entries: seq<Entry>, id: string): nat
    requires |entries| <= |calls|
  {
    if entries == [] then 0
    else
      var k := |entries| - 1;
      Underway(calls, entries[..k], id) + if entries[k].Executing? && calls[k].id == id then 1 else 0
  }

  lemma {:induction false} WorkFalls(entries: seq<Entry>, i: nat, e: Entry)
    requires i < |entries| && entries[i].Executing?
    requires e.Executing? ==> e.left < entries[i].left
    ensures Work(entries[i := e]) < Work(entries)
  {
    var k := |entries| - 1;
    if i == k {
      assert entries[i := e][..k] == entries[..k];
    } else {
      WorkFalls(entries[..k], i, e);
      assert entries[i := e][..k] == entries[..k][i := e];
    }
  }

  lemma {:induction false} ExecutingChanges(calls: seq<ToolCall>, entries: seq<Entry>, i: nat, e: Entry, id: string)
    requires i < |entries| <= |calls| && entries[i].Executing?
    ensures calls[i].id == id ==> Underway(calls, entries, id) > 0
    ensures Underway(calls, entries[i := e], id)
      == Underway(calls, entries, id) - if e.Finished? && calls[i].id == id then 1 else 0
  {
    var k := |entries| - 1;
    if i == k {
      assert entries[i := e][..k] == entries[..k];
    } else {
      ExecutingChanges(calls, entries[..k], i, e, id);
      assert entries[i := e][..k] == entries[..k][i := e];
    }
  }

  lemma {:induction false} NoneExecuting(calls: seq<ToolCall>, entries: seq<Entry>, id: string)
    requires |entries| <= |calls| && forall k :: 0 <= k < |entries| ==> entries[k].Finished?
    ensures Underway(calls, entries, id) == 0
  {
    if entries != [] { NoneExecuting(calls, entries[..|entries| - 1], id); }
  }

  // Each call is in flight exactly while it executes, and a finished one has its own outcome.
  ghost predicate Tracked(calls: seq<ToolCall>, env: nat -> CallEnv, entries: seq<Entry>, trace: seq<Event>)
    requires |entries| <= |calls|
  {
    && Progress(trace, CallIds(calls[..|entries|]), [])
    && (forall id :: InFlight(trace, id) == Underway(calls, entries, id))
    && (forall k :: 0 <= k < |entries| ==> entries[k].Finished? ==> entries[k].outcome == OutcomeOf(calls[k], env(k)))
    && (forall k :: 0 <= k < |entries| ==> entries[k].Executing? ==> Prepare(calls[k], env(k)).None?)
  }

  // ---------- Updates of a parallel batch ----------

  // What the executing calls with this id have yet to report.
  function StillDue(calls: seq<ToolCall>, entries: seq<Entry>, id: string): nat
    requires |entries| <= |calls|
  {
    if entries == [] then 0
    else
      var k := |entries| - 1;
      StillDue(calls, entries[..k], id) + if entries[k].Executing? && calls[k].id == id then entries[k].left else 0
  }

  predicate OnlyTools(trace: seq<Event>) {
    forall k :: 0 <= k < |trace| ==> trace[k].ToolStart? || trace[k].ToolUpdate? || trace[k].ToolEnd?
  }

  // The updates shown and those to come are those of the executed calls.
  ghost predicate Updating(calls: seq<ToolCall>, env: nat -> CallEnv, entries: seq<Entry>, trace: seq<Event>)
    requires |entries| <= |calls|
  {
    && OnlyTools(trace)
    && forall id ::
         UpdatesIn(trace, id) + StillDue(calls, entries, id) == UpdatesDue(calls, env, |entries|, id)
  }

  lemma {:induction false} StillDueChanges(calls: seq<ToolCall>, entries: seq<Entry>, i: nat, e: Entry, id: string)
    requires i < |entries| <= |calls| && entries[i].Executing?
    ensures StillDue(calls, entries[i := e], id) == StillDue(calls, entries, id) +
      if calls[i].id == id then (if e.Executing? then e.left else 0) - entries[i].left else 0
  {
    var k := |entries| - 1;
    if i == k {
      assert entries[i := e][..k] == entries[..k];
    } else {
      StillDueChanges(calls, entries[..k], i, e, id);
      assert entries[i := e][..k] == entries[..k][i := e];
    }
  }

  lemma {:induction false} NoneStillDue(calls: seq<ToolCall>, entries: seq<Entry>, id: string)
    requires |entries| <= |calls| && forall k :: 0 <= k < |entries| ==> entries[k].Finished?
    ensures StillDue(calls, entries, id) == 0
  {
    if entries != [] { NoneStillDue(calls, entries[..|entries| - 1], id); }
  }

  lemma TakenUpIsUpdating(calls: seq<ToolCall>, env: nat -> CallEnv, entries: seq<Entry>, e: Entry,
                          trace: seq<Event>, after: seq<Event>)
    requires |entries| < |calls| && Updating(calls, env, entries, trace) && OnlyTools(after)
    requires forall id :: UpdatesIn(after, id) == UpdatesIn(trace, id)
    requires if Executes(env(|entries|)) then e == Executing(env(|entries|).updates) else e.Finished?
    ensures Updating(calls, env, entries + [e], after)
  {
    var n := |entries|;
    assert (entries + [e])[..n] == entries;
    forall id
      ensures UpdatesIn(after, id) + StillDue(calls, entries + [e], id) == UpdatesDue(calls, env, n + 1, id)
    {
      assert UpdatesIn(trace, id) + StillDue(calls, entries, id) == UpdatesDue(calls, env, n, id);
    }
  }

  lemma MovedIsUpdating(calls: seq<ToolCall>, env: nat -> CallEnv, entries: seq<Entry>, i: nat, e: Entry, ev: Event,
                        trace: seq<Event>)
    requires i < |entries| <= |calls| && entries[i].Executing? && Updating(calls, env, entries, trace)
    requires if entries[i].left > 0 then e == Executing(entries[i].left - 1) && ev == ToolUpdate(calls[i].id)
      else e.Finished? && ev.ToolEnd?
    ensures Updating(calls, env, entries[i := e], trace + [ev])
  {
    forall id
      ensures UpdatesIn(trace + [ev], id) + StillDue(calls, entries[i := e], id)
        == UpdatesDue(calls, env, |entries|, id)
    {
      UpdatesOne(trace, ev, id);
      StillDueChanges(calls, entries, i, e, id);
      assert UpdatesIn(trace, id) + StillDue(calls, entries, id) == UpdatesDue(calls, env, |entries|, id);
    }
  }

  // One more call taken up: executing, or finished at once.
  lemma TakenUpIsTracked(calls: seq<ToolCall>, env: nat -> CallEnv, entries: seq<Entry>, e: Entry,
                         trace: seq<Event>, after: seq<Event>)
    requires |entries| < |calls| && Tracked(calls, env, entries, trace)
    requires e.Finished? ==> e.outcome == OutcomeOf(calls[|entries|], env(|entries|))
    requires e.Executing? ==> Prepare(calls[|entries|], env(|entries|)).None?
    requires Progress(after, CallIds(calls[..|entries|]) + [calls[|entries|].id], [])
    requires forall x ::
      InFlight(after, x) == InFlight(trace, x) + if e.Executing? && x == calls[|entries|].id then 1 else 0
    ensures Tracked(calls, env, entries + [e], after)
  {
    var n, taken := |entries|, entries + [e];
    assert taken[..n] == entries;
    assert CallIds(calls[..n + 1]) == CallIds(calls[..n]) + [calls[n].id];
  }

  // Taking a call up shows no updates.
  lemma TakenUpShows(call: ToolCall, e: Entry, trace: seq<Event>, after: seq<Event>)
    requires OnlyTools(trace)
    requires after == trace + [ToolStart(call.id)] ||
      (e.Finished? && after == trace + [ToolStart(call.id)] + [ToolEnd(call.id, e.outcome.isError)])
    ensures OnlyTools(after) && forall id :: UpdatesIn(after, id) == UpdatesIn(trace, id)
  {
    var started := trace + [ToolStart(call.id)];
    forall id ensures UpdatesIn(after, id) == UpdatesIn(trace, id) {
      UpdatesOne(trace, ToolStart(call.id), id);
      if after != started { UpdatesOne(started, ToolEnd(call.id, e.outcome.isError), id); }
    }
  }

  // The next call is announced and prepared; one that needs no execution ends at once.
  method TakeUp(agent: Agent, calls: seq<ToolCall>, env: nat -> CallEnv, ghost before: seq<Event>,
                entries: seq<Entry>, ghost trace: seq<Event>)
      returns (taken: seq<Entry>, ghost after: seq<Event>)
    requires agent.Running() && agent.delivered == before + trace
    requires |entries| < |calls| && Tracked(calls, env, entries, trace) && Updating(calls, env, entries, trace)
    modifies agent
    ensures agent.Running() && agent.base == old(agent.base) && agent.delivered == before + after
    ensures |taken| == |entries| + 1 && Tracked(calls, env, taken, after) && Updating(calls, env, taken, after)
  {
    var i := |entries|;
    var call := calls[i];
    ghost var ids := CallIds(calls[..i]);
    assert InFlight(trace, call.id) == Underway(calls, entries, call.id);
    after := EmitOne(agent, ToolStart(call.id), before, trace, ids, []);
    var early := Prepare(call, env(i));
    var e := Executing(env(i).updates);
    if early.Some? {
      e := Finished(early.value);
      after := EmitOne(agent, ToolEnd(call.id, early.value.isError), before, after, ids + [call.id], []);
    }
    taken := entries + [e];
    TakenUpIsTracked(calls, env, entries, e, trace, after);
    TakenUpShows(call, e, trace, after);
    TakenUpIsUpdating(calls, env, entries, e, trace, after);
  }

  lemma MovedIsTracked(calls: seq<ToolCall>, env: nat -> CallEnv, entries: seq<Entry>, i: nat, e: Entry, ev: Event,
                       trace: seq<Event>, after: seq<Event>)
    requires i < |entries| <= |calls| && entries[i].Executing? && Tracked(calls, env, entries, trace)
    requires e == Finished(Finalize(env(i))) || e.Executing?
    requires if e.Finished? then ev.ToolEnd? && ev.id == calls[i].id else ev.ToolUpdate?
    requires Progress(after, CallIds(calls[..|entries|]), [])
    requires forall x :: InFlight(after, x) == InFlight(trace, x) + Change(ev, x)
    ensures Tracked(calls, env, entries[i := e], after)
  {
    var moved := entries[i := e];
    forall x ensures InFlight(after, x) == Underway(calls, moved, x) {
      ExecutingChanges(calls, entries, i, e, x);
      assert InFlight(trace, x) == Underway(calls, entries, x);
    }
    assert calls[..|moved|] == calls[..|entries|];
  }

  // One executing call moves: it reports an update, or ends.
  method Move(agent: Agent, calls: seq<ToolCall>, env: nat -> CallEnv, ghost before: seq<Event>,
              entries: seq<Entry>, i: nat, ghost trace: seq<Event>)
      returns (moved: seq<Entry>, ghost after: seq<Event>)
    requires agent.Running() && agent.delivered == before + trace
    requires |entries| <= |calls| && Tracked(calls, env, entries, trace) && Updating(calls, env, entries, trace)
    requires i < |entries| && entries[i].Executing?
    modifies agent
    ensures agent.Running() && agent.base == old(agent.base) && agent.delivered == before + after
    ensures |moved| == |entries| && Tracked(calls, env, moved, after) && Work(moved) < Work(entries)
    ensures Updating(calls, env, moved, after)
  {
    var id := calls[i].id;
    var outcome := Finalize(env(i));
    var e := if entries[i].left > 0 then Executing(entries[i].left - 1) else Finished(outcome);
    var ev := if entries[i].left > 0 then ToolUpdate(id) else ToolEnd(id, outcome.isError);
    moved := entries[i := e];
    WorkFalls(entries, i, e);
    ExecutingChanges(calls, entries, i, e, id);
    assert InFlight(trace, id) == Underway(calls, entries, id);
    after := EmitOne(agent, ev, before, trace, CallIds(calls[..|entries|]), []);
    MovedIsTracked(calls, env, entries, i, e, ev, trace, after);
    MovedIsUpdating(calls, env, entries, i, e, ev, trace);
  }

  lemma AnnounceOneMore(trace: seq<Event>, ms: seq<Message>, m: Message)
    ensures trace + Announce(ms) + [MessageStart(m), MessageEnd(m)] == trace + Announce(ms + [m])
  {
    assert (ms + [m])[..|ms|] == ms;
  }

  // No result is announced before every call is over.
  ghost predicate ToolsThenResults(trace: seq<Event>, results: seq<Message>) {
    exists tools :: OnlyTools(tools) && trace == tools + Announce(results)
  }

  lemma UpdatesAreTools(tools: seq<Event>, results: seq<Message>, id: string)
    ensures UpdatesIn(tools + Announce(results), id) == UpdatesIn(tools, id)
  {
    UpdatesConcat(tools, Announce(results), id);
    AnnouncedNoUpdates(results, id);
  }

  lemma {:induction false} AnnouncedNoUpdates(ms: seq<Message>, id: string)
    ensures UpdatesIn(Announce(ms), id) == 0
  {
    if ms != [] {
      var last := ms[|ms| - 1];
      AnnouncedNoUpdates(ms[..|ms| - 1], id);
      UpdatesConcat(Announce(ms[..|ms| - 1]), [MessageStart(last), MessageEnd(last)], id);
      NoUpdates([MessageStart(last), MessageEnd(last)], id);
    }
  }

  method ReportInOrder(agent: Agent, calls: seq<ToolCall>, outcomes: seq<Outcome>, ghost before: seq<Event>,
                       ghost trace: seq<Event>, ghost ids: seq<string>)
      returns (results: seq<Message>, ghost after: seq<Event>)
    requires agent.Running() && agent.delivered == before + trace && Progress(trace, ids, [])
    requires |outcomes| <= |calls|
    modifies agent
    ensures agent.Running() && agent.base == old(agent.base) && agent.delivered == before + after
    ensures results == Results(calls, outcomes)
    ensures Progress(after, ids, results) && forall x :: InFlight(after, x) == InFlight(trace, x)
    ensures after == trace + Announce(results)
  {
    results, after := [], trace;
    assert trace + Announce([]) == trace;
    for i := 0 to |outcomes|
      invariant after == trace + Announce(results)
      invariant agent.Running() && agent.base == old(agent.base) && agent.delivered == before + after
      invariant results == Results(calls, outcomes[..i])
      invariant Progress(after, ids, results) && forall x :: InFlight(after, x) == InFlight(trace, x)
    {
      var m := ResultMessage(calls[i], outcomes[i]);
      AnnounceOneMore(trace, results, m);
      after := EmitResult(agent, m, before, after, ids, results);
      assert Results(calls, outcomes[..i + 1]) == results + [m];
      results := results + [m];
    }
    assert outcomes[..|outcomes|] == outcomes;
  }

  // Whichever executing call moves next, the results and the decision to stop are those of the
  // calls taken one after another.
  method ExecuteParallel(agent: Agent, calls: seq<ToolCall>, env: nat -> CallEnv, ghost before: seq<Event>)
      returns (results: seq<Message>, terminate: bool, ghost trace: seq<Event>)
    requires agent.Running() && agent.delivered == before
    modifies agent
    ensures agent.Running() && agent.base == old(agent.base) && agent.delivered == before + trace
    ensures results == Results(calls, Outcomes(calls, env)) && BatchTrace(calls, results, trace)
    ensures terminate == ShouldTerminate(Outcomes(calls, env))
    ensures ToolsThenResults(trace, results)
    ensures forall id :: UpdatesIn(trace, id) == UpdatesDue(calls, env, |results|, id)
  {
    var entries: seq<Entry>;
    entries, trace := TakeUpAll(agent, calls, env, before);
    while exists i :: 0 <= i < |entries| && entries[i].Executing?
      invariant agent.Running() && agent.base == old(agent.base) && agent.delivered == before + trace
      invariant |entries| == Taken(|calls|, env) && Tracked(calls, env, entries, trace)
      invariant Updating(calls, env, entries, trace)
      decreases Work(entries)
    {
      var i :| 0 <= i < |entries| && entries[i].Executing?;
      entries, trace := Move(agent, calls, env, before, entries, i, trace);
    }
    var outcomes := seq(|entries|, i requires 0 <= i < |entries| => entries[i].outcome);
    OutcomesAre(calls, env, outcomes);
    forall x ensures InFlight(trace, x) == 0 { NoneExecuting(calls, entries, x); }
    ghost var tools := trace;
    results, trace := ReportInOrder(agent, calls, outcomes, before, trace, CallIds(calls[..|entries|]));
    AllShown(calls, env, entries, tools, results);
    BatchDone(calls, outcomes, trace);
    terminate := ShouldTerminate(outcomes);
  }

  lemma AllShown(calls: seq<ToolCall>, env: nat -> CallEnv, entries: seq<Entry>, tools: seq<Event>,
                 results: seq<Message>)
    requires |entries| == |results| <= |calls| && Updating(calls, env, entries, tools)
    requires forall k :: 0 <= k < |entries| ==> entries[k].Finished?
    ensures ToolsThenResults(tools + Announce(results), results)
    ensures forall id :: UpdatesIn(tools + Announce(results), id) == UpdatesDue(calls, env, |results|, id)
  {
    forall id ensures UpdatesIn(tools + Announce(results), id) == UpdatesDue(calls, env, |results|, id) {
      NoneStillDue(calls, entries, id);
      UpdatesAreTools(tools, results, id);
      assert UpdatesIn(tools, id) + StillDue(calls, entries, id) == UpdatesDue(calls, env, |entries|, id);
    }
  }

  method TakeUpAll(agent: Agent, calls: seq<ToolCall>, env: nat -> CallEnv, ghost before: seq<Event>)
      returns (entries: seq<Entry>, ghost trace: seq<Event>)
    requires agent.Running() && agent.delivered == before
    modifies agent
    ensures agent.Running() && agent.base == old(agent.base) && agent.delivered == before + trace
    ensures |entries| == Taken(|calls|, env) && Tracked(calls, env, entries, trace)
    ensures Updating(calls, env, entries, trace)
  {
    entries, trace := [], [];
    NoProgress();
    while |entries| < |calls|
      invariant agent.Running() && agent.base == old(agent.base) && agent.delivered == before + trace
      invariant |entries| <= Taken(|calls|, env) && Tracked(calls, env, entries, trace)
      invariant Updating(calls, env, entries, trace)
      invariant forall k :: 0 <= k < |entries| ==> !env(k).abortedAfter
      decreases |calls| - |entries|
    {
      entries, trace := TakeUp(agent, calls, env, before, entries, trace);
      if env(|entries| - 1).abortedAfter { break; }
    }
  }
}
