// Executing the tool calls of one assistant message: one by one, in parallel in any
// completion order, or not at all when the message was cut off.

module ToolCalls {
  import opened Collections
  import opened AgentEvents
  import opened EventGrammar
  import opened AgentCore

  datatype Outcome = Outcome(text: string, terminate: bool, isError: bool)

  datatype BeforeHook =
    | NoBefore
    | BeforeThrows(error: string)
    | BeforeReplies(block: bool, reason: string, terminate: bool)

  datatype Execution = Returns(text: string, terminate: bool) | Throws(error: string)

  datatype AfterHook =
    | NoAfter
    | AfterThrows(error: string)
    | AfterReplies(text: Option<string>, terminate: Option<bool>, isError: Option<bool>)

  // Everything outside the loop that bears on one call. Abort is seen twice: once the call is
  // prepared, and once its turn in the list is over.
  datatype CallEnv = CallEnv(
    found: bool, argsError: Option<string>, before: BeforeHook, abortedBefore: bool,
    updates: nat, execution: Execution, after: AfterHook, abortedAfter: bool)

  function Failure(text: string): Outcome { Outcome(text, false, true) }

  // The outcome of a call that is not executed, or None.
  function Prepare(call: ToolCall, env: CallEnv): Option<Outcome> {
    if !env.found then Some(Failure("Tool " + call.name + " not found"))
    else if env.argsError.Some? then Some(Failure(env.argsError.value))
    else if env.before.BeforeThrows? then Some(Failure(env.before.error))
    else if env.abortedBefore then Some(Failure("Operation aborted"))
    else if env.before.BeforeReplies? && env.before.block then
      var reason := if env.before.reason == "" then "Tool execution was blocked" else env.before.reason;
      Some(Outcome(reason, env.before.terminate, true))
    else None
  }

  // The outcome of an executed call, after the hook had its say.
  function Finalize(env: CallEnv): Outcome {
    var ran := match env.execution
      case Returns(text, terminate) => Outcome(text, terminate, false)
      case Throws(error) => Failure(error);
    match env.after
    case NoAfter => ran
    case AfterThrows(error) => Failure(error)
    case AfterReplies(text, terminate, isError) =>
      Outcome(text.Or(ran.text), terminate.Or(ran.terminate), isError.Or(ran.isError))
  }

  function OutcomeOf(call: ToolCall, env: CallEnv): Outcome {
    var early := Prepare(call, env);
    if early.Some? then early.value else Finalize(env)
  }

  function ResultMessage(call: ToolCall, outcome: Outcome): Message {
    ToolResult(call.id, call.name, outcome.text, outcome.isError)
  }

  // How many of n calls are taken up before an abort is seen.
  function Taken(n: nat, env: nat -> CallEnv, from: nat := 0): (taken: nat)
    requires from <= n
    ensures from <= taken <= n && (from < n ==> from < taken)
    ensures forall i :: from <= i < taken - 1 ==> !env(i).abortedAfter
    ensures taken < n ==> env(taken - 1).abortedAfter
    decreases n - from
  {
    if from == n then n else if env(from).abortedAfter then from + 1 else Taken(n, env, from + 1)
  }

  function Outcomes(calls: seq<ToolCall>, env: nat -> CallEnv): (os: seq<Outcome>)
    ensures |os| == Taken(|calls|, env)
  {
    seq(Taken(|calls|, env), i requires 0 <= i < Taken(|calls|, env) => OutcomeOf(calls[i], env(i)))
  }

  function Results(calls: seq<ToolCall>, outcomes: seq<Outcome>): (ms: seq<Message>)
    requires |outcomes| <= |calls|
    ensures |ms| == |outcomes| && forall k :: 0 <= k < |ms| ==> ms[k].ToolResult?
  {
    seq(|outcomes|, i requires 0 <= i < |outcomes| => ResultMessage(calls[i], outcomes[i]))
  }

  // The batch ends the run only if it is not empty and every outcome says so.
  predicate ShouldTerminate(outcomes: seq<Outcome>) {
    outcomes != [] && forall i :: 0 <= i < |outcomes| ==> outcomes[i].terminate
  }

  // A message cut off by the token limit has all its calls failed and none executed.
  function Refusal(call: ToolCall): Outcome {
    Failure("Tool call \"" + call.name + "\" was not executed: the response hit the output token limit, "
      + "so its arguments may be truncated. Re-issue the tool call with complete arguments.")
  }

  function Refusals(calls: seq<ToolCall>): (os: seq<Outcome>)
    ensures |os| == |calls|
  {
    seq(|calls|, i requires 0 <= i < |calls| => Refusal(calls[i]))
  }

  // ---------- What a call comes to, told from the world's answers alone ----------

  // The tool is there, its arguments are good, and nothing held the call back.
  predicate Executes(env: CallEnv) {
    && env.found && env.argsError.None? && !env.before.BeforeThrows? && !env.abortedBefore
    && !(env.before.BeforeReplies? && env.before.block)
  }

  // A call that is held back fails, with the text of what held it back first.
  ghost predicate IsHeldBack(call: ToolCall, env: CallEnv, o: Outcome) {
    && o.isError
    && (!env.found ==> o.text == "Tool " + call.name + " not found" && !o.terminate)
    && (env.found && env.argsError.Some? ==> o.text == env.argsError.value && !o.terminate)
    && (env.found && env.argsError.None? && env.before.BeforeThrows? ==> o.text == env.before.error && !o.terminate)
    && (env.found && env.argsError.None? && !env.before.BeforeThrows? && env.abortedBefore ==>
         o.text == "Operation aborted" && !o.terminate)
    && (env.found && env.argsError.None? && !env.abortedBefore && env.before.BeforeReplies? && env.before.block ==>
         && o.text == (if env.before.reason != "" then env.before.reason else "Tool execution was blocked")
         && o.terminate == env.before.terminate)
  }

  // An executed one has what the tool returned or threw, in each part the hook afterwards did not replace.
  ghost predicate IsExecuted(env: CallEnv, o: Outcome) {
    match env.after
    case AfterThrows(error) => o.text == error && o.isError && !o.terminate
    case NoAfter =>
      && o.text == (if env.execution.Returns? then env.execution.text else env.execution.error)
      && o.isError == env.execution.Throws?
      && o.terminate == (env.execution.Returns? && env.execution.terminate)
    case AfterReplies(text, terminate, isError) =>
      && (text.Some? ==> o.text == text.value)
      && (text.None? ==> o.text == if env.execution.Returns? then env.execution.text else env.execution.error)
      && (isError.Some? ==> o.isError == isError.value)
      && (isError.None? ==> o.isError == env.execution.Throws?)
      && (terminate.Some? ==> o.terminate == terminate.value)
      && (terminate.None? ==> o.terminate == (env.execution.Returns? && env.execution.terminate))
  }

  // The outcome of a call: what held it back, and then neither its execution, nor its updates, nor the hook
  // after it bear on it; or what executing it gave.
  lemma OutcomeMeans(call: ToolCall, env: CallEnv)
    ensures if Executes(env) then IsExecuted(env, OutcomeOf(call, env)) else IsHeldBack(call, env, OutcomeOf(call, env))
    ensures !Executes(env) ==> forall updates, execution, after ::
      OutcomeOf(call, env.(updates := updates, execution := execution, after := after)) == OutcomeOf(call, env)
  {
  }

  // A batch answers the calls taken up, each by its own outcome under its own id and name, and stops the run
  // only if it is not empty and each of these outcomes says so.
  lemma BatchMeans(calls: seq<ToolCall>, env: nat -> CallEnv)
    ensures var outcomes := Outcomes(calls, env);
      var results := Results(calls, outcomes);
      && |results| == |outcomes| <= |calls|
      && (forall k :: 0 <= k < |results| ==>
           && results[k] == ToolResult(calls[k].id, calls[k].name, outcomes[k].text, outcomes[k].isError)
           && (if Executes(env(k)) then IsExecuted(env(k), outcomes[k]) else IsHeldBack(calls[k], env(k), outcomes[k])))
      && (ShouldTerminate(outcomes) <==>
           calls != [] && forall k :: 0 <= k < |outcomes| ==> outcomes[k].terminate)
  {
    var outcomes := Outcomes(calls, env);
    forall k | 0 <= k < |outcomes|
      ensures if Executes(env(k)) then IsExecuted(env(k), outcomes[k]) else IsHeldBack(calls[k], env(k), outcomes[k])
    {
      OutcomeMeans(calls[k], env(k));
    }
  }

  // A cut-off message: every call fails with this text, and none stops the run.
  lemma RefusalsMean(calls: seq<ToolCall>, k: nat)
    requires k < |calls|
    ensures Refusals(calls)[k].isError && !Refusals(calls)[k].terminate
    ensures Results(calls, Refusals(calls))[k] == ToolResult(calls[k].id, calls[k].name,
      "Tool call \"" + calls[k].name + "\" was not executed: the response hit the output token limit, "
      + "so its arguments may be truncated. Re-issue the tool call with complete arguments.", true)
  {
  }

  // ---------- Updates ----------

  // How many updates of this id a trace shows.
  function UpdatesIn(trace: seq<Event>, id: string): nat {
    if trace == [] then 0
    else UpdatesIn(trace[..|trace| - 1], id) + if trace[|trace| - 1] == ToolUpdate(id) then 1 else 0
  }

  // How many the first n calls report: those of the executed calls with this id.
  function UpdatesDue(calls: seq<ToolCall>, env: nat -> CallEnv, n: nat, id: string): nat
    requires n <= |calls|
  {
    if n == 0 then 0
    else
      UpdatesDue(calls, env, n - 1, id)
        + if Executes(env(n - 1)) && calls[n - 1].id == id then env(n - 1).updates else 0
  }

  lemma {:induction false} UpdatesConcat(a: seq<Event>, b: seq<Event>, id: string)
    ensures UpdatesIn(a + b, id) == UpdatesIn(a, id) + UpdatesIn(b, id)
  {
    if b == [] {
      assert a + b == a;
    } else {
      UpdatesConcat(a, b[..|b| - 1], id);
      assert (a + b)[..|a + b| - 1] == a + b[..|b| - 1];
    }
  }

  lemma UpdatesOne(trace: seq<Event>, ev: Event, id: string)
    ensures UpdatesIn(trace + [ev], id) == UpdatesIn(trace, id) + if ev == ToolUpdate(id) then 1 else 0
  {
    assert (trace + [ev])[..|trace|] == trace;
  }

  // ---------- Call by call ----------

  function Repeated(id: string, n: nat): seq<Event> {
    seq(n, _ => ToolUpdate(id))
  }

  // The events of one call taken alone: its updates only if it is executed.
  function CallEvents(call: ToolCall, env: CallEnv, o: Outcome): seq<Event> {
    var m := ToolResult(call.id, call.name, o.text, o.isError);
    [ToolStart(call.id)] + Repeated(call.id, if Executes(env) then env.updates else 0)
      + [ToolEnd(call.id, o.isError), MessageStart(m), MessageEnd(m)]
  }

  // Each call is over, its result announced, before the next one starts.
  function CallByCall(calls: seq<ToolCall>, env: nat -> CallEnv, n: nat): seq<Event>
    requires n <= |calls|
  {
    if n == 0 then []
    else
      CallByCall(calls, env, n - 1)
        + CallEvents(calls[n - 1], env(n - 1), OutcomeOf(calls[n - 1], env(n - 1)))
  }

  lemma {:induction false} UpdatesRepeated(id: string, n: nat, x: string)
    ensures UpdatesIn(Repeated(id, n), x) == if x == id then n else 0
  {
    if n > 0 {
      UpdatesRepeated(id, n - 1, x);
      assert Repeated(id, n) == Repeated(id, n - 1) + [ToolUpdate(id)];
      UpdatesOne(Repeated(id, n - 1), ToolUpdate(id), x);
    }
  }

  lemma UpdatesOfCall(call: ToolCall, env: CallEnv, o: Outcome, x: string)
    ensures UpdatesIn(CallEvents(call, env, o), x) == if Executes(env) && call.id == x then env.updates else 0
  {
    var n := if Executes(env) then env.updates else 0;
    var m := ToolResult(call.id, call.name, o.text, o.isError);
    var head, tail := [ToolStart(call.id)], [ToolEnd(call.id, o.isError), MessageStart(m), MessageEnd(m)];
    UpdatesRepeated(call.id, n, x);
    UpdatesConcat(head, Repeated(call.id, n), x);
    UpdatesConcat(head + Repeated(call.id, n), tail, x);
    NoUpdates(head, x);
    NoUpdates(tail, x);
  }

  lemma {:induction false} NoUpdates(trace: seq<Event>, id: string)
    requires forall k :: 0 <= k < |trace| ==> !trace[k].ToolUpdate?
    ensures UpdatesIn(trace, id) == 0
  {
    if trace != [] { NoUpdates(trace[..|trace| - 1], id); }
  }

  lemma {:induction false} UpdatesCallByCall(calls: seq<ToolCall>, env: nat -> CallEnv, n: nat, id: string)
    requires n <= |calls|
    ensures UpdatesIn(CallByCall(calls, env, n), id) == UpdatesDue(calls, env, n, id)
  {
    if n > 0 {
      var events := CallEvents(calls[n - 1], env(n - 1), OutcomeOf(calls[n - 1], env(n - 1)));
      UpdatesCallByCall(calls, env, n - 1, id);
      UpdatesConcat(CallByCall(calls, env, n - 1), events, id);
      UpdatesOfCall(calls[n - 1], env(n - 1), OutcomeOf(calls[n - 1], env(n - 1)), id);
    }
  }

  lemma OneMoreUpdate(trace: seq<Event>, id: string, k: nat)
    ensures trace + Repeated(id, k) + [ToolUpdate(id)] == trace + Repeated(id, k + 1)
    ensures trace + Repeated(id, 0) == trace
  {
    assert Repeated(id, k + 1) == Repeated(id, k) + [ToolUpdate(id)];
  }

  lemma CallAssembled(trace: seq<Event>, call: ToolCall, env: CallEnv, o: Outcome)
    ensures var m := ToolResult(call.id, call.name, o.text, o.isError);
      var updates := Repeated(call.id, if Executes(env) then env.updates else 0);
      trace + [ToolStart(call.id)] + updates + [ToolEnd(call.id, o.isError)] + [MessageStart(m), MessageEnd(m)]
      == trace + CallEvents(call, env, o)
  {
  }

  // ---------- What every batch's events look like ----------

  function StartIds(trace: seq<Event>): seq<string> {
    if trace == [] then []
    else
      var last := trace[|trace| - 1];
      StartIds(trace[..|trace| - 1]) + if last.ToolStart? then [last.id] else []
  }

  function CallIds(calls: seq<ToolCall>): (ids: seq<string>)
    ensures |ids| == |calls|
  {
    seq(|calls|, i requires 0 <= i < |calls| => calls[i].id)
  }

  // Well placed after a reply, calls started under these ids, results ended in this order.
  ghost predicate Progress(trace: seq<Event>, ids: seq<string>, results: seq<Message>) {
    && EndsFollowStarts(trace)
    && StartIds(trace) == ids
    && Ended(trace) == results
    && Walk(InTurn(true), trace) == InTurn(true)
  }

  // Results answer the calls in call order; each start has its end; nothing is left in flight.
  ghost predicate BatchTrace(calls: seq<ToolCall>, results: seq<Message>, trace: seq<Event>) {
    && |results| <= |calls|
    && (forall i :: 0 <= i < |results| ==> results[i].ToolResult? && results[i].toolCallId == calls[i].id)
    && Progress(trace, CallIds(calls[..|results|]), results)
    && Paired(trace)
  }

  lemma NoProgress()
    ensures Progress([], [], [])
    ensures forall id :: InFlight([], id) == 0
  {
  }

  // One event of a tool call, or one result message, in its place.
  lemma ProgressOne(trace: seq<Event>, ids: seq<string>, results: seq<Message>, ev: Event)
    requires Progress(trace, ids, results)
    requires ev.ToolStart? || ev.ToolUpdate? || (ev.ToolEnd? && InFlight(trace, ev.id) > 0)
    ensures Progress(trace + [ev], if ev.ToolStart? then ids + [ev.id] else ids, results)
    ensures forall id :: InFlight(trace + [ev], id) == InFlight(trace, id) + Change(ev, id)
  {
    FollowOne(trace, ev);
    WalkOne(InTurn(true), trace, ev);
    EndedOne(trace, ev);
    assert (trace + [ev])[..|trace + [ev]| - 1] == trace;
  }

  lemma ProgressMessage(trace: seq<Event>, ids: seq<string>, results: seq<Message>, m: Message)
    requires Progress(trace, ids, results) && m.ToolResult?
    ensures Progress(trace + [MessageStart(m), MessageEnd(m)], ids, results + [m])
    ensures forall id :: InFlight(trace + [MessageStart(m), MessageEnd(m)], id) == InFlight(trace, id)
  {
    var begun := trace + [MessageStart(m)];
    assert trace + [MessageStart(m), MessageEnd(m)] == begun + [MessageEnd(m)];
    FollowOne(trace, MessageStart(m));
    FollowOne(begun, MessageEnd(m));
    WalkOne(InTurn(true), trace, MessageStart(m));
    WalkOne(InTurn(true), begun, MessageEnd(m));
    EndedOne(trace, MessageStart(m));
    EndedOne(begun, MessageEnd(m));
    assert begun[..|begun| - 1] == trace && (begun + [MessageEnd(m)])[..|begun|] == begun;
  }

  lemma BatchDone(calls: seq<ToolCall>, outcomes: seq<Outcome>, trace: seq<Event>)
    requires |outcomes| <= |calls|
    requires Progress(trace, CallIds(calls[..|outcomes|]), Results(calls, outcomes))
    requires forall x :: InFlight(trace, x) == 0
    ensures BatchTrace(calls, Results(calls, outcomes), trace)
  {
  }

  lemma OneMoreResult(calls: seq<ToolCall>, outcomes: seq<Outcome>, outcome: Outcome)
    requires |outcomes| < |calls|
    ensures Results(calls, outcomes + [outcome]) ==
      Results(calls, outcomes) + [ResultMessage(calls[|outcomes|], outcome)]
    ensures CallIds(calls[..|outcomes| + 1]) == CallIds(calls[..|outcomes|]) + [calls[|outcomes|].id]
  {
  }

  // ---------- One call after another ----------

  method EmitUpdates(agent: Agent, id: string, updates: nat, ghost before: seq<Event>,
                     ghost trace: seq<Event>, ghost ids: seq<string>, ghost results: seq<Message>)
      returns (ghost after: seq<Event>)
    requires agent.Running() && agent.delivered == before + trace && Progress(trace, ids, results)
    modifies agent
    ensures agent.Running() && agent.base == old(agent.base) && agent.delivered == before + after
    ensures Progress(after, ids, results) && forall x :: InFlight(after, x) == InFlight(trace, x)
    ensures after == trace + Repeated(id, updates)
  {
    after := trace;
    OneMoreUpdate(trace, id, 0);
    for k := 0 to updates
      invariant after == trace + Repeated(id, k)
      invariant agent.Running() && agent.base == old(agent.base) && agent.delivered == before + after
      invariant Progress(after, ids, results) && forall x :: InFlight(after, x) == InFlight(trace, x)
    {
      OneMoreUpdate(trace, id, k);
      after := EmitOne(agent, ToolUpdate(id), before, after, ids, results);
    }
  }

  // A tool event, with what it does to the trace so far.
  method EmitOne(agent: Agent, ev: Event, ghost before: seq<Event>,
                 ghost trace: seq<Event>, ghost ids: seq<string>, ghost results: seq<Message>)
      returns (ghost after: seq<Event>)
    requires agent.Running() && agent.delivered == before + trace && Progress(trace, ids, results)
    requires ev.ToolStart? || ev.ToolUpdate? || (ev.ToolEnd? && InFlight(trace, ev.id) > 0)
    modifies agent
    ensures agent.Running() && agent.base == old(agent.base) && agent.delivered == before + after
    ensures Progress(after, if ev.ToolStart? then ids + [ev.id] else ids, results)
    ensures forall x :: InFlight(after, x) == InFlight(trace, x) + Change(ev, x)
    ensures after == trace + [ev]
  {
    agent.ProcessEvent(ev);
    ProgressOne(trace, ids, results, ev);
    after := trace + [ev];
    assert before + trace + [ev] == before + after;
  }

  method EmitResult(agent: Agent, m: Message, ghost before: seq<Event>,
                    ghost trace: seq<Event>, ghost ids: seq<string>, ghost results: seq<Message>)
      returns (ghost after: seq<Event>)
    requires agent.Running() && agent.delivered == before + trace && Progress(trace, ids, results) && m.ToolResult?
    modifies agent
    ensures agent.Running() && agent.base == old(agent.base) && agent.delivered == before + after
    ensures Progress(after, ids, results + [m]) && forall x :: InFlight(after, x) == InFlight(trace, x)
    ensures after == trace + [MessageStart(m), MessageEnd(m)]
  {
    agent.AnnounceMessage(m);
    ProgressMessage(trace, ids, results, m);
    after := trace + [MessageStart(m), MessageEnd(m)];
    assert before + trace + [MessageStart(m), MessageEnd(m)] == before + after;
  }

  // A call that is announced is held back, or executed with its updates.
  method CarryOut(agent: Agent, call: ToolCall, env: CallEnv, ghost before: seq<Event>,
                  ghost trace: seq<Event>, ghost ids: seq<string>, ghost results: seq<Message>)
      returns (outcome: Outcome, ghost after: seq<Event>)
    requires agent.Running() && agent.delivered == before + trace && Progress(trace, ids, results)
    modifies agent
    ensures agent.Running() && agent.base == old(agent.base) && agent.delivered == before + after
    ensures outcome == OutcomeOf(call, env)
    ensures Progress(after, ids, results) && forall x :: InFlight(after, x) == InFlight(trace, x)
    ensures after == trace + Repeated(call.id, if Executes(env) then env.updates else 0)
  {
    after := trace;
    OneMoreUpdate(trace, call.id, 0);
    var early := Prepare(call, env);
    if early.Some? {
      outcome := early.value;
    } else {
      after := EmitUpdates(agent, call.id, env.updates, before, trace, ids, results);
      outcome := Finalize(env);
    }
  }

  // A call ends, and its result is announced.
  method EndCall(agent: Agent, call: ToolCall, outcome: Outcome, ghost before: seq<Event>,
                 ghost trace: seq<Event>, ghost ids: seq<string>, ghost results: seq<Message>)
      returns (ghost after: seq<Event>)
    requires agent.Running() && agent.delivered == before + trace && Progress(trace, ids, results)
    requires InFlight(trace, call.id) > 0
    modifies agent
    ensures agent.Running() && agent.base == old(agent.base) && agent.delivered == before + after
    ensures Progress(after, ids, results + [ResultMessage(call, outcome)])
    ensures forall x :: InFlight(after, x) == InFlight(trace, x) - if x == call.id then 1 else 0
    ensures var m := ResultMessage(call, outcome);
      after == trace + [ToolEnd(call.id, outcome.isError)] + [MessageStart(m), MessageEnd(m)]
  {
    after := EmitOne(agent, ToolEnd(call.id, outcome.isError), before, trace, ids, results);
    after := EmitResult(agent, ResultMessage(call, outcome), before, after, ids, results);
  }

  // One call from start to result message.
  method RunCall(agent: Agent, call: ToolCall, env: CallEnv, ghost before: seq<Event>,
                 ghost trace: seq<Event>, ghost ids: seq<string>, ghost results: seq<Message>)
      returns (outcome: Outcome, ghost after: seq<Event>)
    requires agent.Running() && agent.delivered == before + trace && Progress(trace, ids, results)
    modifies agent
    ensures agent.Running() && agent.base == old(agent.base) && agent.delivered == before + after
    ensures outcome == OutcomeOf(call, env)
    ensures Progress(after, ids + [call.id], results + [ResultMessage(call, outcome)])
    ensures forall x :: InFlight(after, x) == InFlight(trace, x)
    ensures after == trace + CallEvents(call, env, outcome)
  {
    assert trace[..|trace|] == trace && InFlight(trace, call.id) >= 0;
    after := EmitOne(agent, ToolStart(call.id), before, trace, ids, results);
    outcome, after := CarryOut(agent, call, env, before, after, ids + [call.id], results);
    CallAssembled(trace, call, env, outcome);
    after := EndCall(agent, call, outcome, before, after, ids + [call.id], results);
  }

  // The calls taken so far, each with its own outcome, and nothing in flight.
  ghost predicate SoFar(calls: seq<ToolCall>, env: nat -> CallEnv, outcomes: seq<Outcome>, trace: seq<Event>) {
    && |outcomes| <= |calls|
    && (forall k :: 0 <= k < |outcomes| ==> outcomes[k] == OutcomeOf(calls[k], env(k)))
    && Progress(trace, CallIds(calls[..|outcomes|]), Results(calls, outcomes))
    && (forall x :: InFlight(trace, x) == 0)
    && trace == CallByCall(calls, env, |outcomes|)
  }

  method RunNext(agent: Agent, calls: seq<ToolCall>, env: nat -> CallEnv, outcomes: seq<Outcome>,
                 ghost before: seq<Event>, ghost trace: seq<Event>)
      returns (outcome: Outcome, ghost after: seq<Event>)
    requires agent.Running() && agent.delivered == before + trace
    requires |outcomes| < |calls| && SoFar(calls, env, outcomes, trace)
    modifies agent
    ensures agent.Running() && agent.base == old(agent.base) && agent.delivered == before + after
    ensures SoFar(calls, env, outcomes + [outcome], after)
  {
    var i := |outcomes|;
    OneMoreResult(calls, outcomes, OutcomeOf(calls[i], env(i)));
    outcome, after := RunCall(agent, calls[i], env(i), before, trace, CallIds(calls[..i]), Results(calls, outcomes));
  }

  lemma TakenIs(n: nat, env: nat -> CallEnv, i: nat)
    requires i <= n && (forall k :: 0 <= k < i - 1 ==> !env(k).abortedAfter)
    requires i == n || (i > 0 && env(i - 1).abortedAfter)
    ensures Taken(n, env) == i
  {
  }

  lemma OutcomesAre(calls: seq<ToolCall>, env: nat -> CallEnv, outcomes: seq<Outcome>)
    requires |outcomes| == Taken(|calls|, env)
    requires forall k :: 0 <= k < |outcomes| ==> outcomes[k] == OutcomeOf(calls[k], env(k))
    ensures outcomes == Outcomes(calls, env)
  {
  }

  method ExecuteSequential(agent: Agent, calls: seq<ToolCall>, env: nat -> CallEnv, ghost before: seq<Event>)
      returns (results: seq<Message>, terminate: bool, ghost trace: seq<Event>)
    requires agent.Running() && agent.delivered == before
    modifies agent
    ensures agent.Running() && agent.base == old(agent.base) && agent.delivered == before + trace
    ensures results == Results(calls, Outcomes(calls, env)) && BatchTrace(calls, results, trace)
    ensures terminate == ShouldTerminate(Outcomes(calls, env))
    ensures trace == CallByCall(calls, env, |results|)
    ensures forall id :: UpdatesIn(trace, id) == UpdatesDue(calls, env, |results|, id)
  {
    results, trace := [], [];
    var outcomes: seq<Outcome> := [];
    NoProgress();
    var i, aborted := 0, false;
    while i < |calls| && !aborted
      invariant i == |outcomes| <= |calls| && SoFar(calls, env, outcomes, trace) && results == Results(calls, outcomes)
      invariant agent.Running() && agent.base == old(agent.base) && agent.delivered == before + trace
      invariant forall k :: 0 <= k < i - 1 ==> !env(k).abortedAfter
      invariant aborted <==> i > 0 && env(i - 1).abortedAfter
    {
      var outcome;
      outcome, trace := RunNext(agent, calls, env, outcomes, before, trace);
      OneMoreResult(calls, outcomes, outcome);
      results := results + [ResultMessage(calls[i], outcome)];
      outcomes := outcomes + [outcome];
      aborted := env(i).abortedAfter;
      i := i + 1;
    }
    TakenIs(|calls|, env, i);
    OutcomesAre(calls, env, outcomes);
    BatchDone(calls, outcomes, trace);
    forall id { UpdatesCallByCall(calls, env, |results|, id); }
    terminate := ShouldTerminate(outcomes);
  }
}
