// The agent loop itself: streaming one reply, taking one turn, and going on while tool
// results or queued messages wait.

module AgentLoop {
  import opened Collections
  import opened AgentEvents
  import opened EventGrammar
  import opened AgentCore
  import opened ToolCalls
  import opened ToolBatches
  import opened AgentTurns

  // What others do to the queues while the loop runs.
  datatype QueueOp =
    | Steer(m: Message) | FollowUp(m: Message)
    | SteerMode(mode: QueueMode) | FollowUpMode(mode: QueueMode)

  // What the world answers in one turn: the model's stream and reply, the tools, the caller's
  // hooks after the turn, and the queue operations before and after the steering poll.
  datatype TurnScript = TurnScript(
    stream: seq<StreamEvent>,
    reply: Reply,
    sequential: bool,
    env: nat -> CallEnv,
    replaced: Option<seq<Message>>,
    stop: bool,
    early: seq<QueueOp>,
    late: seq<QueueOp>)

  function Steered(ops: seq<QueueOp>): seq<Message> {
    if ops == [] then []
    else
      var last := ops[|ops| - 1];
      Steered(ops[..|ops| - 1]) + if last.Steer? then [last.m] else []
  }

  function FollowedUp(ops: seq<QueueOp>): seq<Message> {
    if ops == [] then []
    else
      var last := ops[|ops| - 1];
      FollowedUp(ops[..|ops| - 1]) + if last.FollowUp? then [last.m] else []
  }

  lemma {:induction false} ArrivalsConcat(a: seq<QueueOp>, b: seq<QueueOp>)
    ensures Steered(a + b) == Steered(a) + Steered(b)
    ensures FollowedUp(a + b) == FollowedUp(a) + FollowedUp(b)
  {
    if b == [] {
      assert a + b == a;
    } else {
      ArrivalsConcat(a, b[..|b| - 1]);
      assert (a + b)[..|a + b| - 1] == a + b[..|b| - 1];
    }
  }

  // The queue operations of a script, in order.
  function Arrivals(script: seq<TurnScript>): seq<QueueOp> {
    if script == [] then []
    else
      var last := script[|script| - 1];
      Arrivals(script[..|script| - 1]) + (last.early + last.late)
  }

  predicate IsFailure(reply: Reply) { reply.stopReason in {Error, Aborted} }

  // The tool events of a turn: refused calls one after another; or each call on its own before the next, or
  // all calls before the first result; with the updates of the executed calls and no others.
  ghost predicate Traced(sc: TurnScript, results: seq<Message>, trace: seq<Event>) {
    var calls := sc.reply.toolCalls;
    if calls == [] then trace == []
    else if sc.reply.stopReason == Length then RefusedInOrder(calls, trace)
    else
      && |results| <= |calls|
      && (sc.sequential ==> trace == CallByCall(calls, sc.env, |results|))
      && (!sc.sequential ==> ToolsThenResults(trace, results))
      && forall id :: UpdatesIn(trace, id) == UpdatesDue(calls, sc.env, |results|, id)
  }

  // The turn is the one this script calls for.
  ghost predicate Obeys(t: Turn, sc: TurnScript) {
    var calls := sc.reply.toolCalls;
    && t.stream == sc.stream && t.reply == sc.reply
    && (t.after.Failed? <==> IsFailure(sc.reply))
    && (t.after.Halted? <==> !IsFailure(sc.reply) && sc.stop)
    && t.replaced == (if IsFailure(sc.reply) then None else sc.replaced)
    && (IsFailure(sc.reply) || calls == [] ==> t.results == [] && t.tools == [] && !t.continues)
    && (!IsFailure(sc.reply) ==> Traced(sc, t.results, t.tools))
    && (!IsFailure(sc.reply) && calls != [] ==>
          if sc.reply.stopReason == Length
          then t.results == Results(calls, Refusals(calls)) && t.continues
          else (
            && t.results == Results(calls, Outcomes(calls, sc.env))
            && t.continues == !ShouldTerminate(Outcomes(calls, sc.env))))
  }

  // ---------- The queues during a run ----------

  method ApplyOps(agent: Agent, ops: seq<QueueOp>)
    requires agent.QueuesValid()
    modifies agent.steeringQueue, agent.followUpQueue
    ensures agent.QueuesValid()
    ensures agent.steeringQueue.drained == old(agent.steeringQueue.drained)
    ensures agent.followUpQueue.drained == old(agent.followUpQueue.drained)
    ensures agent.steeringQueue.enqueued == old(agent.steeringQueue.enqueued) + Steered(ops)
    ensures agent.followUpQueue.enqueued == old(agent.followUpQueue.enqueued) + FollowedUp(ops)
  {
    for i := 0 to |ops|
      invariant agent.QueuesValid()
      invariant agent.steeringQueue.drained == old(agent.steeringQueue.drained)
      invariant agent.followUpQueue.drained == old(agent.followUpQueue.drained)
      invariant agent.steeringQueue.enqueued == old(agent.steeringQueue.enqueued) + Steered(ops[..i])
      invariant agent.followUpQueue.enqueued == old(agent.followUpQueue.enqueued) + FollowedUp(ops[..i])
    {
      assert ops[..i + 1][..i] == ops[..i];
      match ops[i] {
        case Steer(m) => agent.steeringQueue.Enqueue(m);
        case FollowUp(m) => agent.followUpQueue.Enqueue(m);
        case SteerMode(mode) => agent.steeringQueue.SetMode(mode);
        case FollowUpMode(mode) => agent.followUpQueue.SetMode(mode);
      }
    }
    assert ops[..|ops|] == ops;
  }

  // ---------- One streamed reply ----------

  lemma {:induction false} LiveSoFar(stream: seq<StreamEvent>, i: nat)
    requires i <= |stream| && forall k :: 0 <= k < i ==> !stream[k].Closing?
    requires i == |stream| || stream[i].Closing?
    ensures Live(stream) == stream[..i]
  {
    if i > 0 {
      assert forall k :: 0 <= k < i - 1 ==> stream[1..][k] == stream[k + 1];
      LiveSoFar(stream[1..], i - 1);
      assert stream[..i] == [stream[0]] + stream[1..][..i - 1];
    }
  }

  function Finishing(addedPartial: bool, reply: Reply): seq<Event> {
    if addedPartial then [MessageEnd(Assistant(reply))]
    else [MessageStart(Assistant(reply)), MessageEnd(Assistant(reply))]
  }

  // What the first i events showed and added to the context. The quantifier ranges over one prefix, that
  // of Read, and keeps Shown and Partials folded in the loop; the lemmas below unfold them.
  ghost predicate Seen(stream: seq<StreamEvent>, i: nat, shown: seq<Event>, partials: seq<Message>) {
    forall live :: Read(stream, i, live) ==> shown == Shown(live) && partials == Partials(live)
  }

  ghost predicate Read(stream: seq<StreamEvent>, i: nat, live: seq<StreamEvent>) {
    i <= |stream| && live == stream[..i]
  }

  lemma NoneSeen(stream: seq<StreamEvent>)
    ensures Seen(stream, 0, [], [])
  {
  }

  lemma OneMoreSeen(stream: seq<StreamEvent>, i: nat, shown: seq<Event>, partials: seq<Message>)
    requires i < |stream| && Seen(stream, i, shown, partials)
    ensures Seen(stream, i + 1, shown + ShowOne(stream[i], partials != []), AddPartial(partials, stream[i]))
  {
    assert Read(stream, i, stream[..i]);
    assert stream[..i + 1][..i] == stream[..i];
  }

  lemma SeenAll(stream: seq<StreamEvent>, i: nat, reply: Reply, shown: seq<Event>, partials: seq<Message>)
    requires i <= |stream| && Seen(stream, i, shown, partials)
    requires (forall k :: 0 <= k < i ==> !stream[k].Closing?) && (i == |stream| || stream[i].Closing?)
    ensures StreamEvents(stream, reply) == shown + Finishing(partials != [], reply)
    ensures partials == Partials(Live(stream))
  {
    LiveSoFar(stream, i);
    assert Read(stream, i, stream[..i]);
    ToldThenFinished(Live(stream), reply);
  }

  lemma ToldThenFinished(live: seq<StreamEvent>, reply: Reply)
    ensures Told(live, reply) + [MessageEnd(Assistant(reply))] == Shown(live) + Finishing(Openings(live) > 0, reply)
  {
  }

  // One event of the stream: a partial message is added to the context or replaces the last.
  method ShowPartial(agent: Agent, context: seq<Message>, ev: StreamEvent, addedPartial: bool,
                     ghost start: seq<Message>, ghost partials: seq<Message>)
      returns (after: seq<Message>)
    requires agent.Running() && !ev.Closing? && context == start + partials && addedPartial == (partials != [])
    modifies agent
    ensures agent.Running() && agent.base == old(agent.base)
    ensures agent.delivered == old(agent.delivered) + ShowOne(ev, addedPartial)
    ensures after == start + AddPartial(partials, ev)
  {
    after := context;
    var partial := Assistant(ev.partial);
    if ev.Opening? {
      after := after + [partial];
      agent.ProcessEvent(MessageStart(partial));
    } else if addedPartial {
      after := after[|after| - 1 := partial];
      agent.ProcessEvent(MessageUpdate(partial));
    }
  }

  // Shows the partial messages as they come and leaves the reply in the context.
  method StreamAssistantResponse(agent: Agent, context: seq<Message>, stream: seq<StreamEvent>, reply: Reply,
                                 ghost before: seq<Event>)
      returns (after: seq<Message>)
    requires agent.Running() && agent.delivered == before
    modifies agent
    ensures agent.Running() && agent.base == old(agent.base)
    ensures agent.delivered == before + StreamEvents(stream, reply)
    ensures after == context + StreamEntries(stream, reply)
  {
    var addedPartial, i := false, 0;
    ghost var shown: seq<Event>, partials: seq<Message> := [], [];
    after := context + [];
    NoneSeen(stream);
    while i < |stream| && !stream[i].Closing?
      invariant 0 <= i <= |stream| && forall k :: 0 <= k < i ==> !stream[k].Closing?
      invariant Seen(stream, i, shown, partials)
      invariant agent.Running() && agent.base == old(agent.base) && agent.delivered == before + shown
      invariant after == context + partials && addedPartial == (partials != [])
    {
      OneMoreSeen(stream, i, shown, partials);
      after := ShowPartial(agent, after, stream[i], addedPartial, context, partials);
      shown, partials := shown + ShowOne(stream[i], addedPartial), AddPartial(partials, stream[i]);
      addedPartial := addedPartial || stream[i].Opening?;
      i := i + 1;
    }
    SeenAll(stream, i, reply, shown, partials);
    after := FinishReply(agent, after, addedPartial, reply, context, partials);
    assert before + shown + Finishing(addedPartial, reply) == before + (shown + Finishing(addedPartial, reply));
  }

  // The final reply replaces the last partial message, or is shown for the first time.
  method FinishReply(agent: Agent, soFar: seq<Message>, addedPartial: bool, reply: Reply,
                     ghost context: seq<Message>, ghost partials: seq<Message>)
      returns (after: seq<Message>)
    requires agent.Running() && soFar == context + partials && addedPartial == (partials != [])
    modifies agent
    ensures agent.Running() && agent.base == old(agent.base)
    ensures agent.delivered == old(agent.delivered) + Finishing(addedPartial, reply)
    ensures after == context +
      if partials == [] then [Assistant(reply)] else partials[|partials| - 1 := Assistant(reply)]
  {
    if addedPartial {
      LastReplaced(context, partials, Assistant(reply));
      after := soFar[|soFar| - 1 := Assistant(reply)];
      agent.ProcessEvent(MessageEnd(Assistant(reply)));
    } else {
      after := soFar + [Assistant(reply)];
      agent.AnnounceMessage(Assistant(reply));
    }
  }

  lemma LastReplaced(context: seq<Message>, partials: seq<Message>, m: Message)
    requires partials != []
    ensures (context + partials)[|context + partials| - 1 := m] == context + partials[|partials| - 1 := m]
  {
  }

  // ---------- The tools of one turn ----------

  method ExecuteToolCalls(agent: Agent, sc: TurnScript, ghost before: seq<Event>)
      returns (results: seq<Message>, hasMore: bool, ghost trace: seq<Event>)
    requires agent.Running() && agent.delivered == before
    modifies agent
    ensures agent.Running() && agent.base == old(agent.base) && agent.delivered == before + trace
    ensures BatchTrace(sc.reply.toolCalls, results, trace) && (hasMore ==> results != [])
    ensures Traced(sc, results, trace)
    ensures sc.reply.toolCalls == [] ==> results == [] && !hasMore
    ensures sc.reply.toolCalls != [] && sc.reply.stopReason == Length ==>
      results == Results(sc.reply.toolCalls, Refusals(sc.reply.toolCalls)) && hasMore
    ensures sc.reply.toolCalls != [] && sc.reply.stopReason != Length ==>
      && results == Results(sc.reply.toolCalls, Outcomes(sc.reply.toolCalls, sc.env))
      && hasMore == !ShouldTerminate(Outcomes(sc.reply.toolCalls, sc.env))
  {
    var calls := sc.reply.toolCalls;
    var terminate := true;
    if calls == [] {
      results, trace := [], [];
      NoProgress();
    } else if sc.reply.stopReason == Length {
      results, terminate, trace := RefuseAll(agent, calls, before);
    } else if sc.sequential {
      results, terminate, trace := ExecuteSequential(agent, calls, sc.env, before);
    } else {
      results, terminate, trace := ExecuteParallel(agent, calls, sc.env, before);
    }
    hasMore := !terminate;
  }
}
