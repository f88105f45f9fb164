// Whole runs: the loop over turns, and the prompt and continue entry points of the agent.

module AgentRun {
  import opened Collections
  import opened AgentEvents
  import opened EventGrammar
  import opened AgentCore
  import opened ToolCalls
  import opened AgentTurns
  import opened AgentLoop

  // ---------- One turn ----------

  lemma {:induction false} AnnounceConcat(a: seq<Message>, b: seq<Message>)
    ensures Announce(a + b) == Announce(a) + Announce(b)
  {
    if b == [] {
      assert a + b == a;
    } else {
      AnnounceConcat(a, b[..|b| - 1]);
      assert (a + b)[..|a + b| - 1] == a + b[..|b| - 1];
    }
  }

  // What is already out when a turn begins: the first turn is opened together with its prompts.
  function Opened(first: bool, prompts: seq<Message>): seq<Event> {
    if first then [TurnStart] + Announce(prompts) else []
  }

  // What may come after a turn under its script.
  predicate MayFollow(continues: bool, sc: TurnScript, after: After) {
    && (after.Failed? <==> IsFailure(sc.reply))
    && (after.Halted? <==> !IsFailure(sc.reply) && sc.stop)
    && (after.Polled? ==> (after.followUps.Some? <==> !continues && after.steering == []))
  }

  // The turn, once it is known what came after it.
  ghost predicate Closes(t: Turn, sc: TurnScript, after: After) {
    var whole := t.(after := after);
    Sound(whole) && Obeys(whole, sc)
  }

  // The tools of a turn: none after a failure, otherwise what the script calls for.
  ghost predicate Answered(sc: TurnScript, results: seq<Message>, hasMore: bool, trace: seq<Event>) {
    var calls := sc.reply.toolCalls;
    && BatchTrace(calls, results, trace) && (hasMore ==> results != [])
    && (IsFailure(sc.reply) ==> trace == [])
    && (!IsFailure(sc.reply) ==> Traced(sc, results, trace))
    && (IsFailure(sc.reply) || calls == [] ==> results == [] && !hasMore)
    && (!IsFailure(sc.reply) && calls != [] ==>
          if sc.reply.stopReason == Length
          then results == Results(calls, Refusals(calls)) && hasMore
          else (
            && results == Results(calls, Outcomes(calls, sc.env))
            && hasMore == !ShouldTerminate(Outcomes(calls, sc.env))))
  }

  lemma AnsweredCloses(t: Turn, sc: TurnScript, after: After)
    requires t.stream == sc.stream && t.reply == sc.reply
    requires t.replaced == if IsFailure(sc.reply) then None else sc.replaced
    requires Answered(sc, t.results, t.continues, t.tools) && MayFollow(t.continues, sc, after)
    ensures Closes(t, sc, after)
  {
  }

  lemma OpeningJoins(before: seq<Event>, a: seq<Event>, b: seq<Event>)
    ensures before + [] + [TurnStart] == before + ([TurnStart] + [])
    ensures before + ([TurnStart] + a) + b == before + ([TurnStart] + (a + b))
  {
  }

  method OpenTurn(agent: Agent, pending: seq<Message>, first: bool, ghost prompts: seq<Message>,
      ghost before: seq<Event>)
    requires agent.Running() && agent.delivered == before + Opened(first, prompts)
    requires !first ==> prompts == []
    modifies agent
    ensures agent.Running() && agent.base == old(agent.base)
    ensures agent.delivered == before + ([TurnStart] + Announce(prompts + pending))
  {
    AnnounceConcat(prompts, pending);
    OpeningJoins(before, Announce(prompts), Announce(pending));
    if !first { agent.ProcessEvent(TurnStart); }
    agent.AnnounceMessages(pending);
  }

  method AnswerCalls(agent: Agent, sc: TurnScript, ghost before: seq<Event>)
      returns (results: seq<Message>, hasMore: bool, ghost trace: seq<Event>)
    requires agent.Running() && agent.delivered == before
    modifies agent
    ensures agent.Running() && agent.base == old(agent.base) && agent.delivered == before + trace
    ensures Answered(sc, results, hasMore, trace)
  {
    if IsFailure(sc.reply) {
      results, hasMore, trace := [], false, [];
      NoProgress();
    } else {
      results, hasMore, trace := ExecuteToolCalls(agent, sc, before);
    }
  }

  // Injects what is pending, streams the reply, and runs its tools.
  method TakeTurn(agent: Agent, context: seq<Message>, pending: seq<Message>, sc: TurnScript, first: bool,
                  ghost prompts: seq<Message>, ghost before: seq<Event>)
      returns (after: seq<Message>, results: seq<Message>, hasMore: bool, ghost t: Turn)
    requires agent.Running() && agent.delivered == before + Opened(first, prompts)
    requires !first ==> prompts == []
    modifies agent
    ensures agent.Running() && agent.base == old(agent.base) && agent.delivered == before + Render(t)
    ensures t.prompts == prompts && t.polled == pending && t.reply == sc.reply && t.stream == sc.stream
    ensures t.replaced == (if IsFailure(sc.reply) then None else sc.replaced)
    ensures t.results == results && t.continues == hasMore && Answered(sc, results, hasMore, t.tools)
    ensures after == context + pending + StreamEntries(sc.stream, sc.reply) + results
  {
    OpenTurn(agent, pending, first, prompts, before);
    ghost var said := agent.delivered;
    after := StreamAssistantResponse(agent, context + pending, sc.stream, sc.reply, said);
    ghost var tools;
    results, hasMore, tools := AnswerCalls(agent, sc, agent.delivered);
    after := after + results;
    agent.ProcessEvent(TurnEnd(Assistant(sc.reply), results));
    var replaced := if IsFailure(sc.reply) then None else sc.replaced;
    t := Turn(prompts, pending, sc.stream, sc.reply, tools, results, hasMore, replaced, Failed);
    RenderedWhole(before, t);
  }

  lemma RenderedWhole(before: seq<Event>, t: Turn)
    ensures before + ([TurnStart] + Announce(t.prompts + t.polled)) + StreamEvents(t.stream, t.reply) + t.tools
      + [TurnEnd(Assistant(t.reply), t.results)] == before + Render(t)
  {
  }

  // ---------- The loop over turns ----------

  ghost predicate AllObey(turns: seq<Turn>, script: seq<TurnScript>) {
    |turns| <= |script| && forall i :: 0 <= i < |turns| ==> Obeys(turns[i], script[i])
  }

  lemma OneMoreObeys(turns: seq<Turn>, script: seq<TurnScript>, t: Turn)
    requires AllObey(turns, script) && |turns| < |script| && Obeys(t, script[|turns|])
    ensures AllObey(turns + [t], script)
  {
  }

  // A run that follows its script, opened by these prompts and this first steering poll.
  ghost predicate FollowsScript(turns: seq<Turn>, script: seq<TurnScript>, prompts: seq<Message>,
      initial: seq<Message>) {
    && |turns| <= |script| && IsRun(turns) && AllObey(turns, script)
    && (turns != [] ==> turns[0].prompts == prompts && turns[0].polled == initial)
  }

  // What waits to be injected into the next turn.
  ghost predicate Waits(turns: seq<Turn>, initial: seq<Message>, pending: seq<Message>) {
    if turns == [] then pending == initial
    else GoesOn(turns[|turns| - 1]) && pending == NextPolled(turns[|turns| - 1])
  }

  // Before the first turn the prompts stand alone; afterwards they are part of it.
  function Given(turns: seq<Turn>, prompts: seq<Message>): seq<Message> {
    if turns == [] then prompts else []
  }

  lemma OneMoreLink(turns: seq<Turn>, t: Turn)
    requires Chained(turns) && (turns != [] ==> Follows(turns[|turns| - 1], t))
    ensures Chained(turns + [t])
  {
    var more := turns + [t];
    forall i | 0 < i < |more| ensures Follows(more[i - 1], more[i]) {
      if i < |turns| { assert Follows(turns[i - 1], turns[i]); }
    }
  }

  lemma OneMoreSound(turns: seq<Turn>, t: Turn)
    requires AllSound(turns) && Sound(t)
    ensures AllSound(turns + [t])
  {
  }

  lemma OneMoreTurn(turns: seq<Turn>, script: seq<TurnScript>, prompts: seq<Message>, initial: seq<Message>,
                    pending: seq<Message>, t: Turn)
    requires FollowsScript(turns, script, prompts, initial) && Waits(turns, initial, pending) && |turns| < |script|
    requires t.prompts == Given(turns, prompts) && t.polled == pending
    requires Sound(t) && Obeys(t, script[|turns|])
    ensures FollowsScript(turns + [t], script, prompts, initial)
  {
    OneMoreLink(turns, t);
    OneMoreSound(turns, t);
    OneMoreObeys(turns, script, t);
  }

  // What the messages, the context and the trace are after some turns.
  ghost predicate Recorded(turns: seq<Turn>, prompts: seq<Message>, start: seq<Message>,
                           newMessages: seq<Message>, context: seq<Message>, trace: seq<Event>) {
    && newMessages == AllAdded(turns) + Given(turns, prompts)
    && context == ContextAfter(start, turns) + Given(turns, prompts)
    && trace == RenderAll(turns) + Opened(turns == [], prompts)
  }

  lemma TurnJoins(given: seq<Message>, a: seq<Message>, t: Turn, entries: seq<Message>)
    requires t.prompts == given
    ensures a + given + t.polled + entries + t.results == a + (Injected(t) + entries + t.results)
  {
  }

  lemma OneMoreRecord(turns: seq<Turn>, prompts: seq<Message>, start: seq<Message>, newMessages: seq<Message>,
                      context: seq<Message>, trace: seq<Event>, t: Turn)
    requires Recorded(turns, prompts, start, newMessages, context, trace) && t.prompts == Given(turns, prompts)
    ensures Recorded(turns + [t], prompts, start,
      newMessages + t.polled + [Assistant(t.reply)] + t.results,
      t.replaced.Or(context + t.polled + StreamEntries(t.stream, t.reply) + t.results),
      RenderAll(turns) + Render(t))
  {
    var more := turns + [t];
    assert more[..|more| - 1] == turns;
    TurnJoins(t.prompts, AllAdded(turns), t, [Assistant(t.reply)]);
    TurnJoins(t.prompts, ContextAfter(start, turns), t, StreamEntries(t.stream, t.reply));
  }

  // Everything that has come out of and gone into the two queues.
  datatype Flow = Flow(
    steeringOut: seq<Message>, followUpsOut: seq<Message>, steeringIn: seq<Message>, followUpsIn: seq<Message>)

  ghost function FlowOf(agent: Agent): Flow
    reads agent.steeringQueue, agent.followUpQueue
  {
    Flow(agent.steeringQueue.drained, agent.followUpQueue.drained,
      agent.steeringQueue.enqueued, agent.followUpQueue.enqueued)
  }

  function Flowing(f: Flow, steering: seq<Message>, followUps: seq<Message>, ops: seq<QueueOp>): Flow {
    Flow(f.steeringOut + steering, f.followUpsOut + followUps,
      f.steeringIn + Steered(ops), f.followUpsIn + FollowedUp(ops))
  }

  function SteeringOf(after: After): seq<Message> { if after.Polled? then after.steering else [] }

  function FollowUpsOf(after: After): seq<Message> { if after.Polled? then after.followUps.Or([]) else [] }

  lemma OneMoreFlow(f: Flow, turns: seq<Turn>, ops: seq<QueueOp>, t: Turn, more: seq<QueueOp>)
    ensures
      Flowing(Flowing(f, SteeringPolls(turns), FollowUpPolls(turns), ops),
        SteeringOf(t.after), FollowUpsOf(t.after), more)
      == Flowing(f, SteeringPolls(turns + [t]), FollowUpPolls(turns + [t]), ops + more)
  {
    ArrivalsConcat(ops, more);
    assert (turns + [t])[..|turns + [t]| - 1] == turns;
  }

  lemma FlowTwice(f: Flow, steering: seq<Message>, followUps: seq<Message>, a: seq<QueueOp>, b: seq<QueueOp>)
    ensures Flowing(Flowing(f, steering, [], a), [], followUps, b) == Flowing(f, steering, followUps, a + b)
  {
    ArrivalsConcat(a, b);
  }

  // What arrives, then a poll of the steering queue.
  method ArriveAndSteer(agent: Agent, ops: seq<QueueOp>) returns (out: seq<Message>)
    requires agent.QueuesValid()
    modifies agent.steeringQueue, agent.followUpQueue
    ensures agent.QueuesValid() && FlowOf(agent) == Flowing(old(FlowOf(agent)), out, [], ops)
  {
    ApplyOps(agent, ops);
    out := agent.steeringQueue.Drain();
  }

  // What arrives, then a poll of the follow-up queue if it is wanted.
  method ArriveAndFollowUp(agent: Agent, ops: seq<QueueOp>, wanted: bool) returns (out: seq<Message>)
    requires agent.QueuesValid()
    modifies agent.steeringQueue, agent.followUpQueue
    ensures agent.QueuesValid() && (!wanted ==> out == [])
    ensures FlowOf(agent) == Flowing(old(FlowOf(agent)), [], out, ops)
  {
    ApplyOps(agent, ops);
    out := [];
    if wanted { out := agent.followUpQueue.Drain(); }
  }

  // The steering queue is polled, and the follow-up queue too when nothing else is to be done.
  method Poll(agent: Agent, sc: TurnScript, hasMore: bool) returns (after: After, pending: seq<Message>)
    requires agent.QueuesValid()
    modifies agent.steeringQueue, agent.followUpQueue
    ensures agent.QueuesValid() && after.Polled? && (after.followUps.Some? <==> !hasMore && after.steering == [])
    ensures pending == if after.steering != [] then after.steering else after.followUps.Or([])
    ensures FlowOf(agent) == Flowing(old(FlowOf(agent)), after.steering, after.followUps.Or([]), sc.early + sc.late)
  {
    var steering := ArriveAndSteer(agent, sc.early);
    var quiet := !hasMore && steering == [];
    var followUps := ArriveAndFollowUp(agent, sc.late, quiet);
    FlowTwice(old(FlowOf(agent)), steering, followUps, sc.early, sc.late);
    after := Polled(steering, if quiet then Some(followUps) else None);
    pending := if quiet then followUps else steering;
  }

  // A turn that failed or was stopped polls nothing; what arrives meanwhile stays queued.
  method AfterTurn(agent: Agent, sc: TurnScript, hasMore: bool) returns (after: After, pending: seq<Message>)
    requires agent.QueuesValid()
    modifies agent.steeringQueue, agent.followUpQueue
    ensures agent.QueuesValid() && MayFollow(hasMore, sc, after)
    ensures pending == if SteeringOf(after) != [] then SteeringOf(after) else FollowUpsOf(after)
    ensures FlowOf(agent) == Flowing(old(FlowOf(agent)), SteeringOf(after), FollowUpsOf(after), sc.early + sc.late)
  {
    if IsFailure(sc.reply) || sc.stop {
      after, pending := if IsFailure(sc.reply) then Failed else Halted, [];
      ApplyOps(agent, sc.early + sc.late);
    } else {
      after, pending := Poll(agent, sc, hasMore);
    }
  }

  // What the loop holds between turns.
  datatype LoopState = LoopState(newMessages: seq<Message>, context: seq<Message>, pending: seq<Message>)

  // How the run came about.
  datatype Origin = Origin(prompts: seq<Message>, start: seq<Message>, initial: seq<Message>, firstOps: seq<QueueOp>,
      flow: Flow)

  // The loop after some turns of its script.
  ghost predicate Reached(o: Origin, script: seq<TurnScript>, turns: seq<Turn>, st: LoopState, trace: seq<Event>,
      flow: Flow) {
    && FollowsScript(turns, script, o.prompts, o.initial)
    && Recorded(turns, o.prompts, o.start, st.newMessages, st.context, trace)
    && flow == Flowing(o.flow, SteeringPolls(turns), FollowUpPolls(turns), o.firstOps + Arrivals(script[..|turns|]))
  }

  lemma ArrivalsNext(ops: seq<QueueOp>, script: seq<TurnScript>, k: nat)
    requires k < |script|
    ensures ops + Arrivals(script[..k]) + (script[k].early + script[k].late) == ops + Arrivals(script[..k + 1])
  {
    assert script[..k + 1][..k] == script[..k];
  }

  lemma RecordedWhole(turns: seq<Turn>, prompts: seq<Message>, start: seq<Message>, newMessages: seq<Message>,
                      context: seq<Message>, trace: seq<Event>)
    requires Recorded(turns, prompts, start, newMessages, context, trace) && turns != []
    ensures newMessages == AllAdded(turns) && context == ContextAfter(start, turns) && trace == RenderAll(turns)
  {
  }

  lemma OneMore(o: Origin, script: seq<TurnScript>, turns: seq<Turn>, st: LoopState, trace: seq<Event>, flow: Flow,
      t: Turn)
    requires Reached(o, script, turns, st, trace, flow) && Waits(turns, o.initial, st.pending) && |turns| < |script|
    requires t.prompts == Given(turns, o.prompts) && t.polled == st.pending
    requires Sound(t) && Obeys(t, script[|turns|])
    ensures var sc := script[|turns|];
      var next := LoopState(st.newMessages + t.polled + [Assistant(t.reply)] + t.results,
        t.replaced.Or(st.context + t.polled + StreamEntries(t.stream, t.reply) + t.results), []);
      Reached(o, script, turns + [t], next, RenderAll(turns) + Render(t),
        Flowing(flow, SteeringOf(t.after), FollowUpsOf(t.after), sc.early + sc.late))
  {
    var k, sc := |turns|, script[|turns|];
    OneMoreTurn(turns, script, o.prompts, o.initial, st.pending, t);
    OneMoreRecord(turns, o.prompts, o.start, st.newMessages, st.context, trace, t);
    OneMoreFlow(o.flow, turns, o.firstOps + Arrivals(script[..k]), t, sc.early + sc.late);
    ArrivalsNext(o.firstOps, script, k);
  }

  // One round of the loop: a turn, the caller's hooks, and the polls.
  method Round(agent: Agent, sc: TurnScript, first: bool, st: LoopState,
               ghost o: Origin, ghost script: seq<TurnScript>, ghost turns: seq<Turn>)
      returns (next: LoopState, more: bool, ghost t: Turn)
    requires agent.Running() && agent.QueuesValid()
    requires |turns| < |script| && sc == script[|turns|] && first == (turns == [])
    requires Reached(o, script, turns, st, agent.delivered, FlowOf(agent)) && Waits(turns, o.initial, st.pending)
    modifies agent, agent.steeringQueue, agent.followUpQueue
    ensures agent.Running() && agent.QueuesValid() && agent.base == old(agent.base)
    ensures Reached(o, script, turns + [t], next, agent.delivered, FlowOf(agent))
    ensures more == GoesOn(t) && (more ==> next.pending == NextPolled(t))
  {
    ghost var flow, trace := FlowOf(agent), agent.delivered;
    ghost var taken;
    var context, results, hasMore;
    context, results, hasMore, taken :=
      TakeTurn(agent, st.context, st.pending, sc, first, Given(turns, o.prompts), RenderAll(turns));
    var newMessages := st.newMessages + st.pending + [Assistant(sc.reply)] + results;
    if !IsFailure(sc.reply) { context := sc.replaced.Or(context); }
    var after, pending := AfterTurn(agent, sc, hasMore);
    t := taken.(after := after);
    AnsweredCloses(taken, sc, after);
    OneMore(o, script, turns, st, trace, flow, t);
    assert Render(t) == Render(taken);
    next := LoopState(newMessages, context, pending);
    more := after.Polled? && (hasMore || pending != []);
  }

  // The first steering poll, before any turn.
  method FirstPoll(agent: Agent, opening: seq<Message>, prompts: seq<Message>, skipFirstPoll: bool,
              firstOps: seq<QueueOp>, ghost script: seq<TurnScript>, ghost start: seq<Message>)
      returns (st: LoopState, ghost o: Origin)
    requires agent.Running() && agent.QueuesValid()
    requires agent.delivered == [AgentStart] + Opened(true, prompts) && opening == start + prompts
    modifies agent.steeringQueue, agent.followUpQueue
    ensures agent.QueuesValid()
    ensures o == Origin(prompts, start, st.pending, firstOps, Flowing(old(FlowOf(agent)), st.pending, [], []))
    ensures skipFirstPoll ==> st.pending == []
    ensures Reached(o, script, [], st, agent.delivered, FlowOf(agent))
  {
    ghost var flow := FlowOf(agent);
    ApplyOps(agent, firstOps);
    var pending: seq<Message> := [];
    if !skipFirstPoll { pending := agent.steeringQueue.Drain(); }
    st := LoopState(prompts, opening, pending);
    o := Origin(prompts, start, pending, firstOps, Flowing(flow, pending, [], []));
    FlowAtStart(flow, pending, firstOps, script);
    assert FlowOf(agent) == Flowing(flow, pending, [], firstOps);
    BeginsReached(o, script, st);
  }

  lemma FlowAtStart(flow: Flow, pending: seq<Message>, ops: seq<QueueOp>, script: seq<TurnScript>)
    ensures Flowing(flow, pending, [], ops) == Flowing(Flowing(flow, pending, [], []), [], [], ops)
  {
  }

  lemma BeginsReached(o: Origin, script: seq<TurnScript>, st: LoopState)
    requires st == LoopState(o.prompts, o.start + o.prompts, o.initial)
    ensures Reached(o, script, [], st, [AgentStart] + Opened(true, o.prompts), Flowing(o.flow, [], [], o.firstOps))
  {
    assert o.firstOps + Arrivals(script[..0]) == o.firstOps;
  }

  // The end of a run carries every message the run added.
  method Close(agent: Agent, st: LoopState, ghost o: Origin, ghost script: seq<TurnScript>, ghost turns: seq<Turn>)
    requires agent.Running() && turns != [] && Reached(o, script, turns, st, agent.delivered, FlowOf(agent))
    modifies agent
    ensures agent.Running() && agent.base == old(agent.base) && agent.delivered == WholeTrace(turns)
    ensures st.newMessages == AllAdded(turns) && st.context == ContextAfter(o.start, turns)
    ensures Reached(o, script, turns, st, RenderAll(turns), FlowOf(agent))
  {
    RecordedWhole(turns, o.prompts, o.start, st.newMessages, st.context, agent.delivered);
    agent.ProcessEvent(AgentEnd(st.newMessages));
  }

  // Turn after turn, until a turn fails, the caller stops, or nothing is left to do. The
  // source's inner and outer loops are one here: both go on to the same next turn. A run that
  // outlasts its script is left unfinished.
  method RunLoop(agent: Agent, script: seq<TurnScript>, first: LoopState, ghost o: Origin)
      returns (ended: bool, st: LoopState, ghost turns: seq<Turn>)
    requires agent.Running() && agent.QueuesValid()
    requires Reached(o, script, [], first, agent.delivered, FlowOf(agent)) && first.pending == o.initial
    modifies agent, agent.steeringQueue, agent.followUpQueue
    ensures agent.Running() && agent.QueuesValid() && agent.base == old(agent.base)
    ensures if ended then IsWholeRun(turns) else |turns| == |script| && Waits(turns, o.initial, st.pending)
    ensures ended ==> agent.delivered == WholeTrace(turns)
    ensures Reached(o, script, turns, st, if ended then RenderAll(turns) else agent.delivered, FlowOf(agent))
  {
    var k, more := 0, true;
    st, turns := first, [];
    while more && k < |script|
      invariant k == |turns| && (!more ==> turns != [] && !GoesOn(turns[k - 1]))
      invariant agent.Running() && agent.QueuesValid() && agent.base == old(agent.base)
      invariant Reached(o, script, turns, st, agent.delivered, FlowOf(agent))
      invariant more ==> Waits(turns, o.initial, st.pending)
    {
      ghost var t;
      st, more, t := Round(agent, script[k], k == 0, st, o, script, turns);
      turns := turns + [t];
      k := k + 1;
    }
    ended := !more;
    if ended { Close(agent, st, o, script, turns); }
  }
}
