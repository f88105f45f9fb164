// The agent's entry points, prompt and continue, and what a finished run leaves behind.

module AgentEntry {
  import opened Collections
  import opened AgentEvents
  import opened EventGrammar
  import opened AgentCore
  import opened AgentTurns
  import opened AgentLoop
  import opened AgentRun

  datatype RunResult = Refused(error: string) | Unfinished | Completed(newMessages: seq<Message>)

  lemma Cancel(a: seq<Message>, x: seq<Message>, y: seq<Message>)
    requires a + x == a + y
    ensures x == y
  {
    assert x == (a + x)[|a|..] && y == (a + y)[|a|..];
  }

  // One queue: what was injected and what still waits are what waited and what arrived.
  lemma Conserved(out: seq<Message>, waiting: seq<Message>, arrived: seq<Message>,
                  initial: seq<Message>, polled: seq<Message>, left: seq<Message>)
    requires out + waiting + [] + arrived == out + initial + polled + left
    ensures initial + polled + left == waiting + arrived
  {
    assert out + waiting + [] + arrived == out + (waiting + arrived);
    assert out + initial + polled + left == out + (initial + polled + left);
    Cancel(out, waiting + arrived, initial + polled + left);
  }

  // Nothing queued is lost, doubled or reordered by a run that is over: messages taken as prompts,
  // injected, and still waiting are those that waited before and those that arrived.
  ghost predicate Delivered(turns: seq<Turn>, ops: seq<QueueOp>, taken: (seq<Message>, seq<Message>),
                            before: (seq<Message>, seq<Message>), after: (seq<Message>, seq<Message>)) {
    && taken.0 + InjectedSteering(turns) + after.0 == before.0 + Steered(ops)
    && taken.1 + InjectedFollowUps(turns) + after.1 == before.1 + FollowedUp(ops)
  }

  ghost function Queues(agent: Agent): (seq<Message>, seq<Message>)
    reads agent.steeringQueue, agent.followUpQueue
  {
    (agent.steeringQueue.messages, agent.followUpQueue.messages)
  }

  lemma RunDelivers(turns: seq<Turn>, ops: seq<QueueOp>, before: Flow, after: Flow, initial: seq<Message>,
                    waited: (seq<Message>, seq<Message>), waiting: (seq<Message>, seq<Message>))
    requires IsWholeRun(turns) && turns[0].polled == initial
    requires before.steeringIn == before.steeringOut + waited.0 && before.followUpsIn == before.followUpsOut + waited.1
    requires after.steeringIn == after.steeringOut + waiting.0 && after.followUpsIn == after.followUpsOut + waiting.1
    requires after == Flowing(Flowing(before, initial, [], []), SteeringPolls(turns), FollowUpPolls(turns), ops)
    ensures Delivered(turns, ops, ([], []), waited, waiting)
  {
    NothingDrainedIsLost(turns);
    Conserved(before.steeringOut, waited.0, Steered(ops), initial, SteeringPolls(turns), waiting.0);
    Conserved(before.followUpsOut, waited.1, FollowedUp(ops), [], FollowUpPolls(turns), waiting.1);
    assert [] + FollowUpPolls(turns) == FollowUpPolls(turns);
    assert [] + InjectedSteering(turns) == InjectedSteering(turns);
  }

  // A run from an idle agent, with the prompts it is given.
  method Lifecycle(agent: Agent, prompts: seq<Message>, skipFirstPoll: bool, firstOps: seq<QueueOp>,
      script: seq<TurnScript>)
      returns (result: RunResult, context: seq<Message>, ghost initial: seq<Message>, ghost turns: seq<Turn>)
    requires !agent.active && agent.QueuesValid()
    modifies agent, agent.steeringQueue, agent.followUpQueue
    ensures agent.QueuesValid() && !result.Refused?
    ensures FollowsScript(turns, script, prompts, initial) && (skipFirstPoll ==> initial == [])
    ensures result.Completed? ==> IsWholeRun(turns) && agent.delivered == WholeTrace(turns)
    ensures result.Completed? ==> result.newMessages == AllAdded(turns)
    ensures result.Completed? ==> context == ContextAfter(old(agent.messages), turns)
    ensures result.Completed? ==> agent.messages == old(agent.messages) + result.newMessages
    ensures result.Completed? ==> !agent.active && agent.streamingMessage == None && agent.pendingToolCalls == {}
    ensures result.Completed? ==>
      Delivered(turns, firstOps + Arrivals(script[..|turns|]), ([], []), old(Queues(agent)), Queues(agent))
    ensures result.Unfinished? ==> agent.active && agent.delivered == RenderAll(turns) + Opened(turns == [], prompts)
  {
    ghost var flow := FlowOf(agent);
    var start := agent.messages;
    agent.Begin();
    agent.ProcessEvent(AgentStart);
    agent.ProcessEvent(TurnStart);
    agent.AnnounceMessages(prompts);
    assert agent.delivered == [AgentStart] + Opened(true, prompts);
    var st;
    ghost var o;
    st, o := FirstPoll(agent, start + prompts, prompts, skipFirstPoll, firstOps, script, start);
    initial := o.initial;
    var ended;
    ended, st, turns := RunLoop(agent, script, st, o);
    context, result := st.context, Unfinished;
    if ended {
      agent.StateIsReduced();
      TranscriptRefinement(agent.base, turns);
      RecordedWhole(turns, prompts, start, st.newMessages, context, RenderAll(turns));
      RunDelivers(turns, firstOps + Arrivals(script[..|turns|]), flow, FlowOf(agent), initial,
        old(Queues(agent)), Queues(agent));
      agent.Finish();
      result := Completed(st.newMessages);
    }
  }

  // A prompt is refused only while a run is going on.
  method Prompt(agent: Agent, prompts: seq<Message>, firstOps: seq<QueueOp>, script: seq<TurnScript>)
      returns (result: RunResult, ghost turns: seq<Turn>)
    requires agent.QueuesValid()
    modifies agent, agent.steeringQueue, agent.followUpQueue
    ensures agent.QueuesValid() && (result.Refused? <==> old(agent.active))
    ensures result.Refused? ==> agent.State() == old(agent.State()) && Queues(agent) == old(Queues(agent))
    ensures result.Completed? ==> agent.messages == old(agent.messages) + result.newMessages && !agent.active
    ensures result.Completed? ==> agent.delivered == WholeTrace(turns) && result.newMessages == AllAdded(turns)
    ensures result.Completed? ==> turns != [] && turns[0].prompts == prompts && |turns| <= |script|
    ensures result.Completed? ==>
      Delivered(turns, firstOps + Arrivals(script[..|turns|]), ([], []), old(Queues(agent)), Queues(agent))
  {
    turns := [];
    if agent.active {
      result := Refused("Agent is already processing a prompt.");
    } else {
      var context;
      ghost var initial;
      result, context, initial, turns := Lifecycle(agent, prompts, false, firstOps, script);
    }
  }

  // Queued messages that become the prompts of a continued run, steering first.
  method TakeQueued(agent: Agent) returns (steered: seq<Message>, followed: seq<Message>)
    requires agent.QueuesValid()
    modifies agent.steeringQueue, agent.followUpQueue
    ensures agent.QueuesValid()
    ensures old(agent.steeringQueue.messages) == steered + agent.steeringQueue.messages
    ensures old(agent.followUpQueue.messages) == followed + agent.followUpQueue.messages
    ensures old(agent.steeringQueue.HasItems()) ==> steered != [] && followed == []
    ensures !old(agent.steeringQueue.HasItems()) ==>
      steered == [] && (followed == [] <==> !old(agent.followUpQueue.HasItems()))
  {
    steered := agent.steeringQueue.Drain();
    followed := [];
    if steered == [] { followed := agent.followUpQueue.Drain(); }
  }

  lemma FromQueue(queued: seq<Message>, kept: seq<Message>, arrived: seq<Message>, injected: seq<Message>,
      left: seq<Message>)
    requires injected + left == kept + arrived
    ensures queued + injected + left == queued + kept + arrived
  {
    assert queued + injected + left == queued + (injected + left);
    assert queued + kept + arrived == queued + (kept + arrived);
  }

  method ContinueWith(agent: Agent, steered: seq<Message>, followed: seq<Message>, firstOps: seq<QueueOp>,
                      script: seq<TurnScript>)
      returns (result: RunResult, ghost turns: seq<Turn>)
    requires !agent.active && agent.QueuesValid()
    modifies agent, agent.steeringQueue, agent.followUpQueue
    ensures agent.QueuesValid() && !result.Refused?
    ensures result.Completed? ==> agent.messages == old(agent.messages) + result.newMessages && !agent.active
    ensures result.Completed? ==> agent.delivered == WholeTrace(turns) && result.newMessages == AllAdded(turns)
    ensures result.Completed? ==> turns != [] && turns[0].prompts == steered + followed && |turns| <= |script|
    ensures result.Completed? ==> Delivered(turns, firstOps + Arrivals(script[..|turns|]), (steered, followed),
      (steered + old(Queues(agent)).0, followed + old(Queues(agent)).1), Queues(agent))
  {
    var context;
    ghost var initial;
    result, context, initial, turns := Lifecycle(agent, steered + followed, steered != [], firstOps, script);
    if result.Completed? {
      ghost var ops := firstOps + Arrivals(script[..|turns|]);
      assert [] + InjectedSteering(turns) == InjectedSteering(turns);
      assert [] + InjectedFollowUps(turns) == InjectedFollowUps(turns);
      FromQueue(steered, old(Queues(agent)).0, Steered(ops), InjectedSteering(turns), Queues(agent).0);
      FromQueue(followed, old(Queues(agent)).1, FollowedUp(ops), InjectedFollowUps(turns), Queues(agent).1);
    }
  }

  // There is nothing to continue from, or the model spoke last and nothing is queued.
  predicate CannotContinue(agent: Agent)
    reads agent, agent.steeringQueue, agent.followUpQueue
  {
    || agent.active || agent.messages == []
    || (SpokeLast(agent.messages) && !agent.steeringQueue.HasItems() && !agent.followUpQueue.HasItems())
  }

  predicate SpokeLast(messages: seq<Message>) { messages != [] && messages[|messages| - 1].Assistant? }

  // Whether a run may be continued, and from which queued messages.
  method TakePrompts(agent: Agent) returns (refusal: Option<string>, steered: seq<Message>, followed: seq<Message>)
    requires agent.QueuesValid()
    modifies agent.steeringQueue, agent.followUpQueue
    ensures agent.QueuesValid() && (refusal.Some? <==> old(CannotContinue(agent)))
    ensures old(Queues(agent)) == (steered + Queues(agent).0, followed + Queues(agent).1)
    ensures refusal.Some? ==> steered == followed == [] && Queues(agent) == old(Queues(agent))
    ensures refusal.None? ==> !agent.active && (steered + followed != [] <==> SpokeLast(agent.messages))
  {
    refusal, steered, followed := None, [], [];
    assert [] + Queues(agent).0 == Queues(agent).0 && [] + Queues(agent).1 == Queues(agent).1;
    if agent.active {
      refusal := Some("Agent is already processing. Wait for completion before continuing.");
    } else if agent.messages == [] {
      refusal := Some("No messages to continue from");
    } else if agent.messages[|agent.messages| - 1].Assistant? {
      steered, followed := TakeQueued(agent);
      if steered == [] && followed == [] {
        refusal := Some("Cannot continue from message role: assistant");
      }
    }
  }

  // Continuing after the model spoke last turns queued messages into prompts; they count as
  // delivered from their queue.
  method Continue(agent: Agent, firstOps: seq<QueueOp>, script: seq<TurnScript>)
      returns (result: RunResult, ghost taken: (seq<Message>, seq<Message>), ghost turns: seq<Turn>)
    requires agent.QueuesValid()
    modifies agent, agent.steeringQueue, agent.followUpQueue
    ensures agent.QueuesValid() && (result.Refused? <==> old(CannotContinue(agent)))
    ensures result.Refused? ==> agent.State() == old(agent.State()) && Queues(agent) == old(Queues(agent))
    ensures result.Completed? ==> agent.messages == old(agent.messages) + result.newMessages && !agent.active
    ensures result.Completed? ==> agent.delivered == WholeTrace(turns) && result.newMessages == AllAdded(turns)
    ensures result.Completed? ==> turns != [] && turns[0].prompts == taken.0 + taken.1 && |turns| <= |script|
    ensures result.Completed? ==> (taken.0 + taken.1 != [] <==> SpokeLast(old(agent.messages)))
    ensures result.Completed? ==>
      Delivered(turns, firstOps + Arrivals(script[..|turns|]), taken, old(Queues(agent)), Queues(agent))
  {
    var refusal, steered, followed := TakePrompts(agent);
    turns, taken := [], (steered, followed);
    if refusal.Some? {
      result := Refused(refusal.value);
    } else {
      result, turns := ContinueWith(agent, steered, followed, firstOps, script);
    }
  }
}
