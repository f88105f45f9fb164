// The agent object: its message queues, and the state its run's events keep up to date.

module AgentCore {
  import opened Collections
  import opened AgentEvents
  import opened EventGrammar

  datatype QueueMode = All | OneAtATime

  class PendingMessageQueue {
    var messages: seq<Message>
    var mode: QueueMode
    ghost var enqueued: seq<Message>
    ghost var drained: seq<Message>

    // First in, first out, nothing lost: what was handed out followed by what waits is what came in.
    ghost predicate Valid()
      reads this
    {
      enqueued == drained + messages
    }

    constructor (mode: QueueMode)
      ensures Valid() && messages == enqueued == drained == [] && this.mode == mode
    {
      this.mode := mode;
      messages, enqueued, drained := [], [], [];
    }

    method Enqueue(m: Message)
      requires Valid()
      modifies this
      ensures Valid() && messages == old(messages) + [m] && enqueued == old(enqueued) + [m]
      ensures drained == old(drained) && mode == old(mode)
    {
      messages := messages + [m];
      enqueued := enqueued + [m];
    }

    function HasItems(): bool
      reads this
    {
      messages != []
    }

    method Drain() returns (out: seq<Message>)
      requires Valid()
      modifies this
      ensures Valid() && drained == old(drained) + out && enqueued == old(enqueued) && mode == old(mode)
      ensures old(messages) == out + messages && (out == [] <==> old(messages) == [])
      ensures |out| == if old(mode).All? || old(messages) == [] then |old(messages)| else 1
    {
      if mode.All? {
        out := messages;
        messages := [];
      } else if messages == [] {
        out := [];
      } else {
        out := [messages[0]];
        messages := messages[1..];
      }
      drained := drained + out;
    }

    method SetMode(mode: QueueMode)
      requires Valid()
      modifies this
      ensures Valid() && messages == old(messages) && this.mode == mode
      ensures enqueued == old(enqueued) && drained == old(drained)
    {
      this.mode := mode;
    }
  }

  class Agent {
    var messages: seq<Message>
    var streamingMessage: Option<Message>
    var pendingToolCalls: set<string>
    var errorMessage: Option<string>
    var isStreaming: bool
    var active: bool
    const steeringQueue: PendingMessageQueue
    const followUpQueue: PendingMessageQueue

    // The state as the current run began, and the events delivered since.
    ghost var base: AgentState
    ghost var delivered: seq<Event>

    function State(): AgentState
      reads this
    {
      AgentState(messages, streamingMessage, pendingToolCalls, errorMessage)
    }

    // Says no more than active && State() == ReduceAll(base, delivered). The quantifier ranges over one
    // trace and keeps the recursive ReduceAll out of proofs that only pass Running on; StateIsReduced
    // takes the equation out of it, ProcessEvent puts it back.
    ghost predicate HasDelivered(trace: seq<Event>)
      reads this
    {
      delivered == trace
    }

    // A run is on, and the state is what the events delivered make of the state it began with.
    ghost predicate Running()
      reads this
    {
      active && forall trace :: HasDelivered(trace) ==> State() == ReduceAll(base, trace)
    }

    lemma StateIsReduced()
      requires Running()
      ensures State() == ReduceAll(base, delivered)
    {
      assert HasDelivered(delivered);
    }

    ghost predicate QueuesValid()
      reads steeringQueue, followUpQueue
    {
      steeringQueue != followUpQueue && steeringQueue.Valid() && followUpQueue.Valid()
    }

    constructor (messages: seq<Message>, steeringMode: QueueMode, followUpMode: QueueMode)
      ensures !active && this.messages == messages && pendingToolCalls == {}
      ensures QueuesValid() && fresh(steeringQueue) && fresh(followUpQueue)
    {
      this.messages := messages;
      streamingMessage, errorMessage := None, None;
      pendingToolCalls, isStreaming, active := {}, false, false;
      steeringQueue := new PendingMessageQueue(steeringMode);
      followUpQueue := new PendingMessageQueue(followUpMode);
      base, delivered := AgentState(messages, None, {}, None), [];
    }

    // Starting a run keeps the transcript and forgets the last run's stream and error.
    method Begin()
      requires !active
      modifies this
      ensures Running() && isStreaming && delivered == [] && base == State()
      ensures base == AgentState(old(messages), None, old(pendingToolCalls), None)
    {
      active, isStreaming := true, true;
      streamingMessage, errorMessage := None, None;
      base, delivered := State(), [];
    }

    method Finish()
      requires active
      modifies this
      ensures !active && !isStreaming && streamingMessage == None && pendingToolCalls == {}
      ensures messages == old(messages) && errorMessage == old(errorMessage)
      ensures delivered == old(delivered) && base == old(base)
    {
      isStreaming, streamingMessage, pendingToolCalls := false, None, {};
      active := false;
    }

    method Apply(ev: Event)
      modifies this`messages, this`streamingMessage, this`pendingToolCalls, this`errorMessage
      ensures State() == Reduce(old(State()), ev)
    {
      match ev {
        case MessageStart(m) => streamingMessage := Some(m);
        case MessageUpdate(m) => streamingMessage := Some(m);
        case MessageEnd(m) =>
          streamingMessage := None;
          messages := messages + [m];
        case ToolStart(id) => pendingToolCalls := pendingToolCalls + {id};
        case ToolEnd(id, _) => pendingToolCalls := pendingToolCalls - {id};
        case TurnEnd(m, _) =>
          if m.Assistant? && m.reply.errorMessage.Some? && m.reply.errorMessage.value != "" {
            errorMessage := m.reply.errorMessage;
          }
        case AgentEnd(_) => streamingMessage := None;
        case _ =>
      }
    }

    method ProcessEvent(ev: Event)
      requires Running()
      modifies this
      ensures Running() && base == old(base) && delivered == old(delivered) + [ev]
      ensures isStreaming == old(isStreaming)
    {
      StateIsReduced();
      Apply(ev);
      ReduceOne(base, delivered, ev);
      delivered := delivered + [ev];
    }

    method AnnounceMessage(m: Message)
      requires Running()
      modifies this
      ensures Running() && base == old(base) && delivered == old(delivered) + [MessageStart(m), MessageEnd(m)]
    {
      ProcessEvent(MessageStart(m));
      ProcessEvent(MessageEnd(m));
    }

    method AnnounceMessages(ms: seq<Message>)
      requires Running()
      modifies this
      ensures Running() && base == old(base) && delivered == old(delivered) + Announce(ms)
    {
      for i := 0 to |ms|
        invariant Running() && base == old(base)
        invariant delivered == old(delivered) + Announce(ms[..i])
      {
        AnnounceMessage(ms[i]);
        assert ms[..i + 1][..i] == ms[..i];
      }
      assert ms[..|ms|] == ms;
    }
  }
}
