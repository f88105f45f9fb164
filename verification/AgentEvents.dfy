// Messages, the events of an agent run, and the reducer that rebuilds the transcript from them.

module AgentEvents {
  import opened Collections

  datatype StopReason = Stop | ToolUse | Length | Error | Aborted

  datatype ToolCall = ToolCall(id: string, name: string)

  // What the model answers, whole or partial.
  datatype Reply = Reply(
    text: string, toolCalls: seq<ToolCall>, stopReason: StopReason, errorMessage: Option<string>)

  datatype Message =
    | User(text: string)
    | Custom(kind: string, text: string)
    | Assistant(reply: Reply)
    | ToolResult(toolCallId: string, toolName: string, text: string, isError: bool)

  datatype Event =
    | AgentStart
    | TurnStart
    | MessageStart(message: Message)
    | MessageUpdate(message: Message)
    | MessageEnd(message: Message)
    | ToolStart(id: string)
    | ToolUpdate(id: string)
    | ToolEnd(id: string, isError: bool)
    | TurnEnd(message: Message, results: seq<Message>)
    | AgentEnd(messages: seq<Message>)

  // The part of the agent's state that events change.
  datatype AgentState = AgentState(
    messages: seq<Message>,
    streaming: Option<Message>,
    pendingToolCalls: set<string>,
    errorMessage: Option<string>)

  // processEvents, one event. An empty error message counts as none.
  function Reduce(s: AgentState, ev: Event): AgentState {
    match ev
    case MessageStart(m) => s.(streaming := Some(m))
    case MessageUpdate(m) => s.(streaming := Some(m))
    case MessageEnd(m) => s.(streaming := None, messages := s.messages + [m])
    case ToolStart(id) => s.(pendingToolCalls := s.pendingToolCalls + {id})
    case ToolEnd(id, _) => s.(pendingToolCalls := s.pendingToolCalls - {id})
    case TurnEnd(m, _) =>
      if m.Assistant? && m.reply.errorMessage.Some? && m.reply.errorMessage.value != ""
      then s.(errorMessage := m.reply.errorMessage) else s
    case AgentEnd(_) => s.(streaming := None)
    case _ => s
  }

  function ReduceAll(s: AgentState, trace: seq<Event>): AgentState {
    if trace == [] then s else Reduce(ReduceAll(s, trace[..|trace| - 1]), trace[|trace| - 1])
  }

  lemma ReduceOne(s: AgentState, trace: seq<Event>, ev: Event)
    ensures ReduceAll(s, trace + [ev]) == Reduce(ReduceAll(s, trace), ev)
  {
    assert (trace + [ev])[..|trace + [ev]| - 1] == trace;
  }

  // The messages that ended in a trace.
  function Ended(trace: seq<Event>): seq<Message> {
    if trace == [] then []
    else
      var last := trace[|trace| - 1];
      Ended(trace[..|trace| - 1]) + if last.MessageEnd? then [last.message] else []
  }

  lemma {:induction false} EndedConcat(a: seq<Event>, b: seq<Event>)
    ensures Ended(a + b) == Ended(a) + Ended(b)
  {
    if b == [] {
      assert a + b == a;
    } else {
      EndedConcat(a, b[..|b| - 1]);
      assert (a + b)[..|a + b| - 1] == a + b[..|b| - 1];
    }
  }

  // The transcript grows by exactly the ended messages, in order.
  lemma {:induction false} TranscriptIsEnded(s: AgentState, trace: seq<Event>)
    ensures ReduceAll(s, trace).messages == s.messages + Ended(trace)
  {
    if trace != [] { TranscriptIsEnded(s, trace[..|trace| - 1]); }
  }

  // ---------- The rest of the state, from the last event that bears on it ----------

  predicate Streams(ev: Event) {
    ev.MessageStart? || ev.MessageUpdate? || ev.MessageEnd? || ev.AgentEnd?
  }

  predicate Fails(ev: Event) {
    ev.TurnEnd? && ev.message.Assistant? && ev.message.reply.errorMessage.Some?
    && ev.message.reply.errorMessage.value != ""
  }

  predicate Handles(ev: Event, id: string) {
    (ev.ToolStart? || ev.ToolEnd?) && ev.id == id
  }

  // The message being streamed is that of the last start or update, unless a message or the run ended since.
  lemma {:induction false} StreamingIsLatest(s: AgentState, trace: seq<Event>, k: int)
    requires -1 <= k < |trace| && (k >= 0 ==> Streams(trace[k]))
    requires forall i :: k < i < |trace| ==> !Streams(trace[i])
    ensures ReduceAll(s, trace).streaming ==
      if k < 0 then s.streaming
      else if trace[k].MessageStart? || trace[k].MessageUpdate? then Some(trace[k].message)
      else None
  {
    if k < |trace| - 1 { StreamingIsLatest(s, trace[..|trace| - 1], k); }
  }

  // The error message is that of the last turn that ended with one.
  lemma {:induction false} ErrorIsLatest(s: AgentState, trace: seq<Event>, k: int)
    requires -1 <= k < |trace| && (k >= 0 ==> Fails(trace[k]))
    requires forall i :: k < i < |trace| ==> !Fails(trace[i])
    ensures ReduceAll(s, trace).errorMessage == if k < 0 then s.errorMessage else trace[k].message.reply.errorMessage
  {
    if k < |trace| - 1 { ErrorIsLatest(s, trace[..|trace| - 1], k); }
  }

  // A tool call is pending from its start until its end.
  lemma {:induction false} PendingIsLatest(s: AgentState, trace: seq<Event>, id: string, k: int)
    requires -1 <= k < |trace| && (k >= 0 ==> Handles(trace[k], id))
    requires forall i :: k < i < |trace| ==> !Handles(trace[i], id)
    ensures id in ReduceAll(s, trace).pendingToolCalls <==>
      if k < 0 then id in s.pendingToolCalls else trace[k].ToolStart?
  {
    if k < |trace| - 1 { PendingIsLatest(s, trace[..|trace| - 1], id, k); }
  }

  // ---------- Tool calls in flight ----------

  function CountStarts(trace: seq<Event>, id: string): nat {
    if trace == [] then 0
    else CountStarts(trace[..|trace| - 1], id) + if trace[|trace| - 1] == ToolStart(id) then 1 else 0
  }

  function CountEnds(trace: seq<Event>, id: string): nat {
    if trace == [] then 0
    else
      var last := trace[|trace| - 1];
      CountEnds(trace[..|trace| - 1], id) + if last.ToolEnd? && last.id == id then 1 else 0
  }

  lemma {:induction false} CountsConcat(a: seq<Event>, b: seq<Event>, id: string)
    ensures CountStarts(a + b, id) == CountStarts(a, id) + CountStarts(b, id)
    ensures CountEnds(a + b, id) == CountEnds(a, id) + CountEnds(b, id)
  {
    if b == [] {
      assert a + b == a;
    } else {
      CountsConcat(a, b[..|b| - 1], id);
      assert (a + b)[..|a + b| - 1] == a + b[..|b| - 1];
    }
  }

  // Starts not yet matched by an end.
  function InFlight(trace: seq<Event>, id: string): int {
    CountStarts(trace, id) - CountEnds(trace, id)
  }

  // Every end comes after a start of its own.
  ghost predicate EndsFollowStarts(trace: seq<Event>) {
    forall k, id :: 0 <= k <= |trace| ==> InFlight(trace[..k], id) >= 0
  }

  // Every start has exactly one later end.
  ghost predicate Paired(trace: seq<Event>) {
    EndsFollowStarts(trace) && forall id :: InFlight(trace, id) == 0
  }

  lemma {:induction false} PendingAreInFlight(s: AgentState, trace: seq<Event>, id: string)
    requires EndsFollowStarts(trace) && s.pendingToolCalls == {}
    ensures id in ReduceAll(s, trace).pendingToolCalls ==> InFlight(trace, id) > 0
  {
    if trace != [] {
      var front := trace[..|trace| - 1];
      forall k, x | 0 <= k <= |front| ensures InFlight(front[..k], x) >= 0 {
        assert front[..k] == trace[..k];
      }
      PendingAreInFlight(s, front, id);
      assert front[..|front|] == front && InFlight(front, id) >= 0;
    }
  }

  // After a paired trace no tool call is pending.
  lemma PairedLeavesNonePending(s: AgentState, trace: seq<Event>)
    requires Paired(trace) && s.pendingToolCalls == {}
    ensures ReduceAll(s, trace).pendingToolCalls == {}
  {
    forall id ensures id !in ReduceAll(s, trace).pendingToolCalls {
      PendingAreInFlight(s, trace, id);
    }
  }

  lemma PairedConcat(a: seq<Event>, b: seq<Event>)
    requires Paired(a) && Paired(b)
    ensures Paired(a + b)
  {
    forall k, id | 0 <= k <= |a + b| ensures InFlight((a + b)[..k], id) >= 0 {
      if k <= |a| {
        assert (a + b)[..k] == a[..k];
      } else {
        var rest := b[..k - |a|];
        assert (a + b)[..k] == a + rest;
        CountsConcat(a, rest, id);
        assert InFlight(a, id) == 0 && InFlight(rest, id) >= 0;
      }
    }
    forall id ensures InFlight(a + b, id) == 0 {
      CountsConcat(a, b, id);
      assert InFlight(a, id) == 0 && InFlight(b, id) == 0;
    }
  }

  // What one event does to the count of calls in flight under an id.
  function Change(ev: Event, id: string): int {
    if ev == ToolStart(id) then 1 else if ev.ToolEnd? && ev.id == id then -1 else 0
  }

  // One more event keeps ends behind starts if it does not end what was not started.
  lemma FollowOne(trace: seq<Event>, ev: Event)
    requires EndsFollowStarts(trace) && (ev.ToolEnd? ==> InFlight(trace, ev.id) > 0)
    ensures EndsFollowStarts(trace + [ev])
    ensures forall id :: InFlight(trace + [ev], id) == InFlight(trace, id) + Change(ev, id)
  {
    var more := trace + [ev];
    assert more[..|more| - 1] == trace;
    assert forall id :: InFlight(more, id) == InFlight(trace, id) + Change(ev, id);
    forall k, id | 0 <= k <= |more| ensures InFlight(more[..k], id) >= 0 {
      if k <= |trace| {
        assert more[..k] == trace[..k];
      } else {
        assert more[..k] == more && trace[..|trace|] == trace;
        assert InFlight(trace, id) >= 0;
      }
    }
  }

  lemma {:induction false} EndedSomewhere(trace: seq<Event>, id: string) returns (j: nat)
    requires CountEnds(trace, id) > 0
    ensures j < |trace| && trace[j].ToolEnd? && trace[j].id == id
  {
    j := |trace| - 1;
    if !(trace[j].ToolEnd? && trace[j].id == id) { j := EndedSomewhere(trace[..j], id); }
  }

  lemma {:induction false} EndIsCounted(trace: seq<Event>, k: nat, id: string)
    requires k < |trace| && trace[k].ToolEnd? && trace[k].id == id
    ensures CountEnds(trace, id) > 0
  {
    if k < |trace| - 1 { EndIsCounted(trace[..|trace| - 1], k, id); }
  }

  lemma {:induction false} TwoEnds(trace: seq<Event>, i: nat, j: nat, id: string)
    requires i < j < |trace|
    requires trace[i].ToolEnd? && trace[i].id == id && trace[j].ToolEnd? && trace[j].id == id
    ensures CountEnds(trace, id) > 1
  {
    if j < |trace| - 1 {
      TwoEnds(trace[..|trace| - 1], i, j, id);
    } else {
      EndIsCounted(trace[..j], i, id);
    }
  }

  // For an id used once, pairing is what it says: the start has one end, and that end is later.
  lemma StartHasOneEnd(trace: seq<Event>, k: nat, id: string) returns (j: nat)
    requires Paired(trace) && CountStarts(trace, id) == 1
    requires k < |trace| && trace[k] == ToolStart(id)
    ensures k < j < |trace| && trace[j].ToolEnd? && trace[j].id == id
    ensures forall i :: 0 <= i < |trace| && trace[i].ToolEnd? && trace[i].id == id ==> i == j
  {
    j := LaterEnd(trace, k, id);
    assert InFlight(trace, id) == 0;
    forall i | 0 <= i < |trace| && trace[i].ToolEnd? && trace[i].id == id ensures i == j {
      if i < j { TwoEnds(trace, i, j, id); }
      if j < i { TwoEnds(trace, j, i, id); }
    }
  }

  lemma LaterEnd(trace: seq<Event>, k: nat, id: string) returns (j: nat)
    requires Paired(trace) && CountStarts(trace, id) == 1
    requires k < |trace| && trace[k] == ToolStart(id)
    ensures k < j < |trace| && trace[j].ToolEnd? && trace[j].id == id
  {
    var before, rest := trace[..k + 1], trace[k + 1..];
    assert trace == before + rest && before[..k] == trace[..k];
    CountsConcat(before, rest, id);
    assert InFlight(trace, id) == 0;
    j := EndedSomewhere(rest, id) by {
      assert CountStarts(before, id) == CountStarts(trace[..k], id) + 1;
      assert InFlight(trace[..k], id) >= 0;
    }
    j := k + 1 + j;
  }
}
