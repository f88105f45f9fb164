// The order in which the events of a run may come, as a recognizer, and the two simplest
// runs of events: announced messages and one streamed reply.

module EventGrammar {
  import opened Collections
  import opened AgentEvents

  // Where a trace stands. In a turn: whether the model has answered, and whether a message is open.
  datatype Phase =
    | Fresh
    | Started
    | InTurn(replied: bool)
    | Open(replied: bool, byModel: bool)
    | Between
    | Over
    | Broken

  // One agent_start, then turns, then one agent_end; in a turn one message at a time, the
  // model's reply once, updates only inside it, and tool events only after it.
  function Advance(p: Phase, ev: Event): Phase {
    match ev
    case AgentStart => if p.Fresh? then Started else Broken
    case TurnStart => if p.Started? || p.Between? then InTurn(false) else Broken
    case MessageStart(m) => if p.InTurn? && (p.replied ==> m.ToolResult?) then Open(p.replied, m.Assistant?) else Broken
    case MessageUpdate(m) => if p.Open? && p.byModel && m.Assistant? then p else Broken
    case MessageEnd(m) => if p.Open? && p.byModel == m.Assistant? then InTurn(p.replied || p.byModel) else Broken
    case ToolStart(_) => if p == InTurn(true) then p else Broken
    case ToolUpdate(_) => if p == InTurn(true) then p else Broken
    case ToolEnd(_, _) => if p == InTurn(true) then p else Broken
    case TurnEnd(_, _) => if p == InTurn(true) then Between else Broken
    case AgentEnd(_) => if p.Between? then Over else Broken
  }

  function Walk(p: Phase, trace: seq<Event>): Phase {
    if trace == [] then p else Advance(Walk(p, trace[..|trace| - 1]), trace[|trace| - 1])
  }

  // ---------- The grammar, event by event ----------

  // The model has answered in the turn that the k-th event belongs to.
  ghost predicate Replied(trace: seq<Event>, k: int)
    requires 0 <= k <= |trace|
  {
    exists j :: 0 <= j < k && AnswersUntil(trace, j, k)
  }

  ghost predicate AnswersUntil(trace: seq<Event>, j: int, k: int)
    requires 0 <= j < k <= |trace|
  {
    trace[j].MessageEnd? && trace[j].message.Assistant? && forall i :: j < i < k ==> !trace[i].TurnStart?
  }

  // After this event a turn is open, and no message is.
  ghost predicate Rests(ev: Event) {
    ev.TurnStart? || ev.MessageEnd? || ev.ToolStart? || ev.ToolUpdate? || ev.ToolEnd?
  }

  // Where each event may stand.
  ghost predicate MayStand(trace: seq<Event>, k: int)
    requires 0 <= k < |trace|
  {
    match trace[k]
    case AgentStart => k == 0
    case TurnStart => k > 0 && (trace[k - 1].AgentStart? || trace[k - 1].TurnEnd?)
    case MessageStart(m) => k > 0 && Rests(trace[k - 1]) && (Replied(trace, k) ==> m.ToolResult?)
    case MessageUpdate(m) =>
      && k > 0 && m.Assistant?
      && (trace[k - 1].MessageUpdate? || (trace[k - 1].MessageStart? && trace[k - 1].message.Assistant?))
    case MessageEnd(m) =>
      && k > 0
      && (if trace[k - 1].MessageUpdate? then m.Assistant?
          else trace[k - 1].MessageStart? && (trace[k - 1].message.Assistant? <==> m.Assistant?))
    case ToolStart(_) => k > 0 && Rests(trace[k - 1]) && Replied(trace, k)
    case ToolUpdate(_) => k > 0 && Rests(trace[k - 1]) && Replied(trace, k)
    case ToolEnd(_, _) => k > 0 && Rests(trace[k - 1]) && Replied(trace, k)
    case TurnEnd(_, _) => k > 0 && Rests(trace[k - 1]) && Replied(trace, k)
    case AgentEnd(_) => k > 0 && trace[k - 1].TurnEnd?
  }

  ghost function PhaseAt(trace: seq<Event>, n: nat): Phase
    requires n <= |trace|
  {
    if n == 0 then Fresh
    else match trace[n - 1]
      case AgentStart => Started
      case TurnStart => InTurn(false)
      case MessageStart(m) => Open(Replied(trace, n), m.Assistant?)
      case MessageUpdate(_) => Open(Replied(trace, n), true)
      case TurnEnd(_, _) => Between
      case AgentEnd(_) => Over
      case _ => InTurn(Replied(trace, n))
  }

  lemma RepliedNext(trace: seq<Event>, k: nat)
    requires k < |trace|
    ensures Replied(trace, k + 1) <==>
      (trace[k].MessageEnd? && trace[k].message.Assistant?) || (Replied(trace, k) && !trace[k].TurnStart?)
  {
    if trace[k].MessageEnd? && trace[k].message.Assistant? {
      assert AnswersUntil(trace, k, k + 1);
    }
    if Replied(trace, k) && !trace[k].TurnStart? {
      var j :| 0 <= j < k && AnswersUntil(trace, j, k);
      assert AnswersUntil(trace, j, k + 1);
    }
    if Replied(trace, k + 1) {
      var j :| 0 <= j < k + 1 && AnswersUntil(trace, j, k + 1);
      if j < k { assert AnswersUntil(trace, j, k); }
    }
  }

  // One event: it is let through exactly when it may stand there.
  lemma StandsIffAdvances(trace: seq<Event>, k: nat)
    requires k < |trace|
    ensures Advance(PhaseAt(trace, k), trace[k]) == if MayStand(trace, k) then PhaseAt(trace, k + 1) else Broken
  {
    RepliedNext(trace, k);
    if k > 0 { RepliedNext(trace, k - 1); }
  }

  ghost predicate AllStand(trace: seq<Event>, n: nat)
    requires n <= |trace|
  {
    forall k :: 0 <= k < n ==> MayStand(trace, k)
  }

  lemma {:induction false} WalkIsPhase(trace: seq<Event>, n: nat)
    requires n <= |trace|
    ensures Walk(Fresh, trace[..n]) == if AllStand(trace, n) then PhaseAt(trace, n) else Broken
  {
    if n > 0 {
      WalkIsPhase(trace, n - 1);
      assert trace[..n][..n - 1] == trace[..n - 1];
      StandsIffAdvances(trace, n - 1);
    }
  }

  // A trace keeps the grammar exactly when it ends with agent_end and every event may stand where it does:
  // agent_start only at the very front, turns after it or after each other, messages one at a time and after
  // the reply only tool results, updates only inside a message of the model, tool events and turn_end only
  // after the reply.
  lemma KeepsGrammarIff(trace: seq<Event>)
    ensures Walk(Fresh, trace) == Over <==>
      trace != [] && trace[|trace| - 1].AgentEnd? && forall k :: 0 <= k < |trace| ==> MayStand(trace, k)
  {
    WalkIsPhase(trace, |trace|);
    assert trace[..|trace|] == trace;
  }

  lemma {:induction false} WalkConcat(p: Phase, a: seq<Event>, b: seq<Event>)
    ensures Walk(p, a + b) == Walk(Walk(p, a), b)
  {
    if b == [] {
      assert a + b == a;
    } else {
      WalkConcat(p, a, b[..|b| - 1]);
      assert (a + b)[..|a + b| - 1] == a + b[..|b| - 1];
    }
  }

  lemma WalkOne(p: Phase, trace: seq<Event>, ev: Event)
    ensures Walk(p, trace + [ev]) == Advance(Walk(p, trace), ev)
  {
    assert (trace + [ev])[..|trace + [ev]| - 1] == trace;
  }

  lemma EndedOne(trace: seq<Event>, ev: Event)
    ensures Ended(trace + [ev]) == Ended(trace) + if ev.MessageEnd? then [ev.message] else []
  {
    assert (trace + [ev])[..|trace + [ev]| - 1] == trace;
  }

  lemma {:induction false} BrokenStaysBroken(trace: seq<Event>)
    ensures Walk(Broken, trace) == Broken
  {
    if trace != [] { BrokenStaysBroken(trace[..|trace| - 1]); }
  }

  // ---------- Traces without tool events ----------

  ghost predicate NoTools(trace: seq<Event>) {
    forall k :: 0 <= k < |trace| ==> !trace[k].ToolStart? && !trace[k].ToolEnd?
  }

  lemma {:induction false} NoToolsNoCalls(trace: seq<Event>, id: string)
    requires NoTools(trace)
    ensures CountStarts(trace, id) == CountEnds(trace, id) == 0
  {
    if trace != [] { NoToolsNoCalls(trace[..|trace| - 1], id); }
  }

  lemma NoToolsIsPaired(trace: seq<Event>)
    requires NoTools(trace)
    ensures Paired(trace)
  {
    forall k, id | 0 <= k <= |trace| ensures InFlight(trace[..k], id) >= 0 { NoToolsNoCalls(trace[..k], id); }
    forall id ensures InFlight(trace, id) == 0 { NoToolsNoCalls(trace, id); }
  }

  // ---------- Messages announced whole ----------

  function Announce(ms: seq<Message>): seq<Event> {
    if ms == [] then []
    else
      var last := ms[|ms| - 1];
      Announce(ms[..|ms| - 1]) + [MessageStart(last), MessageEnd(last)]
  }

  predicate HasAssistant(ms: seq<Message>) {
    exists k :: 0 <= k < |ms| && ms[k].Assistant?
  }

  lemma OneAnnounced(p: Phase, m: Message)
    ensures Ended([MessageStart(m), MessageEnd(m)]) == [m]
    ensures Walk(p, [MessageStart(m), MessageEnd(m)]) == Advance(Advance(p, MessageStart(m)), MessageEnd(m))
  {
    var none: seq<Event> := [];
    var open := none + [MessageStart(m)];
    assert [MessageStart(m), MessageEnd(m)] == open + [MessageEnd(m)];
    assert Ended(none) == [] && Walk(p, none) == p;
    EndedOne(none, MessageStart(m));
    EndedOne(open, MessageEnd(m));
    WalkOne(p, none, MessageStart(m));
    WalkOne(p, open, MessageEnd(m));
  }

  lemma {:induction false} AnnouncedEnd(ms: seq<Message>)
    ensures Ended(Announce(ms)) == ms
  {
    if ms != [] {
      var front, last := ms[..|ms| - 1], ms[|ms| - 1];
      AnnouncedEnd(front);
      EndedConcat(Announce(front), [MessageStart(last), MessageEnd(last)]);
      OneAnnounced(Fresh, last);
    }
  }

  lemma {:induction false} AnnouncedNoTools(ms: seq<Message>)
    ensures NoTools(Announce(ms))
  {
    if ms != [] { AnnouncedNoTools(ms[..|ms| - 1]); }
  }

  // Before the reply, anything but a reply may be announced.
  lemma {:induction false} AnnouncedBeforeReply(ms: seq<Message>)
    ensures !HasAssistant(ms) ==> Walk(InTurn(false), Announce(ms)) == InTurn(false)
    ensures HasAssistant(ms) ==> Walk(InTurn(false), Announce(ms)) in {InTurn(true), Broken}
  {
    if ms != [] {
      var front, last := ms[..|ms| - 1], ms[|ms| - 1];
      AnnouncedBeforeReply(front);
      WalkConcat(InTurn(false), Announce(front), [MessageStart(last), MessageEnd(last)]);
      OneAnnounced(InTurn(false), last);
      OneAnnounced(InTurn(true), last);
      BrokenStaysBroken([MessageStart(last), MessageEnd(last)]);
      assert HasAssistant(ms) <==> HasAssistant(front) || last.Assistant?;
    }
  }

  // ---------- One streamed reply ----------

  // "start", the nine kinds of delta, and "done" or "error".
  datatype StreamEvent = Opening(partial: Reply) | Delta(partial: Reply) | Closing

  // Nothing after the first closing event is read.
  function Live(stream: seq<StreamEvent>): seq<StreamEvent> {
    if stream == [] || stream[0].Closing? then [] else [stream[0]] + Live(stream[1..])
  }

  function Openings(live: seq<StreamEvent>): nat {
    if live == [] then 0 else Openings(live[..|live| - 1]) + if live[|live| - 1].Opening? then 1 else 0
  }

  // An opening shows a message start; a delta before any opening is dropped.
  function ShowOne(ev: StreamEvent, begun: bool): seq<Event> {
    match ev
    case Opening(p) => [MessageStart(Assistant(p))]
    case Delta(p) => if begun then [MessageUpdate(Assistant(p))] else []
    case Closing => []
  }

  function Shown(live: seq<StreamEvent>): seq<Event> {
    if live == [] then []
    else
      var front := live[..|live| - 1];
      Shown(front) + ShowOne(live[|live| - 1], Openings(front) > 0)
  }

  // The entries the stream adds to the context: one for each opening, deltas rewrite the last.
  function AddPartial(ps: seq<Message>, ev: StreamEvent): seq<Message> {
    match ev
    case Opening(p) => ps + [Assistant(p)]
    case Delta(p) => if ps != [] then ps[|ps| - 1 := Assistant(p)] else ps
    case Closing => ps
  }

  function Partials(live: seq<StreamEvent>): (ps: seq<Message>)
    ensures |ps| == Openings(live)
  {
    if live == [] then [] else AddPartial(Partials(live[..|live| - 1]), live[|live| - 1])
  }

  // A stream that never opened has its reply shown at the end.
  function Told(live: seq<StreamEvent>, reply: Reply): seq<Event> {
    if Openings(live) == 0 then Shown(live) + [MessageStart(Assistant(reply))] else Shown(live)
  }

  function StreamEvents(stream: seq<StreamEvent>, reply: Reply): seq<Event> {
    Told(Live(stream), reply) + [MessageEnd(Assistant(reply))]
  }

  // The finished reply takes the place of the last partial one.
  function StreamEntries(stream: seq<StreamEvent>, reply: Reply): seq<Message> {
    var ps := Partials(Live(stream));
    if ps == [] then [Assistant(reply)] else ps[|ps| - 1 := Assistant(reply)]
  }

  // A stream that starts over leaves the abandoned partial message in the context.
  lemma OneEntryIffOneOpening(stream: seq<StreamEvent>, reply: Reply)
    ensures |StreamEntries(stream, reply)| == if Openings(Live(stream)) <= 1 then 1 else Openings(Live(stream))
    ensures StreamEntries(stream, reply) == [Assistant(reply)] <==> Openings(Live(stream)) <= 1
  {
  }

  lemma ShowsAtMostOne(shown: seq<Event>, ev: StreamEvent, begun: bool)
    ensures Ended(shown + ShowOne(ev, begun)) == Ended(shown)
    ensures NoTools(shown) ==> NoTools(shown + ShowOne(ev, begun))
  {
    var one := ShowOne(ev, begun);
    if one == [] {
      assert shown + one == shown;
    } else {
      assert one == [one[0]];
      EndedOne(shown, one[0]);
    }
  }

  lemma {:induction false} ShownEndsNothing(live: seq<StreamEvent>)
    ensures Ended(Shown(live)) == [] && NoTools(Shown(live))
    ensures Openings(live) == 0 ==> Shown(live) == []
  {
    if live != [] {
      var front, last := live[..|live| - 1], live[|live| - 1];
      ShownEndsNothing(front);
      ShowsAtMostOne(Shown(front), last, Openings(front) > 0);
    }
  }

  lemma {:induction false} ShownIsOpen(live: seq<StreamEvent>, p: Phase)
    requires p.InTurn? && Openings(live) > 0
    ensures Walk(p, Shown(live)) == if Openings(live) == 1 && !p.replied then Open(false, true) else Broken
  {
    var front, last := live[..|live| - 1], live[|live| - 1];
    if Openings(front) == 0 {
      ShownEndsNothing(front);
      WalkOne(p, [], MessageStart(Assistant(last.partial)));
    } else {
      ShownIsOpen(front, p);
      if last.Closing? { assert Shown(live) == Shown(front); }
      if last.Opening? { WalkOne(p, Shown(front), MessageStart(Assistant(last.partial))); }
      if last.Delta? { WalkOne(p, Shown(front), MessageUpdate(Assistant(last.partial))); }
    }
  }

  lemma ToldEndsNothing(live: seq<StreamEvent>, reply: Reply)
    ensures Ended(Told(live, reply)) == [] && NoTools(Told(live, reply))
  {
    ShownEndsNothing(live);
    EndedOne(Shown(live), MessageStart(Assistant(reply)));
  }

  lemma ToldIsOpen(p: Phase, live: seq<StreamEvent>, reply: Reply)
    requires p.InTurn?
    ensures Walk(p, Told(live, reply)) == if Openings(live) <= 1 && !p.replied then Open(false, true) else Broken
  {
    if Openings(live) == 0 {
      ShownEndsNothing(live);
      assert Walk(p, Shown(live)) == p;
      WalkOne(p, Shown(live), MessageStart(Assistant(reply)));
    } else {
      ShownIsOpen(live, p);
    }
  }

  // A streamed reply ends exactly one message, the reply.
  lemma StreamEndsReply(stream: seq<StreamEvent>, reply: Reply)
    ensures Ended(StreamEvents(stream, reply)) == [Assistant(reply)]
    ensures NoTools(StreamEvents(stream, reply))
  {
    ToldEndsNothing(Live(stream), reply);
    EndedOne(Told(Live(stream), reply), MessageEnd(Assistant(reply)));
  }

  // It is well formed exactly when it comes first and does not start over.
  lemma StreamIsOneReply(p: Phase, stream: seq<StreamEvent>, reply: Reply)
    requires p.InTurn?
    ensures Walk(p, StreamEvents(stream, reply))
      == if Openings(Live(stream)) <= 1 && !p.replied then InTurn(true) else Broken
  {
    ToldIsOpen(p, Live(stream), reply);
    WalkOne(p, Told(Live(stream), reply), MessageEnd(Assistant(reply)));
  }
}
