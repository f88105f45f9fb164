// A run of the agent loop as the list of its turns: what the turns emit, what they add to the
// transcript and to the context, and what every such run promises.

module AgentTurns {
  import opened Collections
  import opened AgentEvents
  import opened EventGrammar
  import opened ToolCalls

  // What came after a turn: it failed, the caller stopped it, or the queues were polled,
  // the follow-up queue only when there was nothing else to do.
  datatype After = Failed | Halted | Polled(steering: seq<Message>, followUps: Option<seq<Message>>)

  datatype Turn = Turn(
    prompts: seq<Message>,         // the first turn's prompts
    polled: seq<Message>,          // queued messages injected before the reply
    stream: seq<StreamEvent>,
    reply: Reply,
    tools: seq<Event>,
    results: seq<Message>,
    continues: bool,               // tool results wait for an answer
    replaced: Option<seq<Message>>,  // the context the caller put in place after the turn
    after: After)

  predicate GoesOn(t: Turn) {
    t.after.Polled? && (t.continues || t.after.steering != [] || t.after.followUps.Or([]) != [])
  }

  function NextPolled(t: Turn): seq<Message>
    requires t.after.Polled?
  {
    if t.after.steering != [] then t.after.steering else t.after.followUps.Or([])
  }

  ghost predicate Sound(t: Turn) {
    && BatchTrace(t.reply.toolCalls, t.results, t.tools)
    && (t.after.Failed? <==> t.reply.stopReason in {Error, Aborted})
    && (t.after.Failed? ==> t.tools == [] && t.results == [] && t.replaced == None)
    && (t.continues ==> t.results != [])
    && AsksInOrder(t)
  }

  // Follow-ups are asked for only when no results are open and no steering message came.
  predicate AsksInOrder(t: Turn) {
    t.after.Polled? ==> (t.after.followUps.Some? <==> !t.continues && t.after.steering == [])
  }

  ghost predicate AllSound(turns: seq<Turn>) {
    forall i :: 0 <= i < |turns| ==> Sound(turns[i])
  }

  // Each later turn starts from what the polls before it brought.
  ghost predicate Chained(turns: seq<Turn>) {
    forall i :: 0 < i < |turns| ==> Follows(turns[i - 1], turns[i])
  }

  predicate Follows(previous: Turn, t: Turn) {
    GoesOn(previous) && t.prompts == [] && t.polled == NextPolled(previous)
  }

  ghost predicate IsRun(turns: seq<Turn>) {
    Chained(turns) && AllSound(turns)
  }

  ghost predicate IsWholeRun(turns: seq<Turn>) {
    IsRun(turns) && turns != [] && !GoesOn(turns[|turns| - 1])
  }

  // A turn is followed by another exactly when it was neither failed nor stopped and left something to answer:
  // tool results, steering messages, or, when there were neither, follow-ups; the next turn injects these.
  lemma NextTurnInjectsPolled(turns: seq<Turn>, i: nat)
    requires IsWholeRun(turns) && i < |turns|
    ensures var after := turns[i].after;
      (i + 1 < |turns|) == (after.Polled?
        && (turns[i].continues || after.steering != [] || (after.followUps.Some? && after.followUps.value != [])))
    ensures i + 1 < |turns| ==> turns[i + 1].prompts == []
    ensures i + 1 < |turns| && turns[i].after.steering != [] ==> turns[i + 1].polled == turns[i].after.steering
    ensures i + 1 < |turns| && turns[i].after.steering == [] ==>
      turns[i + 1].polled == if turns[i].continues then [] else turns[i].after.followUps.value
  {
    assert Sound(turns[i]);
    if i + 1 < |turns| { assert Follows(turns[i], turns[i + 1]); }
  }

  // A follow-up is injected only after a turn without open tool calls and an empty steering poll.
  lemma FollowUpsWait(turns: seq<Turn>, i: nat)
    requires IsRun(turns) && 0 < i < |turns| && turns[i].polled != [] && turns[i - 1].after.steering == []
    ensures !turns[i - 1].continues
    ensures turns[i - 1].after.followUps == Some(turns[i].polled)
  {
    assert Follows(turns[i - 1], turns[i]) && Sound(turns[i - 1]);
  }

  // ---------- Messages and events ----------

  function Injected(t: Turn): seq<Message> { t.prompts + t.polled }

  function Added(t: Turn): seq<Message> { Injected(t) + [Assistant(t.reply)] + t.results }

  function AllAdded(turns: seq<Turn>): seq<Message> {
    if turns == [] then [] else AllAdded(turns[..|turns| - 1]) + Added(turns[|turns| - 1])
  }

  function Spoken(t: Turn): seq<Event> { Announce(Injected(t)) + StreamEvents(t.stream, t.reply) }

  function Render(t: Turn): seq<Event> {
    [TurnStart] + Spoken(t) + t.tools + [TurnEnd(Assistant(t.reply), t.results)]
  }

  function RenderAll(turns: seq<Turn>): seq<Event> {
    if turns == [] then [AgentStart] else RenderAll(turns[..|turns| - 1]) + Render(turns[|turns| - 1])
  }

  function WholeTrace(turns: seq<Turn>): seq<Event> {
    RenderAll(turns) + [AgentEnd(AllAdded(turns))]
  }

  // What the lemmas about traces need of a turn's tools.
  predicate ToolsEndInResults(t: Turn) { Ended(t.tools) == t.results }

  predicate ToolsKeepPlace(t: Turn) { Walk(InTurn(true), t.tools) == InTurn(true) }

  ghost predicate ToolsPaired(t: Turn) { Paired(t.tools) }

  lemma SoundParts(turns: seq<Turn>)
    requires AllSound(turns)
    ensures forall t :: t in turns ==> ToolsEndInResults(t) && ToolsKeepPlace(t) && ToolsPaired(t) && AsksInOrder(t)
  {
    forall t | t in turns ensures ToolsEndInResults(t) && ToolsKeepPlace(t) && ToolsPaired(t) && AsksInOrder(t) {
      var i :| 0 <= i < |turns| && turns[i] == t;
      assert Sound(turns[i]);
    }
  }

  lemma TurnEnds(spoken: seq<Event>, tools: seq<Event>, end: Event)
    requires end.TurnEnd?
    ensures Ended([TurnStart] + spoken + tools + [end]) == Ended(spoken) + Ended(tools)
  {
    var none: seq<Event> := [];
    var a := none + [TurnStart];
    EndedOne(none, TurnStart);
    assert Ended(a) == [];
    EndedConcat(a, spoken);
    assert Ended(a + spoken) == Ended(spoken);
    EndedConcat(a + spoken, tools);
    EndedOne(a + spoken + tools, end);
    assert a == [TurnStart];
  }

  lemma RenderEnds(t: Turn)
    requires ToolsEndInResults(t)
    ensures Ended(Render(t)) == Added(t)
  {
    TurnEnds(Spoken(t), t.tools, TurnEnd(Assistant(t.reply), t.results));
    EndedConcat(Announce(Injected(t)), StreamEvents(t.stream, t.reply));
    AnnouncedEnd(Injected(t));
    StreamEndsReply(t.stream, t.reply);
  }

  lemma {:induction false} AllRenderedEnd(turns: seq<Turn>)
    requires forall t :: t in turns ==> ToolsEndInResults(t)
    ensures Ended(RenderAll(turns)) == AllAdded(turns)
  {
    var none: seq<Event> := [];
    if turns == [] {
      assert none + [AgentStart] == [AgentStart];
      EndedOne(none, AgentStart);
    } else {
      var front, last := turns[..|turns| - 1], turns[|turns| - 1];
      assert forall t :: t in front ==> t in turns;
      AllRenderedEnd(front);
      EndedConcat(RenderAll(front), Render(last));
      RenderEnds(last);
    }
  }

  // The reducer's transcript is the one before the run followed by the messages agent_end carries.
  lemma TranscriptRefinement(s: AgentState, turns: seq<Turn>)
    requires AllSound(turns)
    ensures ReduceAll(s, WholeTrace(turns)).messages == s.messages + AllAdded(turns)
    ensures ReduceAll(s, WholeTrace(turns)).streaming == None
  {
    var end := AgentEnd(AllAdded(turns));
    SoundParts(turns);
    AllRenderedEnd(turns);
    EndedOne(RenderAll(turns), end);
    TranscriptIsEnded(s, WholeTrace(turns));
    ReduceOne(s, RenderAll(turns), end);
  }

  // ---------- Tool calls ----------

  lemma RenderIsPaired(t: Turn)
    requires ToolsPaired(t)
    ensures Paired(Render(t))
  {
    AnnouncedNoTools(Injected(t));
    StreamEndsReply(t.stream, t.reply);
    var head := [TurnStart] + Spoken(t);
    var tail := [TurnEnd(Assistant(t.reply), t.results)];
    NoToolsIsPaired(head);
    NoToolsIsPaired(tail);
    PairedConcat(head, t.tools);
    PairedConcat(head + t.tools, tail);
    assert Render(t) == head + t.tools + tail;
  }

  lemma {:induction false} RunIsPaired(turns: seq<Turn>)
    requires forall t :: t in turns ==> ToolsPaired(t)
    ensures Paired(RenderAll(turns))
  {
    if turns == [] {
      NoToolsIsPaired([AgentStart]);
    } else {
      var front, last := turns[..|turns| - 1], turns[|turns| - 1];
      RunIsPaired(front);
      RenderIsPaired(last);
      PairedConcat(RenderAll(front), Render(last));
    }
  }

  // After any number of turns, that is at every turn_end, no tool call is pending.
  lemma NonePendingBetweenTurns(s: AgentState, turns: seq<Turn>)
    requires s.pendingToolCalls == {} && AllSound(turns)
    ensures ReduceAll(s, RenderAll(turns)).pendingToolCalls == {}
    ensures ReduceAll(s, WholeTrace(turns)).pendingToolCalls == {}
  {
    SoundParts(turns);
    RunIsPaired(turns);
    PairedLeavesNonePending(s, RenderAll(turns));
    ReduceOne(s, RenderAll(turns), AgentEnd(AllAdded(turns)));
  }

  // ---------- Event order ----------

  // No message of the model's own was injected, and its stream did not start over.
  predicate Orderly(t: Turn) {
    !HasAssistant(Injected(t)) && Openings(Live(t.stream)) <= 1
  }

  lemma SpokenWalk(t: Turn)
    ensures Walk(InTurn(false), Spoken(t)) == if Orderly(t) then InTurn(true) else Broken
  {
    var said, streamed := Announce(Injected(t)), StreamEvents(t.stream, t.reply);
    WalkConcat(InTurn(false), said, streamed);
    AnnouncedBeforeReply(Injected(t));
    StreamIsOneReply(InTurn(false), t.stream, t.reply);
    StreamIsOneReply(InTurn(true), t.stream, t.reply);
    BrokenStaysBroken(streamed);
  }

  lemma WalkTurn(p: Phase, spoken: seq<Event>, tools: seq<Event>, end: Event)
    ensures Walk(p, [TurnStart] + spoken + tools + [end])
      == Advance(Walk(Walk(Advance(p, TurnStart), spoken), tools), end)
  {
    WalkOne(p, [], TurnStart);
    assert [] + [TurnStart] == [TurnStart];
    WalkConcat(p, [TurnStart], spoken);
    WalkConcat(p, [TurnStart] + spoken, tools);
    WalkOne(p, [TurnStart] + spoken + tools, end);
  }

  lemma RenderWalk(p: Phase, t: Turn)
    requires ToolsKeepPlace(t) && p in {Started, Between}
    ensures Walk(p, Render(t)) == if Orderly(t) then Between else Broken
  {
    WalkTurn(p, Spoken(t), t.tools, TurnEnd(Assistant(t.reply), t.results));
    SpokenWalk(t);
    BrokenStaysBroken(t.tools);
  }

  lemma NextTurnWalk(trace: seq<Event>, t: Turn)
    requires ToolsKeepPlace(t) && Walk(Fresh, trace) in {Started, Between, Broken}
    ensures Walk(Fresh, trace + Render(t)) == if Walk(Fresh, trace) != Broken && Orderly(t) then Between else Broken
  {
    WalkConcat(Fresh, trace, Render(t));
    if Walk(Fresh, trace) == Broken {
      BrokenStaysBroken(Render(t));
    } else {
      RenderWalk(Walk(Fresh, trace), t);
    }
  }

  predicate AllOrderly(turns: seq<Turn>) {
    forall t :: t in turns ==> Orderly(t)
  }

  lemma {:induction false} RunWalk(turns: seq<Turn>)
    requires forall t :: t in turns ==> ToolsKeepPlace(t)
    ensures Walk(Fresh, RenderAll(turns))
      == if !AllOrderly(turns) then Broken else if turns == [] then Started else Between
  {
    if turns == [] {
      WalkOne(Fresh, [], AgentStart);
      assert [] + [AgentStart] == [AgentStart];
    } else {
      var front, last := turns[..|turns| - 1], turns[|turns| - 1];
      assert turns == front + [last];
      RunWalk(front);
      NextTurnWalk(RenderAll(front), last);
    }
  }

  lemma EndsOver(trace: seq<Event>, messages: seq<Message>)
    ensures Walk(Fresh, trace + [AgentEnd(messages)]) == Over <==> Walk(Fresh, trace) == Between
  {
    WalkOne(Fresh, trace, AgentEnd(messages));
  }

  // A whole run keeps the event grammar exactly when every turn is orderly.
  lemma EventOrder(turns: seq<Turn>)
    requires turns != [] && AllSound(turns)
    ensures Walk(Fresh, WholeTrace(turns)) == Over <==> AllOrderly(turns)
  {
    SoundParts(turns);
    RunWalk(turns);
    EndsOver(RenderAll(turns), AllAdded(turns));
  }

  // ---------- The loop's own context ----------

  function Entries(t: Turn): seq<Message> { Injected(t) + StreamEntries(t.stream, t.reply) + t.results }

  function ContextAfter(context: seq<Message>, turns: seq<Turn>): seq<Message> {
    if turns == [] then context
    else
      var last := turns[|turns| - 1];
      last.replaced.Or(ContextAfter(context, turns[..|turns| - 1]) + Entries(last))
  }

  lemma {:induction false} ContextLength(context: seq<Message>, turns: seq<Turn>)
    requires forall i :: 0 <= i < |turns| ==> turns[i].replaced == None
    ensures |ContextAfter(context, turns)| >= |context| + |AllAdded(turns)|
    ensures (exists i :: 0 <= i < |turns| && Openings(Live(turns[i].stream)) > 1)
      ==> |ContextAfter(context, turns)| > |context| + |AllAdded(turns)|
    ensures (forall i :: 0 <= i < |turns| ==> Openings(Live(turns[i].stream)) <= 1)
      ==> ContextAfter(context, turns) == context + AllAdded(turns)
  {
    if turns != [] {
      var front, last := turns[..|turns| - 1], turns[|turns| - 1];
      ContextLength(context, front);
      OneEntryIffOneOpening(last.stream, last.reply);
      assert |Entries(last)| >= |Added(last)|;
    }
  }

  // Unless the caller replaces it, the context agrees with the transcript exactly when no
  // stream started over.
  lemma ContextAgreesWithTranscript(context: seq<Message>, turns: seq<Turn>)
    requires forall i :: 0 <= i < |turns| ==> turns[i].replaced == None
    ensures ContextAfter(context, turns) == context + AllAdded(turns)
      <==> forall i :: 0 <= i < |turns| ==> Openings(Live(turns[i].stream)) <= 1
  {
    ContextLength(context, turns);
  }

  // ---------- Queued messages ----------

  function SteeringPolls(turns: seq<Turn>): seq<Message> {
    if turns == [] then []
    else
      var last := turns[|turns| - 1];
      SteeringPolls(turns[..|turns| - 1]) + if last.after.Polled? then last.after.steering else []
  }

  function FollowUpPolls(turns: seq<Turn>): seq<Message> {
    if turns == [] then []
    else
      var last := turns[|turns| - 1];
      FollowUpPolls(turns[..|turns| - 1]) + if last.after.Polled? then last.after.followUps.Or([]) else []
  }

  // What each queue contributed to the transcript.
  function InjectedSteering(turns: seq<Turn>): seq<Message> {
    if turns == [] then []
    else
      var k := |turns| - 1;
      var steered := k == 0 || (turns[k - 1].after.Polled? && turns[k - 1].after.steering != []);
      InjectedSteering(turns[..k]) + if steered then turns[k].polled else []
  }

  function InjectedFollowUps(turns: seq<Turn>): seq<Message> {
    if turns == [] then []
    else
      var k := |turns| - 1;
      var steered := k == 0 || (turns[k - 1].after.Polled? && turns[k - 1].after.steering != []);
      InjectedFollowUps(turns[..k]) + if steered then [] else turns[k].polled
  }

  lemma PolledIsInjected(previous: Turn, t: Turn)
    requires Follows(previous, t) && AsksInOrder(previous)
    ensures previous.after.Polled?
    ensures previous.after.steering == if previous.after.steering != [] then t.polled else []
    ensures previous.after.followUps.Or([]) == if previous.after.steering != [] then [] else t.polled
  {
  }

  lemma LastTwo(turns: seq<Turn>)
    requires Chained(turns) && |turns| > 1 && forall t :: t in turns ==> AsksInOrder(t)
    ensures Chained(turns[..|turns| - 1]) && forall t :: t in turns[..|turns| - 1] ==> AsksInOrder(t)
    ensures Follows(turns[|turns| - 2], turns[|turns| - 1]) && AsksInOrder(turns[|turns| - 2])
  {
    var front := turns[..|turns| - 1];
    assert turns[|turns| - 2] in turns;
    forall i | 0 < i < |front| ensures Follows(front[i - 1], front[i]) { assert Follows(turns[i - 1], turns[i]); }
    forall t | t in front ensures AsksInOrder(t) { assert t in turns; }
    assert Follows(turns[|turns| - 2], turns[|turns| - 1]);
  }

  lemma {:induction false} SteeringLags(turns: seq<Turn>)
    requires Chained(turns) && turns != [] && forall t :: t in turns ==> AsksInOrder(t)
    ensures turns[0].polled + SteeringPolls(turns[..|turns| - 1]) == InjectedSteering(turns)
  {
    var k := |turns| - 1;
    if k > 0 {
      LastTwo(turns);
      SteeringLags(turns[..k]);
      assert turns[..k][..k - 1] == turns[..k - 1];
      PolledIsInjected(turns[k - 1], turns[k]);
    }
  }

  lemma {:induction false} FollowUpsLag(turns: seq<Turn>)
    requires Chained(turns) && turns != [] && forall t :: t in turns ==> AsksInOrder(t)
    ensures FollowUpPolls(turns[..|turns| - 1]) == InjectedFollowUps(turns)
  {
    var k := |turns| - 1;
    if k > 0 {
      LastTwo(turns);
      FollowUpsLag(turns[..k]);
      assert turns[..k][..k - 1] == turns[..k - 1];
      PolledIsInjected(turns[k - 1], turns[k]);
    }
  }

  // When a run is over, every message the queues handed out was injected, in order.
  lemma NothingDrainedIsLost(turns: seq<Turn>)
    requires IsWholeRun(turns)
    ensures InjectedSteering(turns) == turns[0].polled + SteeringPolls(turns)
    ensures InjectedFollowUps(turns) == FollowUpPolls(turns)
  {
    SoundParts(turns);
    SteeringLags(turns);
    FollowUpsLag(turns);
  }
}
