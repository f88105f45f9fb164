// Terminal-event notices: duplicate deliveries of one event compete for a five-minute lease,
// as interleaved database transactions.

module TerminalLease {
  import opened Collections

  const LEASE := 300

  datatype Key = Key(sessionId: int, taskId: string, status: string)

  datatype Notice = Notice(processingAt: Option<int>, processedAt: Option<int>)

  datatype Answer = Duplicate | InProgress | Conflict | WakeupFailed | Processed | Crashed

  // How a wakeup ends. An error of the agent graph is caught inside it and comes back like a success; only
  // what escapes it, such as a reply that cannot be stored, is seen as a failure.
  datatype Ending = Done | GraphFailed | Escaped

  // A delivery reads the clock first, then looks for the notice under a row lock; a missing
  // notice is inserted, and an insert that loses is followed by a second look.
  datatype Phase =
    | Arrived
    | Clocked(now: int)
    | Inserting(now: int)
    | Retrying(now: int)
    | Waking(now: int)
    | Answered(answer: Answer)

  datatype Delivery = Delivery(key: Key, phase: Phase)

  datatype Board = Board(clock: int, notices: map<Key, Notice>, deliveries: map<nat, Delivery>)

  datatype Step =
    | Tick(seconds: nat)
    | Deliver(id: nat, key: Key)
    | ReadClock(id: nat)
    | Look(id: nat)
    | Insert(id: nat)
    | LookAgain(id: nat)
    | Wake(id: nat, ending: Ending)
    | Crash(id: nat)

  predicate Enabled(b: Board, step: Step) {
    match step
    case Tick(_) => true
    case Deliver(id, _) => id !in b.deliveries
    case ReadClock(id) => id in b.deliveries && b.deliveries[id].phase.Arrived?
    case Look(id) => id in b.deliveries && b.deliveries[id].phase.Clocked?
    case Insert(id) => id in b.deliveries && b.deliveries[id].phase.Inserting?
    case LookAgain(id) => id in b.deliveries && b.deliveries[id].phase.Retrying?
    case Wake(id, _) => id in b.deliveries && b.deliveries[id].phase.Waking?
    case Crash(id) => id in b.deliveries && !b.deliveries[id].phase.Answered?
  }

  // The lease is free for a delivery whose clock reading is `now`.
  predicate Free(n: Notice, now: int) {
    n.processingAt.None? || n.processingAt.value <= now - LEASE
  }

  function Claim(b: Board, id: nat, now: int): Board
    requires id in b.deliveries && b.deliveries[id].key in b.notices
  {
    var d := b.deliveries[id];
    var n := b.notices[d.key];
    if n.processedAt.Some? then b.(deliveries := b.deliveries[id := d.(phase := Answered(Duplicate))])
    else if !Free(n, now) then b.(deliveries := b.deliveries[id := d.(phase := Answered(InProgress))])
    else b.(notices := b.notices[d.key := n.(processingAt := Some(now))],
            deliveries := b.deliveries[id := d.(phase := Waking(now))])
  }

  function Next(b: Board, step: Step): Board
    requires Enabled(b, step)
  {
    match step
    case Tick(seconds) => b.(clock := b.clock + seconds)
    case Deliver(id, key) => b.(deliveries := b.deliveries[id := Delivery(key, Arrived)])
    case ReadClock(id) => b.(deliveries := b.deliveries[id := b.deliveries[id].(phase := Clocked(b.clock))])
    case Look(id) =>
      var d := b.deliveries[id];
      if d.key in b.notices then Claim(b, id, d.phase.now)
      else b.(deliveries := b.deliveries[id := d.(phase := Inserting(d.phase.now))])
    case Insert(id) =>
      var d := b.deliveries[id];
      if d.key in b.notices then b.(deliveries := b.deliveries[id := d.(phase := Retrying(d.phase.now))])
      else b.(notices := b.notices[d.key := Notice(Some(d.phase.now), None)],
              deliveries := b.deliveries[id := d.(phase := Waking(d.phase.now))])
    case LookAgain(id) =>
      var d := b.deliveries[id];
      if d.key in b.notices then Claim(b, id, d.phase.now)
      else b.(deliveries := b.deliveries[id := d.(phase := Answered(Conflict))])
    case Wake(id, ending) =>
      var d := b.deliveries[id];
      if d.key !in b.notices then b
      else
        var n := b.notices[d.key];
        b.(notices := b.notices[d.key :=
             if ending.Escaped? then n.(processingAt := None) else n.(processedAt := Some(b.clock))],
           deliveries := b.deliveries[id := d.(phase := Answered(if ending.Escaped? then WakeupFailed else Processed))])
    case Crash(id) => b.(deliveries := b.deliveries[id := b.deliveries[id].(phase := Answered(Crashed))])
  }

  // ---------- Safety while no wakeup outlasts its lease ----------

  predicate IsWaking(b: Board, id: nat) {
    id in b.deliveries && b.deliveries[id].phase.Waking?
  }

  predicate HasProcessed(b: Board, id: nat) {
    id in b.deliveries && b.deliveries[id].phase == Answered(Processed)
  }

  predicate SameEvent(b: Board, id: nat, other: nat) {
    id in b.deliveries && other in b.deliveries && b.deliveries[id].key == b.deliveries[other].key
  }

  // Every wakeup is within five minutes of its delivery's clock reading.
  ghost predicate WithinLease(b: Board) {
    forall id :: IsWaking(b, id) ==> b.clock < b.deliveries[id].phase.now + 300
  }

  ghost predicate OneAtATime(b: Board) {
    forall id, other :: IsWaking(b, id) && IsWaking(b, other) && SameEvent(b, id, other) ==> id == other
  }

  ghost predicate ProcessedOnce(b: Board) {
    forall id, other :: HasProcessed(b, id) && HasProcessed(b, other) && SameEvent(b, id, other) ==> id == other
  }

  // Clock readings are past, and a delivery that lost an insert has a notice to look at.
  ghost predicate Sane(b: Board) {
    forall id :: id in b.deliveries ==> SaneDelivery(b, b.deliveries[id])
  }

  predicate SaneDelivery(b: Board, d: Delivery) {
    && (d.phase.Clocked? || d.phase.Inserting? || d.phase.Retrying? || d.phase.Waking? ==> d.phase.now <= b.clock)
    && (d.phase.Retrying? || d.phase.Waking? ==> d.key in b.notices)
    && d.phase != Answered(Conflict)
  }

  // A wakeup holds its notice's lease, and a processed one has its notice marked.
  ghost predicate Held(b: Board) {
    && (forall id :: IsWaking(b, id) ==> Holds(b, b.deliveries[id]))
    && (forall id :: HasProcessed(b, id) ==> Marked(b, b.deliveries[id].key))
  }

  predicate Holds(b: Board, d: Delivery) {
    d.phase.Waking? && d.key in b.notices && b.notices[d.key] == Notice(Some(d.phase.now), None)
  }

  predicate Marked(b: Board, key: Key) {
    key in b.notices && b.notices[key].processedAt.Some?
  }

  ghost predicate Safe(b: Board) {
    Sane(b) && Held(b) && OneAtATime(b) && ProcessedOnce(b)
  }

  lemma StepStaysSane(b: Board, step: Step)
    requires Sane(b) && Enabled(b, step)
    ensures Sane(Next(b, step))
  {
    var after := Next(b, step);
    forall id | id in after.deliveries ensures SaneDelivery(after, after.deliveries[id]) {
      if id in b.deliveries { assert SaneDelivery(b, b.deliveries[id]); }
    }
  }

  // A delivery that starts to wake finds nobody else waking for its event, and it unmarked.
  lemma StartsAlone(b: Board, step: Step, id: nat, other: nat)
    requires Safe(b) && WithinLease(b) && Enabled(b, step)
    requires !IsWaking(b, id) && IsWaking(Next(b, step), id) && IsWaking(b, other)
    ensures !SameEvent(b, id, other)
  {
    assert SaneDelivery(b, b.deliveries[id]) && Holds(b, b.deliveries[other]);
  }

  // A wakeup that is recorded finds no other recorded for its event.
  lemma MarksAlone(b: Board, step: Step, id: nat, other: nat)
    requires Safe(b) && Enabled(b, step)
    requires !HasProcessed(b, id) && HasProcessed(Next(b, step), id) && HasProcessed(b, other)
    ensures !SameEvent(b, id, other)
  {
    assert Marked(b, b.deliveries[other].key) && Holds(b, b.deliveries[id]);
  }

  lemma StepKeepsHeld(b: Board, step: Step)
    requires Safe(b) && WithinLease(b) && Enabled(b, step)
    ensures Held(Next(b, step))
  {
    var after := Next(b, step);
    forall id | IsWaking(after, id) ensures Holds(after, after.deliveries[id]) {
      if IsWaking(b, id) {
        assert Holds(b, b.deliveries[id]);
        if step.Wake? { assert !SameEvent(b, id, step.id); }
        forall other | !IsWaking(b, other) && IsWaking(after, other) ensures !SameEvent(b, other, id) {
          StartsAlone(b, step, other, id);
        }
      }
    }
    forall id | HasProcessed(after, id) ensures Marked(after, after.deliveries[id].key) {
      if HasProcessed(b, id) { assert Marked(b, b.deliveries[id].key); }
    }
  }

  // With every wakeup inside its lease, no step lets a second one in.
  lemma StepStaysSafe(b: Board, step: Step)
    requires Safe(b) && WithinLease(b) && Enabled(b, step)
    ensures Safe(Next(b, step))
  {
    var after := Next(b, step);
    StepStaysSane(b, step);
    StepKeepsHeld(b, step);
    forall id, other | IsWaking(after, id) && IsWaking(after, other) && SameEvent(after, id, other)
      ensures id == other
    {
      if IsWaking(b, id) && IsWaking(b, other) { assert SameEvent(b, id, other); }
      if id != other && IsWaking(b, id) && !IsWaking(b, other) { StartsAlone(b, step, other, id); }
      if id != other && !IsWaking(b, id) && IsWaking(b, other) { StartsAlone(b, step, id, other); }
    }
    forall id, other | HasProcessed(after, id) && HasProcessed(after, other) && SameEvent(after, id, other)
      ensures id == other
    {
      if HasProcessed(b, id) && HasProcessed(b, other) { assert SameEvent(b, id, other); }
      if id != other && HasProcessed(b, id) && !HasProcessed(b, other) { MarksAlone(b, step, other, id); }
      if id != other && !HasProcessed(b, id) && HasProcessed(b, other) { MarksAlone(b, step, id, other); }
    }
  }

  // ---------- Whole runs ----------

  // What holds of a board from which the steps can be taken, wakeups staying inside their leases.
  ghost predicate Runs(b: Board, steps: seq<Step>)
    decreases steps
  {
    steps != [] ==> Enabled(b, steps[0]) && WithinLease(b) && Runs(Next(b, steps[0]), steps[1..])
  }

  ghost predicate CanRun(b: Board, steps: seq<Step>)
    decreases steps
  {
    steps != [] ==> Enabled(b, steps[0]) && CanRun(Next(b, steps[0]), steps[1..])
  }

  ghost function RunAll(b: Board, steps: seq<Step>): Board
    requires CanRun(b, steps)
    decreases steps
  {
    if steps == [] then b else RunAll(Next(b, steps[0]), steps[1..])
  }

  lemma {:induction false} RunsCanRun(b: Board, steps: seq<Step>)
    requires Runs(b, steps)
    ensures CanRun(b, steps)
    decreases steps
  {
    if steps != [] { RunsCanRun(Next(b, steps[0]), steps[1..]); }
  }

  lemma {:induction false} RunStaysSafe(b: Board, steps: seq<Step>)
    requires Safe(b) && Runs(b, steps)
    ensures CanRun(b, steps) && Safe(RunAll(b, steps))
    decreases steps
  {
    RunsCanRun(b, steps);
    if steps != [] {
      StepStaysSafe(b, steps[0]);
      RunStaysSafe(Next(b, steps[0]), steps[1..]);
    }
  }

  function Empty(clock: int): Board { Board(clock, map[], map[]) }

  // From an empty board, whatever the deliveries, failures and crashes: one wakeup of an event
  // at a time, and one recorded as processed.
  lemma LeaseIsExclusive(clock: int, steps: seq<Step>)
    requires Runs(Empty(clock), steps)
    ensures CanRun(Empty(clock), steps)
    ensures OneAtATime(RunAll(Empty(clock), steps)) && ProcessedOnce(RunAll(Empty(clock), steps))
  {
    RunStaysSafe(Empty(clock), steps);
  }

  // Even when leases are overrun, no delivery is ever answered with a conflict.
  lemma {:induction false} ConflictNeverAnswered(b: Board, steps: seq<Step>, id: nat)
    requires Sane(b) && CanRun(b, steps) && id in RunAll(b, steps).deliveries
    ensures RunAll(b, steps).deliveries[id].phase != Answered(Conflict)
    decreases steps
  {
    if steps == [] {
      assert SaneDelivery(b, b.deliveries[id]);
    } else {
      StepStaysSane(b, steps[0]);
      ConflictNeverAnswered(Next(b, steps[0]), steps[1..], id);
    }
  }

  // Once an event is marked processed it stays so, and no delivery starts to wake for it again,
  // leases overrun or not.
  lemma {:induction false} ProcessedIsFinal(b: Board, steps: seq<Step>, key: Key, id: nat)
    requires Marked(b, key) && CanRun(b, steps)
    ensures Marked(RunAll(b, steps), key)
    ensures IsWaking(RunAll(b, steps), id) && RunAll(b, steps).deliveries[id].key == key ==>
      IsWaking(b, id) && b.deliveries[id].key == key
    decreases steps
  {
    if steps != [] { ProcessedIsFinal(Next(b, steps[0]), steps[1..], key, id); }
  }

  // ---------- Retry ----------

  // The event may be processed now: it has no notice, or an unmarked one whose lease is free.
  ghost predicate Open(b: Board, key: Key) {
    !Marked(b, key) && !Leased(b, key)
  }

  // Somebody took the lease less than five minutes ago.
  ghost predicate Leased(b: Board, key: Key) {
    key in b.notices && b.notices[key].processingAt.Some? && b.clock < b.notices[key].processingAt.value + 300
  }

  function Attempt(b: Board, id: nat, key: Key): seq<Step> {
    [Deliver(id, key), ReadClock(id), Look(id)] + if key in b.notices then [] else [Insert(id)]
  }

  lemma RunOne(b: Board, step: Step, rest: seq<Step>)
    requires Enabled(b, step) && CanRun(Next(b, step), rest)
    ensures CanRun(b, [step] + rest) && RunAll(b, [step] + rest) == RunAll(Next(b, step), rest)
  {
    assert ([step] + rest)[1..] == rest;
  }

  // A new delivery that runs undisturbed is told that the event was processed already, or that it is being
  // processed; it gets to wake the agent, with the lease as of now, exactly when the event is open. It leaves
  // the other deliveries alone.
  lemma AttemptWakesIffOpen(b: Board, id: nat, key: Key)
    requires id !in b.deliveries
    ensures CanRun(b, Attempt(b, id, key))
    ensures IsWaking(RunAll(b, Attempt(b, id, key)), id) <==> Open(b, key)
    ensures Open(b, key) ==> RunAll(b, Attempt(b, id, key)).notices == b.notices[key := Notice(Some(b.clock), None)]
    ensures !Open(b, key) ==> RunAll(b, Attempt(b, id, key)).notices == b.notices
    ensures forall other :: other in b.deliveries ==>
      other in RunAll(b, Attempt(b, id, key)).deliveries
        && RunAll(b, Attempt(b, id, key)).deliveries[other] == b.deliveries[other]
    ensures RunAll(b, Attempt(b, id, key)).clock == b.clock
    ensures key in RunAll(b, Attempt(b, id, key)).notices
    ensures id in RunAll(b, Attempt(b, id, key)).deliveries
    ensures RunAll(b, Attempt(b, id, key)).deliveries[id] == Delivery(key,
      if Marked(b, key) then Answered(Duplicate)
      else if Leased(b, key) then Answered(InProgress)
      else Waking(b.clock))
  {
    var b1 := Next(b, Deliver(id, key));
    var b2 := Next(b1, ReadClock(id));
    var b3 := Next(b2, Look(id));
    var insert := if key in b.notices then [] else [Insert(id)];
    if key !in b.notices {
      RunOne(b3, Insert(id), []);
      assert [Insert(id)] + [] == insert;
    }
    RunOne(b2, Look(id), insert);
    RunOne(b1, ReadClock(id), [Look(id)] + insert);
    RunOne(b, Deliver(id, key), [ReadClock(id)] + ([Look(id)] + insert));
    assert [Deliver(id, key)] + ([ReadClock(id)] + ([Look(id)] + insert)) == Attempt(b, id, key);
  }

  // An answer is final, unless the process dies before it is out.
  lemma {:induction false} AnswerIsFinal(b: Board, steps: seq<Step>, id: nat)
    requires CanRun(b, steps) && id in b.deliveries && b.deliveries[id].phase.Answered?
    ensures id in RunAll(b, steps).deliveries && RunAll(b, steps).deliveries[id] == b.deliveries[id]
    decreases steps
  {
    if steps != [] { AnswerIsFinal(Next(b, steps[0]), steps[1..], id); }
  }

  ghost function StepsLeft(phase: Phase): nat {
    match phase
    case Arrived => 5
    case Clocked(_) => 4
    case Inserting(_) => 3
    case Retrying(_) => 2
    case Waking(_) => 1
    case Answered(_) => 0
  }

  ghost predicate IsOwn(step: Step, id: nat) {
    step in {ReadClock(id), Look(id), Insert(id), LookAgain(id)} || (step.Wake? && step.id == id)
  }

  // No delivery is ever stuck: left to itself it is answered after at most five steps of its own.
  lemma {:induction false} DeliveryIsAnswered(b: Board, id: nat, ending: Ending) returns (steps: seq<Step>)
    requires Sane(b) && id in b.deliveries
    ensures |steps| <= StepsLeft(b.deliveries[id].phase) <= 5 && forall step :: step in steps ==> IsOwn(step, id)
    ensures CanRun(b, steps) && id in RunAll(b, steps).deliveries && RunAll(b, steps).deliveries[id].phase.Answered?
    decreases StepsLeft(b.deliveries[id].phase)
  {
    assert SaneDelivery(b, b.deliveries[id]);
    if b.deliveries[id].phase.Answered? {
      steps := [];
    } else {
      var step := match b.deliveries[id].phase
        case Arrived => ReadClock(id)
        case Clocked(_) => Look(id)
        case Inserting(_) => Insert(id)
        case Retrying(_) => LookAgain(id)
        case _ => Wake(id, ending);
      StepStaysSane(b, step);
      var rest := DeliveryIsAnswered(Next(b, step), id, ending);
      RunOne(b, step, rest);
      steps := [step] + rest;
    }
  }

  // A wakeup that ends opens its event again exactly when an error escaped it; a crash does when the lease
  // has run out.
  lemma EscapedErrorReopens(b: Board, id: nat, ending: Ending)
    requires Safe(b) && IsWaking(b, id)
    ensures Open(Next(b, Wake(id, ending)), b.deliveries[id].key) <==> ending.Escaped?
    ensures Next(b, Wake(id, ending)).deliveries[id].phase ==
      Answered(if ending.Escaped? then WakeupFailed else Processed)
    ensures !ending.Escaped? ==> Marked(Next(b, Wake(id, ending)), b.deliveries[id].key)
    ensures forall seconds: nat ::
      Open(Next(Next(b, Crash(id)), Tick(seconds)), b.deliveries[id].key) <==>
        b.clock + seconds >= b.deliveries[id].phase.now + 300
  {
    assert Holds(b, b.deliveries[id]) && SaneDelivery(b, b.deliveries[id]);
  }

  // After a wakeup whose graph failed, as after one that did its work, no delivery ever wakes the agent
  // for the event again.
  lemma GraphFailureIsFinal(b: Board, id: nat, ending: Ending, steps: seq<Step>, other: nat)
    requires Safe(b) && IsWaking(b, id) && !ending.Escaped? && CanRun(Next(b, Wake(id, ending)), steps)
    ensures var after := RunAll(Next(b, Wake(id, ending)), steps);
      IsWaking(after, other) ==> after.deliveries[other].key != b.deliveries[id].key
  {
    var ended, key := Next(b, Wake(id, ending)), b.deliveries[id].key;
    assert Holds(b, b.deliveries[id]);
    ProcessedIsFinal(ended, steps, key, other);
    if IsWaking(ended, other) && ended.deliveries[other].key == key { assert SameEvent(b, id, other); }
  }

  // ---------- Overrun ----------

  // While one wakeup runs, a second delivery gets in exactly when the first has outlasted its
  // lease; both can then be recorded.
  lemma SecondWakesIffOverrun(b: Board, id: nat, other: nat)
    requires Safe(b) && IsWaking(b, id) && other !in b.deliveries
    ensures CanRun(b, Attempt(b, other, b.deliveries[id].key))
    ensures var after := RunAll(b, Attempt(b, other, b.deliveries[id].key));
      && IsWaking(after, id)
      && (IsWaking(after, other) <==> b.clock >= b.deliveries[id].phase.now + 300)
      && (IsWaking(after, other) ==> !OneAtATime(after) && !ProcessedOnce(BothRecorded(after, id, other)))
  {
    var key := b.deliveries[id].key;
    AttemptWakesIffOpen(b, other, key);
    assert Holds(b, b.deliveries[id]);
    var after := RunAll(b, Attempt(b, other, key));
    assert IsWaking(after, id) && SameEvent(after, id, other);
    if IsWaking(after, other) {
      var both := BothRecorded(after, id, other);
      assert HasProcessed(both, id) && HasProcessed(both, other) && SameEvent(both, id, other);
    }
  }

  function BothRecorded(b: Board, id: nat, other: nat): Board
    requires IsWaking(b, id) && IsWaking(b, other) && id != other
  {
    Next(Next(b, Wake(id, Done)), Wake(other, Done))
  }

  // ---------- The transactions, on the table they change ----------

  class NoticeTable {
    var clock: int
    var notices: map<Key, Notice>
    var deliveries: map<nat, Delivery>

    function Contents(): Board
      reads this
    {
      Board(clock, notices, deliveries)
    }

    constructor (clock: int)
      ensures Contents() == Empty(clock)
    {
      this.clock, notices, deliveries := clock, map[], map[];
    }

    method Answer(id: nat, answer: Answer)
      requires id in deliveries
      modifies this`deliveries
      ensures deliveries == old(deliveries)[id := old(deliveries)[id].(phase := Answered(answer))]
    {
      deliveries := deliveries[id := deliveries[id].(phase := Answered(answer))];
    }

    // Under the notice's row lock: answer a duplicate, or take the lease and commit.
    method ClaimLease(id: nat, now: int)
      requires id in deliveries && deliveries[id].key in notices
      modifies this`notices, this`deliveries
      ensures Contents() == Claim(old(Contents()), id, now)
    {
      var d := deliveries[id];
      var notice := notices[d.key];
      if notice.processedAt.Some? {
        Answer(id, Duplicate);
        return;
      }
      var processing := notice.processingAt;
      if processing.Some? && processing.value > now - LEASE {
        Answer(id, InProgress);
        return;
      }
      notices := notices[d.key := notice.(processingAt := Some(now))];
      deliveries := deliveries[id := d.(phase := Waking(now))];
    }

    method LookUp(id: nat)
      requires Enabled(Contents(), Look(id))
      modifies this`notices, this`deliveries
      ensures Contents() == Next(old(Contents()), Look(id))
    {
      var d := deliveries[id];
      if d.key in notices {
        ClaimLease(id, d.phase.now);
      } else {
        deliveries := deliveries[id := d.(phase := Inserting(d.phase.now))];
      }
    }

    // The unique index lets one insert through; it takes the lease in the same transaction.
    method InsertNotice(id: nat)
      requires Enabled(Contents(), Insert(id))
      modifies this`notices, this`deliveries
      ensures Contents() == Next(old(Contents()), Insert(id))
    {
      var d := deliveries[id];
      if d.key in notices {
        deliveries := deliveries[id := d.(phase := Retrying(d.phase.now))];
      } else {
        notices := notices[d.key := Notice(None, None)];
        ClaimLease(id, d.phase.now);
      }
    }

    method LookUpAgain(id: nat)
      requires Enabled(Contents(), LookAgain(id))
      modifies this`notices, this`deliveries
      ensures Contents() == Next(old(Contents()), LookAgain(id))
    {
      var d := deliveries[id];
      if d.key in notices {
        ClaimLease(id, d.phase.now);
      } else {
        Answer(id, Conflict);
      }
    }

    // What is written when the wakeup returns or throws.
    method RecordWakeup(id: nat, ending: Ending)
      requires Enabled(Contents(), Wake(id, ending)) && deliveries[id].key in notices
      modifies this`notices, this`deliveries
      ensures Contents() == Next(old(Contents()), Wake(id, ending))
    {
      var d := deliveries[id];
      if ending.Escaped? {
        notices := notices[d.key := notices[d.key].(processingAt := None)];
        Answer(id, WakeupFailed);
      } else {
        notices := notices[d.key := notices[d.key].(processedAt := Some(clock))];
        Answer(id, Processed);
      }
    }
  }
}
