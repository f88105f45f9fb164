// One-shot consumption: attempts that read an approval, check it, and then update it on
// condition that it is still unused, interleaved in any order.

module ApprovalStore {
  import opened Collections
  import opened ApprovalToken

  // An attempt has asked; has read and passed the checks at some time; has read an expired row, flushed the
  // expiry mark, and is about to roll back; has been granted; or has been refused.
  datatype Phase =
    | Asked
    | Checked(row: nat, at: int)
    | Expiring(row: nat)
    | Granted(row: nat, at: int)
    | Refused(code: Code)

  datatype Attempt = Attempt(request: Request, phase: Phase)

  // What the database keeps of a row flushed by a transaction that has not ended: who locked it, and the
  // row before.
  datatype Undo = Undo(holder: nat, before: Approval)

  datatype Store = Store(clock: int, rows: map<nat, Approval>, attempts: map<nat, Attempt>, undo: map<nat, Undo>)

  datatype Step =
    | Tick(seconds: nat)
    | Issued(row: nat, approval: Approval)
    | Ask(id: nat, request: Request)
    | Read(id: nat, found: Option<nat>)
    | Rollback(id: nat)
    | Update(id: nat)
    | Drop(id: nat)

  predicate Matches(row: Approval, nonce: string, actionId: int) {
    row.nonce == nonce && row.actionId == actionId
  }

  // What the query may answer for a token: some matching row, or none if there is none.
  predicate MayFind(rows: map<nat, Approval>, token: Option<(string, string)>, actionId: int, found: Option<nat>) {
    if token.None? then found.None?
    else if found.Some? then found.value in rows && Matches(rows[found.value], token.value.0, actionId)
    else forall r :: r in rows ==> !Matches(rows[r], token.value.0, actionId)
  }

  predicate Enabled(s: Store, step: Step, space: char -> bool) {
    match step
    case Tick(_) => true
    case Issued(row, approval) => row !in s.rows && approval.consumedAt == None && approval.status == Pending
    case Ask(id, _) => id !in s.attempts
    case Read(id, found) =>
      && id in s.attempts && s.attempts[id].phase.Asked?
      && MayFind(s.rows, SplitToken(s.attempts[id].request.token, space), s.attempts[id].request.actionId, found)
      && (found.Some? ==> found.value !in s.undo)
    case Rollback(id) =>
      && id in s.attempts && s.attempts[id].phase.Expiring?
      && s.attempts[id].phase.row in s.rows && s.attempts[id].phase.row in s.undo
    case Update(id) =>
      && id in s.attempts && s.attempts[id].phase.Checked?
      && s.attempts[id].phase.row in s.rows && s.attempts[id].phase.row !in s.undo
    // a transaction that breaks off with a mark flushed is rolled back first
    case Drop(id) => id in s.attempts && !s.attempts[id].phase.Granted? && !s.attempts[id].phase.Expiring?
  }

  // The result of reading: the format, the row, then the checks on the row.
  function AfterRead(s: Store, a: Attempt, found: Option<nat>, space: char -> bool): Phase
    requires MayFind(s.rows, SplitToken(a.request.token, space), a.request.actionId, found)
  {
    var token := SplitToken(a.request.token, space);
    if token.None? then Refused(InvalidInput)
    else if found.None? then Refused(ConfirmationRequired)
    else
      var refusal := Refusal(s.rows[found.value], token.value.1, a.request, s.clock);
      if refusal == Some(ConfirmExpired) then Expiring(found.value)
      else if refusal.Some? then Refused(refusal.value)
      else Checked(found.value, s.clock)
  }

  // Flushes the expiry mark under the row's lock.
  function Mark(s: Store, id: nat, row: nat): Store
    requires row in s.rows
  {
    s.(rows := s.rows[row := s.rows[row].(status := Expired)], undo := s.undo[row := Undo(id, s.rows[row])])
  }

  predicate StillPending(row: Approval) {
    row.consumedAt.None? && row.status == Pending
  }

  function Next(s: Store, step: Step, space: char -> bool): Store
    requires Enabled(s, step, space)
  {
    match step
    case Tick(seconds) => s.(clock := s.clock + seconds)
    case Issued(row, approval) => s.(rows := s.rows[row := approval])
    case Ask(id, request) => s.(attempts := s.attempts[id := Attempt(request, Asked)])
    case Read(id, found) =>
      var a := s.attempts[id];
      var phase := AfterRead(s, a, found, space);
      (if phase.Expiring? then Mark(s, id, phase.row) else s).(attempts := s.attempts[id := a.(phase := phase)])
    case Rollback(id) =>
      var a := s.attempts[id];
      var row := a.phase.row;
      s.(rows := s.rows[row := s.undo[row].before], undo := s.undo - {row},
         attempts := s.attempts[id := a.(phase := Refused(ConfirmExpired))])
    case Update(id) =>
      var a := s.attempts[id];
      var row := s.rows[a.phase.row];
      if StillPending(row) then
        var status := if a.request.accept then Consumed else Rejected;
        s.(rows := s.rows[a.phase.row := row.(consumedAt := Some(a.phase.at), status := status)],
           attempts := s.attempts[id := a.(phase := Granted(a.phase.row, a.phase.at))])
      else s.(attempts := s.attempts[id := a.(phase := Refused(InvalidInput))])
    case Drop(id) => s.(attempts := s.attempts - {id})
  }

  // ---------- Runs ----------

  ghost predicate CanRun(s: Store, steps: seq<Step>, space: char -> bool)
    decreases steps
  {
    steps != [] ==> Enabled(s, steps[0], space) && CanRun(Next(s, steps[0], space), steps[1..], space)
  }

  ghost function RunAll(s: Store, steps: seq<Step>, space: char -> bool): Store
    requires CanRun(s, steps, space)
    decreases steps
  {
    if steps == [] then s else RunAll(Next(s, steps[0], space), steps[1..], space)
  }

  predicate GrantedOn(s: Store, id: nat, row: nat) {
    id in s.attempts && s.attempts[id].phase.Granted? && s.attempts[id].phase.row == row
  }

  // The row as it is outside the transaction that may have marked it.
  function Committed(s: Store, row: nat): Approval
    requires row in s.rows
  {
    if row in s.undo then s.undo[row].before else s.rows[row]
  }

  // Every attempt that has passed the checks was bound to its row when it read it; a granted
  // one has used the row up, and is the only one to have done so.
  predicate Passed(s: Store, a: Attempt, space: char -> bool) {
    a.phase.Checked? || a.phase.Granted? ==>
      && a.phase.row in s.rows && a.phase.at <= s.clock
      && SplitToken(a.request.token, space).Some?
      && s.rows[a.phase.row].actionId == a.request.actionId
      && s.rows[a.phase.row].nonce == SplitToken(a.request.token, space).value.0
      && Bound(s.rows[a.phase.row], SplitToken(a.request.token, space).value.1, a.request, a.phase.at)
  }

  predicate UsedBy(s: Store, a: Attempt) {
    a.phase.Granted? && a.phase.row in s.rows ==>
      && Committed(s, a.phase.row).consumedAt == Some(a.phase.at)
      && Committed(s, a.phase.row).status == if a.request.accept then Consumed else Rejected
  }

  // No expiry mark, and consumed exactly when the status says so.
  predicate Clean(row: Approval) {
    !row.status.Expired? && (row.consumedAt.None? <==> row.status.Pending?)
  }

  // A row is marked exactly while the attempt that found it expired has yet to roll back.
  ghost predicate MarksAreHeld(s: Store) {
    && (forall id :: id in s.attempts && s.attempts[id].phase.Expiring? ==>
         s.attempts[id].phase.row in s.undo && s.undo[s.attempts[id].phase.row].holder == id)
    && (forall row :: row in s.undo ==>
         && row in s.rows && s.rows[row] == s.undo[row].before.(status := Expired)
         && s.undo[row].holder in s.attempts && s.attempts[s.undo[row].holder].phase == Expiring(row))
  }

  ghost predicate Safe(s: Store, space: char -> bool) {
    && (forall id :: id in s.attempts ==> Passed(s, s.attempts[id], space) && UsedBy(s, s.attempts[id]))
    && (forall row :: row in s.rows ==> Clean(Committed(s, row)))
    && OneGrantEach(s)
    && MarksAreHeld(s)
  }

  ghost predicate OneGrantEach(s: Store) {
    forall id, other, row :: GrantedOn(s, id, row) && GrantedOn(s, other, row) ==> id == other
  }

  // Only the two use fields of a row ever change.
  lemma StepKeepsTerms(s: Store, step: Step, space: char -> bool, row: nat)
    requires MarksAreHeld(s) && Enabled(s, step, space) && row in s.rows
    ensures row in Next(s, step, space).rows
    ensures Next(s, step, space).rows[row].(consumedAt := None, status := Pending) ==
      s.rows[row].(consumedAt := None, status := Pending)
  {
  }

  // A used row never changes, but for the mark.
  lemma StepKeepsUse(s: Store, step: Step, space: char -> bool, row: nat)
    requires MarksAreHeld(s) && Enabled(s, step, space) && row in s.rows && Committed(s, row).consumedAt.Some?
    ensures row in Next(s, step, space).rows && Committed(Next(s, step, space), row) == Committed(s, row)
  {
  }

  lemma ReadKeepsMarks(s: Store, step: Step, space: char -> bool)
    requires MarksAreHeld(s) && Enabled(s, step, space) && step.Read?
    ensures MarksAreHeld(Next(s, step, space))
  {
  }

  lemma RollbackKeepsMarks(s: Store, step: Step, space: char -> bool)
    requires MarksAreHeld(s) && Enabled(s, step, space) && step.Rollback?
    ensures MarksAreHeld(Next(s, step, space))
  {
  }

  lemma StepKeepsMarks(s: Store, step: Step, space: char -> bool)
    requires MarksAreHeld(s) && Enabled(s, step, space)
    ensures MarksAreHeld(Next(s, step, space))
  {
    match step
    case Read(_, _) => ReadKeepsMarks(s, step, space);
    case Rollback(_) => RollbackKeepsMarks(s, step, space);
    case _ =>
  }

  lemma StepKeepsClean(s: Store, step: Step, space: char -> bool, row: nat)
    requires Safe(s, space) && Enabled(s, step, space) && row in Next(s, step, space).rows
    ensures Clean(Committed(Next(s, step, space), row))
  {
    assert row in s.rows ==> Clean(Committed(s, row));
  }

  lemma ReadKeepsAttempt(s: Store, step: Step, space: char -> bool)
    requires Safe(s, space) && Enabled(s, step, space) && step.Read?
    ensures Passed(Next(s, step, space), Next(s, step, space).attempts[step.id], space)
    ensures UsedBy(Next(s, step, space), Next(s, step, space).attempts[step.id])
  {
    var a := Next(s, step, space).attempts[step.id];
    if a.phase.Checked? {
      var signature := SplitToken(a.request.token, space).value.1;
      PassesIffBoundAndUnused(s.rows[a.phase.row], signature, a.request, s.clock);
    }
  }

  // What an attempt that is not the one to move knew of its row stays true.
  lemma StepKeepsOthers(s: Store, step: Step, space: char -> bool, a: Attempt)
    requires MarksAreHeld(s) && Passed(s, a, space) && UsedBy(s, a) && Enabled(s, step, space)
    ensures Passed(Next(s, step, space), a, space) && UsedBy(Next(s, step, space), a)
  {
    if a.phase.Checked? || a.phase.Granted? {
      StepKeepsTerms(s, step, space, a.phase.row);
      if a.phase.Granted? { StepKeepsUse(s, step, space, a.phase.row); }
    }
  }

  lemma UpdateKeepsAttempt(s: Store, step: Step, space: char -> bool)
    requires Safe(s, space) && Enabled(s, step, space) && step.Update?
    ensures Passed(Next(s, step, space), Next(s, step, space).attempts[step.id], space)
    ensures UsedBy(Next(s, step, space), Next(s, step, space).attempts[step.id])
  {
    var a := s.attempts[step.id];
    assert Passed(s, a, space);
    StepKeepsTerms(s, step, space, a.phase.row);
  }

  lemma StepKeepsAttempts(s: Store, step: Step, space: char -> bool, id: nat)
    requires Safe(s, space) && Enabled(s, step, space) && id in Next(s, step, space).attempts
    ensures Passed(Next(s, step, space), Next(s, step, space).attempts[id], space)
    ensures UsedBy(Next(s, step, space), Next(s, step, space).attempts[id])
  {
    if step.Read? && step.id == id {
      ReadKeepsAttempt(s, step, space);
    } else if step.Update? && step.id == id {
      UpdateKeepsAttempt(s, step, space);
    } else if id in s.attempts && !(step.Rollback? && step.id == id) {
      StepKeepsOthers(s, step, space, s.attempts[id]);
    }
  }

  lemma StepStaysSafe(s: Store, step: Step, space: char -> bool)
    requires Safe(s, space) && Enabled(s, step, space)
    ensures Safe(Next(s, step, space), space)
  {
    var after := Next(s, step, space);
    StepKeepsMarks(s, step, space);
    forall row | row in after.rows ensures Clean(Committed(after, row)) {
      StepKeepsClean(s, step, space, row);
    }
    forall id | id in after.attempts
      ensures Passed(after, after.attempts[id], space) && UsedBy(after, after.attempts[id])
    {
      StepKeepsAttempts(s, step, space, id);
    }
    forall id, other, row | GrantedOn(after, id, row) && GrantedOn(after, other, row) ensures id == other {
      if GrantedOn(s, id, row) && !GrantedOn(s, other, row) { GrantedAlone(s, step, space, other, id, row); }
      if !GrantedOn(s, id, row) && GrantedOn(s, other, row) { GrantedAlone(s, step, space, id, other, row); }
    }
  }

  lemma GrantedAlone(s: Store, step: Step, space: char -> bool, id: nat, other: nat, row: nat)
    requires Safe(s, space) && Enabled(s, step, space)
    requires !GrantedOn(s, id, row) && GrantedOn(s, other, row)
    ensures !GrantedOn(Next(s, step, space), id, row)
  {
    assert Passed(s, s.attempts[other], space) && UsedBy(s, s.attempts[other]);
  }

  // ---------- What a run from an empty store promises ----------

  function Empty(clock: int): Store { Store(clock, map[], map[], map[]) }

  lemma {:induction false} RunStaysSafe(s: Store, steps: seq<Step>, space: char -> bool)
    requires Safe(s, space) && CanRun(s, steps, space)
    ensures Safe(RunAll(s, steps, space), space)
    decreases steps
  {
    if steps != [] {
      StepStaysSafe(s, steps[0], space);
      RunStaysSafe(Next(s, steps[0], space), steps[1..], space);
    }
  }

  // At most one attempt on an approval is ever granted, to accept or to reject, in any interleaving.
  lemma OneShot(clock: int, steps: seq<Step>, space: char -> bool, id: nat, other: nat, row: nat)
    requires CanRun(Empty(clock), steps, space)
    requires GrantedOn(RunAll(Empty(clock), steps, space), id, row)
    requires GrantedOn(RunAll(Empty(clock), steps, space), other, row)
    ensures id == other
  {
    RunStaysSafe(Empty(clock), steps, space);
  }

  // A granted attempt was bound to its approval, unexpired, when it was checked, and it alone
  // decided what the approval became.
  lemma GrantMeansBound(clock: int, steps: seq<Step>, space: char -> bool, id: nat, row: nat)
    requires CanRun(Empty(clock), steps, space) && GrantedOn(RunAll(Empty(clock), steps, space), id, row)
    ensures var s := RunAll(Empty(clock), steps, space);
      var a := s.attempts[id];
      && row in s.rows && SplitToken(a.request.token, space).Some?
      && s.rows[row].actionId == a.request.actionId
      && s.rows[row].nonce == SplitToken(a.request.token, space).value.0
      && s.rows[row].signature == SplitToken(a.request.token, space).value.1
      && Bound(s.rows[row], SplitToken(a.request.token, space).value.1, a.request, a.phase.at)
      && s.rows[row].userId == a.request.userId && s.rows[row].sessionId == a.request.sessionId
      && a.phase.at < s.rows[row].expiresAt
      && (a.request.canvasId.Some? && s.rows[row].canvasId.Some? && s.rows[row].canvasId.value != 0 ==>
           s.rows[row].canvasId == a.request.canvasId)
      && (a.request.planVersion.Some? && s.rows[row].planVersion != 0 ==>
           s.rows[row].planVersion == a.request.planVersion.value)
      && (a.request.planVersion.Some? && s.rows[row].planVersion == 0 ==> a.request.planVersion.value == 1)
      && Committed(s, row).consumedAt == Some(a.phase.at)
      && (Committed(s, row).status.Consumed? <==> a.request.accept)
  {
    RunStaysSafe(Empty(clock), steps, space);
    var s := RunAll(Empty(clock), steps, space);
    assert Passed(s, s.attempts[id], space) && UsedBy(s, s.attempts[id]);
  }

  // A row carries the expiry mark exactly while an attempt that found it expired is about to roll back;
  // rolling back leaves it pending or used, as it was before.
  lemma ExpiryMarkIsTransient(clock: int, steps: seq<Step>, space: char -> bool, row: nat)
    requires CanRun(Empty(clock), steps, space) && row in RunAll(Empty(clock), steps, space).rows
    ensures var s := RunAll(Empty(clock), steps, space);
      && (s.rows[row].status.Expired? <==> row in s.undo)
      && (row !in s.undo ==> s.rows[row].status in {Pending, Consumed, Rejected})
      && (row !in s.undo ==> (s.rows[row].status.Pending? <==> s.rows[row].consumedAt.None?))
      && (row in s.undo ==> var undone := Rollback(s.undo[row].holder);
           && Enabled(s, undone, space)
           && Next(s, undone, space).rows[row] == s.undo[row].before && Clean(s.undo[row].before))
  {
    RunStaysSafe(Empty(clock), steps, space);
    var s := RunAll(Empty(clock), steps, space);
    assert Clean(Committed(s, row));
  }

  // Until then no step of anyone else touches the row: it comes back as the mark found it.
  lemma {:induction false} MarkedRowComesBack(s: Store, steps: seq<Step>, space: char -> bool, row: nat)
    requires Safe(s, space) && CanRun(s, steps, space) && row in s.undo
    requires Rollback(s.undo[row].holder) !in steps
    ensures var after, undone := RunAll(s, steps, space), Rollback(s.undo[row].holder);
      && Enabled(after, undone, space)
      && row in Next(after, undone, space).rows && row !in Next(after, undone, space).undo
      && Next(after, undone, space).rows[row] == s.undo[row].before
    decreases steps
  {
    if steps != [] {
      assert steps[0] != Rollback(s.undo[row].holder);
      StepStaysSafe(s, steps[0], space);
      OthersLeaveMark(s, steps[0], space, row);
      MarkedRowComesBack(Next(s, steps[0], space), steps[1..], space, row);
    }
  }

  lemma OthersLeaveMark(s: Store, step: Step, space: char -> bool, row: nat)
    requires MarksAreHeld(s) && Enabled(s, step, space) && row in s.undo && step != Rollback(s.undo[row].holder)
    ensures var after := Next(s, step, space); row in after.undo && after.undo[row] == s.undo[row]
  {
  }

  // From a safe store, an attempt that reads this row and then updates undisturbed is granted
  // exactly when it is bound to the row and the row is unused.
  lemma GrantedIffBoundAndUnused(s: Store, space: char -> bool, id: nat, row: nat)
    requires Safe(s, space) && id in s.attempts && s.attempts[id].phase.Asked? && Enabled(s, Read(id, Some(row)), space)
    ensures var read := Next(s, Read(id, Some(row)), space);
      var q := s.attempts[id].request;
      var passes := Bound(s.rows[row], SplitToken(q.token, space).value.1, q, s.clock)
        && s.rows[row].consumedAt.None? && s.rows[row].status !in {Consumed, Rejected};
      && (passes <==> read.attempts[id].phase.Checked?)
      && (passes ==> Enabled(read, Update(id), space) && GrantedOn(Next(read, Update(id), space), id, row))
  {
    var signature := SplitToken(s.attempts[id].request.token, space).value.1;
    PassesIffBoundAndUnused(s.rows[row], signature, s.attempts[id].request, s.clock);
    assert Clean(s.rows[row]);
  }

  // From issuing to the grant. If the nonce is the only one of its kind and can be told from the signature,
  // the query finds the row the token was issued for and no other, and an attempt made after any wait is
  // granted exactly until the approval is used, expires, or the canvas moves to another version than zero.
  lemma IssuedIsGrantedExactlyThen(s: Store, space: char -> bool, id: nat, row: nat, i: Issuance, recorded: Action,
                                   hash: ActionHash, sign: Signer, currentVersion: int, accept: bool,
                                   found: Option<nat>, wait: nat)
    requires Safe(s, space) && id !in s.attempts && row in s.rows && row !in s.undo
    requires KeptSince(i, s.rows[row], recorded, hash, sign)
    requires forall other :: other in s.rows && Matches(s.rows[other], i.nonce, i.action.id) ==> other == row
    requires !space('.') && i.nonce != "" && '.' !in i.nonce && SignatureOf(i, hash, sign) != ""
    requires Trimmed(recorded.token, space)
    ensures var q := Confirm(recorded, i.canvasId, currentVersion, accept, hash);
      var asked := Next(Next(s, Tick(wait), space), Ask(id, q), space);
      && Enabled(asked, Read(id, Some(row)), space)
      && (Enabled(asked, Read(id, found), space) <==> found == Some(row))
      && var read := Next(asked, Read(id, Some(row)), space);
         (Enabled(read, Update(id), space) && GrantedOn(Next(read, Update(id), space), id, row) <==>
            s.rows[row].consumedAt.None? && s.rows[row].status !in {Consumed, Rejected}
            && currentVersion in {0, i.canvasVersion}
            && s.clock + wait < i.now + (if i.ttl == 0 then 300 else if i.ttl < 30 then 30 else i.ttl))
  {
    var q := Confirm(recorded, i.canvasId, currentVersion, accept, hash);
    var later := Next(s, Tick(wait), space);
    var asked := Next(later, Ask(id, q), space);
    TokenRoundTrip(i.nonce, SignatureOf(i, hash, sign), space);
    assert SplitToken(q.token, space) == Some((i.nonce, s.rows[row].signature));
    assert Matches(s.rows[row], i.nonce, i.action.id);
    StepStaysSafe(s, Tick(wait), space);
    StepStaysSafe(later, Ask(id, q), space);
    IssuedPasses(i, s.rows[row], recorded, hash, sign, currentVersion, accept, later.clock);
    PassesIffBoundAndUnused(s.rows[row], s.rows[row].signature, q, later.clock);
    GrantedIffBoundAndUnused(asked, space, id, row);
  }

  // ---------- The table of approvals ----------

  class ApprovalTable {
    var clock: int
    var rows: map<nat, Approval>
    var attempts: map<nat, Attempt>
    var undo: map<nat, Undo>

    function Contents(): Store
      reads this
    {
      Store(clock, rows, attempts, undo)
    }

    constructor (clock: int)
      ensures Contents() == Empty(clock)
    {
      this.clock, rows, attempts, undo := clock, map[], map[], map[];
    }

    // Reads the row the token names and makes the checks; an expired row is marked and flushed.
    method ReadAndCheck(id: nat, found: Option<nat>, space: char -> bool)
      requires Enabled(Contents(), Read(id, found), space)
      modifies this`rows, this`attempts, this`undo
      ensures Contents() == Next(old(Contents()), Read(id, found), space)
    {
      var q := attempts[id].request;
      var token := SplitToken(q.token, space);
      var phase;
      if token.None? {
        phase := Refused(InvalidInput);
      } else if found.None? {
        phase := Refused(ConfirmationRequired);
      } else {
        var row := rows[found.value];
        var refusal := Refusal(row, token.value.1, q, clock);
        if refusal == Some(ConfirmExpired) {
          undo := undo[found.value := Undo(id, row)];
          rows := rows[found.value := row.(status := Expired)];
          phase := Expiring(found.value);
        } else {
          phase := if refusal.Some? then Refused(refusal.value) else Checked(found.value, clock);
        }
      }
      attempts := attempts[id := attempts[id].(phase := phase)];
    }

    // The rollback that answers a refusal: a flushed mark is undone and the lock released.
    method RollBack(id: nat)
      requires id in attempts && attempts[id].phase.Expiring?
      requires attempts[id].phase.row in rows && attempts[id].phase.row in undo
      modifies this`rows, this`attempts, this`undo
      ensures forall space :: Contents() == Next(old(Contents()), Rollback(id), space)
    {
      var row := attempts[id].phase.row;
      rows := rows[row := undo[row].before];
      undo := undo - {row};
      attempts := attempts[id := attempts[id].(phase := Refused(ConfirmExpired))];
    }

    // The conditional update: it changes the row only if nobody has used it since.
    method ConsumeIfPending(id: nat) returns (rowcount: nat)
      requires id in attempts && attempts[id].phase.Checked?
      requires attempts[id].phase.row in rows && attempts[id].phase.row !in undo
      modifies this`rows, this`attempts
      ensures forall space :: Contents() == Next(old(Contents()), Update(id), space)
      ensures rowcount == 1 <==> attempts[id].phase.Granted?
    {
      var a := attempts[id];
      var row := rows[a.phase.row];
      rowcount := 0;
      if row.consumedAt.None? && row.status == Pending {
        var status := if a.request.accept then Consumed else Rejected;
        rows := rows[a.phase.row := row.(consumedAt := Some(a.phase.at), status := status)];
        rowcount := 1;
      }
      var phase := if rowcount == 1 then Granted(a.phase.row, a.phase.at) else Refused(InvalidInput);
      attempts := attempts[id := a.(phase := phase)];
    }
  }
}
