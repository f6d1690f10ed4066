/** Every other writer of a run: `pkg/runs/trigger.go`, `tasks.go` and `topics.go`. A caller starts, cancels,
    reschedules, redrives or purges a run while engines work it. */
module RunCallers {
  import opened Wrappers
  import opened RunState
  import opened RunSystem
  import opened RunSafety
  import opened RunRow
  import opened RunEngine

  /** `Undone` is a change whose message could not be sent, so that the change was taken back; `Left` is one
      that could not be taken back either. */
  datatype Outcome = Ok(run: Run) | NotFound | Refused(status: Status) | Contended | Undone(run: Run) | Left | Unchanged

  /** The run stored answers to a delivery no message carried before, and no message sent before can start it. */
  ghost predicate IsNewlyDelivered(w: World, used: set<Id>) {
    w.stored.Some? && w.stored.value.delivery !in used && forall d :: d in used ==> NothingToRun(w, d)
  }

  /** The version put back is the one the change was made from, under a new revision. */
  ghost predicate IsPutBack(w: World, prior: Run) {
    w.stored.Some? && w.stored.value == prior.(revision := w.stored.value.revision)
  }

  /** Creates a run and sends its message; if the message cannot be sent, the run is deleted again. */
  method Start(row: Row, run: Run, sent: bool) returns (result: Outcome)
    requires row.Valid() && row.mine == {} && run.attempts == 0 && IsWaiting(run.status) && run.delivery in row.minted
    modifies row
    ensures row.Advanced() && row.mine == {}
    ensures result.Ok? ==>
              && row.world.stored == Some(result.run) && result.run.delivery == run.delivery && IsNewlyDelivered(row.world, old(row.world).used)
              && result.run == run.(revision := result.run.revision)
    ensures result.Undone? ==> row.world.stored == None && !sent
    ensures result == Contended ==> row.world.stored.Some?
    ensures result == Left && sent ==> old(row.faults) != []
    ensures result.Ok? || result.Undone? || result in {Contended, Left}
    ensures old(row.Quiet()) && old(row.world).stored == None ==> if sent then result.Ok? else result.Undone?
  {
    var created := row.Create(run);
    if !created.Written? {
      return if created.WriteStale? then Contended else Left;
    }
    if sent {
      return Ok(created.run);
    }
    var removed := row.Remove(created.run);
    return if removed.Written? then Undone(created.run) else Left;
  }

  /** Where canceling leaves the run: finished, by this caller unless it was already, and owned by no attempt. */
  ghost predicate EndsCanceling(w: World, result: Outcome, listed: Run) {
    match result
    case Ok(run) =>
      && Known(w, run) && !IsUnfinished(run.status)
      && (run != listed ==> w.stored == Some(run) && forall c :: c in w.claims ==> !Owned(w, c))
    case NotFound => w.stored == None
    case Contended => true
    case Left => true
    case _ => false
  }

  /** What canceling comes to when nobody interferes. */
  ghost predicate IsCanceled(w': World, w: World, run: Run, reason: string, result: Outcome) {
    result.Ok? &&
    if IsUnfinished(run.status)
    then w'.stored == Some(result.run) && IsCanceledFrom(result.run, run, reason, result.run.finishedAt)
    else result.run == run && w' == w
  }

  /** What follows a write that came too late: another try over the version stored now, if there is one. */
  method LookAgain(row: Row, known: Run) returns (result: Outcome, run: Run, again: bool)
    requires row.Valid() && Known(row.world, known)
    modifies row
    ensures row.Advanced() && row.mine == old(row.mine)
    ensures again ==> row.world.stored == Some(run) && Known(row.world, run)
    ensures again && IsOvertaken(old(row.world), known) ==> run.revision > known.revision
    ensures old(row.faults) == [] && !again ==> result == NotFound
    ensures !again ==> result == Left || (result == NotFound && row.world.stored == None)
  {
    var read := row.Read();
    match read
    case Found(stored) => return Left, stored, true;
    case Missing => return NotFound, known, false;
    case ReadFailed => return Left, known, false;
  }

  method WriteCanceled(row: Row, known: Run, reason: string) returns (result: WriteResult)
    requires row.Valid() && row.mine == {} && Known(row.world, known) && IsUnfinished(known.status)
    modifies row
    ensures row.Advanced() && row.mine == {}
    ensures result.WriteStale? ==> IsOvertaken(row.world, known)
    ensures result.WriteFailed? ==> old(row.faults) != []
    ensures result.Written? ==>
              && row.world.stored == Some(result.run) && Known(row.world, result.run) && row.HasJustRead(result.run.finishedAt)
              && IsCanceledFrom(result.run, known, reason, result.run.finishedAt)
    ensures old(row.Quiet()) && old(row.world).stored == Some(known) ==> result.Written?
  {
    var now := row.Now();
    result := row.Write(known, CanceledRun(known, reason, now), Change.Cancel(reason, now));
  }

  method TryCancel(row: Row, known: Run, reason: string, ghost listed: Run) returns (result: Outcome, run: Run, again: bool)
    requires row.Valid() && row.mine == {} && Known(row.world, known)
    requires known == listed || row.world.stored == Some(known)
    modifies row
    ensures row.Advanced() && row.mine == {}
    ensures again ==> row.world.stored == Some(run) && Known(row.world, run) && run.revision > known.revision
    ensures !again ==> result != Contended && (result == Left ==> old(row.faults) != [])
    ensures !again && result.Ok? && result.run != known ==> row.HasJustRead(result.run.finishedAt)
    ensures !again ==> EndsCanceling(row.world, result, listed)
    ensures old(row.Quiet()) && old(row.world).stored == Some(known) ==>
              !again && IsCanceled(row.world, old(row.world), known, reason, result)
  {
    run, again, result := known, false, Left;
    if !IsUnfinished(run.status) {
      return Ok(run), run, false;
    }
    var written := WriteCanceled(row, known, reason);
    match written
    case WriteFailed =>
    case Written(canceled) => result := Ok(canceled);
    case WriteStale =>
      result, run, again := LookAgain(row, known);
  }

  /** Cancels a run that is not finished. An attempt under way is stopped; its outcome will find no claim to record. */
  method Cancel(row: Row, listed: Run, reason: string) returns (result: Outcome)
    requires row.Valid() && row.mine == {} && Known(row.world, listed)
    modifies row
    ensures row.Advanced() && row.mine == {}
    ensures EndsCanceling(row.world, result, listed)
    ensures result == Left ==> old(row.faults) != []
    ensures result == Contended ==> IsTriedOut(|row.world.written| - listed.revision, row.pauses - old(row.pauses))
    ensures old(row.Quiet()) && old(row.world).stored == Some(listed) ==>
              IsCanceled(row.world, old(row.world), listed, reason, result)
  {
    var run := listed;
    for n := 0 to TRIES
      invariant row.Advanced() && row.mine == {} && Known(row.world, run) && run.revision >= listed.revision + n && row.pauses + 1 >= old(row.pauses) + n
      invariant run == listed || row.world.stored == Some(run)
      invariant old(row.Quiet()) && old(row.world).stored == Some(listed) ==> n == 0 && row.Quiet() && row.world == old(row.world) && run == listed
    {
      if n > 0 {
        var goOn := row.Pause();
        if !goOn {
          return Left;
        }
      }
      var again;
      result, run, again := TryCancel(row, run, reason, listed);
      if !again {
        return;
      }
    }
    return Contended;
  }

  /** What follows a write that reopened a run: its message is sent, or the write is taken back. */
  method SendReopened(row: Row, prior: Run, written: Run, sent: bool) returns (result: Outcome)
    requires row.Valid() && row.mine == {} && row.world.stored == Some(written) && row.world.undo == Some(prior)
    modifies row
    ensures row.Advanced() && row.mine == {}
    ensures if sent then result == Ok(written) && row.world == old(row.world) else !result.Ok?
    ensures result.Undone? ==> !sent && result.run == prior && IsPutBack(row.world, prior)
    ensures result.Ok? || result.Undone? || result == Left
    ensures result == Left ==> !sent && (old(row.faults) != [] || IsOvertaken(row.world, written))
    ensures old(row.Quiet()) && !sent ==> result.Undone?
  {
    if sent {
      return Ok(written);
    }
    var restored := row.WriteBack(written, prior.(revision := written.revision));
    return if restored.Written? then Undone(prior) else Left;
  }

  /** Writes a reopened run under a new delivery, and sends its message. */
  method Reopen(row: Row, prior: Run, delivery: Id, change: Change, sent: bool) returns (result: Outcome, written: WriteResult)
    requires row.Valid() && row.mine == {} && Known(row.world, prior) && Allows(prior, change) && delivery in row.minted
    requires Mentioned(change) == {delivery} && row.IsStamped(change)
    modifies row
    ensures row.Advanced() && row.mine == {}
    ensures result.Ok? ==>
              && row.world.stored == Some(result.run) && result.run == Rewritten(prior, change).(revision := result.run.revision)
    ensures result.Undone? ==> result.run == prior && IsPutBack(row.world, prior)
    ensures result.Ok? || result.Undone? || result == Left
    ensures written.WriteStale? ==> IsOvertaken(row.world, prior)
    ensures result == Left ==> written.WriteStale? || !sent || old(row.faults) != []
    ensures old(row.Quiet()) && old(row.world).stored == Some(prior) ==>
              written.Written? && if sent then result.Ok? else result == Undone(prior)
  {
    written := row.Write(prior, Rewritten(prior, change), change);
    if !written.Written? {
      return Left, written;
    }
    result := SendReopened(row, prior, written.run, sent);
  }

  /** The run is to start no sooner than asked: it was moved to `due` under a delivery no earlier message carries,
      or a debounced run was already due later. */
  ghost predicate IsRescheduled(w: World, used: set<Id>, run: Run, due: int, debounced: bool) {
    && w.stored == Some(run) && IsUnfinished(run.status)
    && ((IsWaiting(run.status) && run.dueAt == due && IsNewlyDelivered(w, used)) || (debounced && due <= run.dueAt))
  }

  /** What a reschedule comes to when nobody interferes: a debounced run due later is left, and a delayed one is moved, or
      put back if its message cannot be sent; one that is not delayed is refused. */
  ghost predicate IsMovedOrLeft(prior: Run, due: int, debounced: bool, sent: bool, result: Outcome) {
    match result
    case Ok(run) => if debounced && IsUnfinished(prior.status) && due <= prior.dueAt then run == prior else sent && IsMovedFrom(run, prior, due, debounced)
    case Undone(run) => !sent && run == prior
    case Refused(status) => status != Delayed && exists now :: ShowsAs(prior, now, status)
    case _ => false
  }

  ghost predicate IsMovedFrom(run: Run, prior: Run, due: int, debounced: bool) {
    exists now :: IsMovedTo(run, prior, run.delivery, due, now, debounced)
  }

  /** One try to reschedule; `again` asks for another, over the version just read. */
  method TryReschedule(row: Row, known: Run, due: int, debounced: bool, sent: bool)
    returns (result: Outcome, run: Run, again: bool)
    requires row.Valid() && row.mine == {} && row.world.stored == Some(known) && Known(row.world, known)
    modifies row
    ensures row.Advanced() && row.mine == {}
    ensures again ==> row.world.stored == Some(run) && Known(row.world, run) && run.revision > known.revision
    ensures !again ==> result != Contended && (result == Left ==> !sent || old(row.faults) != [])
    ensures !again ==> EndsRescheduling(row.world, old(row.world).used, result, due, debounced)
    ensures old(row.Quiet()) ==> !again && IsMovedOrLeft(known, due, debounced, sent, result)
  {
    run, again, result := known, false, Left;
    if debounced && IsUnfinished(run.status) && due <= run.dueAt {
      return Ok(run), run, false;
    }
    var now := row.Now();
    assert ShowsAs(run, now, StatusAt(run, now, true));
    if StatusAt(run, now, true) != Delayed {
      return Outcome.Refused(StatusAt(run, now, true)), run, false;
    }
    result, run, again := Move(row, run, due, now, debounced, sent);
  }

  /** Moves a run still delayed, and sends its new message. */
  method Move(row: Row, known: Run, due: int, now: int, debounced: bool, sent: bool) returns (result: Outcome, run: Run, again: bool)
    requires row.Valid() && row.mine == {} && row.world.stored == Some(known) && Known(row.world, known)
    requires ShowsAs(known, now, Delayed) && row.IsNow(now)
    modifies row
    ensures row.Advanced() && row.mine == {}
    ensures again ==> row.world.stored == Some(run) && Known(row.world, run) && run.revision > known.revision
    ensures !again ==> result != Contended && (result == Left ==> !sent || old(row.faults) != [])
    ensures !again ==> EndsRescheduling(row.world, old(row.world).used, result, due, debounced)
    ensures old(row.Quiet()) ==>
              !again && if sent then result.Ok? && IsMovedFrom(result.run, known, due, debounced) else result == Undone(known)
  {
    run, again := known, false;
    var delivery := row.NewId();
    var written;
    result, written := Reopen(row, known, delivery, Change.Reschedule(delivery, due, now, debounced), sent);
    assert result.Ok? ==> IsMovedTo(result.run, known, result.run.delivery, due, now, debounced);
    if written.WriteStale? {
      result, run, again := LookAgain(row, known);
    }
  }

  /** Where rescheduling leaves the run. */
  ghost predicate EndsRescheduling(w: World, used: set<Id>, result: Outcome, due: int, debounced: bool) {
    match result
    case Ok(run) => IsRescheduled(w, used, run, due, debounced)
    case Undone(prior) => prior.status == Delayed && IsPutBack(w, prior)
    case NotFound => w.stored == None
    case Refused(status) => status != Delayed
    case Contended => true
    case Left => true
    case Unchanged => false
  }

  method RescheduleFound(row: Row, found: Run, due: int, debounced: bool, sent: bool) returns (result: Outcome)
    requires row.Valid() && row.mine == {} && row.world.stored == Some(found) && Known(row.world, found)
    modifies row
    ensures row.Advanced() && row.mine == {}
    ensures EndsRescheduling(row.world, old(row.world).used, result, due, debounced)
    ensures result == Left ==> !sent || old(row.faults) != []
    ensures result == Contended ==> IsTriedOut(|row.world.written| - found.revision, row.pauses - old(row.pauses))
    ensures old(row.Quiet()) ==> IsMovedOrLeft(found, due, debounced, sent, result)
  {
    var run := found;
    for n := 0 to TRIES
      invariant row.Advanced() && row.mine == {} && row.world.stored == Some(run) && Known(row.world, run) && run.revision >= found.revision + n && row.pauses + 1 >= old(row.pauses) + n
      invariant old(row.Quiet()) ==> n == 0 && row.Quiet() && run == found
    {
      if n > 0 {
        var goOn := row.Pause();
        if !goOn {
          return Left;
        }
      }
      var again;
      result, run, again := TryReschedule(row, run, due, debounced, sent);
      if !again {
        return;
      }
    }
    return Contended;
  }

  /** Moves a delayed run to another due time under a new delivery, so that the message it had no longer starts it.
      A move whose message cannot be sent is taken back to the very version it replaced. */
  method Reschedule(row: Row, due: int, debounced: bool, sent: bool) returns (result: Outcome)
    requires row.Valid() && row.mine == {}
    modifies row
    ensures row.Advanced() && row.mine == {}
    ensures EndsRescheduling(row.world, old(row.world).used, result, due, debounced)
    ensures result == Left ==> !sent || old(row.faults) != []
    ensures result == Contended ==> IsTriedOut(|row.world.written| - |old(row.world).written|, row.pauses - old(row.pauses))
    ensures old(row.Quiet()) ==>
              if old(row.world).stored == None then result == NotFound
              else IsMovedOrLeft(old(row.world).stored.value, due, debounced, sent, result)
  {
    var read := row.Read();
    if !read.Found? {
      return if read.Missing? then NotFound else Left;
    }
    result := RescheduleFound(row, read.run, due, debounced, sent);
  }

  /** Where redriving leaves the dead letter: queued under a new delivery with all its attempts ahead of it, dead
      again as it was, or as whoever changed it first left it. */
  ghost predicate EndsRedriving(w: World, used: set<Id>, result: Outcome, letter: Run) {
    match result
    case Ok(run) =>
      && w.stored == Some(run) && run.status == Queued && run.attempts == 0 && IsNewlyDelivered(w, used)
      && run.payload == letter.payload && run.maxAttempts == letter.maxAttempts
    case Undone(prior) => prior == letter && IsPutBack(w, letter)
    case Unchanged => true
    case Left => true
    case _ => false
  }

  predicate IsRedrivenFrom(run: Run, letter: Run) {
    IsBegunAnew(run, letter, run.delivery, run.dueAt)
  }

  /** Runs a failed run again from its first attempt. */
  method RedriveOne(row: Row, letter: Run, sent: bool) returns (result: Outcome)
    requires row.Valid() && row.mine == {} && Known(row.world, letter) && letter.status == Failed
    modifies row
    ensures row.Advanced() && row.mine == {}
    ensures EndsRedriving(row.world, old(row.world).used, result, letter)
    ensures result == Unchanged ==> |row.world.written| > letter.revision || row.world.stored == None
    ensures result == Left ==> !sent || old(row.faults) != []
    ensures old(row.Quiet()) && old(row.world).stored == Some(letter) ==>
              if sent then result.Ok? && IsRedrivenFrom(result.run, letter) else result == Undone(letter)
  {
    var now := row.Now();
    var delivery := row.NewId();
    var written;
    result, written := Reopen(row, letter, delivery, Change.Redrive(delivery, now), sent);
    if written.WriteStale? {
      return Unchanged;
    }
  }

  /** Deletes a dead letter unless someone changed it first. */
  method PurgeOne(row: Row, letter: Run) returns (purged: bool, failed: bool)
    requires row.Valid() && row.mine == {} && Known(row.world, letter) && letter.status == Failed
    modifies row
    ensures row.Advanced() && row.mine == {}
    ensures purged ==> row.world.stored == None && !failed
    ensures if failed then old(row.faults) != [] else purged || IsOvertaken(row.world, letter)
    ensures old(row.Quiet()) && old(row.world).stored == Some(letter) ==> purged
  {
    var removed := row.Remove(letter);
    return removed.Written?, removed.WriteFailed?;
  }
}
