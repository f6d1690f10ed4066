/** `pkg/runs/deliver.go`: what one engine does with one run's messages, while every other writer of the run
    interferes. Each write below is a step of `RunSystem`, because `Row` takes no other. */
module RunEngine {
  import opened Wrappers
  import opened RunState
  import opened RunSystem
  import opened RunSafety
  import opened RunRow

  const RETAINED_FOR := 5_000_000

  datatype Message = Message(
    execution: string, delivery: Id, id: string, key: string,
    maxAttempts: int, publishedAt: int, dueAt: int, payload: string)
  {
    function ExecutionFor(consumer: string): string {
      if execution != "" then execution else id + "-" + consumer
    }

    function Group(consumer: string): string {
      if key != "" then key else ExecutionFor(consumer)
    }
  }

  /** Messages with keys are of one group exactly if the keys are the same. Without one, messages that name a run are exactly if
      it is the same run, and a topic message is of a group named after it and its consumer. */
  lemma GroupsAreKeysOrRuns(a: Message, b: Message, consumer: string)
    ensures a.key != "" && b.key != "" ==> (a.Group(consumer) == b.Group(consumer) <==> a.key == b.key)
    ensures a.key == b.key == "" && a.execution != "" && b.execution != "" ==>
              (a.Group(consumer) == b.Group(consumer) <==> a.execution == b.execution)
    ensures a.key == a.execution == "" ==> a.Group(consumer) == a.id + "-" + consumer
  {
  }

  datatype Received = Received(handle: string, message: Message, receives: int)

  datatype Disposition = Disposition(done: bool, after: int)

  const DONE := Disposition(true, 0)
  const RETAINED := RedeliverAfter(RETAINED_FOR)

  function RedeliverAfter(wait: int): Disposition {
    Disposition(false, if wait > 0 then wait else 0)
  }

  datatype Deployed = Deployed(consumer: string, ordered: bool, batches: bool, task: bool, ttl: int, maxAttempts: int)

  function AttemptsFor(policy: int, requested: int): int {
    if 0 < requested < policy then requested else policy
  }

  function RunOfMessage(deployed: Deployed, msg: Message, now: int): Run {
    var createdAt := if msg.publishedAt == ZERO_TIME then now else msg.publishedAt;
    var dueAt := if msg.dueAt == ZERO_TIME then createdAt else msg.dueAt;
    Run(if dueAt > now then Delayed else Queued, msg.delivery, 0, AttemptsFor(deployed.maxAttempts, msg.maxAttempts),
        "", ZERO_TIME, dueAt, ZERO_TIME, ZERO_TIME, if deployed.ttl > 0 then dueAt + deployed.ttl else ZERO_TIME,
        if deployed.task then msg.payload else "", "", "", 0)
  }

  /** A run as it is created for a topic message: due when the message says, or when it was published, and good for as long after
      that as its topic keeps messages. */
  predicate IsRunOf(run: Run, deployed: Deployed, msg: Message, now: int) {
    && run.status == (if run.dueAt <= now then Queued else Delayed) && run.delivery == msg.delivery && run.attempts == 0
    && (msg.dueAt != ZERO_TIME ==> run.dueAt == msg.dueAt)
    && (msg.dueAt == ZERO_TIME ==> run.dueAt == if msg.publishedAt == ZERO_TIME then now else msg.publishedAt)
    && (if 0 < msg.maxAttempts < deployed.maxAttempts then run.maxAttempts == msg.maxAttempts else run.maxAttempts == deployed.maxAttempts)
    && (if deployed.ttl <= 0 then run.expiresAt == ZERO_TIME else run.expiresAt - run.dueAt == deployed.ttl)
    && run.payload == (if deployed.task then msg.payload else "")
    && run.startedAt == run.finishedAt == run.leaseUntil == ZERO_TIME && run.held == run.output == run.error == ""
  }

  /** A message that names no run was published to a topic, and carries no delivery. */
  predicate WellAddressed(msg: Message) {
    msg.execution == "" ==> msg.delivery == NO_ID
  }

  /** The run a message finds: the one stored or, for a topic message, the one created from it. */
  ghost predicate IsFound(before: World, run: Run, deployed: Deployed, msg: Message) {
    if before.stored.Some? then before.stored.value == run
    else msg.execution == "" && exists now :: IsRunOf(run, deployed, msg, now)
  }

  /** A run is stored, and a message of this delivery finds nothing to run in it. */
  predicate IsSpent(w: World, delivery: Id) { w.stored.Some? && NothingToRun(w, delivery) }

  function ExhaustedReason(run: Run): string {
    if run.status == Executing then CUT_OFF else "its attempts ran out"
  }

  const UNDELIVERABLE := "delivered too often without starting"

  /** The run is stored as finished with this status, for this reason. */
  predicate IsSettledAs(w: World, run: Run, status: Status, reason: string, payload: string) {
    w.stored.Some? && IsFinishedAs(w.stored.value, run, status, "", reason, payload, w.stored.value.finishedAt)
  }

  /** The run is stored as it was, but for the message that holds it back: in an ordered topic, the one found early last. */
  predicate IsStillStored(w: World, run: Run, ordered: bool, handle: string) {
    if !ordered || handle in {"", run.held} then w.stored == Some(run)
    else w.stored.Some? && w.stored.value == run.(held := handle, revision := w.stored.value.revision)
  }

  /** The message is left for when the run's lease lapses, or for when it is due. */
  predicate Waits(run: Run, at: int, d: Disposition) {
    if IsLeased(run, at) then d == Disposition(false, run.leaseUntil - at) else IsTooEarly(run, at) && d == Disposition(false, run.dueAt - at)
  }

  ghost predicate IsLeftToWait(run: Run, d: Disposition) { exists at :: Waits(run, at, d) }

  /** The run was deleted, or every try was spent. */
  predicate IsContended(w: World, versions: int, pauses: int, d: Disposition) {
    d == RETAINED && (w.stored == None || IsTriedOut(versions, pauses))
  }

  /** Finishing a run forgets what held it. */
  lemma HoldIsForgotten(w: World, run: Run, holding: Run, reason: string, payload: string)
    requires holding == run.(held := holding.held, revision := holding.revision) && IsSettledAs(w, holding, Failed, reason, payload)
    ensures IsSettledAs(w, run, Failed, reason, payload)
  {
  }

  /** An attempt is reported on unless it was canceled, or interrupted and will be made again. */
  predicate IsReported(run: Run, answer: Answer, task: bool) {
    answer.outcome != CanceledOutcome && !(answer.outcome == Interrupted && IsRetried(run, answer, task))
  }

  /** How a message ends whose attempt was answered. */
  function DispositionOn(retried: bool, answer: Answer, backoff: int): Disposition {
    if !retried then DONE else RedeliverAfter(if answer.outcome == Interrupted then 0 else backoff)
  }

  function DispositionOf(v: Verdict): Disposition
    requires v.Verdict?
  {
    if v.status == Queued then RedeliverAfter(v.retryAfter) else DONE
  }

  /** What the answer to an attempt comes to when nobody interferes; a canceled attempt records nothing. */
  ghost predicate IsFinished(w': World, w: World, known: Run, answer: Answer, task: bool, backoff: int, payload: string, d: Disposition) {
    if answer.outcome == CanceledOutcome then w' == w && d == DONE
    else
      && w'.stored.Some? && IsOutcome(w'.stored.value, known, answer, task, IsRetried(known, answer, task), payload)
      && d == DispositionOn(IsRetried(known, answer, task), answer, backoff)
  }

  /** If the claim is answered, a version was stored that is what the answer makes of one that the claim owned. */
  ghost predicate IsAnsweredBy(w: World, c: RunState.Claim, answer: Answer, task: bool, retried: bool, payload: string) {
    c in w.answered ==> exists before, after :: IsOwnedVersion(w, before, c) && Known(w, after) && IsOutcome(after, before, answer, task, retried, payload)
  }

  ghost predicate HasItsVerdict(w: World, c: RunState.Claim, v: Verdict, payload: string)
    requires v.Verdict?
  {
    c in w.answered ==> exists before, after :: IsOwnedVersion(w, before, c) && Known(w, after) && IsVerdictOn(after, before, v, payload)
  }

  /** The stored version is what the answer makes of one that the claim owned. */
  ghost predicate IsRecorded(w: World, c: RunState.Claim, answer: Answer, task: bool, retried: bool, backoff: int, payload: string, d: Disposition) {
    && c in w.answered && d == DispositionOn(retried, answer, backoff) && w.stored.Some?
    && exists known :: IsOwnedVersion(w, known, c) && IsOutcome(w.stored.value, known, answer, task, retried, payload)
  }

  ghost predicate IsOwnedVersion(w: World, known: Run, c: RunState.Claim) { Known(w, known) && Owns(known, c.delivery, c.attempts) }

  /** The stored version is what a verdict makes of one that the claim owned. */
  ghost predicate HasVerdict(w: World, c: RunState.Claim, v: Verdict, payload: string, d: Disposition) {
    && v.Verdict? && c in w.answered && d == DispositionOf(v) && w.stored.Some?
    && exists known :: IsOwnedVersion(w, known, c) && IsVerdictOn(w.stored.value, known, v, payload)
  }

  lemma OutcomeIsStored(w: World, c: RunState.Claim, known: Run, v: Verdict, payload: string, now: int)
    requires v.Verdict? && IsOwnedVersion(w, known, c) && (c in w.answered ==> WasStored(w, Applied(known, v, payload, now)))
    ensures HasItsVerdict(w, c, v, payload)
  {
    if c in w.answered {
      var after :| Known(w, after) && after == Applied(known, v, payload, now).(revision := after.revision);
      assert IsVerdictOn(after, known, v, payload);
    }
  }

  /** What the verdict on an answer makes of a run is what the answer makes of it. */
  lemma VerdictsAreAnswers(w: World, c: RunState.Claim, known: Run, answer: Answer, task: bool, backoff: int, payload: string)
    requires answer.outcome != CanceledOutcome
    ensures var v, retried := VerdictOn(known, answer, task, backoff), IsRetried(known, answer, task);
            && DispositionOf(v) == DispositionOn(retried, answer, backoff)
            && (HasItsVerdict(w, c, v, payload) ==> IsAnsweredBy(w, c, answer, task, retried, payload))
            && (forall d :: HasVerdict(w, c, v, payload, d) ==> IsRecorded(w, c, answer, task, retried, backoff, payload, d))
            && (w.stored.Some? && IsVerdictOn(w.stored.value, known, v, payload) ==> IsOutcome(w.stored.value, known, answer, task, retried, payload))
  {
    forall after, before | IsVerdictOn(after, before, VerdictOn(known, answer, task, backoff), payload)
      ensures IsOutcome(after, before, answer, task, IsRetried(known, answer, task), payload)
    {
      VerdictIsTheAnswers(known, answer, task, backoff, after, before, payload);
    }
  }

  datatype Arrival = Arrived(run: Run) | Gone | Unread

  /** The one claim this engine has made since for a delivery, if any. One that it does not know of leaves the message to be
      delivered again. */
  ghost predicate HasMadeOne(row: Row, before: set<Claim>, delivery: Id, claimed: Option<Claim>, made: Option<Claim>, d: Disposition)
    reads row
  {
    IsOneMore(before, row.Made(), delivery, claimed, made, d)
  }

  ghost predicate IsOneMore(before: set<Claim>, after: set<Claim>, delivery: Id, claimed: Option<Claim>, made: Option<Claim>, d: Disposition) {
    && (made.None? ==> after == before) && (claimed.Some? ==> made == claimed)
    && (made.Some? ==> made.value !in before && after == before + {made.value} && made.value.delivery == delivery)
    && (made.Some? && claimed.None? ==> d == RETAINED)
  }

  class Engine {
    const lease: int
    const maxReceives: int

    constructor (lease: int, maxReceives: int)
      ensures this.lease == lease && this.maxReceives == maxReceives
    {
      this.lease, this.maxReceives := lease, maxReceives;
    }

    method Arrive(row: Row, deployed: Deployed, msg: Message) returns (arrival: Arrival)
      requires row.Valid() && row.mine == {} && WellAddressed(msg)
      modifies row
      ensures row.Advanced() && row.mine == {} && row.minted == old(row.minted) && row.Made() == old(row.Made())
      ensures arrival.Arrived? ==> row.world.stored == Some(arrival.run) && Known(row.world, arrival.run)
      ensures arrival.Gone? ==> row.world.stored == None && msg.execution != ""
      ensures old(row.Quiet()) ==> row.Quiet() && arrival.Gone? == (old(row.world).stored == None && msg.execution != "")
      ensures old(row.Quiet()) && old(row.world).stored.Some? ==> arrival == Arrived(old(row.world).stored.value) && row.world == old(row.world)
      ensures old(row.Quiet()) && arrival.Gone? ==> row.world == old(row.world)
      ensures old(row.Quiet()) && !arrival.Gone? ==> arrival.Arrived? && IsFound(old(row.world), arrival.run, deployed, msg)
    {
      var read := row.Read();
      match read
      case Found(run) => return Arrived(run);
      case ReadFailed => return Unread;
      case Missing =>
        if msg.execution != "" {
          return Gone;
        }
        arrival := CreateFor(row, deployed, msg);
    }

    /** Creates the run of a topic message, unless another has. */
    method CreateFor(row: Row, deployed: Deployed, msg: Message) returns (arrival: Arrival)
      requires row.Valid() && row.mine == {} && msg.delivery == NO_ID
      modifies row
      ensures row.Advanced() && row.mine == {} && row.minted == old(row.minted) && row.Made() == old(row.Made())
      ensures !arrival.Gone? && (arrival.Arrived? ==> row.world.stored == Some(arrival.run) && Known(row.world, arrival.run))
      ensures old(row.Quiet()) && old(row.world).stored == None ==>
                row.Quiet() && arrival.Arrived? && exists now :: row.HasJustRead(now) && IsRunOf(arrival.run, deployed, msg, now)
    {
      var now := row.Now();
      var created := row.Create(RunOfMessage(deployed, msg, now));
      match created
      case Written(run) =>
        assert row.HasJustRead(now) && IsRunOf(run, deployed, msg, now);
        return Arrived(run);
      case WriteFailed => return Unread;
      case WriteStale =>
        var read := row.Read();
        return if read.Found? then Arrived(read.run) else Unread;
    }

    /** The queue is about to drop the message of a run that never started. */
    predicate IsUndeliverable(run: Run, rcv: Received) {
      maxReceives > 0 && rcv.receives >= maxReceives && IsWaiting(run.status)
    }

    /** What admission comes to when nobody interferes. A run that may start is admitted as it is. A message of another delivery, or
        of a finished run, is done. A run whose attempt has its lease is left alone until the lease lapses, and one that is not
        due until it is, unless its queue is about to drop the message; one that has expired, or has no attempts left, is
        finished. */
    ghost predicate IsDecided(w: World, run: Run, ordered: bool, rcv: Received, at: int, d: Disposition, admitted: bool) {
      && admitted == MayStart(run, rcv.message.delivery, at)
      && if admitted then w.stored == Some(run)
         else if run.delivery != rcv.message.delivery || !IsUnfinished(run.status) then d == DONE && w.stored == Some(run)
         else if IsLeased(run, at) then d == Disposition(false, run.leaseUntil - at) && w.stored == Some(run)
         else if HasExpired(run, at) then d == DONE && IsSettledAs(w, run, Expired, "", "")
         else if !IsTooEarly(run, at)
         then d == DONE && IsSettledAs(w, run, Failed, if run.status == Executing then CUT_OFF else "its attempts ran out", rcv.message.payload)
         else if IsUndeliverable(run, rcv) then d == DONE && IsSettledAs(w, run, Failed, UNDELIVERABLE, rcv.message.payload)
         else d == Disposition(false, run.dueAt - at) && IsStillStored(w, run, ordered, rcv.handle)
    }

    /** A run passed over when nobody interferes: failed if undeliverable, and otherwise left for later. */
    ghost predicate IsPassedOver(w: World, run: Run, rcv: Received, wait: int, d: Disposition) {
      if IsUndeliverable(run, rcv) then d == DONE && IsSettledAs(w, run, Failed, UNDELIVERABLE, rcv.message.payload)
      else d == RedeliverAfter(wait) && w.stored == Some(run)
    }

    method RedeliverUnlessUndeliverable(row: Row, run: Run, rcv: Received, wait: int) returns (d: Disposition)
      requires row.Valid() && Known(row.world, run)
      modifies row
      ensures row.Advanced() && row.mine == old(row.mine) && row.minted == old(row.minted) && row.Made() == old(row.Made())
      ensures if d.done then IsUndeliverable(run, rcv) && IsSettledAs(row.world, run, Failed, UNDELIVERABLE, rcv.message.payload)
              else d == RedeliverAfter(wait)
      ensures old(row.Quiet()) && old(row.world).stored == Some(run) ==>
                row.Quiet() && IsPassedOver(row.world, run, rcv, wait, d)
    {
      if maxReceives <= 0 || rcv.receives < maxReceives || !IsWaiting(run.status) {
        return RedeliverAfter(wait);
      }
      var now := row.Now();
      var failed := Settled(run, Failed, "", UNDELIVERABLE, rcv.message.payload, now);
      var result := row.Write(run, failed, GiveUp(UNDELIVERABLE, rcv.message.payload, now));
      return if result.Written? then DONE else RedeliverAfter(wait);
    }

    /** Records why a run is not started: held back on its queue, expired, or out of attempts. */
    method RecordUnready(row: Row, rcv: Received, run: Run, ready: Readiness, now: int) returns (result: WriteResult)
      requires row.Valid() && Known(row.world, run) && ready in {Early, ExpiredNow, Exhausted}
      requires ready == ReadinessOf(run, rcv.message.delivery, now) && row.IsNow(now)
      modifies row
      ensures row.Advanced() && row.mine == old(row.mine) && row.minted == old(row.minted) && row.Made() == old(row.Made())
      ensures result.WriteStale? ==> IsOvertaken(row.world, run)
      ensures result.WriteFailed? ==> old(row.faults) != []
      ensures result.Written? ==> run.revision < result.run.revision && row.world.stored == Some(result.run) && Known(row.world, result.run)
      ensures result.Written? && ready == Early ==> result.run == run.(held := rcv.handle, revision := result.run.revision)
      ensures result.Written? && ready == ExpiredNow ==> result.run.finishedAt == now && IsSettledAs(row.world, run, Expired, "", "")
      ensures result.Written? && ready == Exhausted ==>
                result.run.finishedAt == now && IsSettledAs(row.world, run, Failed, ExhaustedReason(run), rcv.message.payload)
      ensures old(row.Quiet()) && old(row.world).stored == Some(run) ==> row.Quiet() && result.Written?
    {
      if ready == Early {
        result := row.Write(run, run.(held := rcv.handle), Hold(rcv.handle));
      } else if ready == ExpiredNow {
        result := row.Write(run, Settled(run, Expired, "", "", "", now), Expire(now));
      } else {
        var reason, payload := ExhaustedReason(run), rcv.message.payload;
        result := row.Write(run, Settled(run, Failed, "", reason, payload, now), Exhaust(reason, payload, now));
      }
    }

    method PassOverHeld(row: Row, rcv: Received, known: Run, run: Run, wait: int, ghost at: int) returns (d: Disposition)
      requires row.Valid() && Known(row.world, run) && run == known.(held := rcv.handle, revision := run.revision)
      requires ReadinessOf(known, rcv.message.delivery, at) == Early && wait == known.dueAt - at && rcv.handle !in {"", known.held}
      modifies row
      ensures row.Advanced() && row.mine == old(row.mine) && row.minted == old(row.minted) && row.Made() == old(row.Made())
      ensures d.done ==> IsSpent(row.world, rcv.message.delivery)
      ensures old(row.Quiet()) && old(row.world).stored == Some(run) ==>
                row.Quiet() && IsDecided(row.world, known, true, rcv, at, d, false)
      ensures d.done || Waits(run, at, d)
    {
      d := RedeliverUnlessUndeliverable(row, run, rcv, wait);
      if old(row.Quiet()) && old(row.world).stored == Some(run) && d.done {
        HoldIsForgotten(row.world, known, run, UNDELIVERABLE, rcv.message.payload);
      }
    }

    /** The part of a try that writes why the run is not started. */
    method TurnAway(row: Row, ghost deployed: Deployed, rcv: Received, known: Run, ready: Readiness, at: int)
      returns (run: Run, d: Disposition, again: bool)
      requires row.Valid() && Known(row.world, known) && ready in {Early, ExpiredNow, Exhausted}
      requires ready == ReadinessOf(known, rcv.message.delivery, at) && row.IsNow(at)
      requires ready == Early ==> deployed.ordered && rcv.handle !in {"", known.held}
      modifies row
      ensures row.Advanced() && row.mine == old(row.mine) && row.minted == old(row.minted) && row.Made() == old(row.Made())
      ensures Known(row.world, run)
      ensures run.revision >= known.revision && (again ==> row.world.stored == Some(run) && d == RETAINED && run.revision > known.revision)
      ensures d.done ==> IsSpent(row.world, rcv.message.delivery)
      ensures old(row.faults) == [] && !again && !d.done ==> Waits(run, at, d) || (d == RETAINED && row.world.stored == None)
      ensures old(row.Quiet()) && old(row.world).stored == Some(known) ==>
                && row.Quiet() && !again
                && IsDecided(row.world, known, deployed.ordered, rcv, at, d, false)
    {
      run, d, again := known, RETAINED, false;
      var result := RecordUnready(row, rcv, run, ready, at);
      match result
      case WriteFailed =>
      case Written(written) =>
        run, d := written, DONE;
        if ready == Early {
          d := PassOverHeld(row, rcv, known, run, WaitFor(known, rcv.message.delivery, at), at);
        }
      case WriteStale =>
        var read := row.Read();
        if read.Found? {
          run, again := read.run, true;
        }
    }

    /** The part of a try that leaves a run to its lease, or to its due time. */
    method LeaveAlone(row: Row, ghost deployed: Deployed, rcv: Received, known: Run, wait: int, ghost at: int) returns (d: Disposition)
      requires row.Valid() && Known(row.world, known)
      requires known.delivery == rcv.message.delivery && wait == WaitFor(known, known.delivery, at)
      requires IsLeased(known, at) || (IsTooEarly(known, at) && !HasExpired(known, at) && (!deployed.ordered || rcv.handle in {"", known.held}))
      modifies row
      ensures row.Advanced() && row.mine == old(row.mine) && row.minted == old(row.minted) && row.Made() == old(row.Made())
      ensures if d.done then IsSpent(row.world, rcv.message.delivery) else Waits(known, at, d)
      ensures old(row.Quiet()) && old(row.world).stored == Some(known) ==>
                row.Quiet() && IsDecided(row.world, known, deployed.ordered, rcv, at, d, false)
    {
      d := RedeliverUnlessUndeliverable(row, known, rcv, wait);
    }

    /** One try to admit a run: `again` asks for another, over the version just read. */
    method TryAdmit(row: Row, deployed: Deployed, rcv: Received, known: Run)
      returns (run: Run, d: Disposition, admitted: bool, at: int, again: bool)
      requires row.Valid() && row.world.stored == Some(known)
      modifies row
      ensures row.Advanced() && row.mine == old(row.mine) && row.minted == old(row.minted) && row.Made() == old(row.Made())
      ensures Known(row.world, run)
      ensures admitted ==> row.world.stored == Some(run) && MayStart(run, rcv.message.delivery, at)
      ensures again ==> row.world.stored == Some(run) && !admitted && d == RETAINED && run.revision > known.revision
      ensures !admitted && d.done ==> IsSpent(row.world, rcv.message.delivery)
      ensures row.HasRead(at) && run.revision >= known.revision
      ensures old(row.faults) == [] && !again && !admitted && !d.done ==> Waits(run, at, d) || (d == RETAINED && row.world.stored == None)
      ensures old(row.Quiet()) ==>
                row.Quiet() && !again && (admitted ==> run == known) && IsDecided(row.world, known, deployed.ordered, rcv, at, d, admitted)
    {
      run, d, admitted, at, again := known, RETAINED, false, 0, false;
      at := row.Now();
      var ready, wait := ReadinessOf(run, rcv.message.delivery, at), WaitFor(run, rcv.message.delivery, at);
      if ready == Stale {
        d := DONE;
      } else if ready == Runnable {
        admitted := true;
      } else if ready == Held || (ready == Early && (!deployed.ordered || rcv.handle == "" || run.held == rcv.handle)) {
        d := LeaveAlone(row, deployed, rcv, run, wait, at);
      } else {
        run, d, again := TurnAway(row, deployed, rcv, known, ready, at);
      }
      assert row.readings[|old(row.readings)|] == at;
    }

    /** Whether a run's message may start it now; if not, what becomes of the message. */
    method Admit(row: Row, deployed: Deployed, rcv: Received, arrived: Run)
      returns (run: Run, d: Disposition, admitted: bool, at: int)
      requires row.Valid() && row.world.stored == Some(arrived)
      modifies row
      ensures row.Advanced() && row.mine == old(row.mine) && row.minted == old(row.minted) && row.Made() == old(row.Made())
      ensures Known(row.world, run)
      ensures admitted ==> row.world.stored == Some(run) && MayStart(run, rcv.message.delivery, at)
      ensures !admitted && d.done ==> IsSpent(row.world, rcv.message.delivery)
      ensures row.HasRead(at) && run.revision >= arrived.revision
      ensures old(row.faults) == [] && !admitted && !d.done ==> Waits(run, at, d) || IsContended(row.world, run.revision - arrived.revision, row.pauses - old(row.pauses), d)
      ensures old(row.Quiet()) ==>
                row.Quiet() && (admitted ==> run == arrived) && IsDecided(row.world, arrived, deployed.ordered, rcv, at, d, admitted)
    {
      run, d, admitted, at := arrived, RETAINED, false, 0;
      for n := 0 to TRIES
        invariant old(row.Quiet()) ==> n == 0 && row.Quiet() && run == arrived
        invariant (n > 0 ==> row.HasRead(at)) && run.revision >= arrived.revision + n && row.pauses + 1 >= old(row.pauses) + n
        invariant row.Advanced() && row.mine == old(row.mine) && row.minted == old(row.minted) && row.Made() == old(row.Made())
        invariant row.world.stored == Some(run) && d == RETAINED && !admitted
      {
        if n > 0 {
          var goOn := row.Pause();
          if !goOn {
            return;
          }
        }
        var again;
        run, d, admitted, at, again := TryAdmit(row, deployed, rcv, run);
        if !again {
          return;
        }
      }
    }

    method WriteClaim(row: Row, known: Run, admittedAt: int)
      returns (result: WriteResult, c: Option<RunState.Claim>, ghost made: Option<RunState.Claim>)
      requires row.Valid() && Known(row.world, known) && MayStart(known, known.delivery, admittedAt)
      modifies row
      ensures row.Advanced() && row.minted == old(row.minted) && c.Some? == result.Written?
      ensures IsOneMore(old(row.Made()), row.Made(), known.delivery, c, made, RETAINED)
      ensures row.mine == old(row.mine) + if c.Some? then {c.value} else {}
      ensures result.WriteStale? ==> IsOvertaken(row.world, known) && made.None?
      ensures result.WriteFailed? ==> old(row.faults) != []
      ensures c.Some? ==>
                && row.world.stored == Some(result.run) && Known(row.world, result.run) && c.value !in old(row.world).claims
                && IsClaimedFrom(result.run, known) && row.HasJustRead(result.run.leaseUntil - lease) && known.revision < result.run.revision
                && c.value == RunState.Claim(row.world.life, known.delivery, known.attempts + 1)
      ensures old(row.Quiet()) && old(row.world).stored == Some(known) ==> row.Quiet() && result.Written?
    {
      row.InvHolds();
      var now := row.Now();
      result := row.Write(known, Claimed(known, now, lease), TakeClaim(row.me, admittedAt, now, lease));
      made := if row.Made() == old(row.Made()) then None else Some(NextClaim(row.world, known));
      c := if result.Written? then Some(ClaimOf(row.world, result.run)) else None;
    }

    /** One try to claim; a stale write asks for another try if the version read after it is admitted too. */
    method TryClaim(row: Row, deployed: Deployed, rcv: Received, known: Run, admittedAt: int)
      returns (run: Run, d: Disposition, c: Option<RunState.Claim>, again: bool, at: int, ghost made: Option<RunState.Claim>)
      requires row.Valid() && Known(row.world, known)
      requires MayStart(known, rcv.message.delivery, admittedAt)
      modifies row
      ensures row.Advanced() && row.minted == old(row.minted) && HasMadeOne(row, old(row.Made()), rcv.message.delivery, c, made, d)
      ensures c.None? ==> row.mine == old(row.mine)
      ensures c.None? && d.done ==> IsSpent(row.world, rcv.message.delivery)
      ensures c.Some? ==> IsClaimed(row, rcv, run, c.value) && c.value !in old(row.world).claims
      ensures c.Some? ==> row.mine == old(row.mine) + {c.value}
      ensures again ==> made.None? && d == RETAINED && Known(row.world, run)
      ensures again ==> MayStart(run, rcv.message.delivery, at)
      ensures run.revision >= known.revision && (again ==> run.revision > known.revision)
      ensures c.Some? ==> row.HasJustRead(run.leaseUntil - lease)
      ensures old(row.faults) == [] && c.None? && !again && !d.done ==> IsLeftToWait(run, d) || IsContended(row.world, run.revision - known.revision, row.pauses - old(row.pauses), d)
      ensures c.Some? ==> c.value == RunState.Claim(row.world.life, known.delivery, known.attempts + 1)
      ensures old(row.Quiet()) && old(row.world).stored == Some(known) ==> row.Quiet() && c.Some? && IsClaimedFrom(run, known)
    {
      run, d, c, again, at, made := known, RETAINED, None, false, admittedAt, None;
      var result;
      result, c, made := WriteClaim(row, known, admittedAt);
      match result
      case Written(written) => run := written;
      case WriteFailed =>
      case WriteStale =>
        run, d, again, at := Readmit(row, deployed, rcv, known);
    }

    /** What follows a stale claim: the version stored now is admitted or decided. */
    method Readmit(row: Row, deployed: Deployed, rcv: Received, known: Run) returns (run: Run, d: Disposition, again: bool, at: int)
      requires row.Valid() && Known(row.world, known)
      modifies row
      ensures row.Advanced() && row.mine == old(row.mine) && row.minted == old(row.minted) && row.Made() == old(row.Made())
      ensures Known(row.world, run) && (again ==> d == RETAINED && MayStart(run, rcv.message.delivery, at))
      ensures !again && d.done ==> IsSpent(row.world, rcv.message.delivery)
      ensures run.revision >= known.revision && (again && IsOvertaken(old(row.world), known) ==> run.revision > known.revision)
      ensures old(row.faults) == [] && !again && !d.done ==> IsLeftToWait(run, d) || IsContended(row.world, run.revision - known.revision, row.pauses - old(row.pauses), d)
    {
      run, d, again, at := known, RETAINED, false, 0;
      var read := row.Read();
      if read.Found? {
        run, d, again, at := Admit(row, deployed, rcv, read.run);
        if again {
          d := RETAINED;
        }
      }
    }

    /** The run is stored as this engine's, executing under the claim's fence. */
    ghost predicate IsClaimed(row: Row, rcv: Received, run: Run, c: RunState.Claim)
      reads row
    {
      && row.world.stored == Some(run) && Known(row.world, run) && c in row.mine
      && Owns(run, c.delivery, c.attempts) && c.life == row.world.life && c.delivery == rcv.message.delivery
    }

    /** One version is the claim made of another. */
    predicate IsClaimedFrom(run: Run, admitted: Run) {
      IsClaimOf(run, admitted, run.leaseUntil - lease, lease)
    }

    /** One more try to claim, after a pause if it is not the first. */
    method ClaimAfterPause(row: Row, deployed: Deployed, rcv: Received, known: Run, admittedAt: int, paused: bool)
      returns (run: Run, d: Disposition, c: Option<RunState.Claim>, again: bool, at: int, ghost made: Option<RunState.Claim>)
      requires row.Valid() && Known(row.world, known)
      requires MayStart(known, rcv.message.delivery, admittedAt)
      modifies row
      ensures row.Advanced() && row.minted == old(row.minted) && HasMadeOne(row, old(row.Made()), rcv.message.delivery, c, made, d)
      ensures c.None? ==> row.mine == old(row.mine)
      ensures c.None? && d.done ==> IsSpent(row.world, rcv.message.delivery)
      ensures c.Some? ==> IsClaimed(row, rcv, run, c.value) && c.value !in old(row.world).claims
      ensures c.Some? ==> row.mine == old(row.mine) + {c.value}
      ensures again ==> made.None? && c.None? && d == RETAINED && Known(row.world, run)
      ensures again ==> MayStart(run, rcv.message.delivery, at)
      ensures run.revision >= known.revision && (again ==> run.revision > known.revision)
      ensures c.Some? ==> row.HasJustRead(run.leaseUntil - lease)
      ensures paused ==> row.pauses > old(row.pauses)
      ensures old(row.faults) == [] && c.None? && !again && !d.done ==> IsLeftToWait(run, d) || IsContended(row.world, run.revision - known.revision, row.pauses - old(row.pauses), d)
      ensures old(row.Quiet()) && old(row.world).stored == Some(known) && !paused ==>
                && row.Quiet() && c == Some(RunState.Claim(row.world.life, known.delivery, known.attempts + 1))
                && IsClaimedFrom(run, known)
    {
      if paused {
        var goOn := row.Pause();
        if !goOn {
          return known, RETAINED, None, false, admittedAt, None;
        }
      }
      run, d, c, again, at, made := TryClaim(row, deployed, rcv, known, admittedAt);
    }

    /** Claims an admitted run under a lease, and with it the fence its outcome is written under. */
    method Claim(row: Row, deployed: Deployed, rcv: Received, admitted: Run, admittedAt: int)
      returns (run: Run, d: Disposition, c: Option<RunState.Claim>, ghost made: Option<RunState.Claim>)
      requires row.Valid() && Known(row.world, admitted)
      requires MayStart(admitted, rcv.message.delivery, admittedAt)
      modifies row
      ensures row.Advanced() && row.minted == old(row.minted) && HasMadeOne(row, old(row.Made()), rcv.message.delivery, c, made, d)
      ensures c.None? ==> row.mine == old(row.mine)
      ensures c.None? && d.done ==> IsSpent(row.world, rcv.message.delivery)
      ensures c.Some? ==> IsClaimed(row, rcv, run, c.value) && c.value !in old(row.world).claims
      ensures c.Some? ==> row.mine == old(row.mine) + {c.value} && row.HasJustRead(run.leaseUntil - lease)
      ensures old(row.faults) == [] && c.None? && !d.done ==> IsLeftToWait(run, d) || IsContended(row.world, run.revision - admitted.revision, row.pauses - old(row.pauses), d)
      ensures old(row.Quiet()) && old(row.world).stored == Some(admitted) ==>
                && row.Quiet() && c == Some(RunState.Claim(row.world.life, admitted.delivery, admitted.attempts + 1))
                && IsClaimedFrom(run, admitted)
    {
      run, d, c, made := admitted, RETAINED, None, None;
      var at := admittedAt;
      ghost var calm := row.Quiet() && row.world.stored == Some(admitted);
      for n := 0 to TRIES
        invariant calm ==> n == 0 && row.Quiet() && run == admitted && row.world.stored == Some(run)
        invariant row.Advanced() && row.mine == old(row.mine) && row.minted == old(row.minted) && row.Made() == old(row.Made())
        invariant c.None? && made.None? && d == RETAINED && Known(row.world, run)
        invariant MayStart(run, rcv.message.delivery, at) && run.revision >= admitted.revision + n && row.pauses + 1 >= old(row.pauses) + n
      {
        var again;
        run, d, c, again, at, made := ClaimAfterPause(row, deployed, rcv, run, at, n > 0);
        if !again {
          assert c.Some? ==> c.value !in old(row.world).claims;
          return;
        }
      }
    }

    method WriteLease(row: Row, c: RunState.Claim, known: Run) returns (result: WriteResult)
      requires row.Valid() && c in row.mine && Known(row.world, known) && Owns(known, c.delivery, c.attempts)
      modifies row
      ensures row.Advanced() && row.mine == old(row.mine) && row.minted == old(row.minted) && row.Made() == old(row.Made())
      ensures result.WriteStale? ==> IsOvertaken(row.world, known)
      ensures result.WriteFailed? ==> old(row.faults) != []
      ensures result.Written? ==>
                && known.revision < result.run.revision && row.world.stored == Some(result.run) && Known(row.world, result.run) && row.HasJustRead(result.run.leaseUntil - lease)
                && result.run == known.(leaseUntil := result.run.leaseUntil, revision := result.run.revision)
      ensures old(row.Quiet()) && old(row.world).stored == Some(known) ==> row.Quiet() && result.Written?
    {
      var now := row.Now();
      result := row.Write(known, known.(leaseUntil := now + lease), Renew(c, now + lease));
    }

    method TryRenew(row: Row, c: RunState.Claim, known: Run) returns (owned: bool, run: Run, again: bool)
      requires row.Valid() && c in row.mine && Known(row.world, known) && Owns(known, c.delivery, c.attempts)
      modifies row
      ensures row.Advanced() && row.mine == old(row.mine) && row.minted == old(row.minted) && row.Made() == old(row.Made())
      ensures Known(row.world, run) && Owns(run, c.delivery, c.attempts)
      ensures !owned ==> !again && !Owned(row.world, c)
      ensures old(row.faults) == [] && !Owned(old(row.world), c) ==> !owned
      ensures run.revision >= known.revision
      ensures again ==> run.revision > known.revision
      ensures old(row.faults) == [] && owned && !again ==> row.world.stored == Some(run) && row.HasJustRead(run.leaseUntil - lease)
      ensures old(row.Quiet()) && old(row.world).stored == Some(known) ==>
                row.Quiet() && owned && !again && row.world.stored == Some(run)
                && run == known.(leaseUntil := run.leaseUntil, revision := run.revision)
    {
      owned, run, again := true, known, false;
      var result := WriteLease(row, c, known);
      match result
      case WriteFailed =>
      case Written(written) =>
        run := written;
        assert Owned(row.world, c);
      case WriteStale =>
        var read := row.Read();
        if read.Missing? {
          owned := false;
        } else if read.Found? {
          owned := Owns(read.run, c.delivery, c.attempts);
          run, again := if owned then read.run else run, owned;
          assert owned ==> Owned(row.world, c);
        }
    }

    method RenewAfterPause(row: Row, c: RunState.Claim, known: Run, paused: bool) returns (owned: bool, run: Run, again: bool)
      requires row.Valid() && c in row.mine && Known(row.world, known) && Owns(known, c.delivery, c.attempts)
      modifies row
      ensures row.Advanced() && row.mine == old(row.mine) && row.minted == old(row.minted) && row.Made() == old(row.Made())
      ensures Known(row.world, run) && Owns(run, c.delivery, c.attempts)
      ensures !owned ==> !again && !Owned(row.world, c)
      ensures old(row.faults) == [] && !Owned(old(row.world), c) ==> !owned
      ensures run.revision >= known.revision
      ensures again ==> run.revision > known.revision
      ensures paused ==> row.pauses > old(row.pauses)
      ensures old(row.faults) == [] && owned && !again ==> row.world.stored == Some(run) && row.HasJustRead(run.leaseUntil - lease)
      ensures old(row.Quiet()) && old(row.world).stored == Some(known) && !paused ==>
                row.Quiet() && owned && !again && row.world.stored == Some(run)
                && run == known.(leaseUntil := run.leaseUntil, revision := run.revision)
    {
      if paused {
        var goOn := row.Pause();
        if !goOn {
          return true, known, false;
        }
      }
      owned, run, again := TryRenew(row, c, known);
    }

    /** One beat of the lease: false once the run is another's, finished or gone. */
    method RenewLease(row: Row, c: RunState.Claim, known: Run) returns (owned: bool, run: Run)
      requires row.Valid() && c in row.mine && Known(row.world, known) && Owns(known, c.delivery, c.attempts)
      modifies row
      ensures row.Advanced() && row.mine == old(row.mine) && row.minted == old(row.minted) && row.Made() == old(row.Made())
      ensures Known(row.world, run) && Owns(run, c.delivery, c.attempts)
      ensures !owned ==> !Owned(row.world, c)
      ensures old(row.faults) == [] && !Owned(old(row.world), c) ==> !owned
      ensures run.revision >= known.revision
      ensures old(row.faults) == [] && owned ==>
                || (row.world.stored == Some(run) && row.HasJustRead(run.leaseUntil - lease))
                || IsTriedOut(run.revision - known.revision, row.pauses - old(row.pauses))
      ensures old(row.Quiet()) && old(row.world).stored == Some(known) ==>
                row.Quiet() && owned && row.world.stored == Some(run) && run == known.(leaseUntil := run.leaseUntil, revision := run.revision)
    {
      owned, run := true, known;
      for n := 0 to TRIES
        invariant old(row.Quiet()) && old(row.world).stored == Some(known) ==>
                    n == 0 && row.Quiet() && run == known && row.world.stored == Some(run)
        invariant row.Advanced() && row.mine == old(row.mine) && row.minted == old(row.minted) && row.Made() == old(row.Made())
        invariant old(row.faults) == [] && !Owned(old(row.world), c) ==> n == 0
        invariant Known(row.world, run) && Owns(run, c.delivery, c.attempts) && owned && run.revision >= known.revision + n && row.pauses + 1 >= old(row.pauses) + n
      {
        assert Owned(row.world, c) ==> Owned(old(row.world), c);
        var again;
        owned, run, again := RenewAfterPause(row, c, run, n > 0);
        if !again {
          return;
        }
      }
    }

    method WriteOutcome(row: Row, c: RunState.Claim, known: Run, v: Verdict, payload: string) returns (result: WriteResult)
      requires row.Valid() && c in row.mine && Known(row.world, known)
      requires Owns(known, c.delivery, c.attempts) && Fits(v)
      modifies row
      ensures row.Advanced() && row.minted == old(row.minted) && row.Made() == old(row.Made())
      ensures row.mine == if result.WriteStale? then old(row.mine) else old(row.mine) - {c}
      ensures result.WriteStale? ==> IsOvertaken(row.world, known)
      ensures result.WriteFailed? ==> old(row.faults) != []
      ensures HasItsVerdict(row.world, c, v, payload)
      ensures result.Written? ==>
                && c in row.world.answered && row.world.stored == Some(result.run) && Known(row.world, result.run)
                && IsVerdictOn(result.run, known, v, payload)
      ensures old(row.Quiet()) && old(row.world).stored == Some(known) ==> row.Quiet() && result.Written?
    {
      var now := row.Now();
      result := row.Write(known, Applied(known, v, payload, now), Change.Finish(c, v, payload, now));
      OutcomeIsStored(row.world, c, known, v, payload, now);
    }

    /** One try to record an attempt's outcome. */
    method TryFinish(row: Row, c: RunState.Claim, known: Run, v: Verdict, payload: string)
      returns (run: Run, d: Disposition, again: bool, recorded: bool)
      requires row.Valid() && c in row.mine && Known(row.world, known)
      requires Owns(known, c.delivery, c.attempts) && Fits(v)
      modifies row
      ensures row.Advanced() && row.minted == old(row.minted) && row.Made() == old(row.Made())
      ensures again ==> row.mine == old(row.mine) && Known(row.world, run) && Owns(run, c.delivery, c.attempts)
      ensures again ==> d == RETAINED && !recorded && row.world.stored == Some(run) && run.revision > known.revision
      ensures old(row.faults) == [] && !again ==> recorded || d.done
      ensures !again ==> row.mine == old(row.mine) - {c}
      ensures d.done ==> Superseded(row.world, c)
      ensures HasItsVerdict(row.world, c, v, payload)
      ensures recorded ==>
                && c in row.world.answered && row.world.stored == Some(run)
                && run.delivery == c.delivery && run.attempts == c.attempts && IsVerdictOn(run, known, v, payload)
                && d == DispositionOf(v)
      ensures old(row.Quiet()) && old(row.world).stored == Some(known) ==> row.Quiet() && recorded
    {
      run, d, again, recorded := known, RETAINED, false, false;
      var result := WriteOutcome(row, c, known, v, payload);
      match result
      case WriteFailed =>
      case Written(written) =>
        run, recorded, d := written, true, DispositionOf(v);
      case WriteStale =>
        run, d, again := LookAgain(row, c, known);
    }

    /** What follows a stale outcome: another try if the claim still owns the run, and otherwise nothing. */
    method LookAgain(row: Row, c: RunState.Claim, known: Run) returns (run: Run, d: Disposition, again: bool)
      requires row.Valid() && c in row.mine && Known(row.world, known)
      modifies row
      ensures row.Advanced() && row.minted == old(row.minted) && row.Made() == old(row.Made()) && c !in row.world.answered
      ensures again ==> row.mine == old(row.mine) && Known(row.world, run) && Owns(run, c.delivery, c.attempts)
      ensures again ==> d == RETAINED && row.world.stored == Some(run)
      ensures again && IsOvertaken(old(row.world), known) ==> run.revision > known.revision
      ensures old(row.faults) == [] ==> again || d.done
      ensures !again ==> row.mine == old(row.mine) - {c}
      ensures d.done ==> Superseded(row.world, c)
    {
      run, d, again := known, RETAINED, false;
      var read := row.Read();
      if read.Found? && Owns(read.run, c.delivery, c.attempts) {
        run, again := read.run, true;
        return;
      }
      if !read.ReadFailed? {
        d := DONE;
        row.InvHolds();
        LostClaimsAreSuperseded(row.world, c);
      }
      row.Drop(c);
    }

    /** Records what an attempt came to, if the run is still executing under the claim it was made for. */
    method Finish(row: Row, deployed: Deployed, c: RunState.Claim, known: Run, payload: string, answer: Answer, backoff: int)
      returns (d: Disposition, reported: bool)
      requires row.Valid() && c in row.mine && Known(row.world, known) && Owns(known, c.delivery, c.attempts)
      requires answer.outcome == CanceledOutcome ==> !Owned(row.world, c)
      modifies row
      ensures row.Advanced() && row.minted == old(row.minted) && row.Made() == old(row.Made()) && row.mine == old(row.mine) - {c}
      ensures d.done ==> Superseded(row.world, c)
      ensures old(row.faults) == [] ==>
                c in row.world.answered || Superseded(row.world, c) || IsTriedOut(|row.world.written| - known.revision, row.pauses - old(row.pauses))
      ensures IsAnsweredBy(row.world, c, answer, deployed.task, IsRetried(known, answer, deployed.task), payload)
      ensures reported ==>
                IsRecorded(row.world, c, answer, deployed.task, IsRetried(known, answer, deployed.task), backoff, payload, d)
      ensures old(row.Quiet()) && old(row.world).stored == Some(known) ==>
                row.Quiet() && reported == IsReported(known, answer, deployed.task) && IsFinished(row.world, old(row.world), known, answer, deployed.task, backoff, payload, d)
    {
      var v := VerdictOn(known, answer, deployed.task, backoff);
      if v == Ignored {
        row.InvHolds();
        LostClaimsAreSuperseded(row.world, c);
        row.Drop(c);
        return DONE, false;
      }
      var recorded;
      d, recorded := RecordOutcome(row, c, known, v, payload);
      VerdictsAreAnswers(row.world, c, known, answer, deployed.task, backoff, payload);
      reported := recorded && (answer.outcome != Interrupted || v.status != Queued);
    }

    /** One more try to record a verdict, after a pause if it is not the first. */
    method FinishAfterPause(row: Row, c: RunState.Claim, known: Run, v: Verdict, payload: string, paused: bool)
      returns (run: Run, d: Disposition, again: bool, recorded: bool)
      requires row.Valid() && c in row.mine && Known(row.world, known) && Owns(known, c.delivery, c.attempts) && Fits(v)
      modifies row
      ensures row.Advanced() && row.minted == old(row.minted) && row.Made() == old(row.Made())
      ensures again ==> row.mine == old(row.mine) && Known(row.world, run) && Owns(run, c.delivery, c.attempts)
      ensures again ==> d == RETAINED && !recorded && run.revision > known.revision
      ensures old(row.faults) == [] && !again ==> recorded || d.done
      ensures paused ==> row.pauses > old(row.pauses)
      ensures !again ==> row.mine == old(row.mine) - {c}
      ensures d.done ==> Superseded(row.world, c)
      ensures HasItsVerdict(row.world, c, v, payload)
      ensures recorded ==> HasVerdict(row.world, c, v, payload, d) && row.world.stored == Some(run) && IsVerdictOn(run, known, v, payload)
      ensures old(row.Quiet()) && old(row.world).stored == Some(known) && !paused ==> row.Quiet() && recorded
    {
      if paused {
        var goOn := row.Pause();
        if !goOn {
          row.Drop(c);
          return known, RETAINED, false, false;
        }
      }
      run, d, again, recorded := TryFinish(row, c, known, v, payload);
      assert recorded ==> IsOwnedVersion(row.world, known, c);
    }

    /** Tries to record a verdict for as long as the claim owns the run. */
    method RecordOutcome(row: Row, c: RunState.Claim, known: Run, v: Verdict, payload: string) returns (d: Disposition, recorded: bool)
      requires row.Valid() && c in row.mine && Known(row.world, known) && Owns(known, c.delivery, c.attempts) && Fits(v)
      modifies row
      ensures row.Advanced() && row.minted == old(row.minted) && row.Made() == old(row.Made()) && row.mine == old(row.mine) - {c}
      ensures d.done ==> Superseded(row.world, c)
      ensures recorded ==> HasVerdict(row.world, c, v, payload, d)
      ensures HasItsVerdict(row.world, c, v, payload)
      ensures old(row.faults) == [] ==> recorded || d.done || IsTriedOut(|row.world.written| - known.revision, row.pauses - old(row.pauses))
      ensures old(row.Quiet()) && old(row.world).stored == Some(known) ==>
                && row.Quiet() && recorded && row.world.stored.Some? && IsVerdictOn(row.world.stored.value, known, v, payload)
                && d == DispositionOf(v)
    {
      var run := known;
      d, recorded := RETAINED, false;
      ghost var calm := row.Quiet() && row.world.stored == Some(known);
      for n := 0 to TRIES
        invariant calm ==> n == 0 && row.Quiet() && run == known && row.world.stored == Some(run)
        invariant row.Advanced() && row.minted == old(row.minted) && row.Made() == old(row.Made()) && row.mine == old(row.mine)
        invariant Known(row.world, run) && Owns(run, c.delivery, c.attempts) && run.revision >= known.revision + n && row.pauses + 1 >= old(row.pauses) + n
        invariant d == RETAINED && !recorded
      {
        var again;
        run, d, again, recorded := FinishAfterPause(row, c, run, v, payload, n > 0);
        if !again {
          return;
        }
      }
      row.Drop(c);
    }
  }
}
