/** One stored run and the pure decisions about it: `pkg/runs/transition.go`, `run.go`, `queue.go`.
    Go copies a `Run` by value before it changes the copy, so a run is a value here. Instants are
    microseconds, the precision a store keeps, and 0 is the zero `time.Time`. */
module RunState {

  type Id = nat
  const NO_ID: Id := 0
  const ZERO_TIME := 0
  const DUE_SLACK := 250_000

  datatype Status = Delayed | Queued | Executing | Completed | Failed | Canceled | Expired | TimedOut

  datatype Run = Run(
    status: Status, delivery: Id, attempts: nat, maxAttempts: int,
    held: string, leaseUntil: int, dueAt: int, startedAt: int, finishedAt: int, expiresAt: int,
    payload: string, output: string, error: string, revision: nat)

  /** The fence: one claim of one life of a run. */
  datatype Claim = Claim(life: nat, delivery: Id, attempts: nat)

  datatype Readiness = Runnable | Stale | Held | ExpiredNow | Early | Exhausted

  predicate IsWaiting(status: Status) { status == Delayed || status == Queued }

  predicate IsUnfinished(status: Status) { IsWaiting(status) || status == Executing }

  predicate IsPast(at: int, now: int) { at != ZERO_TIME && at <= now }

  predicate Owns(run: Run, delivery: Id, attempts: nat) {
    run.status == Executing && run.delivery == delivery && run.attempts == attempts
  }

  // What a run's fields say of a moment.

  /** An attempt of the run has a lease that has not lapsed. */
  predicate IsLeased(run: Run, at: int) { run.status == Executing && run.leaseUntil > at }

  /** The run waited past its expiry without ever starting. */
  predicate HasExpired(run: Run, at: int) {
    IsWaiting(run.status) && run.attempts == 0 && run.expiresAt != ZERO_TIME && run.expiresAt <= at
  }

  predicate IsTooEarly(run: Run, at: int) { IsWaiting(run.status) && run.dueAt > at + DUE_SLACK }

  /** Nothing keeps the run from an attempt but that it has none left, or not even that. */
  predicate IsReady(run: Run, at: int) { IsUnfinished(run.status) && !IsLeased(run, at) && !HasExpired(run, at) && !IsTooEarly(run, at) }

  /** A message of this delivery may start an attempt of the run. */
  predicate MayStart(run: Run, delivery: Id, at: int) {
    run.delivery == delivery && IsReady(run, at) && run.attempts < run.maxAttempts
  }

  /** The run shows as this status when it is looked at. */
  predicate ShowsAs(run: Run, at: int, status: Status) {
    if HasExpired(run, at) then status == Expired
    else if run.status == Delayed && run.dueAt <= at then status == Queued
    else status == run.status
  }

  function ReadinessOf(run: Run, delivery: Id, now: int): (r: Readiness)
    ensures r == Runnable <==> MayStart(run, delivery, now)
    ensures r == Stale <==> run.delivery != delivery || !IsUnfinished(run.status)
    ensures r == Held <==> run.delivery == delivery && IsLeased(run, now)
    ensures r == ExpiredNow <==> run.delivery == delivery && HasExpired(run, now)
    ensures r == Early <==> run.delivery == delivery && IsTooEarly(run, now) && !HasExpired(run, now)
    ensures r == Exhausted <==> run.delivery == delivery && IsReady(run, now) && run.attempts >= run.maxAttempts
  {
    var executing := run.status == Executing;
    if !IsUnfinished(run.status) || run.delivery != delivery then Stale
    else if executing && run.leaseUntil > now then Held
    else if !executing && run.attempts == 0 && IsPast(run.expiresAt, now) then ExpiredNow
    else if !executing && run.dueAt > now + DUE_SLACK then Early
    else if run.attempts >= run.maxAttempts then Exhausted
    else Runnable
  }

  function WaitFor(run: Run, delivery: Id, now: int): int {
    match ReadinessOf(run, delivery, now)
    case Held => run.leaseUntil - now
    case Early => run.dueAt - now
    case _ => 0
  }

  // What the changes come to, field by field.

  predicate KeepsPlan(after: Run, before: Run) {
    && after.delivery == before.delivery && after.dueAt == before.dueAt && after.expiresAt == before.expiresAt
    && after.maxAttempts == before.maxAttempts
  }

  /** One attempt more was begun, under a lease. */
  predicate IsClaimOf(after: Run, before: Run, now: int, lease: int) {
    && after.status == Executing && after.attempts == before.attempts + 1 && after.leaseUntil == now + lease
    && after.startedAt == (if before.startedAt == ZERO_TIME then now else before.startedAt) && after.finishedAt == before.finishedAt
    && after.error == "" && after.held == "" && after.output == before.output && after.payload == before.payload
    && KeepsPlan(after, before)
  }

  /** The run was finished. One that did not complete keeps a payload to be redriven with. */
  predicate IsFinishedAs(after: Run, before: Run, status: Status, output: string, reason: string, payload: string, now: int) {
    && after.status == status && after.output == output && after.error == reason && after.finishedAt == now
    && after.leaseUntil == ZERO_TIME && after.held == ""
    && after.payload == (if before.payload == "" && status != Completed then payload else before.payload)
    && after.attempts == before.attempts && after.startedAt == before.startedAt && KeepsPlan(after, before)
  }

  /** The run waits for another attempt. */
  predicate IsQueuedAgain(after: Run, before: Run, reason: string) {
    && after.status == Queued && after.error == reason && after.leaseUntil == ZERO_TIME && after.held == before.held
    && after.attempts == before.attempts && after.startedAt == before.startedAt && after.finishedAt == before.finishedAt
    && after.output == before.output && after.payload == before.payload && KeepsPlan(after, before)
  }

  /** The run was canceled, for a reason if one is given. */
  predicate IsCanceledFrom(after: Run, before: Run, reason: string, now: int) {
    && after.status == Canceled && after.error == (if reason == "" then before.error else reason) && after.finishedAt == now
    && after.leaseUntil == ZERO_TIME && after.held == ""
    && after.attempts == before.attempts && after.startedAt == before.startedAt
    && after.output == before.output && after.payload == before.payload && KeepsPlan(after, before)
  }

  /** The run was moved to another due time, under a new delivery. A debounced run lives on as long after its new due time as
      after the old. */
  predicate IsMovedTo(after: Run, before: Run, delivery: Id, due: int, now: int, debounced: bool) {
    && after.status == (if now < due then Delayed else Queued) && after.dueAt == due && after.delivery == delivery && after.held == ""
    && (if debounced && before.expiresAt != ZERO_TIME then after.expiresAt - after.dueAt == before.expiresAt - before.dueAt
        else after.expiresAt == before.expiresAt)
    && after.attempts == before.attempts && after.maxAttempts == before.maxAttempts && after.leaseUntil == before.leaseUntil
    && after.startedAt == before.startedAt && after.finishedAt == before.finishedAt
    && after.output == before.output && after.error == before.error && after.payload == before.payload
  }

  /** The run begins anew under a new delivery, with what it was to work on and its expiry. */
  predicate IsBegunAnew(after: Run, before: Run, delivery: Id, now: int) {
    && after.status == Queued && after.delivery == delivery && after.attempts == 0 && after.dueAt == now
    && after.startedAt == ZERO_TIME && after.finishedAt == ZERO_TIME && after.leaseUntil == ZERO_TIME
    && after.error == "" && after.held == ""
    && after.maxAttempts == before.maxAttempts && after.expiresAt == before.expiresAt
    && after.output == before.output && after.payload == before.payload
  }

  function Claimed(run: Run, now: int, lease: int): Run {
    run.(status := Executing, error := "", held := "", attempts := run.attempts + 1,
         startedAt := if run.startedAt == ZERO_TIME then now else run.startedAt, leaseUntil := now + lease)
  }

  function Settled(run: Run, status: Status, output: string, reason: string, payload: string, now: int): Run {
    run.(status := status, output := output, error := reason, finishedAt := now, leaseUntil := ZERO_TIME, held := "",
         payload := if status != Completed && run.payload == "" then payload else run.payload)
  }

  function Requeued(run: Run, reason: string): Run {
    run.(status := Queued, error := reason, leaseUntil := ZERO_TIME)
  }

  function CanceledRun(run: Run, reason: string, now: int): Run {
    run.(status := Canceled, finishedAt := now, leaseUntil := ZERO_TIME, held := "",
         error := if reason != "" then reason else run.error)
  }

  datatype Outcome = Unknown | Succeeded | Aborted | TimedOutOutcome | FailedOutcome | CanceledOutcome | Interrupted | Refused

  datatype Answer = Answer(outcome: Outcome, output: string, reason: string)

  /** `Ignored` is the verdict a canceled attempt gets: nothing is written. */
  datatype Verdict = Ignored | Verdict(status: Status, output: string, reason: string, retryAfter: int)

  const CUT_OFF := "cut off at its last attempt"

  /** The verdicts an attempt can come to. */
  predicate Fits(v: Verdict) {
    v.Verdict? && v.status in {Completed, Failed, TimedOut, Queued}
  }

  /** A failed attempt is made again while there are attempts left, unless its worker gave the run up, or a task's time ran out. */
  predicate IsRetried(run: Run, answer: Answer, task: bool) {
    && answer.outcome in {Unknown, FailedOutcome, TimedOutOutcome, Interrupted} && run.attempts < run.maxAttempts
    && !(task && answer.outcome == TimedOutOutcome)
  }

  /** What the answer to an attempt makes of the run: it completes with the answer's output, or else fails or waits for another
      attempt with the answer's reason. */
  predicate IsOutcome(after: Run, before: Run, answer: Answer, task: bool, retried: bool, payload: string) {
    match answer.outcome
    case Succeeded => IsFinishedAs(after, before, Completed, answer.output, "", payload, after.finishedAt)
    case CanceledOutcome => false
    case Interrupted =>
      if retried then IsQueuedAgain(after, before, "") else IsFinishedAs(after, before, Failed, "", CUT_OFF, payload, after.finishedAt)
    case _ =>
      if retried then IsQueuedAgain(after, before, answer.reason)
      else
        var ended := if task && answer.outcome == TimedOutOutcome then TimedOut else Failed;
        IsFinishedAs(after, before, ended, "", answer.reason, payload, after.finishedAt)
  }

  /** What a verdict makes of the run. */
  predicate IsVerdictOn(after: Run, before: Run, v: Verdict, payload: string)
    requires v.Verdict?
  {
    if v.status == Queued then IsQueuedAgain(after, before, v.reason)
    else IsFinishedAs(after, before, v.status, v.output, v.reason, payload, after.finishedAt)
  }

  /** A run is only queued again while it has attempts left, and only a canceled attempt leaves it alone. */
  function VerdictOn(run: Run, answer: Answer, task: bool, backoff: int): (v: Verdict)
    ensures v == Ignored <==> answer.outcome == CanceledOutcome
    ensures v.Verdict? ==> Fits(v) && (v.status == Queued <==> IsRetried(run, answer, task))
    ensures v.Verdict? && v.status == Completed <==> answer.outcome == Succeeded
    ensures v.Verdict? && v.status == Queued ==> v.retryAfter == if answer.outcome == Interrupted then 0 else backoff
  {
    var last := run.attempts >= run.maxAttempts;
    match answer.outcome
    case CanceledOutcome => Ignored
    case Interrupted => if last then Verdict(Failed, "", CUT_OFF, 0) else Verdict(Queued, "", "", 0)
    case Succeeded => Verdict(Completed, answer.output, "", 0)
    case Aborted => Verdict(Failed, "", answer.reason, 0)
    case Refused => Verdict(Failed, "", answer.reason, 0)
    case _ =>
      if answer.outcome == TimedOutOutcome && task then Verdict(TimedOut, "", answer.reason, 0)
      else if last then Verdict(Failed, "", answer.reason, 0)
      else Verdict(Queued, "", answer.reason, backoff)
  }

  lemma VerdictIsTheAnswers(run: Run, answer: Answer, task: bool, backoff: int, after: Run, before: Run, payload: string)
    requires answer.outcome != CanceledOutcome && IsVerdictOn(after, before, VerdictOn(run, answer, task, backoff), payload)
    ensures IsOutcome(after, before, answer, task, IsRetried(run, answer, task), payload)
  {
  }

  function Applied(run: Run, v: Verdict, payload: string, now: int): Run
    requires v.Verdict?
  {
    if v.status == Queued then Requeued(run, v.reason)
    else Settled(run, v.status, v.output, v.reason, payload, now)
  }

  function StatusAt(run: Run, now: int, deployed: bool): Status {
    if IsUnfinished(run.status) && !deployed then Canceled
    else if IsWaiting(run.status) && run.attempts == 0 && IsPast(run.expiresAt, now) then Expired
    else if run.status == Delayed && run.dueAt <= now then Queued
    else run.status
  }

  function Moved(run: Run, delivery: Id, due: int, now: int, debounced: bool): Run {
    run.(dueAt := due, delivery := delivery, held := "", status := if due <= now then Queued else Delayed,
         expiresAt := if debounced && run.expiresAt != ZERO_TIME then run.expiresAt + (due - run.dueAt) else run.expiresAt)
  }

  function Redriven(run: Run, delivery: Id, now: int): Run {
    run.(status := Queued, attempts := 0, error := "", dueAt := now, startedAt := ZERO_TIME, finishedAt := ZERO_TIME,
         leaseUntil := ZERO_TIME, held := "", delivery := delivery)
  }
}
