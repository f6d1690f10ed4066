/** Every writer of one run, as a transition system over its store entry. A step is one atomic
    compare-and-swap write; any number of engines and callers take steps in any order. */
module RunSystem {
  import opened Wrappers
  import opened RunState

  /** `written` holds every version ever stored, in order; a version's revision is its place there.
      `undo` is the version a sender whose message could not be sent would put back. `answered` are the
      claims whose engine has written an outcome, and `takers` says which engine made each claim. A run that is deleted
      and created again starts a new life. */
  datatype World = World(
    stored: Option<Run>, written: seq<Run>, undo: Option<Run>,
    claims: seq<Claim>, takers: map<Claim, nat>, answered: set<Claim>,
    life: nat, nextId: Id, used: set<Id>)

  /** The writes that replace the stored version by one made from it. */
  datatype Change =
    | TakeClaim(engine: nat, admittedAt: int, now: int, lease: int)
    | Renew(claim: Claim, until: int)
    | Finish(claim: Claim, verdict: Verdict, payload: string, now: int)
    | Hold(handle: string)
    | Expire(now: int)
    | Exhaust(reason: string, payload: string, now: int)
    | GiveUp(reason: string, payload: string, now: int)
    | Cancel(reason: string, now: int)
    | Reschedule(delivery: Id, due: int, now: int, debounced: bool)
    | Redrive(delivery: Id, now: int)

  datatype Step = Mint | Create(run: Run) | Rewrite(change: Change) | Restore | Delete

  const BLANK := World(None, [], None, [], map[], {}, 0, 1, {})

  predicate IsFresh(w: World, id: Id) { NO_ID < id < w.nextId && id !in w.used }

  /** Whether a change may be made to this version. */
  predicate Allows(s: Run, change: Change) {
    match change
    case TakeClaim(_, admittedAt, _, _) => MayStart(s, s.delivery, admittedAt)
    case Renew(c, _) => Owns(s, c.delivery, c.attempts)
    case Finish(c, v, _, _) => Owns(s, c.delivery, c.attempts) && Fits(v)
    case Hold(_) => IsWaiting(s.status)
    case Expire(now) => HasExpired(s, now)
    case Exhaust(_, _, now) => IsReady(s, now) && s.attempts >= s.maxAttempts
    case GiveUp(_, _, _) => IsWaiting(s.status)
    case Cancel(_, _) => IsUnfinished(s.status)
    case Reschedule(_, _, now, _) => ShowsAs(s, now, Delayed)
    case Redrive(_, _) => s.status == Failed
  }

  /** What the change writes over the version. */
  function Rewritten(s: Run, change: Change): Run
    requires Allows(s, change)
  {
    match change
    case TakeClaim(_, _, now, lease) => Claimed(s, now, lease)
    case Renew(_, until) => s.(leaseUntil := until)
    case Finish(_, v, payload, now) => Applied(s, v, payload, now)
    case Hold(handle) => s.(held := handle)
    case Expire(now) => Settled(s, Expired, "", "", "", now)
    case Exhaust(reason, payload, now) => Settled(s, Failed, "", reason, payload, now)
    case GiveUp(reason, payload, now) => Settled(s, Failed, "", reason, payload, now)
    case Cancel(reason, now) => CanceledRun(s, reason, now)
    case Reschedule(delivery, due, now, debounced) => Moved(s, delivery, due, now, debounced)
    case Redrive(delivery, now) => Redriven(s, delivery, now)
  }

  /** An outcome is of a claim of the run's present life. The code looks only at the fence, which a claim of an earlier life may
      share with one of this: `RunSafety.PurgeHandsTheFenceToAnother` shows how, and `RunSafety.FenceHoldsWithinALife` that only
      a deletion since the claim makes it so. */
  predicate CanRewrite(w: World, change: Change) {
    && w.stored.Some? && Allows(w.stored.value, change)
    && (change.Finish? ==> change.claim.life == w.life)
    && (change.Reschedule? || change.Redrive? ==> IsFresh(w, change.delivery))
  }

  predicate Enabled(w: World, step: Step) {
    match step
    case Mint => true
    case Create(run) =>
      w.stored.None? && run.attempts == 0 && IsWaiting(run.status) && (run.delivery == NO_ID || IsFresh(w, run.delivery))
    case Rewrite(change) => CanRewrite(w, change)
    case Restore => w.undo.Some?
    case Delete => w.stored.Some?
  }

  /** A write stores the next version. */
  function Put(w: World, run: Run): World {
    var version := run.(revision := |w.written| + 1);
    w.(stored := Some(version), written := w.written + [version], undo := None, used := w.used + {run.delivery})
  }

  function Changed(w: World, change: Change): World
    requires CanRewrite(w, change)
  {
    var s := w.stored.value;
    var put := Put(w, Rewritten(s, change));
    var c := Claim(w.life, s.delivery, s.attempts + 1);
    if change.TakeClaim? then put.(claims := w.claims + [c], takers := w.takers[c := change.engine])
    else if change.Finish? then put.(answered := w.answered + {change.claim})
    else if change.Reschedule? || change.Redrive? then put.(undo := Some(s))
    else put
  }

  function Apply(w: World, step: Step): World
    requires Enabled(w, step)
  {
    match step
    case Mint => w.(nextId := w.nextId + 1)
    case Create(run) => Put(w, run)
    case Rewrite(change) => Changed(w, change)
    case Restore => Put(w, w.undo.value)
    case Delete => w.(stored := None, undo := None, life := w.life + 1)
  }

  /** The claims an engine has made. */
  function MadeBy(w: World, engine: nat): set<Claim> { set c | c in w.takers && w.takers[c] == engine }

  // The invariant.

  function ClaimOf(w: World, s: Run): Claim { Claim(w.life, s.delivery, s.attempts) }

  /** What holds of the stored version, and of the version a failed sender would put back. */
  predicate VersionOk(w: World, s: Run) {
    && (s.delivery in w.used)
    && (s.status == Delayed ==> s.attempts == 0)
    && (s.attempts > 0 ==> s.attempts <= s.maxAttempts)
    && (forall c :: c in w.claims && c.life == w.life && c.delivery == s.delivery ==> c.attempts <= s.attempts)
    && (s.status == Executing ==>
          |w.claims| > 0 && w.claims[|w.claims| - 1] == ClaimOf(w, s) && ClaimOf(w, s) !in w.answered)
    && (IsWaiting(s.status) && s.attempts > 0 ==> ClaimOf(w, s) in w.answered)
  }

  /** Under one delivery of one life, each claim has a later attempt than every claim before it. */
  predicate Ascending(claims: seq<Claim>) {
    forall i, j :: 0 <= i < j < |claims| && claims[i].life == claims[j].life && claims[i].delivery == claims[j].delivery
                   ==> claims[i].attempts < claims[j].attempts
  }

  predicate Inv(w: World) {
    && (forall i :: 0 <= i < |w.written| ==> w.written[i].revision == i + 1)
    && (w.stored.Some? ==> |w.written| > 0 && w.stored.value == w.written[|w.written| - 1] && VersionOk(w, w.stored.value))
    && (w.undo.Some? ==>
          && w.stored.Some? && IsWaiting(w.stored.value.status)
          && VersionOk(w, w.undo.value) && w.undo.value.status in {Delayed, Failed})
    && (forall id :: id in w.used ==> id < w.nextId) && w.nextId > NO_ID
    && (forall c :: c in w.claims ==> c.life <= w.life && c.attempts >= 1 && c.delivery in w.used)
    && (forall c :: c in w.answered ==> c in w.claims)
    && (forall c :: c in w.takers ==> c in w.claims) && (forall c :: c in w.claims ==> c in w.takers)
    && (w.stored.None? ==> forall c :: c in w.claims ==> c.life < w.life)
    && Ascending(w.claims)
  }

  lemma InvHoldsAtFirst()
    ensures Inv(BLANK)
  {
  }

  lemma InvIsKept(w: World, step: Step)
    requires Inv(w) && Enabled(w, step)
    ensures Inv(Apply(w, step))
  {
    match step
    case Mint =>
    case Create(run) =>
    case Rewrite(change) => ChangeKeepsInv(w, change);
    case Restore => PutKeepsInv(w, w.undo.value);
    case Delete =>
  }

  lemma PutKeepsInv(w: World, run: Run)
    requires Inv(w) && w.stored.Some? && VersionOk(w, run)
    ensures Inv(Put(w, run))
  {
  }

  lemma ChangeKeepsInv(w: World, change: Change)
    requires Inv(w) && CanRewrite(w, change)
    ensures Inv(Changed(w, change))
  {
    match change
    case TakeClaim(_, _, _, _) => ClaimKeepsInv(w, change);
    case Finish(_, _, _, _) => FinishKeepsInv(w, change);
    case Reschedule(_, _, _, _) => ReopeningKeepsInv(w, change);
    case Redrive(_, _) => ReopeningKeepsInv(w, change);
    case _ =>
      OtherChangesKeepVersions(w, change);
      PutKeepsInv(w, Rewritten(w.stored.value, change));
  }

  lemma OtherChangesKeepVersions(w: World, change: Change)
    requires Inv(w) && CanRewrite(w, change)
    requires !change.TakeClaim? && !change.Finish? && !change.Reschedule? && !change.Redrive?
    ensures VersionOk(w, Rewritten(w.stored.value, change)) && Changed(w, change) == Put(w, Rewritten(w.stored.value, change))
  {
  }

  lemma ClaimKeepsInv(w: World, change: Change)
    requires Inv(w) && CanRewrite(w, change) && change.TakeClaim?
    ensures Inv(Changed(w, change))
  {
  }

  lemma FinishKeepsInv(w: World, change: Change)
    requires Inv(w) && CanRewrite(w, change) && change.Finish?
    ensures Inv(Changed(w, change))
  {
  }

  lemma ReopeningKeepsInv(w: World, change: Change)
    requires Inv(w) && CanRewrite(w, change) && (change.Reschedule? || change.Redrive?)
    ensures Inv(Changed(w, change))
  {
  }
}
