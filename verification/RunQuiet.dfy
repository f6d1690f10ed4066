/** What deliveries come to undisturbed: nobody else changes the runs, no access to the store fails, no watcher of an
    attempt gets to act, and no two messages of a slice name one run. */
module RunQuiet {
  import opened Wrappers
  import opened RunState
  import opened RunSystem
  import opened RunEngine
  import opened RunAttempt

  const SLOT_WAIT := 1_000_000
  const MAX_SLOT_HOLD := 300_000_000

  /** A second for every receive, or at first one and some jitter, up to five minutes. */
  function SlotHold(receives: int, jitter: int): (hold: int)
    ensures hold <= 300_000_000 && hold in {300_000_000, 1_000_000 + jitter, receives * 1_000_000}
    ensures hold < 300_000_000 ==> 1_000_000 + jitter <= hold && receives * 1_000_000 <= hold
    ensures hold == 300_000_000 ==> 300_000_000 <= 1_000_000 + jitter || 300_000_000 <= receives * 1_000_000
  {
    var hold := if SLOT_WAIT + jitter > receives * SLOT_WAIT then SLOT_WAIT + jitter else receives * SLOT_WAIT;
    if hold < MAX_SLOT_HOLD then hold else MAX_SLOT_HOLD
  }

  datatype SlotsTaken = SlotsFailed | NoSlot | SlotsHeld

  /** What a delivery meets outside the store: its slots, its worker, the beats of its watchers, and for each message the
      jitter of a hold and the backoff of a retry. */
  datatype Luck = Luck(slots: SlotsTaken, beats: seq<Beat>, reply: Reply, jitter: nat -> int, backoff: nat -> int)

  /** A delivery, with all that does not change while it is made. */
  datatype Delivery = Delivery(engine: Engine, deployed: Deployed, luck: Luck, received: seq<Received>, before: seq<World>)

  predicate IsDelivery(s: Delivery) { |s.received| == |s.before| }

  // One message.

  /** The stored version is what the worker's answer makes of the claimed one. */
  ghost predicate IsAnswered(stored: Run, run: Run, deployed: Deployed, rcv: Received, answer: Answer, backoff: int, d: Disposition) {
    var retried := IsRetried(run, answer, deployed.task);
    IsOutcome(stored, run, answer, deployed.task, retried, rcv.message.payload) && d == DispositionOn(retried, answer, backoff)
  }

  predicate IsClaimOn(c: Claim, found: Run) { c.attempts == found.attempts + 1 && c.delivery == found.delivery }

  ghost predicate IsFoundAt(s: Delivery, i: nat, run: Run)
    requires IsDelivery(s) && i < |s.before|
  {
    IsFound(s.before[i], run, s.deployed, s.received[i].message)
  }

  /** The run is claimed, attempted once more, and settled or queued as its worker answered. */
  ghost predicate IsAttempted(s: Delivery, i: nat, w: World, found: Run, claimed: Option<Claim>, d: Disposition)
    requires IsDelivery(s) && i < |s.before|
  {
    && IsFoundAt(s, i, found) && claimed.Some? && IsClaimOn(claimed.value, found) && w.stored.Some?
    && exists run :: s.engine.IsClaimedFrom(run, found)
                     && IsAnswered(w.stored.value, run, s.deployed, s.received[i], AnswerTo(s.luck.reply, false), s.luck.backoff(i), d)
  }

  /** So what a worker replied is what becomes of the run, of which one attempt more was made. An attempt that was cut off has
      timed out, was interrupted by a shutdown, or else failed. */
  lemma AttemptsEndAsReplied(s: Delivery, i: nat, w: World, found: Run, claimed: Option<Claim>, d: Disposition)
    requires IsDelivery(s) && i < |s.before| && IsAttempted(s, i, w, found, claimed, d)
    ensures var run := w.stored.value;
            && run.attempts == found.attempts + 1 && run.delivery == found.delivery && run.leaseUntil == ZERO_TIME
            && match s.luck.reply
               case Answered(Ok, text) => run.status == Completed && run.output == text && run.error == "" && d.done
               case Answered(Abort, text) => HasFailed(run, text, d)
               case Answered(Unusable, text) => HasFailed(run, text, d)
               case Answered(Failure, text) =>
                 if run.attempts < found.maxAttempts then IsToRetry(run, text, s.luck.backoff(i), d) else HasFailed(run, text, d)
               case Cut(timedOut, shuttingDown, reason) =>
                 if timedOut && s.deployed.task
                 then run.status == TimedOut && run.output == "" && run.error == reason && d.done
                 else if shuttingDown && !timedOut
                 then if run.attempts < found.maxAttempts then IsToRetry(run, "", 0, d) else HasFailed(run, CUT_OFF, d)
                 else if run.attempts < found.maxAttempts then IsToRetry(run, reason, s.luck.backoff(i), d) else HasFailed(run, reason, d)
  {
  }

  predicate HasFailed(run: Run, reason: string, d: Disposition) {
    run.status == Failed && run.output == "" && run.error == reason && d.done
  }

  predicate IsToRetry(run: Run, reason: string, wait: int, d: Disposition) {
    run.status == Queued && run.error == reason && d == RedeliverAfter(wait)
  }

  /** The run may not start, and is left or settled as its readiness says. */
  ghost predicate IsJudged(s: Delivery, i: nat, w: World, d: Disposition)
    requires IsDelivery(s) && i < |s.before|
  {
    IsGone(s, i, w, d) || exists found, at :: IsFoundAt(s, i, found) && IsJudgedAt(s, i, w, found, at, d)
  }

  predicate IsGone(s: Delivery, i: nat, w: World, d: Disposition)
    requires IsDelivery(s) && i < |s.before|
  {
    s.before[i].stored.None? && s.received[i].message.execution != "" && w == s.before[i] && d == DONE
  }

  ghost predicate IsJudgedAt(s: Delivery, i: nat, w: World, found: Run, at: int, d: Disposition)
    requires IsDelivery(s) && i < |s.before|
  {
    s.engine.IsDecided(w, found, s.deployed.ordered, s.received[i], at, d, false)
  }

  /** The run might start but for want of a slot. */
  ghost predicate IsRefused(s: Delivery, i: nat, w: World, found: Run, hold: int, d: Disposition)
    requires IsDelivery(s) && i < |s.before|
  {
    IsFoundAt(s, i, found) && s.engine.IsPassedOver(w, found, s.received[i], hold, d)
  }

  /** What one message comes to, once it is not held back. */
  ghost predicate IsDelivered(s: Delivery, i: nat, w: World, claimed: Option<Claim>, d: Disposition)
    requires IsDelivery(s) && i < |s.before|
  {
    if claimed.Some? then s.luck.slots == SlotsHeld && exists found :: IsAttempted(s, i, w, found, claimed, d)
    else IsJudged(s, i, w, d) || (s.luck.slots != SlotsHeld && exists found :: IsUnslotted(s, i, w, found, d))
  }

  ghost predicate IsUnslotted(s: Delivery, i: nat, w: World, found: Run, d: Disposition)
    requires IsDelivery(s) && i < |s.before|
  {
    if s.luck.slots == SlotsFailed then IsFoundAt(s, i, found) && d == RETAINED && w.stored == Some(found)
    else IsRefused(s, i, w, found, SlotHold(s.received[i].receives, s.luck.jitter(i)), d)
  }

  // A slice, one message after another.

  predicate SameGroup(deployed: Deployed, received: seq<Received>, i: nat, j: nat)
    requires i < |received| && j < |received|
  {
    received[i].message.Group(deployed.consumer) == received[j].message.Group(deployed.consumer)
  }

  /** On an ordered topic a message waits for every earlier one of its group that is left undone. */
  predicate Waits(deployed: Deployed, received: seq<Received>, ds: seq<Disposition>, i: nat)
    requires i < |received| == |ds|
  {
    deployed.ordered && exists j :: 0 <= j < i && SameGroup(deployed, received, j, i) && !ds[j].done
  }

  function Single(engine: Engine, deployed: Deployed, luck: Luck, rcv: Received, before: World): (s: Delivery)
    ensures IsDelivery(s)
  {
    Delivery(engine, deployed, luck, [rcv], [before])
  }

  /** A message held back is redelivered at once and its run left alone; any other is delivered. */
  ghost predicate IsTurn(s: Delivery, waits: bool, w: World, claimed: Option<Claim>, d: Disposition)
    requires IsDelivery(s) && |s.before| == 1
  {
    if waits then claimed.None? && d == RedeliverAfter(0) && w == s.before[0] else IsDelivered(s, 0, w, claimed, d)
  }

  /** The first n messages of a slice have had their turns, and the runs of the others are untouched. */
  ghost predicate AreTurns(engine: Engine, deployed: Deployed, lucks: seq<Luck>, received: seq<Received>, before: seq<World>,
                           worlds: seq<World>, ds: seq<Disposition>, claims: seq<Option<Claim>>, n: nat)
  {
    && |lucks| == |received| == |before| == |worlds| == |ds| == |claims|
    && (forall i :: 0 <= i < n && i < |worlds| ==> HasTurned(engine, deployed, lucks, received, before, worlds, ds, claims, i))
    && (forall i :: n <= i < |worlds| ==> worlds[i] == before[i])
  }

  ghost predicate HasTurned(engine: Engine, deployed: Deployed, lucks: seq<Luck>, received: seq<Received>, before: seq<World>,
                            worlds: seq<World>, ds: seq<Disposition>, claims: seq<Option<Claim>>, i: nat)
    requires |lucks| == |received| == |before| == |worlds| == |ds| == |claims| && i < |worlds|
  {
    IsTurn(Single(engine, deployed, lucks[i], received[i], before[i]), Waits(deployed, received, ds, i), worlds[i], claims[i], ds[i])
  }

  /** The groups blocked are those of the messages left undone. */
  ghost predicate BlocksUndone(deployed: Deployed, received: seq<Received>, ds: seq<Disposition>, blocked: set<string>, n: nat) {
    n <= |received| == |ds| && (deployed.ordered ==> forall g :: g in blocked <==> HasUndone(deployed, received, ds, g, n))
  }

  predicate HasUndone(deployed: Deployed, received: seq<Received>, ds: seq<Disposition>, group: string, n: nat)
    requires n <= |received| == |ds|
  {
    exists j :: 0 <= j < n && received[j].message.Group(deployed.consumer) == group && !ds[j].done
  }

  lemma OneMoreTurn(engine: Engine, deployed: Deployed, lucks: seq<Luck>, received: seq<Received>, before: seq<World>,
                    worlds: seq<World>, ds: seq<Disposition>, claims: seq<Option<Claim>>, n: nat,
                    blocked: set<string>, w: World, d: Disposition, claimed: Option<Claim>)
    requires AreTurns(engine, deployed, lucks, received, before, worlds, ds, claims, n) && n < |received|
    requires BlocksUndone(deployed, received, ds, blocked, n)
    requires var group := received[n].message.Group(deployed.consumer);
             IsTurn(Single(engine, deployed, lucks[n], received[n], before[n]), deployed.ordered && group in blocked, w, claimed, d)
    ensures AreTurns(engine, deployed, lucks, received, before, worlds[n := w], ds[n := d], claims[n := claimed], n + 1)
    ensures var group := received[n].message.Group(deployed.consumer);
            BlocksUndone(deployed, received, ds[n := d], if d.done then blocked else blocked + {group}, n + 1)
  {
    var ds', claims', worlds' := ds[n := d], claims[n := claimed], worlds[n := w];
    assert HasUndone(deployed, received, ds, received[n].message.Group(deployed.consumer), n) <==>
           exists j :: 0 <= j < n && SameGroup(deployed, received, j, n) && !ds[j].done;
    forall i | 0 <= i <= n ensures HasTurned(engine, deployed, lucks, received, before, worlds', ds', claims', i) {
      assert i < n ==> HasTurned(engine, deployed, lucks, received, before, worlds, ds, claims, i);
      assert forall j :: 0 <= j < i ==> ds'[j] == ds[j];
      assert Waits(deployed, received, ds', i) == Waits(deployed, received, ds, i);
    }
    forall g ensures HasUndone(deployed, received, ds', g, n + 1) <==>
                     HasUndone(deployed, received, ds, g, n) || (g == received[n].message.Group(deployed.consumer) && !d.done)
    {
      assert forall j :: 0 <= j < n ==> ds'[j] == ds[j];
    }
  }

  // A slice delivered as a batch, message by message through both passes.

  datatype Stage = Unreached | Admitted(run: Run) | Started(found: Run, run: Run) | Judged | HeldBack | TurnedAway(found: Run)
                 | Finished(found: Run)

  predicate IsOpen(stage: Stage) { stage.Unreached? || stage.Admitted? || stage.Started? }

  function GroupAt(s: Delivery, i: nat): string
    requires i < |s.received|
  {
    s.received[i].message.Group(s.deployed.consumer)
  }

  /** The message is redelivered at once, and its run left alone. */
  ghost predicate IsHeldBack(s: Delivery, i: nat, w: World, d: Disposition)
    requires IsDelivery(s) && i < |s.before|
  {
    s.deployed.ordered && d == RedeliverAfter(0) && (w == s.before[i] || exists run :: IsFoundAt(s, i, run) && w.stored == Some(run))
  }

  /** Where one message stands in the two passes. */
  ghost predicate Stands(s: Delivery, i: nat, w: World, d: Disposition, claim: Option<Claim>, blocked: set<string>, stage: Stage)
    requires IsDelivery(s) && i < |s.before|
  {
    match stage
    case Unreached => w == s.before[i] && claim.None?
    case Admitted(run) => IsFoundAt(s, i, run) && w.stored == Some(run) && claim.None?
    case Started(found, run) =>
      && IsFoundAt(s, i, found) && claim.Some? && IsClaimOn(claim.value, found)
      && w.stored == Some(run) && s.engine.IsClaimedFrom(run, found)
    case Judged => claim.None? && IsJudged(s, i, w, d)
    case HeldBack => claim.None? && IsHeldBack(s, i, w, d) && GroupAt(s, i) in blocked
    case TurnedAway(found) =>
      claim.None? && s.luck.slots != SlotsHeld && IsRefused(s, i, w, found, SlotHold(s.received[i].receives, s.luck.jitter(i)), d)
    case Finished(found) => s.luck.slots == SlotsHeld && IsAttempted(s, i, w, found, claim, d)
  }

  ghost predicate AllStand(s: Delivery, worlds: seq<World>, ds: seq<Disposition>, claims: seq<Option<Claim>>, blocked: set<string>,
                           stages: seq<Stage>)
  {
    && IsDelivery(s) && |worlds| == |ds| == |claims| == |stages| == |s.before|
    && (forall i {:trigger Stands(s, i, worlds[i], ds[i], claims[i], blocked, stages[i])} ::
          0 <= i < |stages| ==> Stands(s, i, worlds[i], ds[i], claims[i], blocked, stages[i]))
    && (forall g :: g in blocked ==> exists j :: 0 <= j < |stages| && IsBlocker(s, j, ds[j], stages[j], g))
  }

  predicate IsBlocker(s: Delivery, j: nat, d: Disposition, stage: Stage, group: string)
    requires j < |s.received|
  {
    GroupAt(s, j) == group && stage == Judged && !d.done
  }

  lemma StandsStill(s: Delivery, i: nat, w: World, d: Disposition, claim: Option<Claim>, blocked: set<string>, grown: set<string>, stage: Stage)
    requires IsDelivery(s) && i < |s.before| && blocked <= grown && Stands(s, i, w, d, claim, blocked, stage)
    ensures Stands(s, i, w, d, claim, grown, stage)
  {
  }

  lemma OneMoves(s: Delivery, worlds: seq<World>, ds: seq<Disposition>, claims: seq<Option<Claim>>, blocked: set<string>,
                 stages: seq<Stage>, i: nat, w: World, d: Disposition, claim: Option<Claim>, stage: Stage, grown: set<string>)
    requires AllStand(s, worlds, ds, claims, blocked, stages) && i < |stages| && IsOpen(stages[i])
    requires grown == blocked || (grown == blocked + {GroupAt(s, i)} && (IsBlocker(s, i, d, stage, GroupAt(s, i)) || GroupAt(s, i) in blocked))
    requires Stands(s, i, w, d, claim, grown, stage)
    ensures AllStand(s, worlds[i := w], ds[i := d], claims[i := claim], grown, stages[i := stage])
  {
    var worlds', ds', claims', stages' := worlds[i := w], ds[i := d], claims[i := claim], stages[i := stage];
    forall k | 0 <= k < |stages'| ensures Stands(s, k, worlds'[k], ds'[k], claims'[k], grown, stages'[k]) {
      if k != i {
        assert Stands(s, k, worlds[k], ds[k], claims[k], blocked, stages[k]);
        StandsStill(s, k, worlds[k], ds[k], claims[k], blocked, grown, stages[k]);
      }
    }
    forall g | g in grown ensures exists j :: 0 <= j < |stages'| && IsBlocker(s, j, ds'[j], stages'[j], g) {
      if g in blocked {
        var j :| 0 <= j < |stages| && IsBlocker(s, j, ds[j], stages[j], g);
        assert IsBlocker(s, j, ds'[j], stages'[j], g);
      } else {
        assert IsBlocker(s, i, ds'[i], stages'[i], g);
      }
    }
  }

  /** What one message of a batch comes to: it is judged, refused, or attempted, unless another of its group, which may
      not start, holds it back. */
  ghost predicate IsEnd(s: Delivery, worlds: seq<World>, ds: seq<Disposition>, claims: seq<Option<Claim>>, i: nat)
    requires IsDelivery(s) && |worlds| == |ds| == |claims| == |s.before| && i < |ds|
  {
    if claims[i].Some? then s.luck.slots == SlotsHeld && exists found :: IsAttempted(s, i, worlds[i], found, claims[i], ds[i])
    else
      || IsJudged(s, i, worlds[i], ds[i])
      || (s.luck.slots != SlotsHeld
          && exists found :: IsRefused(s, i, worlds[i], found, SlotHold(s.received[i].receives, s.luck.jitter(i)), ds[i]))
      || (IsHeldBack(s, i, worlds[i], ds[i]) && exists j :: 0 <= j < |ds| && Holds(s, worlds, ds, claims, j, i))
  }

  /** One message of a group is undone, and may not start. */
  ghost predicate Holds(s: Delivery, worlds: seq<World>, ds: seq<Disposition>, claims: seq<Option<Claim>>, j: nat, i: nat)
    requires IsDelivery(s) && |worlds| == |ds| == |claims| == |s.before| && i < |ds| && j < |ds|
  {
    GroupAt(s, j) == GroupAt(s, i) && claims[j].None? && !ds[j].done && IsJudged(s, j, worlds[j], ds[j])
  }

  ghost predicate AreEnds(s: Delivery, worlds: seq<World>, ds: seq<Disposition>, claims: seq<Option<Claim>>) {
    && IsDelivery(s) && |worlds| == |ds| == |claims| == |s.before|
    && forall i :: 0 <= i < |ds| ==> IsEnd(s, worlds, ds, claims, i)
  }

  lemma AllEnded(s: Delivery, worlds: seq<World>, ds: seq<Disposition>, claims: seq<Option<Claim>>, blocked: set<string>, stages: seq<Stage>)
    requires AllStand(s, worlds, ds, claims, blocked, stages)
    requires forall i :: 0 <= i < |stages| ==> !IsOpen(stages[i])
    ensures AreEnds(s, worlds, ds, claims)
  {
    forall i | 0 <= i < |ds| ensures IsEnd(s, worlds, ds, claims, i) {
      assert !IsOpen(stages[i]) && Stands(s, i, worlds[i], ds[i], claims[i], blocked, stages[i]);
      if stages[i].HeldBack? {
        var j :| 0 <= j < |stages| && IsBlocker(s, j, ds[j], stages[j], GroupAt(s, i));
        assert Stands(s, j, worlds[j], ds[j], claims[j], blocked, stages[j]);
        assert Holds(s, worlds, ds, claims, j, i);
      }
    }
  }
}
