/** What holds over every run of the system: all interleavings of every writer. */
module RunSafety {
  import opened Wrappers
  import opened RunState
  import opened RunSystem

  ghost predicate Next(w: World, w': World) {
    exists step :: Enabled(w, step) && w' == Apply(w, step)
  }

  /** A history of the entry: from nothing stored, one legal step at a time. */
  ghost predicate Behaviour(trace: seq<World>) {
    trace != [] && trace[0] == BLANK && forall i: nat :: i + 1 < |trace| ==> StepsOn(trace, i)
  }

  ghost predicate StepsOn(trace: seq<World>, i: nat)
    requires i + 1 < |trace|
  {
    Next(trace[i], trace[i + 1])
  }

  lemma StepOf(trace: seq<World>, i: nat) returns (step: Step)
    requires Behaviour(trace) && i + 1 < |trace|
    ensures Enabled(trace[i], step) && trace[i + 1] == Apply(trace[i], step)
  {
    assert StepsOn(trace, i);
    step :| Enabled(trace[i], step) && trace[i + 1] == Apply(trace[i], step);
  }

  lemma {:induction false} BehavioursKeepInv(trace: seq<World>, i: nat)
    requires Behaviour(trace) && i < |trace|
    ensures Inv(trace[i])
  {
    if i > 0 {
      BehavioursKeepInv(trace, i - 1);
      var step := StepOf(trace, i - 1);
      InvIsKept(trace[i - 1], step);
    }
  }

  predicate Owned(w: World, c: Claim) {
    w.stored.Some? && w.life == c.life && Owns(w.stored.value, c.delivery, c.attempts)
  }

  /** A message of this delivery finds nothing to run. */
  predicate NothingToRun(w: World, delivery: Id) {
    w.stored.None? || !IsUnfinished(w.stored.value.status) || w.stored.value.delivery != delivery
  }

  /** Nothing is left for the engine that made this claim to do. */
  predicate Superseded(w: World, c: Claim) {
    w.life != c.life || NothingToRun(w, c.delivery) || w.stored.value.attempts > c.attempts
  }

  /** Fencing: between a run's creation and its deletion no two claims share a delivery and an attempt. */
  lemma NoTwoClaimsShareAFence(trace: seq<World>, k: nat, i: nat, j: nat)
    requires Behaviour(trace) && k < |trace| && i < j < |trace[k].claims|
    requires trace[k].claims[i].life == trace[k].claims[j].life
    ensures trace[k].claims[i].delivery != trace[k].claims[j].delivery || trace[k].claims[i].attempts < trace[k].claims[j].attempts
  {
    BehavioursKeepInv(trace, k);
  }

  /** An outcome is written only over the latest claim, which has none yet. */
  lemma OutcomesAreFenced(trace: seq<World>, k: nat, change: Change)
    requires Behaviour(trace) && k < |trace| && change.Finish? && CanRewrite(trace[k], change)
    ensures |trace[k].claims| > 0 && change.claim == trace[k].claims[|trace[k].claims| - 1]
    ensures change.claim !in trace[k].answered && Owned(trace[k], change.claim)
  {
    BehavioursKeepInv(trace, k);
  }

  // When an attempt may begin.

  /** The step after state k. */
  ghost predicate IsStepAt(trace: seq<World>, k: nat, step: Step) {
    k + 1 < |trace| && Enabled(trace[k], step) && trace[k + 1] == Apply(trace[k], step)
  }

  /** An attempt begins only when the last one has had its time, or when the run is due and has not expired. */
  lemma AttemptsBeginInTime(trace: seq<World>, k: nat, engine: nat, at: int, now: int, lease: int)
    requires Behaviour(trace) && IsStepAt(trace, k, Rewrite(TakeClaim(engine, at, now, lease)))
    ensures trace[k].stored.Some? && trace[k].stored.value.attempts < trace[k].stored.value.maxAttempts
    ensures var run := trace[k].stored.value;
            match run.status
            case Executing => run.leaseUntil <= at
            case Delayed => run.dueAt <= at + DUE_SLACK && (run.attempts > 0 || run.expiresAt == ZERO_TIME || at < run.expiresAt)
            case Queued => run.dueAt <= at + DUE_SLACK && (run.attempts > 0 || run.expiresAt == ZERO_TIME || at < run.expiresAt)
            case _ => false
  {
  }

  /** An attempt's lease is renewed until then. */
  predicate RenewsTo(w: World, w': World, until: int) {
    && w.stored.Some? && w'.stored.Some? && w.stored.value.status == w'.stored.value.status == Executing
    && w'.stored.value.attempts == w.stored.value.attempts && w'.stored.value.leaseUntil == until
    && w'.written == w.written + [w'.stored.value]
  }

  predicate IsRenewedBetween(trace: seq<World>, i: nat, j: nat, until: int) {
    exists k :: i <= k < j < |trace| && RenewsTo(trace[k], trace[k + 1], until)
  }

  lemma AttemptsStayInBounds(trace: seq<World>, k: nat)
    requires Behaviour(trace) && k < |trace| && trace[k].stored.Some? && trace[k].stored.value.attempts > 0
    ensures trace[k].stored.value.attempts <= trace[k].stored.value.maxAttempts
  {
    BehavioursKeepInv(trace, k);
  }

  /** A finished run changes only by redriving a failed one, or by deletion. */
  lemma FinishedRunsStand(trace: seq<World>, k: nat, step: Step)
    requires Behaviour(trace) && k < |trace| && Enabled(trace[k], step)
    requires trace[k].stored.Some? && !IsUnfinished(trace[k].stored.value.status)
    ensures step.Mint? || step.Delete? || (step.Rewrite? && step.change.Redrive? && trace[k].stored.value.status == Failed)
  {
    BehavioursKeepInv(trace, k);
  }

  /** So no late outcome, renewal or retry ever overwrites a canceled run: until it is deleted it stays as it was. */
  lemma {:induction false} SettledRunsStandForLife(trace: seq<World>, i: nat, j: nat)
    requires Behaviour(trace) && i <= j < |trace|
    requires trace[i].stored.Some? && !IsUnfinished(trace[i].stored.value.status) && trace[i].stored.value.status != Failed
    ensures trace[j].life == trace[i].life ==> trace[j].stored == trace[i].stored
    ensures trace[j].life >= trace[i].life
    decreases j - i
  {
    if i < j {
      SettledRunsStandForLife(trace, i, j - 1);
      var step := StepOf(trace, j - 1);
      if trace[j - 1].life == trace[i].life {
        FinishedRunsStand(trace, j - 1, step);
      }
    }
  }

  lemma {:induction false} LivesOnlyGrow(trace: seq<World>, i: nat, j: nat)
    requires Behaviour(trace) && i <= j < |trace|
    ensures trace[i].life <= trace[j].life
    decreases j - i
  {
    if i < j {
      LivesOnlyGrow(trace, i, j - 1);
      var step := StepOf(trace, j - 1);
    }
  }

  /** An engine that no longer owns the run it claimed, and wrote no outcome, has nothing left to do for its message. */
  lemma LostClaimsAreSuperseded(w: World, c: Claim)
    requires Inv(w) && c in w.claims && c !in w.answered && !Owned(w, c)
    ensures Superseded(w, c)
  {
  }

  lemma OwnedBefore(w: World, step: Step, c: Claim)
    requires Inv(w) && Enabled(w, step) && c in w.claims && Owned(Apply(w, step), c)
    ensures Owned(w, c)
  {
    InvIsKept(w, step);
    if step.Rewrite? {
      if step.change.TakeClaim? {
        NewClaimsAreOwned(w, step.change);
      } else {
        OtherChangesGiveNoRun(w, step.change, c);
      }
    }
  }

  lemma OtherChangesGiveNoRun(w: World, change: Change, c: Claim)
    requires Inv(w) && CanRewrite(w, change) && !change.TakeClaim? && c in w.claims && Owned(Changed(w, change), c)
    ensures Owned(w, c)
  {
    ChangeKeepsInv(w, change);
  }

  lemma NewClaimsAreOwned(w: World, change: Change)
    requires Inv(w) && CanRewrite(w, change) && change.TakeClaim?
    ensures var w' := Changed(w, change);
            forall c :: c in w'.claims && Owned(w', c) ==> c !in w.claims
  {
    ChangeKeepsInv(w, change);
    var w' := Changed(w, change);
    forall c | c in w'.claims && Owned(w', c) ensures c !in w.claims {
      assert c == ClaimOf(w', w'.stored.value);
    }
  }

  /** Once lost, a claim is never owned again. */
  lemma {:induction false} LostClaimsStayLost(trace: seq<World>, i: nat, j: nat, c: Claim)
    requires Behaviour(trace) && i <= j < |trace| && c in trace[i].claims && !Owned(trace[i], c)
    ensures c in trace[j].claims && !Owned(trace[j], c)
    decreases j - i
  {
    if i < j {
      LostClaimsStayLost(trace, i, j - 1, c);
      BehavioursKeepInv(trace, j - 1);
      var step := StepOf(trace, j - 1);
      if Owned(trace[j], c) {
        OwnedBefore(trace[j - 1], step, c);
      }
    }
  }

  lemma {:induction false} ClaimsAreKept(trace: seq<World>, i: nat, j: nat, c: Claim)
    requires Behaviour(trace) && i <= j < |trace| && c in trace[i].claims
    ensures c in trace[j].claims
    decreases j - i
  {
    if i < j {
      ClaimsAreKept(trace, i, j - 1, c);
      var step := StepOf(trace, j - 1);
    }
  }

  /** While a claim owns its run, the run's lease is the one it was claimed or last renewed with. */
  lemma {:induction false} LeasesStand(trace: seq<World>, i: nat, j: nat, c: Claim)
    requires Behaviour(trace) && i <= j < |trace| && c in trace[i].claims && Owned(trace[i], c) && Owned(trace[j], c)
    ensures || trace[j].stored.value.leaseUntil == trace[i].stored.value.leaseUntil
            || IsRenewedBetween(trace, i, j, trace[j].stored.value.leaseUntil)
    decreases j - i
  {
    if i < j {
      ClaimsAreKept(trace, i, j - 1, c);
      BehavioursKeepInv(trace, j - 1);
      var step := StepOf(trace, j - 1);
      OwnedBefore(trace[j - 1], step, c);
      LeasesStand(trace, i, j - 1, c);
      OneStepRenews(trace[j - 1], step, c);
    }
  }

  lemma OneStepRenews(w: World, step: Step, c: Claim)
    requires Inv(w) && Enabled(w, step) && Owned(w, c) && Owned(Apply(w, step), c)
    ensures var w' := Apply(w, step);
            w'.stored.value.leaseUntil == w.stored.value.leaseUntil || RenewsTo(w, w', w'.stored.value.leaseUntil)
  {
  }

  /** Whoever claims a run beside an unanswered claim has read a time past the lease of that claim, as it was claimed or last
      renewed. */
  lemma TakeoversWaitOutTheLease(trace: seq<World>, i: nat, j: nat, c: Claim, engine: nat, at: int, now: int, lease: int)
    requires Behaviour(trace) && i <= j < |trace| && c in trace[i].claims && Owned(trace[i], c)
    requires IsStepAt(trace, j, Rewrite(TakeClaim(engine, at, now, lease))) && Owned(trace[j], c)
    ensures || trace[i].stored.value.leaseUntil <= at
            || exists until :: until <= at && IsRenewedBetween(trace, i, j, until)
  {
    AttemptsBeginInTime(trace, j, engine, at, now, lease);
    LeasesStand(trace, i, j, c);
  }

  // Where an output comes from.

  /** The step after state i finishes an attempt of a run as completed, with this output. */
  ghost predicate CompletesWith(trace: seq<World>, i: nat, output: string) {
    exists c, verdict, payload, now ::
      IsStepAt(trace, i, Rewrite(Finish(c, verdict, payload, now))) && verdict.status == Completed && verdict.output == output
  }

  /** A completed run has the output of the attempt it was finished with, and has not changed since. */
  lemma {:induction false} OutputsComeFromAnswers(trace: seq<World>, j: nat)
    requires Behaviour(trace) && j < |trace| && trace[j].stored.Some? && trace[j].stored.value.status == Completed
    ensures exists i :: 0 <= i < j && CompletesWith(trace, i, trace[j].stored.value.output) && trace[i + 1].stored == trace[j].stored
  {
    if j > 0 {
      BehavioursKeepInv(trace, j - 1);
      var step := StepOf(trace, j - 1);
      if trace[j - 1].stored == trace[j].stored {
        OutputsComeFromAnswers(trace, j - 1);
      } else {
        var change := step.change;
        assert IsStepAt(trace, j - 1, Rewrite(Finish(change.claim, change.verdict, change.payload, change.now)));
        assert CompletesWith(trace, j - 1, trace[j].stored.value.output);
      }
    }
  }

  // The fence and the life of a run.

  /** The fence tells an engine's own claim from every other exactly when the run was not deleted since. */
  lemma FenceHoldsWithinALife(trace: seq<World>, k: nat, c: Claim)
    requires Behaviour(trace) && k < |trace| && c in trace[k].claims
    requires trace[k].stored.Some? && Owns(trace[k].stored.value, c.delivery, c.attempts)
    ensures trace[k].claims[|trace[k].claims| - 1] == c <==> c.life == trace[k].life
  {
    BehavioursKeepInv(trace, k);
  }

  function Last(trace: seq<World>): World
    requires |trace| > 0
  {
    trace[|trace| - 1]
  }

  lemma Extended(trace: seq<World>, step: Step) returns (longer: seq<World>)
    requires Behaviour(trace) && Enabled(Last(trace), step)
    ensures Behaviour(longer) && Last(longer) == Apply(Last(trace), step)
    ensures trace <= longer && |longer| == |trace| + 1
  {
    longer := trace + [Apply(Last(trace), step)];
    forall i: nat | i + 1 < |longer| ensures StepsOn(longer, i) {
      assert i + 1 < |trace| ==> StepsOn(trace, i);
    }
  }

  const ORDER := Run(Queued, NO_ID, 0, 2, "", 0, 0, 0, 0, 0, "", "", "", 0)

  lemma ClaimedByTwoEngines() returns (trace: seq<World>)
    ensures Behaviour(trace)
    ensures var w := Last(trace);
            && w.stored.Some? && Owns(w.stored.value, NO_ID, 2) && w.life == 0
            && w.claims == [Claim(0, NO_ID, 1), Claim(0, NO_ID, 2)] && w.answered == {}
  {
    trace := [BLANK];
    trace := Extended(trace, Create(ORDER));
    trace := Extended(trace, Rewrite(TakeClaim(1, 0, 0, 1)));
    assert Last(trace).claims == [Claim(0, NO_ID, 1)];
    trace := Extended(trace, Rewrite(TakeClaim(2, 1, 1, 1)));
  }

  /** An engine claims a run, its lease lapses, and another engine claims and fails it. */
  lemma FailedByTheSecondEngine() returns (trace: seq<World>)
    ensures Behaviour(trace)
    ensures var w := Last(trace);
            && w.stored.Some? && w.life == 0 && w.claims == [Claim(0, NO_ID, 1), Claim(0, NO_ID, 2)]
            && w.answered == {Claim(0, NO_ID, 2)}
  {
    trace := ClaimedByTwoEngines();
    trace := Extended(trace, Rewrite(Finish(Claim(0, NO_ID, 2), Verdict(Failed, "", "", 0), "", 1)));
  }

  /** Across lives it does not: an engine whose lease lapsed, whose run another engine then failed, and whose
      dead letter was purged, owns by its fence the run its redelivered message creates and another engine claims. Its late
      outcome would be written over the other's claim; no step of the system is that. */
  lemma PurgeHandsTheFenceToAnother() returns (trace: seq<World>, late: Claim)
    ensures Behaviour(trace)
    ensures var w := Last(trace);
            && late in w.claims && late !in w.answered && late.life != w.life
            && w.stored.Some? && Owns(w.stored.value, late.delivery, late.attempts)
            && forall v, payload, now | Fits(v) :: Allows(w.stored.value, Finish(late, v, payload, now)) && !CanRewrite(w, Finish(late, v, payload, now))
  {
    late := Claim(0, NO_ID, 1);
    trace := FailedByTheSecondEngine();
    trace := Extended(trace, Delete);
    trace := Extended(trace, Create(ORDER));
    trace := Extended(trace, Rewrite(TakeClaim(1, 0, 0, 1)));
    assert Last(trace).claims[0] == late;
  }
}
