/** One run's entry in the store, as one engine reaches it. Between any two of its own accesses the other
    engines and callers take whatever steps `rivals` lists next, any store access may fail as `faults` lists,
    and clocks read as `ticks` lists; a proof for all three lists covers every interleaving. */
module RunRow {
  import opened Wrappers
  import opened RunState
  import opened RunSystem
  import opened RunSafety

  /** How often a write is tried that others' writes keep overtaking. */
  const TRIES := 10

  /** Every try was spent: each found a version newer than the last, and each but the first came after a pause. */
  predicate IsTriedOut(versions: int, pauses: int) { versions >= TRIES && pauses >= TRIES - 1 }

  datatype Fault = NoFault | Lost | Unacknowledged

  datatype ReadResult = Found(run: Run) | Missing | ReadFailed

  datatype WriteResult = Written(run: Run) | WriteStale | WriteFailed

  /** A version of the run that was once stored. */
  predicate Known(w: World, run: Run) {
    1 <= run.revision <= |w.written| && w.written[run.revision - 1] == run
  }

  /** The run was stored, under some revision. */
  ghost predicate WasStored(w: World, run: Run) {
    exists version :: Known(w, version) && version == run.(revision := version.revision)
  }

  /** The version is not the one stored, and any stored later is newer. */
  predicate IsOvertaken(w: World, base: Run) { w.stored.None? || base.revision < |w.written| }

  function Mentioned(change: Change): set<Id> {
    if change.Reschedule? || change.Redrive? then {change.delivery} else {}
  }

  /** The claims and the ids an engine holds are still good: unsettled, of the run's present life, and unused. */
  predicate Spared(w: World, mine: set<Claim>, minted: set<Id>) {
    && (forall c :: c in mine ==> c in w.claims && c !in w.answered)
    && (w.stored.Some? ==> forall c :: c in mine ==> c.life == w.life)
    && (forall id :: id in minted ==> IsFresh(w, id))
  }

  /** Whether a step may be another engine's: none settles a claim of this engine's, none uses an id of this
      engine's, and none creates the run anew while this engine still works an attempt of it. */
  predicate IsRivals(step: Step, mine: set<Claim>, minted: set<Id>) {
    match step
    case Create(run) => mine == {} && run.delivery !in minted
    case Rewrite(change) => Mentioned(change) !! minted && (change.Finish? ==> change.claim !in mine)
    case _ => true
  }

  lemma StepsSpare(w: World, step: Step, mine: set<Claim>, minted: set<Id>)
    requires Inv(w) && Enabled(w, step) && Spared(w, mine, minted) && IsRivals(step, mine, minted)
    ensures Spared(Apply(w, step), mine, minted)
  {
    if step.Rewrite? {
      ChangesSpare(w, step.change, mine, minted);
    }
  }

  lemma ChangesSpare(w: World, change: Change, mine: set<Claim>, minted: set<Id>)
    requires Inv(w) && CanRewrite(w, change) && Spared(w, mine, minted) && IsRivals(Rewrite(change), mine, minted)
    ensures Spared(Changed(w, change), mine, minted)
  {
    var w' := Changed(w, change);
    forall id | id in minted ensures IsFresh(w', id) {
      assert id != w.stored.value.delivery && id !in Mentioned(change);
    }
  }

  /** No claim is forgotten, nor who made it, and none that was lost is owned again. */
  predicate ClaimsStand(w: World, w': World) {
    && (forall c {:trigger c in w.claims} :: c in w.claims ==> c in w'.claims)
    && (forall c {:trigger Owned(w', c)} :: c in w.claims && Owned(w', c) ==> Owned(w, c))
    && (forall c {:trigger c in w.takers} :: c in w.takers ==> c in w'.takers && w'.takers[c] == w.takers[c])
  }

  lemma StepsLetClaimsStand(w: World, step: Step)
    requires Inv(w) && Enabled(w, step)
    ensures ClaimsStand(w, Apply(w, step))
  {
    if step.Rewrite? {
      ChangeFacts(w, step.change);
    }
    forall c | c in w.claims && Owned(Apply(w, step), c) ensures Owned(w, c) {
      OwnedBefore(w, step, c);
    }
  }

  lemma VersionsOnlyGrow(w: World, step: Step)
    requires Inv(w) && Enabled(w, step)
    ensures var w' := Apply(w, step);
            w.written <= w'.written && (w'.stored.Some? ==> Known(w', w'.stored.value))
  {
    InvIsKept(w, step);
  }

  /** What a change leaves stored, claimed and answered. */
  lemma ChangeFacts(w: World, change: Change)
    requires Inv(w) && CanRewrite(w, change)
    ensures var w' := Changed(w, change);
            && w'.stored == Some(Rewritten(w.stored.value, change).(revision := |w'.written|))
            && Known(w', w'.stored.value) && w'.life == w.life
            && (Mentioned(change) != {} ==> w'.undo == w.stored)
            && (change.TakeClaim? ==> ClaimOf(w', w'.stored.value) in w'.claims && ClaimOf(w', w'.stored.value) !in w.claims
                                      && ClaimOf(w', w'.stored.value) !in w'.answered)
            && (change.Finish? ==> change.claim in w'.answered)
  {
    ChangeKeepsInv(w, change);
  }

  /** Whether a step is another engine's. */
  predicate IsByOthers(step: Step, me: nat) { step.Rewrite? && step.change.TakeClaim? ==> step.change.engine != me }

  lemma MadeAfter(w: World, step: Step, me: nat)
    requires Inv(w) && Enabled(w, step)
    ensures var w' := Apply(w, step);
            MadeBy(w', me) == MadeBy(w, me) + (if IsByOthers(step, me) then {} else {ClaimOf(w', w'.stored.value)})
  {
    if step.Rewrite? {
      ChangeFacts(w, step.change);
    }
  }

  /** The claim that taking this version makes. */
  function NextClaim(w: World, base: Run): Claim { Claim(w.life, base.delivery, base.attempts + 1) }

  /** No claim made since was made by another. */
  predicate NobodyElseClaimed(w: World, w': World, me: nat) {
    forall c :: c in w'.takers && c !in w.takers ==> w'.takers[c] == me
  }

  class Row {
    /** The number of this engine. */
    const me: nat
    var world: World
    /** The claims this engine made and has not settled. */
    var mine: set<Claim>
    /** The ids this engine minted and has not stored. */
    var minted: set<Id>
    var rivals: seq<seq<Step>>
    var faults: seq<Fault>
    var ticks: seq<int>
    /** How often it waited before another try. */
    var pauses: nat
    /** Every state the entry has been in. */
    ghost var trace: seq<World>
    /** What the clock read, each time it was read. */
    ghost var readings: seq<int>

    constructor (me: nat, rivals: seq<seq<Step>>, faults: seq<Fault>, ticks: seq<int>)
      ensures Valid() && this.me == me && world == BLANK && mine == {} && minted == {}
      ensures this.rivals == rivals && this.faults == faults && this.ticks == ticks
    {
      this.me, world, mine, minted := me, BLANK, {}, {};
      this.rivals, this.faults, this.ticks := rivals, faults, ticks;
      trace, readings, pauses := [BLANK], [], 0;
    }

    ghost predicate Valid()
      reads this
    {
      && |trace| > 0 && Last(trace) == world && Behaviour(trace)
      && (world.stored.Some? ==> Known(world, world.stored.value))
      && Spared(world, mine, minted)
    }

    /** The claims this engine has made on the run, known to it or not: a write may be kept and reported failed. */
    ghost function Made(): set<Claim>
      reads this
    {
      MadeBy(world, me)
    }

    lemma InvHolds()
      requires Valid()
      ensures Inv(world)
    {
      BehavioursKeepInv(trace, |trace| - 1);
    }

    /** What every operation of the engine keeps: it adds legal steps to the history, and loses no version. */
    twostate predicate Advanced()
      reads this
    {
      && Valid() && old(trace) <= trace && old(readings) <= readings && old(pauses) <= pauses && old(world.written) <= world.written && old(world.used) <= world.used
      && ClaimsStand(old(world), world)
      && (old(rivals) == [] ==> rivals == [] && NobodyElseClaimed(old(world), world, me)) && (old(faults) == [] ==> faults == [])
    }

    /** The clock has read this since. */
    twostate predicate HasRead(at: int)
      reads this
    {
      exists k {:trigger readings[k]} :: |old(readings)| <= k < |readings| && readings[k] == at
    }

    /** The clock has read this since, and nothing later. */
    twostate predicate HasJustRead(at: int)
      reads this
    {
      |old(readings)| < |readings| && readings[|readings| - 1] == at
    }

    /** This is what the clock read last. */
    ghost predicate IsNow(at: int)
      reads this
    {
      readings != [] && readings[|readings| - 1] == at
    }

    /** Whatever time a change is written with is what the clock read last. */
    ghost predicate IsStamped(change: Change)
      reads this
    {
      match change
      case TakeClaim(_, _, now, _) => IsNow(now)
      case Finish(_, _, _, now) => IsNow(now)
      case Expire(now) => IsNow(now)
      case Exhaust(_, _, now) => IsNow(now)
      case GiveUp(_, _, now) => IsNow(now)
      case Cancel(_, now) => IsNow(now)
      case Reschedule(_, _, now, _) => IsNow(now)
      case Redrive(_, now) => IsNow(now)
      case _ => true
    }

    /** Nobody else acts and no access fails. */
    predicate Quiet()
      reads this
    {
      rivals == [] && faults == []
    }

    twostate predicate OnlyLooked()
      reads this
    {
      old(Quiet()) ==> Quiet() && world == old(world)
    }

    method Take(step: Step)
      requires Valid() && Enabled(world, step) && IsRivals(step, mine, minted)
      requires rivals == [] ==> !step.Rewrite? || !step.change.TakeClaim? || !IsByOthers(step, me)
      modifies this`world, this`trace
      ensures Advanced() && world == Apply(old(world), step) && |trace| == |old(trace)| + 1
      ensures Made() == old(Made()) + (if IsByOthers(step, me) then {} else {ClaimOf(world, world.stored.value)})
    {
      InvHolds();
      MadeAfter(world, step, me);
      StepsSpare(world, step, mine, minted);
      VersionsOnlyGrow(world, step);
      StepsLetClaimsStand(world, step);
      ghost var longer := Extended(trace, step);
      world := Apply(world, step);
      trace := longer;
    }

    /** The steps others take before this engine's next access. */
    method Interfere()
      requires Valid()
      modifies this`world, this`trace, this`rivals
      ensures Advanced() && OnlyLooked()
      ensures Made() == old(Made())
      ensures world.written == old(world.written) && world.stored.Some? ==>
                world.stored == old(world.stored) && world.undo == old(world.undo)
    {
      if rivals == [] {
        return;
      }
      var steps := rivals[0];
      for i := 0 to |steps|
        invariant Advanced() && Made() == old(Made()) && rivals == old(rivals)
        invariant world.written == old(world.written) && world.stored.Some? ==>
                    world.stored == old(world.stored) && world.undo == old(world.undo)
      {
        if Enabled(world, steps[i]) && IsRivals(steps[i], mine, minted) && IsByOthers(steps[i], me) {
          Take(steps[i]);
        }
      }
      rivals := rivals[1..];
    }

    method Draw() returns (fault: Fault)
      modifies this`faults
      ensures old(faults) == [] ==> fault == NoFault && faults == []
    {
      if faults == [] {
        return NoFault;
      }
      fault := faults[0];
      faults := faults[1..];
    }

    /** The wait before another try: false when the context ends first. */
    method Pause() returns (goOn: bool)
      modifies this`faults, this`pauses
      ensures pauses == old(pauses) + 1 && (old(faults) == [] ==> goOn && faults == [])
    {
      pauses := pauses + 1;
      var fault := Draw();
      goOn := fault == NoFault;
    }

    method Drop(c: Claim)
      requires Valid()
      modifies this`mine
      ensures Advanced() && world == old(world) && mine == old(mine) - {c}
    {
      mine := mine - {c};
    }

    method Now() returns (now: int)
      modifies this`ticks, this`readings
      ensures readings == old(readings) + [now] && now == if old(ticks) == [] then 0 else old(ticks)[0]
    {
      now := 0;
      if ticks != [] {
        now := ticks[0];
        ticks := ticks[1..];
      }
      readings := readings + [now];
    }

    /** `NewMessageID`: an id no other writer has or will have. */
    method NewId() returns (id: Id)
      requires Valid()
      modifies this`world, this`trace, this`minted
      ensures Advanced() && Made() == old(Made()) && id in minted && minted == old(minted) + {id}
      ensures world == old(world).(nextId := old(world).nextId + 1)
    {
      InvHolds();
      id := world.nextId;
      Take(Mint);
      minted := minted + {id};
    }

    /** `ReadRun`. */
    method Read() returns (read: ReadResult)
      requires Valid()
      modifies this`world, this`trace, this`rivals, this`faults
      ensures Advanced() && Made() == old(Made()) && OnlyLooked() && (old(faults) == [] ==> !read.ReadFailed?)
      ensures read.Found? ==> world.stored == Some(read.run) && Known(world, read.run)
      ensures read.Found? ==> read.run.revision == |world.written|
      ensures read.Found? ==> Some(read.run) == old(world.stored) || |old(world.written)| < |world.written|
      ensures read.Missing? ==> world.stored == None
    {
      Interfere();
      InvHolds();
      var fault := Draw();
      if fault != NoFault {
        return ReadFailed;
      }
      match world.stored
      case None => return Missing;
      case Some(run) => return Found(run);
    }

    /** `CreateRun`. An engine whose creation failed gives up the id it was storing. */
    method Create(run: Run) returns (created: WriteResult)
      requires Valid() && mine == {} && run.attempts == 0 && IsWaiting(run.status)
      requires run.delivery == NO_ID || run.delivery in minted
      modifies this`world, this`trace, this`rivals, this`faults, this`minted
      ensures Advanced() && Made() == old(Made()) && minted == old(minted) - {run.delivery}
      ensures old(Quiet()) ==> Quiet() && (old(world).stored == None ==> created.Written?)
      ensures created.WriteStale? ==> world.stored.Some?
      ensures created.WriteFailed? ==> old(faults) != []
      ensures created.Written? ==> world.stored == Some(created.run) && Known(world, created.run)
      ensures created.Written? ==> created.run == run.(revision := created.run.revision)
    {
      FreshIdsAreNamed();
      Interfere();
      minted := minted - {run.delivery};
      var fault := Draw();
      if world.stored.Some? || fault == Lost {
        return if fault == NoFault then WriteStale else WriteFailed;
      }
      Take(RunSystem.Step.Create(run));
      return if fault == NoFault then Written(world.stored.value) else WriteFailed;
    }

    /** `DeleteRun`: the run is deleted if `base` is still the version stored. */
    method Remove(base: Run) returns (removed: WriteResult)
      requires Valid() && mine == {} && Known(world, base)
      modifies this`world, this`trace, this`rivals, this`faults
      ensures Advanced() && Made() == old(Made()) && (old(Quiet()) && old(world).stored == Some(base) ==> removed.Written?)
      ensures removed.WriteStale? ==> IsOvertaken(world, base)
      ensures removed.WriteFailed? ==> old(faults) != []
      ensures removed.Written? ==> world.stored == None && removed.run == base
    {
      var fault, current := Race(base);
      if !current {
        return if fault == NoFault then WriteStale else WriteFailed;
      }
      Take(Delete);
      return if fault == NoFault then Written(base) else WriteFailed;
    }

    lemma FreshIdsAreNamed()
      requires Valid()
      ensures NO_ID !in minted
    {
    }

    /** What happens before a write lands: whether it lands, and whether on the version it was made from. */
    method Race(base: Run) returns (fault: Fault, current: bool)
      requires Valid() && Known(world, base)
      modifies this`world, this`trace, this`rivals, this`faults
      ensures Advanced() && Made() == old(Made()) && OnlyLooked()
      ensures if current then world.stored == Some(base) else fault == NoFault ==> IsOvertaken(world, base)
      ensures fault != NoFault ==> old(faults) != []
      ensures old(Quiet()) ==> fault == NoFault && (old(world).stored == Some(base) ==> current)
    {
      Interfere();
      fault := Draw();
      InvHolds();
      current := fault != Lost && world.stored.Some? && world.stored.value.revision == base.revision;
    }

    /** Takes one change as a step. */
    method TakeChange(change: Change)
      requires Valid() && CanRewrite(world, change) && IsRivals(Rewrite(change), mine, minted)
      requires change.TakeClaim? ==> change.engine == me
      modifies this`world, this`trace
      ensures Advanced() && |trace| == |old(trace)| + 1 && world == Changed(old(world), change)
      ensures world.stored == Some(Rewritten(old(world).stored.value, change).(revision := |world.written|))
      ensures Known(world, world.stored.value) && world.life == old(world).life
      ensures Made() == old(Made()) + (if change.TakeClaim? then {ClaimOf(world, world.stored.value)} else {})
      ensures Mentioned(change) != {} ==> world.undo == old(world).stored
      ensures change.TakeClaim? ==>
                var c := ClaimOf(world, world.stored.value);
                c in world.claims && c !in old(world).claims && c !in world.answered
      ensures change.Finish? ==> change.claim in world.answered
    {
      InvHolds();
      ChangeFacts(world, change);
      Take(Rewrite(change));
    }

    /** The atomic part of a write that finds the version it was made from. */
    method Replace(change: Change)
      requires Valid() && world.stored.Some? && Allows(world.stored.value, change)
      requires change.Finish? ==> change.claim in mine
      requires change.TakeClaim? ==> change.engine == me
      requires Mentioned(change) <= minted
      modifies this`world, this`trace, this`mine, this`minted
      ensures Advanced() && |old(trace)| < |trace|
      ensures CanRewrite(old(world), change) && trace[|old(trace)|] == Apply(old(world), Rewrite(change))
      ensures world.stored == Some(Rewritten(old(world).stored.value, change).(revision := |world.written|))
      ensures Known(world, world.stored.value) && |old(world).written| < |world.written|
      ensures Made() == old(Made()) + (if change.TakeClaim? then {ClaimOf(world, world.stored.value)} else {})
      ensures Mentioned(change) != {} ==> world.undo == old(world).stored
      ensures change.TakeClaim? ==> ClaimOf(world, world.stored.value) !in old(world).claims
      ensures change.Finish? ==> change.claim in world.answered
      ensures minted == old(minted) - Mentioned(change)
      ensures mine == if change.Finish? then old(mine) - {change.claim}
                      else if change.TakeClaim? then old(mine) + {ClaimOf(world, world.stored.value)}
                      else old(mine)
    {
      minted := minted - Mentioned(change);
      if change.Finish? {
        mine := mine - {change.claim};
      }
      TakeChange(change);
      if change.TakeClaim? {
        Gain(ClaimOf(world, world.stored.value));
      }
    }

    method Gain(c: Claim)
      requires Valid() && c in world.claims && c !in world.answered && c.life == world.life
      modifies this`mine
      ensures Valid() && mine == old(mine) + {c}
    {
      mine := mine + {c};
    }

    /** A write that does not land: it came too late, or it failed. */
    method Abandon(change: Change, failed: bool) returns (result: WriteResult)
      requires Valid()
      modifies this`mine, this`minted
      ensures Advanced() && world == old(world) && result == if failed then WriteFailed else WriteStale
      ensures minted == old(minted) - (if failed then Mentioned(change) else {})
      ensures mine == old(mine) - (if failed && change.Finish? then {change.claim} else {})
    {
      if !failed {
        return WriteStale;
      }
      minted := minted - Mentioned(change);
      mine := mine - (if change.Finish? then {change.claim} else {});
      return WriteFailed;
    }

    /** `WriteRun`: the version changed from `base` is stored if `base` is still the one stored. An engine whose
        write failed gives up what it was writing, whether or not the store kept it. */
    method Write(base: Run, changed: Run, change: Change) returns (result: WriteResult)
      requires Valid() && Known(world, base) && Allows(base, change) && changed == Rewritten(base, change)
      requires change.Finish? ==> change.claim in mine
      requires change.TakeClaim? ==> change.engine == me
      requires Mentioned(change) <= minted && IsStamped(change)
      modifies this`world, this`trace, this`rivals, this`faults, this`mine, this`minted
      ensures Advanced()
      ensures Made() != old(Made()) ==>
                change.TakeClaim? && !result.WriteStale? && Made() == old(Made()) + {NextClaim(world, base)}
      ensures change.TakeClaim? && result.Written? ==>
                ClaimOf(world, result.run) == NextClaim(world, base) && Made() == old(Made()) + {ClaimOf(world, result.run)}
      ensures old(Quiet()) ==> Quiet() && (old(world).stored == Some(base) ==> result.Written?)
      ensures result.WriteStale? ==> mine == old(mine) && minted == old(minted) && IsOvertaken(world, base)
      ensures result.WriteFailed? ==> old(faults) != []
      ensures !result.WriteStale? ==> minted == old(minted) - Mentioned(change)
      ensures !result.WriteStale? && change.Finish? ==> mine == old(mine) - {change.claim}
      ensures result.WriteFailed? && !change.Finish? ==> mine == old(mine)
      ensures result.Written? && !change.Finish? ==>
                mine == old(mine) + (if change.TakeClaim? then {ClaimOf(world, result.run)} else {})
      ensures result.Written? ==>
                && world.stored == Some(result.run) && Known(world, result.run)
                && result.run == changed.(revision := result.run.revision) && base.revision < result.run.revision
      ensures result.Written? && Mentioned(change) != {} ==> world.undo == Some(base)
      ensures result.Written? && change.TakeClaim? ==> ClaimOf(world, result.run) !in old(world).claims
      ensures result.Written? && change.Finish? ==> change.claim in world.answered
      ensures change.Finish? && change.claim in world.answered ==> WasStored(world, changed)
    {
      var fault, current := Race(base);
      if current {
        result := Land(base, change, fault == Unacknowledged);
      } else {
        result := Abandon(change, fault != NoFault);
      }
    }

    /** A write that lands, whether or not its engine gets to know. */
    method Land(base: Run, change: Change, unknown: bool) returns (result: WriteResult)
      requires Valid() && world.stored == Some(base) && Allows(base, change)
      requires change.Finish? ==> change.claim in mine
      requires change.TakeClaim? ==> change.engine == me
      requires Mentioned(change) <= minted
      modifies this`world, this`trace, this`mine, this`minted
      ensures Advanced() && Made() == old(Made()) + (if change.TakeClaim? then {NextClaim(world, base)} else {})
      ensures minted == old(minted) - Mentioned(change) && if unknown then result.WriteFailed? else result.Written?
      ensures mine == old(mine) - (if change.Finish? then {change.claim} else {})
                      + (if change.TakeClaim? && !unknown then {NextClaim(world, base)} else {})
      ensures WasStored(world, Rewritten(base, change))
      ensures result.Written? ==>
                && world.stored == Some(result.run) && Known(world, result.run) && (Mentioned(change) != {} ==> world.undo == Some(base))
                && result.run == Rewritten(base, change).(revision := result.run.revision) && base.revision < result.run.revision
                && (change.TakeClaim? ==> ClaimOf(world, result.run) == NextClaim(world, base) && NextClaim(world, base) !in old(world).claims)
                && (change.Finish? ==> change.claim in world.answered)
    {
      var before := mine;
      Replace(change);
      assert Known(world, world.stored.value);
      if unknown {
        mine := mine * before;
        return WriteFailed;
      }
      return Written(world.stored.value);
    }

    /** `WriteRun` of the version a reopening replaced, over the version the reopening wrote. */
    method WriteBack(reopened: Run, restored: Run) returns (result: WriteResult)
      requires Valid() && world.stored == Some(reopened) && world.undo.Some?
      requires restored == world.undo.value.(revision := reopened.revision)
      modifies this`world, this`trace, this`rivals, this`faults
      ensures Advanced() && Made() == old(Made()) && (old(Quiet()) ==> Quiet() && result.Written?)
      ensures result.WriteStale? ==> IsOvertaken(world, reopened)
      ensures result.WriteFailed? ==> old(faults) != []
      ensures result.Written? ==>
                world.stored == Some(result.run) && result.run == restored.(revision := result.run.revision)
    {
      InvHolds();
      Interfere();
      InvHolds();
      var fault := Draw();
      if fault == Lost || world.stored.None? || world.stored.value.revision != reopened.revision {
        return if fault == NoFault then WriteStale else WriteFailed;
      }
      Take(Restore);
      return if fault == NoFault then Written(world.stored.value) else WriteFailed;
    }
  }
}
