/** `pkg/runs/deliver.go`: `deliverBatch`, which admits a whole slice before it claims any of it, and
    `Deliver`, which chooses between it and the one-by-one loop. */
module RunBatch {
  import opened Wrappers
  import opened RunState
  import opened RunSystem
  import opened RunSafety
  import opened RunRow
  import opened RunEngine
  import opened RunAttempt
  import opened RunQuiet
  import opened RunDeliver
  import opened RunStages

  /** The delivery is the one being made of this slice. */
  ghost predicate IsOf(s: Delivery, engine: Engine, deployed: Deployed, received: seq<Received>) {
    IsDelivery(s) && s.engine == engine && s.deployed == deployed && s.received == received
  }

  /** Arrival and admission of one message. */
  method AdmitOne(engine: Engine, deployed: Deployed, row: Row, rcv: Received, n: nat, ghost s: Delivery)
    returns (d: Disposition, admitted: Option<Candidate>)
    requires row.Valid() && row.mine == {} && WellAddressed(rcv.message)
    requires IsDelivery(s) && n < |s.before| && s.engine == engine && s.deployed == deployed && s.received[n] == rcv
    modifies row
    ensures row.Advanced() && row.mine == {} && row.minted == old(row.minted) && row.Made() == old(row.Made())
    ensures admitted.Some? ==>
              && admitted.value.index == n && !d.done && Known(row.world, admitted.value.run)
              && MayStart(admitted.value.run, rcv.message.delivery, admitted.value.at)
    ensures admitted.None? && d.done ==> DoneIsSound(rcv.message, None, row.world)
    ensures old(row.Quiet()) && old(row.world) == s.before[n] ==> row.Quiet() && IsSifted(s, n, row.world, false, d, admitted)
  {
    d, admitted := RETAINED, None;
    var arrival := engine.Arrive(row, deployed, rcv.message);
    ghost var calm := old(row.Quiet() && row.world == s.before[n]);
    if arrival.Gone? {
      d := DONE;
      assert calm ==> IsGone(s, n, row.world, d);
    } else if arrival.Arrived? {
      var run, ok, at;
      run, d, ok, at := engine.Admit(row, deployed, rcv, arrival.run);
      assert calm && !ok ==> IsFoundAt(s, n, arrival.run) && IsJudgedAt(s, n, row.world, arrival.run, at, d);
      if ok {
        d, admitted := RETAINED, Some(Candidate(n, run, at));
      }
    }
  }

  method AdmitNext(engine: Engine, deployed: Deployed, rows: seq<Row>, received: seq<Received>, n: nat, blocked: bool, ghost s: Delivery)
    returns (d: Disposition, admitted: Option<Candidate>)
    requires n < |received| == |rows| && rows[n].Valid() && rows[n].mine == {}
    requires WellAddressed(received[n].message) && IsOf(s, engine, deployed, received)
    modifies rows[n]
    ensures rows[n].Advanced() && rows[n].mine == {} && rows[n].minted == old(rows[n].minted) && rows[n].Made() == old(rows[n].Made())
    ensures admitted.Some? ==>
              && admitted.value.index == n && !d.done && Known(rows[n].world, admitted.value.run)
              && MayStart(admitted.value.run, received[n].message.delivery, admitted.value.at)
    ensures admitted.None? && d.done ==> DoneIsSound(received[n].message, None, rows[n].world)
    ensures old(AreQuiet(rows)) && old(rows[n].world) == s.before[n] ==>
              && AreQuiet(rows) && Worlds(rows) == old(Worlds(rows))[n := rows[n].world]
              && IsSifted(s, n, rows[n].world, blocked, d, admitted)
  {
    if blocked {
      return RedeliverAfter(0), None;
    }
    if AreApart(rows) {
      ApartFrom(rows, n);
    }
    d, admitted := AdmitOne(engine, deployed, rows[n], received[n], n, s);
  }

  /** `AdmitNext`, with what it leaves standing for the other messages. */
  method AdmitBeside(engine: Engine, deployed: Deployed, rows: seq<Row>, received: seq<Received>, n: nat, blocked: bool,
                     ghost s: Delivery, ghost since: seq<Snapshot>)
    returns (d: Disposition, admitted: Option<Candidate>)
    requires HaveAdvanced(rows, since) && AreIdle(rows) && n < |received| == |rows| && WellAddressed(received[n].message)
    requires IsOf(s, engine, deployed, received)
    modifies rows[n]
    ensures HaveAdvanced(rows, since) && AreIdle(rows) && OnlyNth(rows, old(Snapshots(rows)), Snapshots(rows), n)
    ensures rows[n].Made() == old(rows[n].Made())
    ensures admitted.Some? ==>
              && admitted.value.index == n && !d.done && Known(rows[n].world, admitted.value.run)
              && MayStart(admitted.value.run, received[n].message.delivery, admitted.value.at)
    ensures d.done ==> IsSound(Taken(rows[n]), received[n], None, since[n], AreApart(rows))
    ensures old(AreQuiet(rows)) && old(rows[n].world) == s.before[n] ==>
              && AreQuiet(rows) && Worlds(rows) == old(Worlds(rows))[n := rows[n].world]
              && IsSifted(s, n, rows[n].world, blocked, d, admitted)
  {
    ghost var before := Snapshots(rows);
    AreLater(rows, since);
    d, admitted := AdmitNext(engine, deployed, rows, received, n, blocked, s);
    forall i | 0 <= i < |rows| && rows[i] != rows[n] ensures Taken(rows[i]) == before[i] {
    }
    StillAdvanced(rows, before, since, n);
    forall r | r in rows ensures r.mine == {} {
    }
    if d.done {
      SoundNow(rows[n], received[n], None, since[n]);
    }
  }

  /** The slice is undisturbed, and each of its messages stands at its stage. */
  ghost predicate IsCalm(s: Delivery, rows: seq<Row>, ds: seq<Disposition>, claims: seq<Option<Claim>>, blocked: set<string>,
                         stages: seq<Stage>)
    reads rows
  {
    AreQuiet(rows) && AllStand(s, Worlds(rows), ds, claims, blocked, stages)
  }

  ghost predicate IsCalmSifting(s: Delivery, rows: seq<Row>, ds: seq<Disposition>, blocked: set<string>, candidates: seq<Candidate>,
                                stages: seq<Stage>, n: nat)
    reads rows
  {
    IsCalm(s, rows, ds, NoClaims(|ds|), blocked, stages) && Tracks(stages, candidates, 0, [], n)
  }

  /** `AdmitBeside`, with what it leaves sound and accounted for. */
  method AdmitStep(engine: Engine, deployed: Deployed, rows: seq<Row>, received: seq<Received>, n: nat, blocked: bool,
                   candidates: seq<Candidate>, ghost ds: seq<Disposition>, ghost none: seq<Option<Claim>>, ghost s: Delivery, ghost since: seq<Snapshot>)
    returns (d: Disposition, admitted: Option<Candidate>, candidates': seq<Candidate>)
    requires IsUnderway(rows, received, ds, none, none, since) && AreIdle(rows) && n < |received| && none[n].None?
    requires WellAddressed(received[n].message) && IsOf(s, engine, deployed, received) && Candidates(Snapshots(rows), received, candidates, n)
    modifies rows
    ensures IsUnderway(rows, received, ds[n := d], none, none, since) && AreIdle(rows)
    ensures Candidates(Snapshots(rows), received, candidates', n + 1)
    ensures candidates' == candidates + (if admitted.Some? then [admitted.value] else [])
    ensures admitted.Some? ==> admitted.value.index == n && !d.done
    ensures old(AreQuiet(rows)) && old(rows[n].world) == s.before[n] ==>
              && AreQuiet(rows) && Worlds(rows) == old(Worlds(rows))[n := rows[n].world]
              && IsSifted(s, n, rows[n].world, blocked, d, admitted)
  {
    ghost var before := Snapshots(rows);
    assert HasAdvanced(rows[n], since[n]);
    d, admitted := AdmitBeside(engine, deployed, rows, received, n, blocked, s, since);
    StillAccounted(rows, before, Snapshots(rows), received, ds, none, none, since, n, d, None, None);
    assert none[n := None] == none;
    assert Snapshots(rows)[n] == Taken(rows[n]);
    assert admitted.Some? ==> IsCandidate(Snapshots(rows), received, admitted.value);
    MoreCandidates(rows, before, Snapshots(rows), received, candidates, n, admitted);
    candidates' := candidates + (if admitted.Some? then [admitted.value] else []);
  }

  /** The run of the next message is as it was. */
  lemma NextIsUntouched(s: Delivery, rows: seq<Row>, ds: seq<Disposition>, blocked: set<string>, candidates: seq<Candidate>,
                        stages: seq<Stage>, n: nat)
    requires IsCalmSifting(s, rows, ds, blocked, candidates, stages, n) && n < |rows|
    ensures rows[n].world == s.before[n]
  {
    assert Stands(s, n, Worlds(rows)[n], ds[n], NoClaims(|ds|)[n], blocked, stages[n]) && stages[n].Unreached?;
  }

  /** What sifting the next message leaves standing undisturbed. */
  lemma CalmSifted(s: Delivery, rows: seq<Row>, worlds: seq<World>, ds: seq<Disposition>, blocked: set<string>, candidates: seq<Candidate>,
                   stages: seq<Stage>, n: nat, d: Disposition, admitted: Option<Candidate>)
    returns (stages': seq<Stage>)
    requires AllStand(s, worlds, ds, NoClaims(|ds|), blocked, stages) && Tracks(stages, candidates, 0, [], n) && n < |stages| == |rows|
    requires AreQuiet(rows) && Worlds(rows) == worlds[n := rows[n].world]
    requires IsSifted(s, n, rows[n].world, s.deployed.ordered && GroupAt(s, n) in blocked, d, admitted)
    requires admitted.Some? ==> admitted.value.index == n
    ensures IsCalmSifting(s, rows, ds[n := d], if admitted.Some? || d.done then blocked else blocked + {GroupAt(s, n)},
                          candidates + (if admitted.Some? then [admitted.value] else []), stages', n + 1)
  {
    var grown := if admitted.Some? || d.done then blocked else blocked + {GroupAt(s, n)};
    stages' := StageSifted(s, worlds, ds, blocked, candidates, stages, n, rows[n].world, d, admitted, grown);
  }

  /** One turn of the first pass. */
  method AdmitTurn(engine: Engine, deployed: Deployed, rows: seq<Row>, received: seq<Received>, n: nat,
                   ds: seq<Disposition>, blocked: set<string>, candidates: seq<Candidate>, ghost none: seq<Option<Claim>>,
                   ghost pending: set<nat>, ghost s: Delivery, ghost base: seq<Snapshot>, ghost since: seq<Snapshot>,
                   ghost stages: seq<Stage>, ghost calm: bool)
    returns (ds': seq<Disposition>, blocked': set<string>, candidates': seq<Candidate>, ghost pending': set<nat>,
             ghost since': seq<Snapshot>, ghost stages': seq<Stage>)
    requires IsUnderway(rows, received, ds, none, none, since) && AreIdle(rows) && none == NoClaims(|received|)
    requires TakeTurns(rows, base, since, n)
    requires n < |received| && WellAddressed(received[n].message) && deployed.batches && IsOf(s, engine, deployed, received)
    requires Settling(deployed, received, ds, none, none, blocked, pending)
    requires Undecided(pending, candidates, n, |received|) && Candidates(Snapshots(rows), received, candidates, n)
    requires calm ==> IsCalmSifting(s, rows, ds, blocked, candidates, stages, n)
    modifies rows
    ensures IsUnderway(rows, received, ds', none, none, since') && AreIdle(rows) && TakeTurns(rows, base, since', n + 1)
    ensures Settling(deployed, received, ds', none, none, blocked', pending')
    ensures Undecided(pending', candidates', n + 1, |received|) && Candidates(Snapshots(rows), received, candidates', n + 1)
    ensures calm ==> IsCalmSifting(s, rows, ds', blocked', candidates', stages', n + 1)
  {
    ghost var worlds := Worlds(rows);
    if calm {
      NextIsUntouched(s, rows, ds, blocked, candidates, stages, n);
    }
    NextTurn(rows, received, ds, none, none, base, since, n);
    since' := since[n := since[n].(turn := |rows[n].trace|)];
    var group := received[n].message.Group(deployed.consumer);
    var d, admitted;
    d, admitted, candidates' :=
      AdmitStep(engine, deployed, rows, received, n, deployed.ordered && group in blocked, candidates, ds, none, s, since');
    SiftedSettles(deployed, received, ds, none, blocked, candidates, pending, n, d, admitted);
    ds', blocked' := ds[n := d], if admitted.Some? || d.done then blocked else blocked + {group};
    pending' := if admitted.Some? then pending else pending - {n};
    stages' := stages;
    if calm {
      stages' := CalmSifted(s, rows, worlds, ds, blocked, candidates, stages, n, d, admitted);
    }
  }

  lemma NoneIsReached(s: Delivery, rows: seq<Row>)
    requires AreQuiet(rows) && IsDelivery(s) && s.before == Worlds(rows)
    ensures IsCalmSifting(s, rows, Retained(|rows|), {}, [], seq(|rows|, _ => Unreached), 0)
  {
  }

  lemma NoneIsSettled(deployed: Deployed, rows: seq<Row>, received: seq<Received>)
    requires |rows| == |received|
    ensures Settling(deployed, received, Retained(|received|), NoClaims(|received|), NoClaims(|received|), {}, Below(|received|))
    ensures Undecided(Below(|received|), [], 0, |received|) && Candidates(Snapshots(rows), received, [], 0)
  {
  }

  /** The first pass: every message admitted or decided, and none claimed. */
  method AdmitEach(engine: Engine, deployed: Deployed, rows: seq<Row>, received: seq<Received>, ds0: seq<Disposition>, blocked0: set<string>,
                   ghost none: seq<Option<Claim>>, ghost pending0: set<nat>, ghost s: Delivery, ghost base: seq<Snapshot>,
                   ghost stages0: seq<Stage>, ghost calm: bool)
    returns (ds: seq<Disposition>, blocked: set<string>, candidates: seq<Candidate>, ghost pending: set<nat>,
             ghost since: seq<Snapshot>, ghost stages: seq<Stage>)
    requires IsUnderway(rows, received, ds0, none, none, base) && AreIdle(rows) && none == NoClaims(|received|)
    requires TakeTurns(rows, base, base, 0)
    requires deployed.batches && IsOf(s, engine, deployed, received) && Settling(deployed, received, ds0, none, none, blocked0, pending0)
    requires Undecided(pending0, [], 0, |received|) && Candidates(Snapshots(rows), received, [], 0)
    requires forall i :: 0 <= i < |received| ==> WellAddressed(received[i].message)
    requires calm ==> IsCalmSifting(s, rows, ds0, blocked0, [], stages0, 0)
    modifies rows
    ensures IsUnderway(rows, received, ds, none, none, since) && AreIdle(rows) && TakeTurns(rows, base, since, |received|)
    ensures Settling(deployed, received, ds, none, none, blocked, pending)
    ensures Undecided(pending, candidates, |received|, |received|) && Candidates(Snapshots(rows), received, candidates, |received|)
    ensures calm ==> IsCalmSifting(s, rows, ds, blocked, candidates, stages, |received|)
  {
    ds, blocked, candidates, pending, since, stages := ds0, blocked0, [], pending0, base, stages0;
    for n := 0 to |received|
      invariant IsUnderway(rows, received, ds, none, none, since) && AreIdle(rows) && TakeTurns(rows, base, since, n)
      invariant Settling(deployed, received, ds, none, none, blocked, pending)
      invariant Undecided(pending, candidates, n, |received|) && Candidates(Snapshots(rows), received, candidates, n)
      invariant calm ==> IsCalmSifting(s, rows, ds, blocked, candidates, stages, n)
    {
      ds, blocked, candidates, pending, since, stages :=
        AdmitTurn(engine, deployed, rows, received, n, ds, blocked, candidates, none, pending, s, base, since, stages, calm);
    }
  }

  method ClaimOne(engine: Engine, deployed: Deployed, row: Row, rcv: Received, c: Candidate)
    returns (d: Disposition, work: Option<Work>, ghost made: Option<Claim>)
    requires row.Valid() && Known(row.world, c.run) && MayStart(c.run, rcv.message.delivery, c.at)
    modifies row
    ensures row.Advanced() && row.minted == old(row.minted)
    ensures row.mine == old(row.mine) + (if work.Some? then {work.value.claim} else {})
    ensures HasMadeOne(row, old(row.Made()), rcv.message.delivery, if work.Some? then Some(work.value.claim) else None, made, d)
    ensures work.Some? ==>
              && !d.done && work.value.index == c.index && work.value.rcv == rcv
              && IsClaimedWork(row, work.value) && work.value.claim !in old(row.mine)
    ensures work.None? && d.done ==> DoneIsSound(rcv.message, None, row.world)
    ensures old(row.Quiet()) && old(row.world).stored == Some(c.run) ==> row.Quiet() && IsTaken(engine, c, row.world, false, d, work)
  {
    var run, claimed;
    work := None;
    run, d, claimed, made := engine.Claim(row, deployed, rcv, c.run, c.at);
    if claimed.Some? {
      d, work := RETAINED, Some(RunAttempt.Work(c.index, rcv, claimed.value, run));
    }
  }

  ghost predicate IsClaimedWork(row: Row, work: Work)
    reads row
  {
    && work.claim in row.mine && Known(row.world, work.run) && Owns(work.run, work.claim.delivery, work.claim.attempts)
    && work.claim.delivery == work.rcv.message.delivery
  }

  method ClaimNext(engine: Engine, deployed: Deployed, rows: seq<Row>, received: seq<Received>, c: Candidate, blocked: bool)
    returns (d: Disposition, work: Option<Work>, ghost made: Option<Claim>)
    requires c.index < |rows| == |received| && rows[c.index].Valid() && Known(rows[c.index].world, c.run)
    requires MayStart(c.run, received[c.index].message.delivery, c.at)
    modifies rows[c.index]
    ensures rows[c.index].Advanced() && rows[c.index].minted == old(rows[c.index].minted)
    ensures var row := rows[c.index];
            && row.mine == old(row.mine) + (if work.Some? then {work.value.claim} else {})
            && HasMadeOne(row, old(row.Made()), received[c.index].message.delivery, if work.Some? then Some(work.value.claim) else None, made, d)
    ensures work.Some? ==>
              && !d.done && work.value.index == c.index && work.value.rcv == received[c.index]
              && IsClaimedWork(rows[c.index], work.value) && work.value.claim !in old(rows[c.index].mine)
    ensures blocked ==> work.None? && made.None? && !d.done
    ensures work.None? && d.done ==> DoneIsSound(received[c.index].message, None, rows[c.index].world)
    ensures old(AreQuiet(rows)) && old(rows[c.index].world).stored == Some(c.run) ==>
              && AreQuiet(rows) && Worlds(rows) == old(Worlds(rows))[c.index := rows[c.index].world]
              && IsTaken(engine, c, rows[c.index].world, blocked, d, work)
  {
    d, work, made := RedeliverAfter(0), None, None;
    if blocked {
      return;
    }
    if AreApart(rows) {
      ApartFrom(rows, c.index);
    }
    d, work, made := ClaimOne(engine, deployed, rows[c.index], received[c.index], c);
  }

  /** `ClaimNext`, with what it leaves standing for the other messages. */
  method ClaimBeside(engine: Engine, deployed: Deployed, rows: seq<Row>, received: seq<Received>, c: Candidate, blocked: bool,
                     ghost since: seq<Snapshot>)
    returns (d: Disposition, work: Option<Work>, ghost made: Option<Claim>)
    requires HaveAdvanced(rows, since) && c.index < |rows| == |received| && Known(rows[c.index].world, c.run)
    requires MayStart(c.run, received[c.index].message.delivery, c.at)
    modifies rows[c.index]
    ensures HaveAdvanced(rows, since) && OnlyNth(rows, old(Snapshots(rows)), Snapshots(rows), c.index)
    ensures var row := rows[c.index];
            && row.mine == old(row.mine) + (if work.Some? then {work.value.claim} else {})
            && HasMadeOne(row, old(row.Made()), received[c.index].message.delivery, if work.Some? then Some(work.value.claim) else None, made, d)
    ensures work.Some? ==>
              && !d.done && work.value.index == c.index && work.value.rcv == received[c.index]
              && IsClaimedWork(rows[c.index], work.value) && work.value.claim !in old(rows[c.index].mine)
    ensures blocked ==> work.None? && made.None? && !d.done
    ensures d.done ==> IsSound(Taken(rows[c.index]), received[c.index], None, since[c.index], AreApart(rows))
    ensures old(AreQuiet(rows)) && old(rows[c.index].world).stored == Some(c.run) ==>
              && AreQuiet(rows) && Worlds(rows) == old(Worlds(rows))[c.index := rows[c.index].world]
              && IsTaken(engine, c, rows[c.index].world, blocked, d, work)
  {
    ghost var before := Snapshots(rows);
    AreLater(rows, since);
    d, work, made := ClaimNext(engine, deployed, rows, received, c, blocked);
    forall i | 0 <= i < |rows| && rows[i] != rows[c.index] ensures Taken(rows[i]) == before[i] {
    }
    assert HaveAdvanced(rows, since) by {
      assert IsLater(before[c.index], Taken(rows[c.index]));
      StillAdvanced(rows, before, since, c.index);
    }
    if d.done {
      SoundNow(rows[c.index], received[c.index], None, since[c.index]);
    }
  }

  /** `ClaimBeside`, with what it leaves sound, accounted for and enveloped. */
  method ClaimStep(engine: Engine, deployed: Deployed, rows: seq<Row>, received: seq<Received>, c: Candidate, blocked: bool,
                   works: seq<Work>, ghost candidates: seq<Candidate>, ghost n: nat, ghost ds: seq<Disposition>,
                   ghost claims: seq<Option<Claim>>, ghost made: seq<Option<Claim>>, ghost since: seq<Snapshot>)
    returns (d: Disposition, work: Option<Work>, ghost m: Option<Claim>)
    requires IsUnderway(rows, received, ds, claims, made, since) && Enveloped(rows, Snapshots(rows), received, claims, works)
    requires AreCandidates(Snapshots(rows), received, candidates, n) && n < |candidates| && candidates[n] == c
    requires c.index < |received| ==> claims[c.index].None? && made[c.index].None?
    modifies rows
    ensures AreCandidates(Snapshots(rows), received, candidates, n + 1) && (blocked ==> m.None?)
    ensures work.Some? ==> work.value.index == c.index && !d.done
    ensures var claimed := if work.Some? then Some(work.value.claim) else None;
            && c.index < |received| && (claimed.Some? ==> m == claimed) && IsMadeFor(received[c.index], m)
            && IsUnderway(rows, received, ds[c.index := d], claims[c.index := claimed], made[c.index := m], since)
            && Enveloped(rows, Snapshots(rows), received, claims[c.index := claimed], works + (if work.Some? then [work.value] else []))
    ensures old(AreQuiet(rows)) && old(rows[c.index].world).stored == Some(c.run) ==>
              && AreQuiet(rows) && Worlds(rows) == old(Worlds(rows))[c.index := rows[c.index].world]
              && IsTaken(engine, c, rows[c.index].world, blocked, d, work)
  {
    ghost var before := Snapshots(rows);
    assert IsCandidate(before, received, candidates[n]);
    d, work, m := ClaimBeside(engine, deployed, rows, received, c, blocked, since);
    ghost var after, claimed := Snapshots(rows), if work.Some? then Some(work.value.claim) else None;
    assert HasAdvanced(rows[c.index], since[c.index]);
    StillAccounted(rows, before, after, received, ds, claims, made, since, c.index, d, claimed, m);
    EnvelopeGrows(rows, before, after, received, claims, works, c.index, work);
    StillCandidates(rows, before, after, received, candidates, n + 1, c.index);
  }

  ghost predicate IsCalmClaiming(s: Delivery, rows: seq<Row>, ds: seq<Disposition>, claims: seq<Option<Claim>>, blocked: set<string>,
                                 candidates: seq<Candidate>, n: nat, works: seq<Work>, stages: seq<Stage>)
    reads rows
  {
    IsCalm(s, rows, ds, claims, blocked, stages) && Tracks(stages, candidates, n, works, |stages|)
  }

  /** What claiming the next candidate, or not, leaves standing undisturbed. */
  lemma CalmClaimed(s: Delivery, rows: seq<Row>, worlds: seq<World>, ds: seq<Disposition>, claims: seq<Option<Claim>>, blocked: set<string>,
                    candidates: seq<Candidate>, n: nat, works: seq<Work>, stages: seq<Stage>, d: Disposition, taken: Option<Work>)
    returns (stages': seq<Stage>)
    requires AllStand(s, worlds, ds, claims, blocked, stages) && Tracks(stages, candidates, n, works, |stages|)
    requires n < |candidates| && Ascend(candidates) && candidates[n].index < |stages| == |rows|
    requires AreQuiet(rows) && Worlds(rows) == worlds[candidates[n].index := rows[candidates[n].index].world]
    requires var c := candidates[n];
             && IsTaken(s.engine, c, rows[c.index].world, s.deployed.ordered && GroupAt(s, c.index) in blocked, d, taken)
             && (taken.Some? ==> taken.value.index == c.index)
    ensures var at := candidates[n].index;
            IsCalmClaiming(s, rows, ds[at := d], claims[at := if taken.Some? then Some(taken.value.claim) else None],
                           if taken.Some? || d.done then blocked else blocked + {GroupAt(s, at)}, candidates, n + 1,
                           works + (if taken.Some? then [taken.value] else []), stages')
  {
    var c := candidates[n];
    assert IsAdmittedAt(stages, c) && Stands(s, c.index, worlds[c.index], ds[c.index], claims[c.index], blocked, stages[c.index]);
    assert taken.None? ==> claims[c.index := None] == claims;
    var grown := if taken.Some? || d.done then blocked else blocked + {GroupAt(s, c.index)};
    stages' := StageClaimed(s, worlds, ds, claims, blocked, candidates, n, works, stages, rows[c.index].world, d, taken, grown);
  }

  /** The next candidate is still the version stored. */
  lemma NextIsStored(s: Delivery, rows: seq<Row>, ds: seq<Disposition>, claims: seq<Option<Claim>>, blocked: set<string>,
                     candidates: seq<Candidate>, n: nat, works: seq<Work>, stages: seq<Stage>)
    requires IsCalmClaiming(s, rows, ds, claims, blocked, candidates, n, works, stages) && n < |candidates|
    ensures candidates[n].index < |rows| && rows[candidates[n].index].world.stored == Some(candidates[n].run)
  {
    var at := candidates[n].index;
    assert IsAdmittedAt(stages, candidates[n]);
    assert Stands(s, at, Worlds(rows)[at], ds[at], claims[at], blocked, stages[at]);
  }

  /** `ClaimStep`, with what it comes to undisturbed. */
  method ClaimTurn(engine: Engine, deployed: Deployed, rows: seq<Row>, received: seq<Received>, candidates: seq<Candidate>, n: nat,
                   ds: seq<Disposition>, blocked: set<string>, works: seq<Work>, ghost claims: seq<Option<Claim>>,
                   ghost made: seq<Option<Claim>>, ghost pending: set<nat>, ghost s: Delivery, ghost since: seq<Snapshot>,
                   ghost stages: seq<Stage>, ghost calm: bool)
    returns (ds': seq<Disposition>, blocked': set<string>, works': seq<Work>, ghost claims': seq<Option<Claim>>,
             ghost made': seq<Option<Claim>>, ghost pending': set<nat>, ghost stages': seq<Stage>)
    requires IsUnderway(rows, received, ds, claims, made, since) && deployed.batches && IsOf(s, engine, deployed, received)
    requires n < |candidates| && Ascend(candidates) && AreCandidates(Snapshots(rows), received, candidates, n)
    requires Settling(deployed, received, ds, claims, made, blocked, pending) && Undecided(pending, candidates[n..], |received|, |received|)
    requires Enveloped(rows, Snapshots(rows), received, claims, works)
    requires calm ==> IsCalmClaiming(s, rows, ds, claims, blocked, candidates, n, works, stages)
    modifies rows
    ensures IsUnderway(rows, received, ds', claims', made', since) && AreCandidates(Snapshots(rows), received, candidates, n + 1)
    ensures Settling(deployed, received, ds', claims', made', blocked', pending')
    ensures Undecided(pending', candidates[n + 1..], |received|, |received|) && Enveloped(rows, Snapshots(rows), received, claims', works')
    ensures calm ==> IsCalmClaiming(s, rows, ds', claims', blocked', candidates, n + 1, works', stages')
  {
    ghost var worlds := Worlds(rows);
    var c := candidates[n];
    NextIsUndecided(deployed, received, ds, claims, made, blocked, pending, candidates, n);
    if calm {
      NextIsStored(s, rows, ds, claims, blocked, candidates, n, works, stages);
    }
    var group := received[c.index].message.Group(deployed.consumer);
    var d, work;
    ghost var m;
    d, work, m :=
      ClaimStep(engine, deployed, rows, received, c, deployed.ordered && group in blocked, works, candidates, n, ds, claims, made, since);
    ghost var claimed := if work.Some? then Some(work.value.claim) else None;
    TakenSettles(deployed, received, ds, claims, made, blocked, pending, candidates, n, d, claimed, m);
    ds', claims', made', pending' := ds[c.index := d], claims[c.index := claimed], made[c.index := m], pending - {c.index};
    blocked' := if work.Some? || d.done then blocked else blocked + {group};
    works' := works + (if work.Some? then [work.value] else []);
    stages' := stages;
    if calm {
      stages' := CalmClaimed(s, rows, worlds, ds, claims, blocked, candidates, n, works, stages, d, work);
    }
  }

  /** The second pass: each candidate claimed unless its group was blocked since. */
  method ClaimEach(engine: Engine, deployed: Deployed, rows: seq<Row>, received: seq<Received>, candidates: seq<Candidate>,
                   ds0: seq<Disposition>, blocked0: set<string>, ghost none: seq<Option<Claim>>, ghost pending0: set<nat>,
                   ghost s: Delivery, ghost since: seq<Snapshot>, ghost stages0: seq<Stage>, ghost calm: bool)
    returns (ds: seq<Disposition>, works: seq<Work>, ghost claims: seq<Option<Claim>>, ghost made: seq<Option<Claim>>,
             ghost groups: set<string>, ghost stages: seq<Stage>)
    requires IsUnderway(rows, received, ds0, none, none, since) && deployed.batches && IsOf(s, engine, deployed, received)
    requires Settling(deployed, received, ds0, none, none, blocked0, pending0) && Enveloped(rows, Snapshots(rows), received, none, [])
    requires Ascend(candidates) && AreCandidates(Snapshots(rows), received, candidates, 0)
    requires Undecided(pending0, candidates[0..], |received|, |received|)
    requires calm ==> IsCalmClaiming(s, rows, ds0, none, blocked0, candidates, 0, [], stages0)
    modifies rows
    ensures IsUnderway(rows, received, ds, claims, made, since) && Enveloped(rows, Snapshots(rows), received, claims, works)
    ensures NoneIsClaimedDone(ds, claims) && |made| == |received| && KeepsOrder(deployed, received, ds, claims, made)
    ensures calm ==> IsCalmClaiming(s, rows, ds, claims, groups, candidates, |candidates|, works, stages)
  {
    ds, works, claims, made, stages := ds0, [], none, none, stages0;
    var blocked := blocked0;
    ghost var pending := pending0;
    for n := 0 to |candidates|
      invariant IsUnderway(rows, received, ds, claims, made, since) && AreCandidates(Snapshots(rows), received, candidates, n)
      invariant Settling(deployed, received, ds, claims, made, blocked, pending)
      invariant Undecided(pending, candidates[n..], |received|, |received|) && Enveloped(rows, Snapshots(rows), received, claims, works)
      invariant calm ==> IsCalmClaiming(s, rows, ds, claims, blocked, candidates, n, works, stages)
    {
      ds, blocked, works, claims, made, pending, stages :=
        ClaimTurn(engine, deployed, rows, received, candidates, n, ds, blocked, works, claims, made, pending, s, since, stages, calm);
    }
    groups := blocked;
  }

  // What becomes of the candidates when there is no slot for them.

  method RefuseNext(engine: Engine, rows: seq<Row>, received: seq<Received>, c: Candidate, hold: int) returns (d: Disposition)
    requires |rows| == |received| && IsCandidate(Snapshots(rows), received, c) && rows[c.index].Valid()
    modifies rows[c.index]
    ensures rows[c.index].Advanced() && rows[c.index].mine == old(rows[c.index].mine) && rows[c.index].minted == old(rows[c.index].minted)
    ensures rows[c.index].Made() == old(rows[c.index].Made())
    ensures d.done ==> DoneIsSound(received[c.index].message, None, rows[c.index].world)
    ensures old(AreQuiet(rows)) && old(rows[c.index].world).stored == Some(c.run) ==>
              && AreQuiet(rows) && Worlds(rows) == old(Worlds(rows))[c.index := rows[c.index].world]
              && engine.IsPassedOver(rows[c.index].world, c.run, received[c.index], hold, d)
  {
    if AreApart(rows) {
      ApartFrom(rows, c.index);
    }
    d := engine.RedeliverUnlessUndeliverable(rows[c.index], c.run, received[c.index], hold);
  }

  /** `RefuseNext`, with what it leaves standing for the other messages. */
  method RefuseBeside(engine: Engine, rows: seq<Row>, received: seq<Received>, c: Candidate, hold: int, ghost since: seq<Snapshot>)
    returns (d: Disposition)
    requires HaveAdvanced(rows, since) && AreIdle(rows) && |rows| == |received| && IsCandidate(Snapshots(rows), received, c)
    modifies rows[c.index]
    ensures HaveAdvanced(rows, since) && AreIdle(rows) && OnlyNth(rows, old(Snapshots(rows)), Snapshots(rows), c.index)
    ensures rows[c.index].Made() == old(rows[c.index].Made())
    ensures d.done ==> IsSound(Taken(rows[c.index]), received[c.index], None, since[c.index], AreApart(rows))
    ensures old(AreQuiet(rows)) && old(rows[c.index].world).stored == Some(c.run) ==>
              && AreQuiet(rows) && Worlds(rows) == old(Worlds(rows))[c.index := rows[c.index].world]
              && engine.IsPassedOver(rows[c.index].world, c.run, received[c.index], hold, d)
  {
    ghost var before := Snapshots(rows);
    AreLater(rows, since);
    d := RefuseNext(engine, rows, received, c, hold);
    forall i | 0 <= i < |rows| && rows[i] != rows[c.index] ensures Taken(rows[i]) == before[i] {
    }
    StillAdvanced(rows, before, since, c.index);
    forall r | r in rows ensures r.mine == {} {
    }
    assert Snapshots(rows)[c.index] == Taken(rows[c.index]);
    if d.done {
      SoundNow(rows[c.index], received[c.index], None, since[c.index]);
    }
  }

  /** `RefuseBeside`, with what it leaves sound. */
  method RefuseStep(engine: Engine, rows: seq<Row>, received: seq<Received>, candidates: seq<Candidate>, n: nat, hold: int,
                    ghost ds: seq<Disposition>, ghost none: seq<Option<Claim>>, ghost since: seq<Snapshot>)
    returns (d: Disposition)
    requires IsUnderway(rows, received, ds, none, none, since) && AreIdle(rows) && none == NoClaims(|received|)
    requires n < |candidates| && AreCandidates(Snapshots(rows), received, candidates, n)
    modifies rows
    ensures var c := candidates[n];
            && c.index < |received| && IsUnderway(rows, received, ds[c.index := d], none, none, since) && AreIdle(rows)
            && (old(AreQuiet(rows)) && old(rows[c.index].world).stored == Some(c.run) ==>
                  && AreQuiet(rows) && Worlds(rows) == old(Worlds(rows))[c.index := rows[c.index].world]
                  && engine.IsPassedOver(rows[c.index].world, c.run, received[c.index], hold, d))
    ensures AreCandidates(Snapshots(rows), received, candidates, n + 1)
  {
    ghost var before := Snapshots(rows);
    var c := candidates[n];
    assert IsCandidate(before, received, c);
    d := RefuseBeside(engine, rows, received, c, hold, since);
    assert none[c.index := None] == none && HasAdvanced(rows[c.index], since[c.index]);
    StillAccounted(rows, before, Snapshots(rows), received, ds, none, none, since, c.index, d, None, None);
    StillCandidates(rows, before, Snapshots(rows), received, candidates, n + 1, c.index);
  }

  /** `RefuseStep`, with what it comes to undisturbed. */
  method RefuseTurn(engine: Engine, rows: seq<Row>, received: seq<Received>, candidates: seq<Candidate>, n: nat, luck: Luck,
                    ds: seq<Disposition>, ghost none: seq<Option<Claim>>, ghost s: Delivery, ghost since: seq<Snapshot>,
                    ghost blocked: set<string>, ghost stages: seq<Stage>, ghost calm: bool)
    returns (ds': seq<Disposition>, ghost stages': seq<Stage>)
    requires IsUnderway(rows, received, ds, none, none, since) && AreIdle(rows) && none == NoClaims(|received|)
    requires IsOf(s, engine, s.deployed, received) && s.luck == luck && luck.slots != SlotsHeld
    requires n < |candidates| && Ascend(candidates) && AreCandidates(Snapshots(rows), received, candidates, n)
    requires calm ==> IsCalmClaiming(s, rows, ds, none, blocked, candidates, n, [], stages)
    modifies rows
    ensures IsUnderway(rows, received, ds', none, none, since) && AreIdle(rows)
    ensures AreCandidates(Snapshots(rows), received, candidates, n + 1)
    ensures calm ==> IsCalmClaiming(s, rows, ds', none, blocked, candidates, n + 1, [], stages')
  {
    ghost var worlds := Worlds(rows);
    var c := candidates[n];
    assert IsCandidate(Snapshots(rows), received, c);
    if calm {
      NextIsStored(s, rows, ds, none, blocked, candidates, n, [], stages);
    }
    var d := RefuseStep(engine, rows, received, candidates, n, SlotHold(received[c.index].receives, luck.jitter(c.index)), ds, none, since);
    ds', stages' := ds[c.index := d], stages;
    if calm {
      stages' := StageRefused(s, worlds, ds, blocked, candidates, n, stages, rows[c.index].world, d);
    }
  }

  /** When no slot is free, every candidate is redelivered, or failed if its queue is about to drop it. */
  method RefuseEach(engine: Engine, rows: seq<Row>, received: seq<Received>, candidates: seq<Candidate>, luck: Luck,
                    ds0: seq<Disposition>, ghost none: seq<Option<Claim>>, ghost s: Delivery, ghost since: seq<Snapshot>,
                    ghost blocked: set<string>, ghost stages0: seq<Stage>, ghost calm: bool)
    returns (ds: seq<Disposition>, ghost stages: seq<Stage>)
    requires IsUnderway(rows, received, ds0, none, none, since) && AreIdle(rows) && none == NoClaims(|received|)
    requires IsOf(s, engine, s.deployed, received) && s.luck == luck && luck.slots != SlotsHeld
    requires Ascend(candidates) && AreCandidates(Snapshots(rows), received, candidates, 0)
    requires calm ==> IsCalmClaiming(s, rows, ds0, none, blocked, candidates, 0, [], stages0)
    modifies rows
    ensures IsUnderway(rows, received, ds, none, none, since) && AreIdle(rows)
    ensures calm ==> IsCalmClaiming(s, rows, ds, none, blocked, candidates, |candidates|, [], stages)
  {
    ds, stages := ds0, stages0;
    for n := 0 to |candidates|
      invariant IsUnderway(rows, received, ds, none, none, since) && AreIdle(rows)
      invariant AreCandidates(Snapshots(rows), received, candidates, n)
      invariant calm ==> IsCalmClaiming(s, rows, ds, none, blocked, candidates, n, [], stages)
    {
      ds, stages := RefuseTurn(engine, rows, received, candidates, n, luck, ds, none, s, since, blocked, stages, calm);
    }
  }

  lemma NoneClaimedKeepsOrder(deployed: Deployed, received: seq<Received>, ds: seq<Disposition>)
    requires |ds| == |received|
    ensures KeepsOrder(deployed, received, ds, NoClaims(|received|), NoClaims(|received|))
  {
  }

  // The attempt of the envelope, and what each of its runs comes to.

  method AttemptEnvelope(engine: Engine, rows: seq<Row>, received: seq<Received>, works: seq<Work>, luck: Luck,
                         ghost ds: seq<Disposition>, ghost claims: seq<Option<Claim>>, ghost made: seq<Option<Claim>>, ghost since: seq<Snapshot>)
    returns (answer: Answer, latest: seq<Work>)
    requires IsUnderway(rows, received, ds, claims, made, since) && Enveloped(rows, Snapshots(rows), received, claims, works)
    requires NoneIsClaimedDone(ds, claims)
    modifies rows
    ensures IsUnderway(rows, received, ds, claims, made, since) && Enveloped(rows, Snapshots(rows), received, claims, latest)
    ensures StopIsSound(Snapshots(rows), latest, answer)
    ensures luck.beats == [] ==> latest == works && answer == AnswerTo(luck.reply, false) && Untouched(rows)
  {
    ghost var before, aside := Snapshots(rows), Aside(rows, ds);
    AttemptMayStart(rows, received, ds, claims, made, works, since);
    answer, latest := Attempt(engine, rows, works, luck.beats, luck.reply, before, aside);
    AttemptIsOver(rows, before, received, ds, claims, made, works, latest, since);
  }

  lemma AttemptMayStart(rows: seq<Row>, received: seq<Received>, ds: seq<Disposition>, claims: seq<Option<Claim>>,
                        made: seq<Option<Claim>>, works: seq<Work>, since: seq<Snapshot>)
    requires IsUnderway(rows, received, ds, claims, made, since) && Enveloped(rows, Snapshots(rows), received, claims, works)
    requires NoneIsClaimedDone(ds, claims)
    ensures HaveKept(rows, Snapshots(rows), Aside(rows, ds)) && AreAside(rows, works, Aside(rows, ds)) && Working(rows, works)
    ensures forall i :: 0 <= i < |rows| ==> IsLater(since[i], Snapshots(rows)[i])
  {
    AllAreValid(rows, since);
    KeptFromTheFirst(rows, Aside(rows, ds));
    EnvelopeIsWorked(rows, received, claims, works, since);
    WorksAreNotAside(rows, Snapshots(rows), received, claims, works, ds);
    forall i | 0 <= i < |rows| ensures IsLater(since[i], Snapshots(rows)[i]) {
      assert HasAdvanced(rows[i], since[i]);
    }
  }

  lemma AttemptIsOver(rows: seq<Row>, before: seq<Snapshot>, received: seq<Received>, ds: seq<Disposition>, claims: seq<Option<Claim>>,
                      made: seq<Option<Claim>>, works: seq<Work>, latest: seq<Work>, since: seq<Snapshot>)
    requires |rows| == |ds| && HaveKept(rows, before, Aside(rows, ds)) && Working(rows, latest) && AreSame(latest, works)
    requires AreAccounted(rows, before, claims, made, since) && AllSound(rows, before, received, ds, claims, since)
    requires NoneIsClaimedDone(ds, claims) && Enveloped(rows, before, received, claims, works)
    requires forall i :: 0 <= i < |rows| ==> IsLater(since[i], before[i])
    ensures IsUnderway(rows, received, ds, claims, made, since) && Enveloped(rows, Snapshots(rows), received, claims, latest)
  {
    EnvelopeIsRenewed(rows, received, claims, works, latest, before, Aside(rows, ds));
    AttemptKeepsAccounts(rows, before, received, ds, claims, made, since);
    AdvancedSince(rows, before, Aside(rows, ds), since);
  }

  lemma AdvancedSince(rows: seq<Row>, before: seq<Snapshot>, aside: set<Row>, since: seq<Snapshot>)
    requires HaveKept(rows, before, aside) && |since| == |rows| && forall i :: 0 <= i < |rows| ==> IsLater(since[i], before[i])
    ensures HaveAdvanced(rows, since)
  {
    forall i | 0 <= i < |rows| ensures HasAdvanced(rows[i], since[i]) {
      assert HasKept(rows[i], before[i], aside);
      LaterStill(since[i], before[i], Taken(rows[i]));
    }
  }

  method FinishNext(engine: Engine, deployed: Deployed, rows: seq<Row>, work: Work, answer: Answer, backoff: int) returns (d: Disposition)
    requires work.index < |rows| && rows[work.index].Valid() && WorkStands(Snapshots(rows), work)
    requires answer.outcome == CanceledOutcome ==> !Owned(rows[work.index].world, work.claim)
    modifies rows[work.index]
    ensures var row := rows[work.index];
            && row.Advanced() && row.mine == old(row.mine) - {work.claim} && row.minted == old(row.minted) && row.Made() == old(row.Made())
    ensures d.done ==> DoneIsSound(work.rcv.message, Some(work.claim), rows[work.index].world)
    ensures var at := work.index;
            old(AreQuiet(rows)) && old(rows[at].world).stored == Some(work.run) && answer.outcome != CanceledOutcome ==>
              && AreQuiet(rows) && Worlds(rows) == old(Worlds(rows))[at := rows[at].world] && rows[at].world.stored.Some?
              && IsAnswered(rows[at].world.stored.value, work.run, deployed, work.rcv, answer, backoff, d)
  {
    if AreApart(rows) {
      ApartFrom(rows, work.index);
    }
    var reported;
    d, reported := engine.Finish(rows[work.index], deployed, work.claim, work.run, work.rcv.message.payload, answer, backoff);
  }

  /** `FinishNext`, with what it leaves standing for the other messages. */
  method FinishBeside(engine: Engine, deployed: Deployed, rows: seq<Row>, work: Work, answer: Answer, backoff: int, ghost since: seq<Snapshot>)
    returns (d: Disposition)
    requires HaveAdvanced(rows, since) && WorkStands(Snapshots(rows), work) && StopIsSound(Snapshots(rows), [work], answer)
    modifies rows
    ensures HaveAdvanced(rows, since) && work.index < |rows| && OnlyNth(rows, old(Snapshots(rows)), Snapshots(rows), work.index)
    ensures rows[work.index].mine == old(rows[work.index].mine) - {work.claim} && rows[work.index].Made() == old(rows[work.index].Made())
    ensures d.done ==> IsSound(Taken(rows[work.index]), work.rcv, Some(work.claim), since[work.index], AreApart(rows))
    ensures var at := work.index;
            old(AreQuiet(rows)) && old(rows[at].world).stored == Some(work.run) && answer.outcome != CanceledOutcome ==>
              && AreQuiet(rows) && Worlds(rows) == old(Worlds(rows))[at := rows[at].world] && rows[at].world.stored.Some?
              && IsAnswered(rows[at].world.stored.value, work.run, deployed, work.rcv, answer, backoff, d)
  {
    ghost var before := Snapshots(rows);
    AreLater(rows, since);
    d := FinishNext(engine, deployed, rows, work, answer, backoff);
    forall i | 0 <= i < |rows| && rows[i] != rows[work.index] ensures Taken(rows[i]) == before[i] {
    }
    StillAdvanced(rows, before, since, work.index);
    assert Snapshots(rows)[work.index] == Taken(rows[work.index]);
    if d.done {
      SoundNow(rows[work.index], work.rcv, Some(work.claim), since[work.index]);
    }
  }

  ghost predicate IsCalmFinishing(s: Delivery, rows: seq<Row>, ds: seq<Disposition>, claims: seq<Option<Claim>>, blocked: set<string>,
                                  works: seq<Work>, stages: seq<Stage>)
    reads rows
  {
    IsCalm(s, rows, ds, claims, blocked, stages) && Tracks(stages, [], 0, works, |stages|)
  }

  /** `FinishBeside` for the first work of an envelope, with what it leaves sound and accounted for. */
  method FinishStep(engine: Engine, deployed: Deployed, rows: seq<Row>, received: seq<Received>, works: seq<Work>, answer: Answer, backoff: int,
                    ghost ds: seq<Disposition>, ghost claims: seq<Option<Claim>>, ghost made: seq<Option<Claim>>, ghost since: seq<Snapshot>)
    returns (d: Disposition)
    requires works != [] && IsUnderway(rows, received, ds, claims, made, since) && Enveloped(rows, Snapshots(rows), received, claims, works)
    requires StopIsSound(Snapshots(rows), works, answer)
    modifies rows
    ensures Enveloped(rows, Snapshots(rows), received, claims, works[1..]) && StopIsSound(Snapshots(rows), works[1..], answer)
    ensures works[0].index < |ds| && claims[works[0].index].Some?
    ensures IsUnderway(rows, received, ds[works[0].index := d], claims, made, since)
    ensures var at := works[0].index;
            old(AreQuiet(rows)) && old(rows[at].world).stored == Some(works[0].run) && answer.outcome != CanceledOutcome ==>
              && AreQuiet(rows) && Worlds(rows) == old(Worlds(rows))[at := rows[at].world] && rows[at].world.stored.Some?
              && IsAnswered(rows[at].world.stored.value, works[0].run, deployed, received[at], answer, backoff, d)
  {
    ghost var before := Snapshots(rows);
    assert WorkStands(before, works[0]) && IsIn(received, claims, works[0]);
    d := FinishBeside(engine, deployed, rows, works[0], answer, backoff, since);
    EnvelopeShrinks(rows, before, Snapshots(rows), received, claims, works);
    OutcomeKeepsAccounts(rows, before, Snapshots(rows), received, ds, claims, made, since, works[0].index, d);
  }

  /** `FinishStep`, with what it comes to undisturbed. */
  method FinishTurn(engine: Engine, deployed: Deployed, rows: seq<Row>, received: seq<Received>, works: seq<Work>,
                    answer: Answer, luck: Luck, ds: seq<Disposition>, ghost claims: seq<Option<Claim>>, ghost made: seq<Option<Claim>>,
                    ghost s: Delivery, ghost since: seq<Snapshot>, ghost blocked: set<string>, ghost stages: seq<Stage>, ghost calm: bool)
    returns (ds': seq<Disposition>, ghost stages': seq<Stage>)
    requires works != [] && IsUnderway(rows, received, ds, claims, made, since) && Enveloped(rows, Snapshots(rows), received, claims, works)
    requires StopIsSound(Snapshots(rows), works, answer) && deployed.batches && KeepsOrder(deployed, received, ds, claims, made)
    requires IsOf(s, engine, deployed, received) && s.luck == luck && luck.slots == SlotsHeld
    requires calm ==> IsCalmFinishing(s, rows, ds, claims, blocked, works, stages) && answer == AnswerTo(luck.reply, false)
    modifies rows
    ensures IsUnderway(rows, received, ds', claims, made, since) && Enveloped(rows, Snapshots(rows), received, claims, works[1..])
    ensures StopIsSound(Snapshots(rows), works[1..], answer) && KeepsOrder(deployed, received, ds', claims, made)
    ensures calm ==> IsCalmFinishing(s, rows, ds', claims, blocked, works[1..], stages')
  {
    ghost var worlds := Worlds(rows);
    WorksApart(rows, Snapshots(rows), received, claims, works);
    var at := works[0].index;
    if calm {
      assert IsStartedAt(stages, works[0]) && Stands(s, at, worlds[at], ds[at], claims[at], blocked, stages[at]);
    }
    var d := FinishStep(engine, deployed, rows, received, works, answer, luck.backoff(at), ds, claims, made, since);
    OutcomeKeepsOrder(deployed, received, ds, claims, made, at, d);
    ds', stages' := ds[at := d], stages;
    if calm {
      stages' := StageFinished(s, worlds, ds, claims, blocked, works, stages, rows[at].world, d);
    }
  }

  method FinishEach(engine: Engine, deployed: Deployed, rows: seq<Row>, received: seq<Received>, works: seq<Work>,
                    answer: Answer, luck: Luck, ds0: seq<Disposition>, ghost claims: seq<Option<Claim>>, ghost made: seq<Option<Claim>>,
                    ghost s: Delivery, ghost since: seq<Snapshot>, ghost blocked: set<string>, ghost stages0: seq<Stage>, ghost calm: bool)
    returns (ds: seq<Disposition>, ghost stages: seq<Stage>)
    requires IsUnderway(rows, received, ds0, claims, made, since) && Enveloped(rows, Snapshots(rows), received, claims, works)
    requires StopIsSound(Snapshots(rows), works, answer) && deployed.batches && KeepsOrder(deployed, received, ds0, claims, made)
    requires IsOf(s, engine, deployed, received) && s.luck == luck && luck.slots == SlotsHeld
    requires calm ==> IsCalmFinishing(s, rows, ds0, claims, blocked, works, stages0) && answer == AnswerTo(luck.reply, false)
    modifies rows
    ensures IsUnderway(rows, received, ds, claims, made, since) && AreIdle(rows) && KeepsOrder(deployed, received, ds, claims, made)
    ensures calm ==> IsCalmFinishing(s, rows, ds, claims, blocked, [], stages)
  {
    ds, stages := ds0, stages0;
    var left := works;
    while left != []
      invariant IsUnderway(rows, received, ds, claims, made, since) && Enveloped(rows, Snapshots(rows), received, claims, left)
      invariant KeepsOrder(deployed, received, ds, claims, made) && StopIsSound(Snapshots(rows), left, answer)
      invariant calm ==> IsCalmFinishing(s, rows, ds, claims, blocked, left, stages)
      decreases |left|
    {
      ds, stages := FinishTurn(engine, deployed, rows, received, left, answer, luck, ds, claims, made, s, since, blocked, stages, calm);
      left := left[1..];
    }
    NothingIsLeft(rows, received, claims);
  }

  lemma CalmEnds(s: Delivery, rows: seq<Row>, ds: seq<Disposition>, claims: seq<Option<Claim>>, blocked: set<string>,
                 candidates: seq<Candidate>, stages: seq<Stage>)
    requires IsCalmClaiming(s, rows, ds, claims, blocked, candidates, |candidates|, [], stages)
    ensures AreEnds(s, Worlds(rows), ds, claims)
  {
    forall i | 0 <= i < |stages| ensures !IsOpen(stages[i]) {
    }
    AllEnded(s, Worlds(rows), ds, claims, blocked, stages);
  }

  lemma SameWorlds(rows: seq<Row>, worlds: seq<World>)
    requires |worlds| == |rows| && forall i :: 0 <= i < |rows| ==> worlds[i] == rows[i].world
    ensures Worlds(rows) == worlds
  {
  }

  method AttemptAndFinish(engine: Engine, deployed: Deployed, rows: seq<Row>, received: seq<Received>, works: seq<Work>, luck: Luck,
                          ds0: seq<Disposition>, ghost claims: seq<Option<Claim>>, ghost made: seq<Option<Claim>>,
                          ghost s: Delivery, ghost since: seq<Snapshot>, ghost blocked: set<string>, ghost stages0: seq<Stage>, ghost calm: bool)
    returns (ds: seq<Disposition>, ghost stages: seq<Stage>)
    requires IsUnderway(rows, received, ds0, claims, made, since) && Enveloped(rows, Snapshots(rows), received, claims, works)
    requires NoneIsClaimedDone(ds0, claims) && deployed.batches && KeepsOrder(deployed, received, ds0, claims, made)
    requires IsOf(s, engine, deployed, received) && s.luck == luck && luck.slots == SlotsHeld
    requires calm ==> IsCalmFinishing(s, rows, ds0, claims, blocked, works, stages0) && luck.beats == []
    modifies rows
    ensures IsUnderway(rows, received, ds, claims, made, since) && AreIdle(rows) && KeepsOrder(deployed, received, ds, claims, made)
    ensures calm ==> IsCalmFinishing(s, rows, ds, claims, blocked, [], stages)
  {
    var answer, latest := AttemptEnvelope(engine, rows, received, works, luck, ds0, claims, made, since);
    if luck.beats == [] {
      SameWorlds(rows, old(Worlds(rows)));
    }
    ds, stages :=
      FinishEach(engine, deployed, rows, received, latest, answer, luck, ds0, claims, made, s, since, blocked, stages0, calm);
  }

  method WorkEnvelope(engine: Engine, deployed: Deployed, rows: seq<Row>, received: seq<Received>, works: seq<Work>, luck: Luck,
                      ds0: seq<Disposition>, ghost claims: seq<Option<Claim>>, ghost made: seq<Option<Claim>>,
                      ghost s: Delivery, ghost since: seq<Snapshot>, ghost blocked: set<string>, ghost stages0: seq<Stage>, ghost calm: bool)
    returns (ds: seq<Disposition>)
    requires IsUnderway(rows, received, ds0, claims, made, since) && Enveloped(rows, Snapshots(rows), received, claims, works)
    requires NoneIsClaimedDone(ds0, claims) && deployed.batches && KeepsOrder(deployed, received, ds0, claims, made)
    requires IsOf(s, engine, deployed, received) && s.luck == luck && luck.slots == SlotsHeld
    requires calm ==> IsCalmFinishing(s, rows, ds0, claims, blocked, works, stages0) && luck.beats == []
    modifies rows
    ensures IsUnderway(rows, received, ds, claims, made, since) && AreIdle(rows) && KeepsOrder(deployed, received, ds, claims, made)
    ensures calm ==> AreEnds(s, Worlds(rows), ds, claims)
  {
    ghost var stages := stages0;
    ds := ds0;
    if works == [] {
      NothingIsLeft(rows, received, claims);
    } else {
      ds, stages := AttemptAndFinish(engine, deployed, rows, received, works, luck, ds0, claims, made, s, since, blocked, stages0, calm);
    }
    if calm {
      CalmEnds(s, rows, ds, claims, blocked, [], stages);
    }
  }

  lemma AllAreClaimed(s: Delivery, rows: seq<Row>, ds: seq<Disposition>, claims: seq<Option<Claim>>, blocked: set<string>,
                      candidates: seq<Candidate>, works: seq<Work>, stages: seq<Stage>)
    requires IsCalmClaiming(s, rows, ds, claims, blocked, candidates, |candidates|, works, stages)
    ensures IsCalmFinishing(s, rows, ds, claims, blocked, works, stages)
  {
  }

  lemma ClaimingMayStart(rows: seq<Row>, received: seq<Received>, none: seq<Option<Claim>>, pending: set<nat>, candidates: seq<Candidate>)
    requires AreIdle(rows) && |none| == |received| == |rows| && Undecided(pending, candidates, |received|, |received|)
    requires Candidates(Snapshots(rows), received, candidates, |received|)
    ensures Enveloped(rows, Snapshots(rows), received, none, []) && Undecided(pending, candidates[0..], |received|, |received|)
    ensures Ascend(candidates) && AreCandidates(Snapshots(rows), received, candidates, 0)
  {
    assert candidates[0..] == candidates;
    NothingEnveloped(rows, received, none);
  }

  /** The second pass, the attempt and its outcomes. */
  method DeliverSlotted(engine: Engine, deployed: Deployed, rows: seq<Row>, received: seq<Received>, candidates: seq<Candidate>,
                         luck: Luck, ds0: seq<Disposition>, blocked: set<string>, ghost none: seq<Option<Claim>>, ghost pending: set<nat>,
                         ghost s: Delivery, ghost since: seq<Snapshot>, ghost stages0: seq<Stage>, ghost calm: bool)
    returns (ds: seq<Disposition>, ghost claims: seq<Option<Claim>>, ghost made: seq<Option<Claim>>)
    requires IsUnderway(rows, received, ds0, none, none, since) && AreIdle(rows) && none == NoClaims(|received|)
    requires deployed.batches && IsOf(s, engine, deployed, received) && s.luck == luck
    requires Settling(deployed, received, ds0, none, none, blocked, pending)
    requires Undecided(pending, candidates, |received|, |received|) && Candidates(Snapshots(rows), received, candidates, |received|)
    requires calm ==> IsCalmClaiming(s, rows, ds0, none, blocked, candidates, 0, [], stages0) && luck.beats == []
    requires luck.slots == SlotsHeld
    modifies rows
    ensures IsUnderway(rows, received, ds, claims, made, since) && AreIdle(rows) && |made| == |received| == |claims|
    ensures KeepsOrder(deployed, received, ds, claims, made)
    ensures calm ==> AreEnds(s, Worlds(rows), ds, claims)
  {
    var works;
    ghost var groups, stages;
    ClaimingMayStart(rows, received, none, pending, candidates);
    ds, works, claims, made, groups, stages :=
      ClaimEach(engine, deployed, rows, received, candidates, ds0, blocked, none, pending, s, since, stages0, calm);
    if calm {
      AllAreClaimed(s, rows, ds, claims, groups, candidates, works, stages);
    }
    ds := WorkEnvelope(engine, deployed, rows, received, works, luck, ds, claims, made, s, since, groups, stages, calm);
  }

  /** Everything past the first pass: the slots, then what the candidates come to with or without them. */
  method DeliverAdmitted(engine: Engine, deployed: Deployed, rows: seq<Row>, received: seq<Received>, candidates: seq<Candidate>,
                         luck: Luck, ds0: seq<Disposition>, blocked: set<string>, ghost none: seq<Option<Claim>>, ghost pending: set<nat>,
                         ghost s: Delivery, ghost since: seq<Snapshot>, ghost stages0: seq<Stage>, ghost calm: bool)
    returns (ds: seq<Disposition>, ghost claims: seq<Option<Claim>>, ghost made: seq<Option<Claim>>)
    requires IsUnderway(rows, received, ds0, none, none, since) && AreIdle(rows) && none == NoClaims(|received|)
    requires deployed.batches && IsOf(s, engine, deployed, received) && s.luck == luck
    requires Settling(deployed, received, ds0, none, none, blocked, pending)
    requires Undecided(pending, candidates, |received|, |received|) && Candidates(Snapshots(rows), received, candidates, |received|)
    requires calm ==> IsCalmClaiming(s, rows, ds0, none, blocked, candidates, 0, [], stages0) && luck.beats == []
    modifies rows
    ensures IsUnderway(rows, received, ds, claims, made, since) && AreIdle(rows) && |made| == |received| == |claims|
    ensures KeepsOrder(deployed, received, ds, claims, made)
    ensures calm ==> AreEnds(s, Worlds(rows), ds, claims)
  {
    if luck.slots == SlotsHeld {
      ds, claims, made := DeliverSlotted(engine, deployed, rows, received, candidates, luck, ds0, blocked, none, pending, s, since, stages0, calm);
      return;
    }
    ghost var stages;
    ds, stages := RefuseEach(engine, rows, received, candidates, luck, ds0, none, s, since, blocked, stages0, calm);
    claims, made := none, none;
    NoneClaimedKeepsOrder(deployed, received, ds);
    if calm {
      CalmEnds(s, rows, ds, claims, blocked, candidates, stages);
    }
  }

  /** A slice delivered as one batch: all admitted, then all claimed, attempted together and finished one by one.
      Undisturbed, each message ends as it should: judged if it may not start, attempted if it may, and held back only by
      one of its group that may not. */
  method DeliverBatch(engine: Engine, deployed: Deployed, rows: seq<Row>, received: seq<Received>, luck: Luck)
    returns (ds: seq<Disposition>, ghost claims: seq<Option<Claim>>, ghost made: seq<Option<Claim>>, ghost since: seq<Snapshot>)
    requires (forall r :: r in rows ==> r.Valid()) && AreIdle(rows) && |rows| == |received| && deployed.batches
    requires forall i :: 0 <= i < |received| ==> WellAddressed(received[i].message)
    modifies rows
    ensures IsUnderway(rows, received, ds, claims, made, since) && AreIdle(rows)
    ensures TakeTurns(rows, old(Snapshots(rows)), since, |received|)
    ensures KeepsOrder(deployed, received, ds, claims, made)
    ensures old(AreQuiet(rows)) && luck.beats == [] ==>
              AreEnds(Delivery(engine, deployed, luck, received, old(Worlds(rows))), Worlds(rows), ds, claims)
  {
    ghost var s, base := Delivery(engine, deployed, luck, received, Worlds(rows)), Snapshots(rows);
    ghost var calm, none := AreQuiet(rows) && luck.beats == [], NoClaims(|received|);
    NoneIsDone(rows, received);
    NoneIsSettled(deployed, rows, received);
    if calm {
      NoneIsReached(s, rows);
    }
    var blocked, candidates;
    ghost var pending, stages;
    ds, blocked, candidates, pending, since, stages :=
      AdmitEach(engine, deployed, rows, received, Retained(|received|), {}, none, Below(|received|), s, base,
                seq(|rows|, _ => Unreached), calm);
    claims, made := none, none;
    assert calm ==> IsCalmClaiming(s, rows, ds, claims, blocked, candidates, 0, [], stages);
    if candidates != [] {
      ds, claims, made :=
        DeliverAdmitted(engine, deployed, rows, received, candidates, luck, ds, blocked, none, pending, s, since, stages, calm);
    } else if calm {
      CalmEnds(s, rows, ds, claims, blocked, candidates, stages);
    }
  }

  /** Delivers a received slice. Whatever else happens to the runs meanwhile, every Done is sound, every claim the engine made
      is accounted for by one message, and on an ordered topic no message is claimed before those of its group that came
      before it. */
  method Deliver(engine: Engine, deployed: Deployed, served: bool, rows: seq<Row>, received: seq<Received>,
                 lucks: seq<Luck>, batchLuck: Luck)
    returns (ds: seq<Disposition>, ghost claims: seq<Option<Claim>>, ghost made: seq<Option<Claim>>, ghost since: seq<Snapshot>)
    requires Ready(rows, received, lucks) && AreIdle(rows)
    modifies rows
    ensures IsUnderway(rows, received, ds, claims, made, since) && AreIdle(rows)
    ensures TakeTurns(rows, old(Snapshots(rows)), since, |received|)
    ensures !deployed.batches ==> SeeClaims(rows, Snapshots(rows), since, made, |received|)
    ensures KeepsOrder(deployed, received, ds, claims, made)
    ensures !served ==> ds == Retained(|ds|) && made == NoClaims(|ds|) && Snapshots(rows) == old(Snapshots(rows))
    ensures served && deployed.batches && old(AreQuiet(rows)) && batchLuck.beats == [] ==>
              AreEnds(Delivery(engine, deployed, batchLuck, received, old(Worlds(rows))), Worlds(rows), ds, claims)
    ensures served && !deployed.batches && old(AreQuiet(rows)) && NoBeats(lucks) ==>
              AreTurns(engine, deployed, lucks, received, old(Worlds(rows)), Worlds(rows), ds, claims, |received|)
  {
    assert forall r :: r in rows ==> r.Valid();
    if !served {
      NoneIsDone(rows, received);
      ds, claims, made, since := Retained(|received|), NoClaims(|received|), NoClaims(|received|), Snapshots(rows);
    } else if deployed.batches {
      ds, claims, made, since := DeliverBatch(engine, deployed, rows, received, batchLuck);
    } else {
      ds, claims, made, since := DeliverEach(engine, deployed, rows, received, lucks);
    }
  }
}
