/** `pkg/runs/deliver.go`, from a claim to its outcome: the posted attempt, the watchers beside it, and the
    dispositions its messages end with. */
module RunAttempt {
  import opened Wrappers
  import opened RunState
  import opened RunSystem
  import opened RunSafety
  import opened RunRow
  import opened RunEngine

  /** What the watchers of an attempt do while its worker is asked: renew every lease, or look for a cancel. */
  datatype Beat = LeaseBeat | CancelPoll

  /** How the post to the worker ends: with an answer of the worker's, or cut off. */
  datatype Reply =
    | Answered(kind: ReplyKind, text: string)
    | Cut(timedOut: bool, shuttingDown: bool, reason: string)

  datatype ReplyKind = Ok | Abort | Failure | Unusable

  function AnswerTo(reply: Reply, canceled: bool): (answer: Answer)
    ensures answer.outcome == CanceledOutcome <==> canceled && reply.Cut? && !reply.timedOut
  {
    match reply
    case Answered(Ok, text) => Answer(Succeeded, text, "")
    case Answered(Abort, text) => Answer(Aborted, "", text)
    case Answered(Failure, text) => Answer(FailedOutcome, "", text)
    case Answered(Unusable, text) => Answer(Refused, "", text)
    case Cut(timedOut, shuttingDown, reason) =>
      if timedOut then Answer(TimedOutOutcome, "", reason)
      else if canceled then Answer(CanceledOutcome, "", "")
      else if shuttingDown then Answer(Interrupted, "", "")
      else Answer(FailedOutcome, "", reason)
  }

  /** If the claim is answered, it is by what its worker replied. */
  ghost predicate IsReplyOf(w: World, c: Claim, reply: Reply, task: bool, payload: string) {
    exists canceled, retried :: IsAnsweredBy(w, c, AnswerTo(reply, canceled), task, retried, payload)
  }

  /** A claimed run, its message, and the place of that message among those received. */
  datatype Work = Work(index: nat, rcv: Received, claim: Claim, run: Run)

  /** The work, with a version no older. */
  predicate SameWork(a: Work, b: Work) {
    a.index == b.index && a.rcv == b.rcv && a.claim == b.claim && a.run.revision >= b.run.revision
  }

  /** The engine still holds every claim it works, and knows a version stored under its fence. */
  ghost predicate Working(rows: seq<Row>, works: seq<Work>)
    reads rows
  {
    forall i :: 0 <= i < |works| ==> IsWorked(rows, works[i])
  }

  ghost predicate IsWorked(rows: seq<Row>, work: Work)
    reads rows
  {
    && work.index < |rows|
    && var row := rows[work.index];
    && row.Valid() && work.claim in row.mine && Known(row.world, work.run)
    && Owns(work.run, work.claim.delivery, work.claim.attempts)
    && work.claim.delivery == work.rcv.message.delivery
  }

  twostate predicate AllAdvanced(rows: seq<Row>)
    reads rows
  {
    forall r :: r in rows ==> r.Advanced() && r.minted == old(r.minted)
  }

  // What the steps of a delivery keep is said of the state it began in.

  /** `turn` is how long the history was when its message was turned to. */
  datatype Snapshot = Snapshot(me: nat, world: World, trace: seq<World>, minted: set<Id>, mine: set<Claim>, made: set<Claim>, alone: bool,
                               unfailing: bool, readings: seq<int>, pauses: nat, turn: nat)

  ghost function Taken(row: Row): Snapshot
    reads row
  {
    Snapshot(row.me, row.world, row.trace, row.minted, row.mine, row.Made(), row.rivals == [], row.faults == [], row.readings, row.pauses, |row.trace|)
  }

  ghost function Snapshots(rows: seq<Row>): (taken: seq<Snapshot>)
    reads rows
    ensures |taken| == |rows| && forall i :: 0 <= i < |rows| ==> taken[i] == Taken(rows[i])
  {
    seq(|rows|, i requires 0 <= i < |rows| reads rows => Taken(rows[i]))
  }

  /** An entry has only advanced since. */
  ghost predicate HasAdvanced(row: Row, since: Snapshot)
    reads row
  {
    row.Valid() && IsLater(since, Taken(row))
  }

  ghost predicate IsLater(since: Snapshot, now: Snapshot) {
    && now.me == since.me && now.minted == since.minted && since.made <= now.made && since.turn <= |now.trace|
    && since.trace <= now.trace && since.world.written <= now.world.written && since.world.used <= now.world.used && ClaimsStand(since.world, now.world)
    && since.readings <= now.readings && since.pauses <= now.pauses && (since.unfailing ==> now.unfailing)
    && (since.alone ==> now.alone && NobodyElseClaimed(since.world, now.world, since.me))
  }

  lemma LaterStill(a: Snapshot, b: Snapshot, c: Snapshot)
    requires IsLater(a, b) && IsLater(b, c)
    ensures IsLater(a, c)
  {
  }

  ghost predicate HaveAdvanced(rows: seq<Row>, since: seq<Snapshot>)
    reads rows
  {
    |since| == |rows| && forall i :: 0 <= i < |rows| ==> HasAdvanced(rows[i], since[i])
  }

  /** It has, with no claim made or settled; and nothing has happened to the entries put aside. */
  ghost predicate HaveKept(rows: seq<Row>, since: seq<Snapshot>, aside: set<Row>)
    reads rows
  {
    |since| == |rows| && forall i {:trigger HasKept(rows[i], since[i], aside)} :: 0 <= i < |rows| ==> HasKept(rows[i], since[i], aside)
  }

  ghost predicate HasKept(row: Row, since: Snapshot, aside: set<Row>)
    reads row
  {
    row.Valid() && IsKept(since, Taken(row), row in aside)
  }

  ghost predicate IsKept(since: Snapshot, now: Snapshot, aside: bool) {
    IsLater(since, now) && now.mine == since.mine && now.made == since.made && (aside ==> now.world == since.world)
  }

  lemma KeptFromTheFirst(rows: seq<Row>, aside: set<Row>)
    requires forall r :: r in rows ==> r.Valid()
    ensures HaveKept(rows, Snapshots(rows), aside) && HaveAdvanced(rows, Snapshots(rows))
  {
    forall i | 0 <= i < |rows|
      ensures HasKept(rows[i], Snapshots(rows)[i], aside) && HasAdvanced(rows[i], Snapshots(rows)[i])
    {
      assert rows[i] in rows;
    }
  }

  lemma AllAreValid(rows: seq<Row>, since: seq<Snapshot>)
    requires HaveAdvanced(rows, since)
    ensures forall r :: r in rows ==> r.Valid()
  {
    forall r | r in rows ensures r.Valid() {
      var i :| 0 <= i < |rows| && rows[i] == r;
      assert HasAdvanced(rows[i], since[i]);
    }
  }

  /** No work is on any of these entries. */
  ghost predicate AreAside(rows: seq<Row>, works: seq<Work>, aside: set<Row>) {
    forall k :: 0 <= k < |works| && works[k].index < |rows| ==> rows[works[k].index] !in aside
  }

  twostate predicate Untouched(rows: seq<Row>)
    reads rows
  {
    forall r :: r in rows ==> r.world == old(r.world) && r.rivals == old(r.rivals) && r.faults == old(r.faults)
  }

  /** The only claim being worked is lost. */
  ghost predicate IsLost(rows: seq<Row>, works: seq<Work>)
    reads rows
  {
    |works| == 1 && works[0].index < |rows| && !Owned(rows[works[0].index].world, works[0].claim)
  }

  // What the watchers of an attempt see to while no access fails.

  ghost predicate AreUnfailing(base: seq<Snapshot>) { forall i :: 0 <= i < |base| ==> base[i].unfailing }

  /** The claim was lost by then. */
  ghost predicate WasLost(base: seq<Snapshot>, work: Work) {
    work.index < |base| && !Owned(base[work.index].world, work.claim)
  }

  /** Its lease runs from a time read since, or else the tries to renew it were spent. */
  ghost predicate IsRenewed(lease: int, now: Snapshot, base: Snapshot, after: Work, before: Work) {
    || (exists k {:trigger now.readings[k]} :: |base.readings| <= k < |now.readings| && now.readings[k] == after.run.leaseUntil - lease)
    || IsTriedOut(after.run.revision - before.run.revision, now.pauses - base.pauses)
  }

  ghost predicate IsRenewedOrLost(lease: int, now: seq<Snapshot>, base: seq<Snapshot>, after: Work, before: Work) {
    && before.index < |now| == |base|
    && (WasLost(now, before) || IsRenewed(lease, now[before.index], base[before.index], after, before))
  }

  ghost predicate AreRenewed(lease: int, now: seq<Snapshot>, base: seq<Snapshot>, after: seq<Work>, before: seq<Work>, n: nat)
    requires n <= |after| == |before|
  {
    forall i {:trigger IsRenewedOrLost(lease, now, base, after[i], before[i])} :: 0 <= i < n ==> IsRenewedOrLost(lease, now, base, after[i], before[i])
  }

  ghost predicate AreLaterThan(now: seq<Snapshot>, past: seq<Snapshot>) {
    |now| == |past| && forall i :: 0 <= i < |now| ==> IsLater(past[i], now[i])
  }

  /** What was renewed, or lost, still is. */
  lemma StillRenewed(lease: int, past: seq<Snapshot>, now: seq<Snapshot>, base: seq<Snapshot>, after: Work, before: Work)
    requires AreLaterThan(now, past) && IsRenewedOrLost(lease, past, base, after, before)
    requires before.claim in past[before.index].world.claims
    ensures IsRenewedOrLost(lease, now, base, after, before)
  {
    assert IsLater(past[before.index], now[before.index]);
    if k :| |base[before.index].readings| <= k < |past[before.index].readings|
            && past[before.index].readings[k] == after.run.leaseUntil - lease {
      assert now[before.index].readings[k] == after.run.leaseUntil - lease;
    }
  }

  /** The lease of one claim, in the entry of its run. */
  method RenewRow(engine: Engine, row: Row, work: Work) returns (owned: bool, renewed: Work)
    requires row.Valid() && work.claim in row.mine && Known(row.world, work.run)
    requires Owns(work.run, work.claim.delivery, work.claim.attempts)
    modifies row
    ensures row.Advanced() && row.mine == old(row.mine) && row.minted == old(row.minted) && row.Made() == old(row.Made())
    ensures renewed == work.(run := renewed.run) && Known(row.world, renewed.run) && SameWork(renewed, work)
    ensures Owns(renewed.run, work.claim.delivery, work.claim.attempts)
    ensures !owned ==> !Owned(row.world, work.claim)
    ensures IsLater(old(Taken(row)), Taken(row))
    ensures old(row.faults) == [] && !Owned(old(row.world), work.claim) ==> !owned
    ensures old(row.faults) == [] && owned ==> IsRenewed(engine.lease, Taken(row), old(Taken(row)), renewed, work)
  {
    var run;
    owned, run := engine.RenewLease(row, work.claim, work.run);
    renewed := work.(run := run);
    ghost var now := Taken(row);
    if row.HasJustRead(run.leaseUntil - engine.lease) {
      assert now.readings[|now.readings| - 1] == renewed.run.leaseUntil - engine.lease;
    }
  }

  lemma LaterThanItself(past: Snapshot)
    requires past.turn <= |past.trace|
    ensures IsLater(past, past)
  {
  }

  method RenewOne(engine: Engine, rows: seq<Row>, works: seq<Work>, n: nat, ghost since: seq<Snapshot>, ghost aside: set<Row>, ghost gone: bool)
    returns (owned: bool, renewed: seq<Work>)
    requires HaveKept(rows, since, aside) && AreAside(rows, works, aside) && Working(rows, works) && n < |works|
    requires gone ==> IsLost(rows, works)
    requires works[n].index < |rows|
    modifies rows[works[n].index]
    ensures HaveKept(rows, since, aside)
    ensures |renewed| == |works| && SameWork(renewed[n], works[n]) && renewed == works[n := renewed[n]]
    ensures Working(rows, renewed)
    ensures !owned ==> !Owned(rows[works[n].index].world, works[n].claim)
    ensures gone ==> IsLost(rows, renewed)
    ensures IsSeenTo(engine.lease, Taken(rows[works[n].index]), old(Taken(rows[works[n].index])), renewed[n], works[n], owned)
  {
    var work := works[n];
    assert IsWorked(rows, work);
    owned, work := RenewRow(engine, rows[work.index], work);
    forall i | 0 <= i < |works| ensures IsWorked(rows, works[i]) {
      assert old(IsWorked(rows, works[i]));
      assert rows[works[i].index] in rows;
    }
    forall i | 0 <= i < |rows| ensures HasKept(rows[i], since[i], aside) {
      assert old(HasKept(rows[i], since[i], aside)) && rows[i] in rows;
      LaterStill(since[i], old(Taken(rows[i])), Taken(rows[i]));
    }
    renewed := works[n := work];
    assert IsWorked(rows, renewed[n]);
  }

  /** Of one claim: a lost one is noticed, and any other renewed. */
  ghost predicate IsSeenTo(lease: int, now: Snapshot, base: Snapshot, after: Work, before: Work, owned: bool) {
    && IsLater(base, now)
    && (base.unfailing ==> if owned then Owned(base.world, before.claim) && IsRenewed(lease, now, base, after, before) else !Owned(now.world, before.claim))
  }

  lemma OneRowLater(rows: seq<Row>, base: seq<Snapshot>, row: Row)
    requires |base| == |rows|
    requires forall i :: 0 <= i < |rows| ==> if rows[i] == row then IsLater(base[i], Taken(row)) else Taken(rows[i]) == base[i]
    ensures AreLaterThan(Snapshots(rows), base)
  {
    forall i | 0 <= i < |rows| ensures IsLater(base[i], Snapshots(rows)[i]) {
      if rows[i] != row {
        LaterThanItself(base[i]);
      }
    }
  }

  /** `RenewOne`, with what it leaves standing of the other entries. */
  method RenewBeside(engine: Engine, rows: seq<Row>, works: seq<Work>, n: nat, ghost since: seq<Snapshot>, ghost aside: set<Row>, ghost gone: bool,
                     ghost base: seq<Snapshot>)
    returns (owned: bool, renewed: seq<Work>)
    requires HaveKept(rows, since, aside) && AreAside(rows, works, aside) && Working(rows, works) && n < |works|
    requires gone ==> IsLost(rows, works)
    requires base == Snapshots(rows)
    modifies rows
    ensures HaveKept(rows, since, aside) && Working(rows, renewed)
    ensures |renewed| == |works| && SameWork(renewed[n], works[n]) && renewed == works[n := renewed[n]]
    ensures !owned ==> !Owned(rows[works[n].index].world, works[n].claim)
    ensures gone ==> IsLost(rows, renewed)
    ensures AreLaterThan(Snapshots(rows), base) && works[n].index < |rows|
    ensures IsSeenTo(engine.lease, Snapshots(rows)[works[n].index], base[works[n].index], renewed[n], works[n], owned)
  {
    assert IsWorked(rows, works[n]);
    ghost var row := rows[works[n].index];
    owned, renewed := RenewOne(engine, rows, works, n, since, aside, gone);
    forall i | 0 <= i < |rows| && rows[i] != row ensures Taken(rows[i]) == base[i] {
    }
    OneRowLater(rows, base, row);
  }

  predicate AreSame(latest: seq<Work>, works: seq<Work>) {
    |latest| == |works| && forall i :: 0 <= i < |works| ==> SameWork(latest[i], works[i])
  }

  lemma SameLoss(rows: seq<Row>, latest: seq<Work>, works: seq<Work>, aside: set<Row>)
    requires AreSame(latest, works)
    ensures IsLost(rows, latest) <==> IsLost(rows, works)
    ensures AreAside(rows, works, aside) ==> AreAside(rows, latest, aside)
  {
  }

  lemma LostStill(past: seq<Snapshot>, now: seq<Snapshot>, work: Work)
    requires AreLaterThan(now, past) && WasLost(past, work) && work.claim in past[work.index].world.claims
    ensures WasLost(now, work)
  {
    assert IsLater(past[work.index], now[work.index]);
  }

  /** The first n were renewed, or are lost; that one was lost at the beginning was noticed. */
  ghost predicate AreSeenTo(lease: int, now: seq<Snapshot>, base: seq<Snapshot>, after: seq<Work>, before: seq<Work>, n: nat, lost: bool)
    requires n <= |after| == |before|
  {
    AreUnfailing(base) ==>
      && AreRenewed(lease, now, base, after, before, n)
      && forall i {:trigger WasLost(base, before[i])} :: 0 <= i < n && WasLost(base, before[i]) ==> lost
  }

  lemma OneMoreSeenTo(lease: int, past: seq<Snapshot>, now: seq<Snapshot>, base: seq<Snapshot>, latest: seq<Work>,
                      renewed: seq<Work>, works: seq<Work>, n: nat, lost: bool, owned: bool)
    requires n < |works| == |latest| == |renewed| && AreSame(latest, works) && latest[n] == works[n] && renewed == latest[n := renewed[n]]
    requires AreLaterThan(past, base) && AreLaterThan(now, past) && AreSeenTo(lease, past, base, latest, works, n, lost)
    requires HasClaims(base, works)
    requires IsSeenTo(lease, now[works[n].index], past[works[n].index], renewed[n], latest[n], owned)
    ensures AreSeenTo(lease, now, base, renewed, works, n + 1, lost || !owned) && AreLaterThan(now, base)
  {
    AllLaterStill(base, past, now);
    forall i | 0 <= i < |works| ensures works[i].claim in past[works[i].index].world.claims {
      assert IsLater(base[works[i].index], past[works[i].index]);
    }
    if AreUnfailing(base) {
      forall i | 0 <= i < |past| ensures past[i].unfailing {
        assert IsLater(base[i], past[i]);
      }
      forall i | 0 <= i < n + 1 ensures IsRenewedOrLost(lease, now, base, renewed[i], works[i]) {
        assert IsLater(base[works[i].index], past[works[i].index]);
        if i < n {
          assert IsRenewedOrLost(lease, past, base, latest[i], works[i]);
          StillRenewed(lease, past, now, base, renewed[i], works[i]);
        }
      }
      if WasLost(base, works[n]) {
        LostStill(base, past, works[n]);
      }
    }
  }

  /** The works from the n-th on are not renewed yet. */
  predicate AreAsClaimed(latest: seq<Work>, works: seq<Work>, n: nat)
    requires |latest| == |works|
  {
    forall i :: n <= i < |works| ==> latest[i] == works[i]
  }

  /** `RenewOne`, with what is true of every claim renewed so far. */
  method RenewNext(engine: Engine, rows: seq<Row>, works: seq<Work>, latest: seq<Work>, n: nat, ghost since: seq<Snapshot>, ghost aside: set<Row>,
                   before: bool, ghost gone: bool, ghost base: seq<Snapshot>)
    returns (lost: bool, renewed: seq<Work>)
    requires HaveKept(rows, since, aside) && AreAside(rows, works, aside) && n < |works|
    requires Working(rows, latest) && AreSame(latest, works) && AreAsClaimed(latest, works, n)
    requires before ==> n > 0
    requires (before && |works| == 1) || gone ==> IsLost(rows, latest)
    requires AreLaterThan(Snapshots(rows), base) && AreSeenTo(engine.lease, Snapshots(rows), base, latest, works, n, before)
    requires HasClaims(base, works)
    modifies rows
    ensures HaveKept(rows, since, aside) && Working(rows, renewed) && AreSame(renewed, works) && AreAsClaimed(renewed, works, n + 1)
    ensures (lost && |works| == 1) || gone ==> IsLost(rows, renewed)
    ensures AreLaterThan(Snapshots(rows), base) && AreSeenTo(engine.lease, Snapshots(rows), base, renewed, works, n + 1, lost)
  {
    SameLoss(rows, latest, works, aside);
    ghost var past := Snapshots(rows);
    var owned;
    owned, renewed := RenewBeside(engine, rows, latest, n, since, aside, gone, past);
    lost := before || !owned;
    OneMoreSeenTo(engine.lease, past, Snapshots(rows), base, latest, renewed, works, n, before, owned);
  }

  ghost predicate HasClaims(base: seq<Snapshot>, works: seq<Work>) {
    forall i :: 0 <= i < |works| ==> works[i].index < |base| && works[i].claim in base[works[i].index].world.claims
  }

  lemma WorkedClaims(rows: seq<Row>, latest: seq<Work>, works: seq<Work>)
    requires Working(rows, latest) && AreSame(latest, works)
    ensures HasClaims(Snapshots(rows), works)
  {
    forall i | 0 <= i < |works| ensures works[i].index < |rows| && works[i].claim in rows[works[i].index].world.claims {
      assert IsWorked(rows, latest[i]) && SameWork(latest[i], works[i]);
    }
  }

  lemma AllLaterStill(a: seq<Snapshot>, b: seq<Snapshot>, c: seq<Snapshot>)
    requires AreLaterThan(b, a) && AreLaterThan(c, b)
    ensures AreLaterThan(c, a)
  {
    forall i | 0 <= i < |c| ensures IsLater(a[i], c[i]) {
      LaterStill(a[i], b[i], c[i]);
    }
  }

  lemma AllLaterThanThemselves(base: seq<Snapshot>)
    requires forall i :: 0 <= i < |base| ==> base[i].turn <= |base[i].trace|
    ensures AreLaterThan(base, base)
  {
    forall i | 0 <= i < |base| ensures IsLater(base[i], base[i]) {
      LaterThanItself(base[i]);
    }
  }

  /** Renews the lease of each claim in turn, keeping the latest version of each. */
  method RenewEach(engine: Engine, rows: seq<Row>, works: seq<Work>, ghost since: seq<Snapshot>, ghost aside: set<Row>, ghost gone: bool,
                   ghost base: seq<Snapshot>)
    returns (lost: bool, renewed: seq<Work>)
    requires HaveKept(rows, since, aside) && AreAside(rows, works, aside) && Working(rows, works)
    requires gone ==> IsLost(rows, works)
    requires base == Snapshots(rows) && HasClaims(base, works) && AreLaterThan(base, base)
    modifies rows
    ensures HaveKept(rows, since, aside) && Working(rows, renewed) && AreSame(renewed, works)
    ensures (lost && |works| == 1) || gone ==> IsLost(rows, renewed)
    ensures AreLaterThan(Snapshots(rows), base) && AreSeenTo(engine.lease, Snapshots(rows), base, renewed, works, |works|, lost)
  {
    renewed := works;
    lost := false;
    for n := 0 to |works|
      invariant HaveKept(rows, since, aside) && Working(rows, renewed) && AreSame(renewed, works) && AreAsClaimed(renewed, works, n)
      invariant lost ==> n > 0
      invariant (lost && |works| == 1) || gone ==> IsLost(rows, renewed)
      invariant AreLaterThan(Snapshots(rows), base) && AreSeenTo(engine.lease, Snapshots(rows), base, renewed, works, n, lost)
    {
      lost, renewed := RenewNext(engine, rows, works, renewed, n, since, aside, lost, gone, base);
    }
  }

  /** Nobody is to work the run any more. */
  predicate IsCalledOff(w: World) { w.stored == None || w.stored.value.status == Canceled }

  ghost predicate WasCalledOff(base: seq<Snapshot>, works: seq<Work>) {
    |works| == 1 && works[0].index < |base| && IsCalledOff(base[works[0].index].world)
  }

  /** One beat of the watchers. */
  method Watch(engine: Engine, rows: seq<Row>, works: seq<Work>, beat: Beat, ghost since: seq<Snapshot>, ghost aside: set<Row>, ghost gone: bool,
               ghost base: seq<Snapshot>)
    returns (lost: bool, latest: seq<Work>)
    requires HaveKept(rows, since, aside) && AreAside(rows, works, aside) && Working(rows, works)
    requires gone ==> IsLost(rows, works)
    requires base == Snapshots(rows)
    modifies rows
    ensures HaveKept(rows, since, aside) && Working(rows, latest) && AreSame(latest, works) && AreLaterThan(Snapshots(rows), base)
    ensures (lost && |works| == 1) || gone ==> IsLost(rows, latest)
    ensures beat == LeaseBeat ==> AreSeenTo(engine.lease, Snapshots(rows), base, latest, works, |works|, lost)
    ensures beat == CancelPoll ==> latest == works && (lost ==> WasCalledOff(Snapshots(rows), works))
    ensures beat == CancelPoll && AreUnfailing(base) && WasCalledOff(base, works) ==> lost
  {
    if beat == LeaseBeat {
      WorkedClaims(rows, works, works);
      AllLaterThanThemselves(base);
      lost, latest := RenewEach(engine, rows, works, since, aside, gone, base);
    } else {
      lost := PollForCancel(rows, works, since, aside, gone, base);
      latest := works;
    }
  }

  /** What some beats have seen to: every lease is renewed or lost, and a single attempt whose claim was lost is canceled. */
  ghost predicate AreWatched(lease: int, now: seq<Snapshot>, base: seq<Snapshot>, after: seq<Work>, before: seq<Work>, canceled: bool)
    requires |after| == |before|
  {
    AreUnfailing(base) ==> AreRenewed(lease, now, base, after, before, |before|) && (|before| == 1 && WasLost(base, before[0]) ==> canceled)
  }

  lemma WatchedByThisBeat(lease: int, past: seq<Snapshot>, now: seq<Snapshot>, base: seq<Snapshot>, latest: seq<Work>, mid: seq<Work>,
                          works: seq<Work>, lost: bool, canceled: bool)
    requires AreSame(latest, mid) && AreSame(mid, works) && AreLaterThan(past, base) && AreLaterThan(now, past) && HasClaims(base, works)
    requires AreSeenTo(lease, now, past, latest, mid, |mid|, lost) && (lost && |works| == 1 ==> canceled)
    ensures AreWatched(lease, now, base, latest, works, canceled)
  {
    if AreUnfailing(base) {
      forall i | 0 <= i < |past| ensures past[i].unfailing {
        assert IsLater(base[i], past[i]);
      }
      forall i | 0 <= i < |works| ensures IsRenewedOrLost(lease, now, base, latest[i], works[i]) {
        assert IsRenewedOrLost(lease, now, past, latest[i], mid[i]) && SameWork(mid[i], works[i]) && IsLater(base[works[i].index], past[works[i].index]);
      }
      if |works| == 1 && WasLost(base, works[0]) {
        LostStill(base, past, works[0]);
        assert WasLost(past, mid[0]);
      }
    }
  }

  lemma WatchedStill(lease: int, past: seq<Snapshot>, now: seq<Snapshot>, base: seq<Snapshot>, latest: seq<Work>, works: seq<Work>, canceled: bool)
    requires AreSame(latest, works) && AreLaterThan(past, base) && AreLaterThan(now, past) && HasClaims(base, works)
    requires AreWatched(lease, past, base, latest, works, canceled)
    ensures AreWatched(lease, now, base, latest, works, canceled)
  {
    if AreUnfailing(base) {
      forall i | 0 <= i < |works| ensures IsRenewedOrLost(lease, now, base, latest[i], works[i]) {
        assert IsRenewedOrLost(lease, past, base, latest[i], works[i]) && IsLater(base[works[i].index], past[works[i].index]);
        StillRenewed(lease, past, now, base, latest[i], works[i]);
      }
    }
  }

  lemma OneMoreBeat(lease: int, past: seq<Snapshot>, now: seq<Snapshot>, base: seq<Snapshot>, latest: seq<Work>, mid: seq<Work>,
                    works: seq<Work>, beat: Beat, seen: bool, lost: bool, before: bool, canceled: bool)
    requires AreSame(latest, mid) && AreSame(mid, works) && AreLaterThan(past, base) && AreLaterThan(now, past) && HasClaims(base, works)
    requires canceled == (before || (lost && |works| == 1)) && (seen ==> AreWatched(lease, past, base, mid, works, before))
    requires if beat == LeaseBeat then AreSeenTo(lease, now, past, latest, mid, |mid|, lost) else latest == mid
    ensures AreLaterThan(now, base) && AreSame(latest, works)
    ensures seen || beat == LeaseBeat ==> AreWatched(lease, now, base, latest, works, canceled)
  {
    AllLaterStill(base, past, now);
    if beat == LeaseBeat {
      WatchedByThisBeat(lease, past, now, base, latest, mid, works, lost, canceled);
    } else if seen {
      WatchedStill(lease, past, now, base, latest, works, before);
    }
  }

  /** Some beats on: the works are still the engine's, and `seen` is whether there was a lease beat. */
  ghost predicate IsWatching(lease: int, rows: seq<Row>, works: seq<Work>, latest: seq<Work>, canceled: bool, since: seq<Snapshot>,
                             aside: set<Row>, base: seq<Snapshot>, seen: bool)
    reads rows
  {
    && HaveKept(rows, since, aside) && Working(rows, latest) && AreSame(latest, works) && (canceled ==> IsLost(rows, latest))
    && AreLaterThan(Snapshots(rows), base) && (seen ==> AreWatched(lease, Snapshots(rows), base, latest, works, canceled))
  }

  /** `Watch`, with what all the beats so far have seen to. */
  method WatchNext(engine: Engine, rows: seq<Row>, works: seq<Work>, mid: seq<Work>, beat: Beat, ghost since: seq<Snapshot>,
                   ghost aside: set<Row>, before: bool, ghost base: seq<Snapshot>, ghost seen: bool)
    returns (canceled: bool, latest: seq<Work>)
    requires IsWatching(engine.lease, rows, works, mid, before, since, aside, base, seen)
    requires AreAside(rows, works, aside) && HasClaims(base, works)
    modifies rows
    ensures IsWatching(engine.lease, rows, works, latest, canceled, since, aside, base, seen || beat == LeaseBeat)
  {
    SameLoss(rows, mid, works, aside);
    ghost var past := Snapshots(rows);
    var lost;
    lost, latest := Watch(engine, rows, mid, beat, since, aside, before, past);
    canceled := before || (lost && |works| == 1);
    OneMoreBeat(engine.lease, past, Snapshots(rows), base, latest, mid, works, beat, seen, lost, before, canceled);
  }

  /** Every beat until the worker answers. */
  method WatchEach(engine: Engine, rows: seq<Row>, works: seq<Work>, beats: seq<Beat>, ghost since: seq<Snapshot>, ghost aside: set<Row>,
                   ghost base: seq<Snapshot>)
    returns (canceled: bool, latest: seq<Work>)
    requires IsWatching(engine.lease, rows, works, works, false, since, aside, base, false)
    requires AreAside(rows, works, aside) && HasClaims(base, works)
    modifies rows
    ensures IsWatching(engine.lease, rows, works, latest, canceled, since, aside, base, LeaseBeat in beats)
  {
    latest := works;
    canceled := false;
    ghost var seen := false;
    for n := 0 to |beats|
      invariant IsWatching(engine.lease, rows, works, latest, canceled, since, aside, base, seen)
      invariant forall k :: 0 <= k < n && beats[k] == LeaseBeat ==> seen
    {
      canceled, latest := WatchNext(engine, rows, works, latest, beats[n], since, aside, canceled, base, seen);
      seen := seen || beats[n] == LeaseBeat;
    }
  }

  /** Posts the claimed runs to their worker and watches them until it answers. Only an attempt of one run is ever
      stopped, and only once that run is canceled, gone, or another's. */
  method Attempt(engine: Engine, rows: seq<Row>, works: seq<Work>, beats: seq<Beat>, reply: Reply,
                 ghost since: seq<Snapshot>, ghost aside: set<Row>)
    returns (answer: Answer, latest: seq<Work>)
    requires HaveKept(rows, since, aside) && AreAside(rows, works, aside) && Working(rows, works)
    modifies rows
    ensures HaveKept(rows, since, aside) && Working(rows, latest) && AreSame(latest, works)
    ensures answer.outcome == CanceledOutcome ==> IsLost(rows, latest)
    ensures answer != AnswerTo(reply, false) ==> answer == AnswerTo(reply, true) && IsLost(rows, latest)
    ensures LeaseBeat in beats ==>
              AreWatched(engine.lease, Snapshots(rows), old(Snapshots(rows)), latest, works, answer == AnswerTo(reply, true))
    ensures beats == [] ==> latest == works && answer == AnswerTo(reply, false) && Untouched(rows)
  {
    var canceled;
    if |beats| == 0 {
      canceled, latest := false, works;
    } else {
      WorkedClaims(rows, works, works);
      AllLaterThanThemselves(Snapshots(rows));
      canceled, latest := WatchEach(engine, rows, works, beats, since, aside, Snapshots(rows));
    }
    answer := AnswerTo(reply, canceled);
  }

  /** Whether the run was canceled, or deleted, when looked at. */
  method PollRow(row: Row, claim: Claim) returns (canceled: bool)
    requires row.Valid() && claim in row.mine
    modifies row
    ensures row.Advanced() && row.mine == old(row.mine) && row.minted == old(row.minted) && row.Made() == old(row.Made())
    ensures canceled ==> IsCalledOff(row.world) && !Owned(row.world, claim)
    ensures old(row.faults) == [] && IsCalledOff(old(row.world)) ==> canceled
    ensures IsLater(old(Taken(row)), Taken(row))
  {
    row.InvHolds();
    ghost var i := |row.trace| - 1;
    var read := row.Read();
    if old(IsCalledOff(row.world)) && read.Found? {
      LivesOnlyGrow(row.trace, i, |row.trace| - 1);
      if old(row.world).stored.Some? {
        SettledRunsStandForLife(row.trace, i, |row.trace| - 1);
      }
    }
    return read.Missing? || (read.Found? && read.run.status == Canceled);
  }

  method PollOne(rows: seq<Row>, works: seq<Work>, ghost since: seq<Snapshot>, ghost aside: set<Row>)
    returns (canceled: bool)
    requires HaveKept(rows, since, aside) && AreAside(rows, works, aside) && Working(rows, works)
    requires |works| == 1 && works[0].index < |rows|
    modifies rows[works[0].index]
    ensures HaveKept(rows, since, aside) && Working(rows, works)
    ensures canceled ==> IsCalledOff(rows[works[0].index].world) && !Owned(rows[works[0].index].world, works[0].claim)
    ensures IsPolled(Taken(rows[works[0].index]), old(Taken(rows[works[0].index])), canceled)
  {
    assert IsWorked(rows, works[0]);
    canceled := PollRow(rows[works[0].index], works[0].claim);
    assert IsWorked(rows, works[0]);
    forall i | 0 <= i < |rows| ensures HasKept(rows[i], since[i], aside) {
      assert old(HasKept(rows[i], since[i], aside)) && rows[i] in rows;
      LaterStill(since[i], old(Taken(rows[i])), Taken(rows[i]));
    }
  }

  ghost predicate IsPolled(now: Snapshot, base: Snapshot, canceled: bool) {
    IsLater(base, now) && (base.unfailing && IsCalledOff(base.world) ==> canceled)
  }

  /** A look at the run of a single attempt: whether it was canceled, or deleted. */
  method PollForCancel(rows: seq<Row>, works: seq<Work>, ghost since: seq<Snapshot>, ghost aside: set<Row>, ghost gone: bool,
                       ghost base: seq<Snapshot>)
    returns (canceled: bool)
    requires HaveKept(rows, since, aside) && AreAside(rows, works, aside) && Working(rows, works)
    requires gone ==> IsLost(rows, works)
    requires base == Snapshots(rows)
    modifies rows
    ensures HaveKept(rows, since, aside) && Working(rows, works) && AreLaterThan(Snapshots(rows), base)
    ensures canceled || gone ==> IsLost(rows, works)
    ensures canceled ==> WasCalledOff(Snapshots(rows), works)
    ensures AreUnfailing(base) && WasCalledOff(base, works) ==> canceled
  {
    if |works| != 1 {
      AllLaterThanThemselves(base);
      return false;
    }
    assert IsWorked(rows, works[0]);
    ghost var row := rows[works[0].index];
    canceled := PollOne(rows, works, since, aside);
    forall i | 0 <= i < |rows| && rows[i] != row ensures Taken(rows[i]) == base[i] {
    }
    OneRowLater(rows, base, row);
    if gone {
      LostStill(base, Snapshots(rows), works[0]);
    }
  }
}
