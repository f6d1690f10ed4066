/** `pkg/runs/deliver.go`: `Deliver` over a slice of received messages, one at a time or as one batch. */
module RunDeliver {
  import opened Wrappers
  import opened RunState
  import opened RunSystem
  import opened RunSafety
  import opened RunRow
  import opened RunEngine
  import opened RunAttempt
  import opened RunQuiet

  /** Why a message may be answered Done, as its run was when it was last read or written for it. That nothing is stored is
      no reason for a topic message, which has yet to create its run. */
  predicate DoneIsSound(msg: Message, claimed: Option<Claim>, seen: World) {
    match claimed
    case None => NothingToRun(seen, msg.delivery) && (seen.stored.None? ==> msg.execution != "")
    case Some(c) => c.delivery == msg.delivery && Superseded(seen, c)
  }

  method DeliverOne(engine: Engine, deployed: Deployed, row: Row, rcv: Received, luck: Luck)
    returns (d: Disposition, claimed: Option<Claim>, ghost made: Option<Claim>)
    requires row.Valid() && row.mine == {} && WellAddressed(rcv.message)
    modifies row
    ensures row.Advanced() && row.mine == {} && row.minted == old(row.minted)
    ensures HasMadeOne(row, old(row.Made()), rcv.message.delivery, claimed, made, d)
    ensures d.done ==> DoneIsSound(rcv.message, claimed, row.world)
    ensures claimed.Some? ==> IsReplyOf(row.world, claimed.value, luck.reply, deployed.task, rcv.message.payload)
    ensures claimed.Some? ==> claimed.value in row.world.claims && claimed.value !in old(row.world).claims
    ensures old(row.Quiet()) && luck.beats == [] ==>
              row.Quiet() && IsDelivered(Delivery(engine, deployed, luck, [rcv], [old(row.world)]), 0, row.world, claimed, d)
  {
    d, claimed, made := RETAINED, None, None;
    ghost var s := Delivery(engine, deployed, luck, [rcv], [row.world]);
    var arrival := engine.Arrive(row, deployed, rcv.message);
    if arrival.Gone? {
      assert old(row.Quiet()) ==> IsGone(s, 0, row.world, DONE);
      d := DONE;
      return;
    } else if arrival.Unread? {
      return;
    }
    assert old(row.Quiet()) ==> IsFoundAt(s, 0, arrival.run);
    var run, admitted, at;
    run, d, admitted, at := engine.Admit(row, deployed, rcv, arrival.run);
    if !admitted {
      assert old(row.Quiet()) ==> IsJudgedAt(s, 0, row.world, arrival.run, at, d);
      return;
    }
    d, claimed, made := TakeSlots(engine, deployed, row, rcv, run, at, luck, s);
  }

  /** What follows an admission. */
  method TakeSlots(engine: Engine, deployed: Deployed, row: Row, rcv: Received, run: Run, at: int, luck: Luck, ghost s: Delivery)
    returns (d: Disposition, claimed: Option<Claim>, ghost made: Option<Claim>)
    requires row.Valid() && row.mine == {} && Known(row.world, run)
    requires MayStart(run, rcv.message.delivery, at)
    requires IsDelivery(s) && s.engine == engine && s.deployed == deployed && s.luck == luck && s.received == [rcv]
    modifies row
    ensures HasMadeOne(row, old(row.Made()), rcv.message.delivery, claimed, made, d)
    ensures row.Advanced() && row.mine == {} && row.minted == old(row.minted)
    ensures d.done ==> DoneIsSound(rcv.message, claimed, row.world)
    ensures claimed.Some? ==> IsReplyOf(row.world, claimed.value, luck.reply, deployed.task, rcv.message.payload)
    ensures claimed.Some? ==> claimed.value in row.world.claims && claimed.value !in old(row.world).claims
    ensures old(row.Quiet()) && luck.beats == [] && old(row.world).stored == Some(run) && IsFoundAt(s, 0, run) ==>
              row.Quiet() && if luck.slots == SlotsHeld then IsAttempted(s, 0, row.world, run, claimed, d)
                             else claimed.None? && IsUnslotted(s, 0, row.world, run, d)
  {
    d, claimed, made := RETAINED, None, None;
    if luck.slots == SlotsFailed {
      return;
    } else if luck.slots == NoSlot {
      d := engine.RedeliverUnlessUndeliverable(row, run, rcv, SlotHold(rcv.receives, luck.jitter(0)));
      return;
    }
    d, claimed, made := ClaimAndWork(engine, deployed, row, rcv, run, at, luck, s);
  }

  /** What follows an admission once the slots are taken. */
  method ClaimAndWork(engine: Engine, deployed: Deployed, row: Row, rcv: Received, admitted: Run, at: int, luck: Luck, ghost s: Delivery)
    returns (d: Disposition, claimed: Option<Claim>, ghost made: Option<Claim>)
    requires row.Valid() && row.mine == {} && Known(row.world, admitted)
    requires MayStart(admitted, rcv.message.delivery, at)
    requires IsDelivery(s) && s.engine == engine && s.deployed == deployed && s.luck == luck && s.received == [rcv]
    modifies row
    ensures HasMadeOne(row, old(row.Made()), rcv.message.delivery, claimed, made, d)
    ensures row.Advanced() && row.mine == {} && row.minted == old(row.minted)
    ensures d.done ==> DoneIsSound(rcv.message, claimed, row.world)
    ensures claimed.Some? ==> IsReplyOf(row.world, claimed.value, luck.reply, deployed.task, rcv.message.payload)
    ensures claimed.Some? ==> claimed.value in row.world.claims && claimed.value !in old(row.world).claims
    ensures old(row.Quiet()) && luck.beats == [] && old(row.world).stored == Some(admitted) && IsFoundAt(s, 0, admitted) ==>
              row.Quiet() && IsAttempted(s, 0, row.world, admitted, claimed, d)
  {
    var run;
    run, d, claimed, made := engine.Claim(row, deployed, rcv, admitted, at);
    if claimed.Some? {
      d := Work(engine, deployed, row, rcv, claimed.value, run, luck);
    }
  }

  /** The attempt of one run. */
  method AttemptOne(engine: Engine, row: Row, work: RunAttempt.Work, luck: Luck) returns (answer: Answer, run: Run)
    requires row.Valid() && IsWorked([row], work)
    modifies row
    ensures row.Advanced() && row.mine == old(row.mine) && row.minted == old(row.minted) && row.Made() == old(row.Made())
    ensures Known(row.world, run) && Owns(run, work.claim.delivery, work.claim.attempts)
    ensures answer.outcome == CanceledOutcome ==> !Owned(row.world, work.claim)
    ensures answer != AnswerTo(luck.reply, false) ==> answer == AnswerTo(luck.reply, true)
    ensures luck.beats == [] ==>
              run == work.run && answer == AnswerTo(luck.reply, false) && Untouched([row])
  {
    ghost var since := Snapshots([row]);
    KeptFromTheFirst([row], {});
    var latest;
    answer, latest := Attempt(engine, [row], [work], luck.beats, luck.reply, since, {});
    assert IsWorked([row], latest[0]) && HasKept([row][0], since[0], {}) && [row][0] == row && row in [row];
    run := latest[0].run;
  }

  method Work(engine: Engine, deployed: Deployed, row: Row, rcv: Received, c: Claim, run: Run, luck: Luck) returns (d: Disposition)
    requires row.Valid() && row.mine == {c} && engine.IsClaimed(row, rcv, run, c)
    modifies row
    ensures row.Advanced() && row.mine == {} && row.minted == old(row.minted) && row.Made() == old(row.Made())
    ensures d.done ==> Superseded(row.world, c)
    ensures IsReplyOf(row.world, c, luck.reply, deployed.task, rcv.message.payload)
    ensures old(row.Quiet()) && luck.beats == [] ==>
              && row.Quiet() && row.world.stored.Some?
              && IsAnswered(row.world.stored.value, run, deployed, rcv, AnswerTo(luck.reply, false), luck.backoff(0), d)
  {
    assert [row][0] == row && row in [row];
    var answer, latest := AttemptOne(engine, row, RunAttempt.Work(0, rcv, c, run), luck);
    var reported;
    d, reported := engine.Finish(row, deployed, c, latest, rcv.message.payload, answer, luck.backoff(0));
  }

  // A slice of messages, each with the entry of the run it names. Two may name the same run.

  ghost predicate Ready(rows: seq<Row>, received: seq<Received>, lucks: seq<Luck>)
    reads rows
  {
    && |rows| == |received| == |lucks|
    && (forall i :: 0 <= i < |rows| ==> rows[i].Valid() && WellAddressed(received[i].message))
  }

  /** No two of the entries are one. */
  predicate AreApart(rows: seq<Row>) {
    forall i, j :: 0 <= i < |rows| && 0 <= j < |rows| && i != j ==> Differ(rows, i, j)
  }

  predicate Differ(rows: seq<Row>, i: nat, j: nat)
    requires i < |rows| && j < |rows|
  {
    rows[i] != rows[j]
  }

  lemma ApartFrom(rows: seq<Row>, n: nat)
    requires AreApart(rows) && n < |rows|
    ensures forall i :: 0 <= i < |rows| && i != n ==> rows[i] != rows[n]
  {
    forall i | 0 <= i < |rows| && i != n ensures rows[i] != rows[n] {
      assert Differ(rows, i, n);
    }
  }

  /** The engine holds no claim. */
  ghost predicate AreIdle(rows: seq<Row>)
    reads rows
  {
    forall r :: r in rows ==> r.mine == {}
  }

  /** A claim is made for the delivery of its message; and, on an ordered topic, only if every earlier message of the group
      is done or, for a batching consumer, claimed for the same envelope. */
  ghost predicate KeepsOrder(deployed: Deployed, received: seq<Received>, ds: seq<Disposition>, claims: seq<Option<Claim>>,
                             made: seq<Option<Claim>>)
    requires |received| == |ds| == |claims| == |made|
  {
    && (forall j {:trigger IsMadeFor(received[j], made[j])} :: 0 <= j < |received| ==> IsMadeFor(received[j], made[j]))
    && (deployed.ordered ==>
          forall i, j :: 0 <= i < j < |received| && SameGroup(deployed, received, i, j) && made[j].Some? ==>
            ds[i].done || (deployed.batches && claims[i].Some?))
  }

  predicate IsMadeFor(rcv: Received, made: Option<Claim>) { made.Some? ==> made.value.delivery == rcv.message.delivery }

  // What is said of the states the entries are in now, and were in since the slice was received.

  /** Every claim the engine has made on these runs since was made for one of the messages, whether or not the engine knows
      of it. */
  ghost predicate AreAccounted(rows: seq<Row>, now: seq<Snapshot>, claims: seq<Option<Claim>>, made: seq<Option<Claim>>, since: seq<Snapshot>) {
    && |rows| == |now| == |claims| == |made| == |since|
    && (forall i {:trigger IsAccounted(now[i], claims[i], made[i], since[i])} ::
          0 <= i < |rows| ==> IsAccounted(now[i], claims[i], made[i], since[i]))
    && (forall i, c {:trigger IsNew(now[i], since[i], c)} :: 0 <= i < |rows| && IsNew(now[i], since[i], c) ==> IsFor(rows, made, rows[i], c))
  }

  ghost predicate IsNew(now: Snapshot, since: Snapshot, c: Claim) { c in now.made && c !in since.made }

  ghost predicate IsAccounted(now: Snapshot, claimed: Option<Claim>, made: Option<Claim>, since: Snapshot) {
    (made.Some? ==> made.value in now.made && made.value !in since.made) && (claimed.Some? ==> made == claimed)
  }

  ghost predicate IsFor(rows: seq<Row>, made: seq<Option<Claim>>, row: Row, c: Claim)
    requires |rows| == |made|
  {
    exists j :: 0 <= j < |rows| && rows[j] == row && made[j] == Some(c)
  }

  /** Every Done is sound at a state its run has been in since its message's turn and, if no other message names its run, still. */
  ghost predicate AllSound(rows: seq<Row>, now: seq<Snapshot>, received: seq<Received>, ds: seq<Disposition>, claims: seq<Option<Claim>>,
                           since: seq<Snapshot>)
  {
    && |rows| == |now| == |received| == |ds| == |claims| == |since|
    && forall i {:trigger IsSound(now[i], received[i], claims[i], since[i], AreApart(rows))} ::
         0 <= i < |ds| && ds[i].done ==> IsSound(now[i], received[i], claims[i], since[i], AreApart(rows))
  }

  ghost predicate IsSound(now: Snapshot, rcv: Received, claimed: Option<Claim>, since: Snapshot, apart: bool) {
    (exists k :: WasSoundAt(now, rcv, claimed, since, k)) && (apart ==> DoneIsSound(rcv.message, claimed, now.world))
  }

  ghost predicate WasSoundAt(now: Snapshot, rcv: Received, claimed: Option<Claim>, since: Snapshot, k: nat) {
    since.turn <= k + 1 && k < |now.trace| && DoneIsSound(rcv.message, claimed, now.trace[k])
  }

  lemma SoundNow(row: Row, rcv: Received, claimed: Option<Claim>, since: Snapshot)
    requires HasAdvanced(row, since) && DoneIsSound(rcv.message, claimed, row.world)
    ensures IsSound(Taken(row), rcv, claimed, since, true) && IsSound(Taken(row), rcv, claimed, since, false)
  {
    assert WasSoundAt(Taken(row), rcv, claimed, since, |row.trace| - 1);
  }

  /** Of these entries only the n-th has changed, and it has only advanced. */
  ghost predicate OnlyNth(rows: seq<Row>, before: seq<Snapshot>, after: seq<Snapshot>, n: nat) {
    && |rows| == |before| == |after| && n < |rows|
    && before[n].me == after[n].me && before[n].trace <= after[n].trace && before[n].made <= after[n].made && before[n].world.written <= after[n].world.written
    && forall i {:trigger after[i]} {:trigger before[i]} :: 0 <= i < |rows| ==>
         if rows[i] == rows[n] then after[i] == after[n] && before[i] == before[n] else after[i] == before[i]
  }

  lemma AreLater(rows: seq<Row>, since: seq<Snapshot>)
    requires HaveAdvanced(rows, since)
    ensures forall i :: 0 <= i < |rows| ==> IsLater(since[i], Snapshots(rows)[i]) && rows[i].Valid()
  {
    forall i | 0 <= i < |rows| ensures IsLater(since[i], Snapshots(rows)[i]) && rows[i].Valid() {
      assert HasAdvanced(rows[i], since[i]);
    }
  }

  lemma StillAdvanced(rows: seq<Row>, before: seq<Snapshot>, since: seq<Snapshot>, n: nat)
    requires OnlyNth(rows, before, Snapshots(rows), n) && |since| == |rows| && IsLater(before[n], Taken(rows[n]))
    requires forall i :: 0 <= i < |rows| ==> IsLater(since[i], before[i]) && rows[i].Valid()
    ensures HaveAdvanced(rows, since)
  {
    forall i | 0 <= i < |rows| ensures HasAdvanced(rows[i], since[i]) {
      LaterStill(since[i], before[i], Snapshots(rows)[i]);
    }
  }

  /** What is sound and accounted for stays so while the n-th message is dealt with. */
  lemma StillAccounted(rows: seq<Row>, before: seq<Snapshot>, after: seq<Snapshot>, received: seq<Received>, ds: seq<Disposition>,
                       claims: seq<Option<Claim>>, made: seq<Option<Claim>>, since: seq<Snapshot>,
                       n: nat, d: Disposition, claimed: Option<Claim>, m: Option<Claim>)
    requires OnlyNth(rows, before, after, n) && AreAccounted(rows, before, claims, made, since)
    requires AllSound(rows, before, received, ds, claims, since) && made[n].None? && claims[n].None?
    requires since[n].made <= before[n].made && IsOneMore(before[n].made, after[n].made, received[n].message.delivery, claimed, m, d)
    requires d.done ==> IsSound(after[n], received[n], claimed, since[n], AreApart(rows))
    ensures AreAccounted(rows, after, claims[n := claimed], made[n := m], since)
    ensures AllSound(rows, after, received, ds[n := d], claims[n := claimed], since)
  {
    if AreApart(rows) {
      ApartFrom(rows, n);
    }
    var made', claims' := made[n := m], claims[n := claimed];
    forall i | 0 <= i < |rows| ensures IsAccounted(after[i], claims'[i], made'[i], since[i]) {
      assert IsAccounted(before[i], claims[i], made[i], since[i]);
    }
    forall i, c | 0 <= i < |rows| && IsNew(after[i], since[i], c) ensures IsFor(rows, made', rows[i], c) {
      if c in before[i].made {
        assert IsNew(before[i], since[i], c) && IsFor(rows, made, rows[i], c);
        var j :| 0 <= j < |rows| && rows[j] == rows[i] && made[j] == Some(c);
        assert made'[j] == Some(c);
      } else {
        assert made'[n] == Some(c) && rows[n] == rows[i];
      }
    }
    forall i | 0 <= i < |ds| && i != n && ds[i].done ensures IsSound(after[i], received[i], claims[i], since[i], AreApart(rows)) {
      assert IsSound(before[i], received[i], claims[i], since[i], AreApart(rows));
      var k :| WasSoundAt(before[i], received[i], claims[i], since[i], k);
      assert WasSoundAt(after[i], received[i], claims[i], since[i], k);
    }
  }

  // The turns of the messages.

  /** The first n messages were turned to one after another since the slice was received. */
  ghost predicate TakeTurns(rows: seq<Row>, base: seq<Snapshot>, since: seq<Snapshot>, n: nat) {
    && |rows| == |base| == |since|
    && (forall i {:trigger since[i]} :: 0 <= i < |since| ==> since[i] == base[i].(turn := since[i].turn) && base[i].turn <= since[i].turn)
    && (forall i {:trigger since[i]} :: n <= i < |since| ==> since[i] == base[i])
    && (forall i, j {:trigger IsBefore(rows, since, i, j)} :: 0 <= i < j < n && j < |since| ==> IsBefore(rows, since, i, j))
  }

  predicate IsBefore(rows: seq<Row>, since: seq<Snapshot>, i: nat, j: nat)
    requires i < |rows| == |since| && j < |rows|
  {
    rows[i] == rows[j] ==> since[i].turn <= since[j].turn
  }

  /** When a message was turned to, the claim made for an earlier one on its run had been made. */
  ghost predicate SeeClaims(rows: seq<Row>, now: seq<Snapshot>, since: seq<Snapshot>, made: seq<Option<Claim>>, n: nat) {
    && |rows| == |now| == |since| == |made|
    && forall i, j {:trigger IsSeen(rows, now, since, made, i, j)} :: 0 <= i < j < n && j < |rows| ==> IsSeen(rows, now, since, made, i, j)
  }

  ghost predicate IsSeen(rows: seq<Row>, now: seq<Snapshot>, since: seq<Snapshot>, made: seq<Option<Claim>>, i: nat, j: nat)
    requires i < |rows| == |now| == |since| == |made| && j < |rows|
  {
    rows[i] == rows[j] && made[i].Some? ==>
      0 < since[j].turn <= |now[j].trace| && made[i].value in MadeBy(now[j].trace[since[j].turn - 1], now[j].me)
  }

  /** The next message is turned to. */
  lemma NextTurn(rows: seq<Row>, received: seq<Received>, ds: seq<Disposition>, claims: seq<Option<Claim>>, made: seq<Option<Claim>>,
                 base: seq<Snapshot>, since: seq<Snapshot>, n: nat)
    requires IsUnderway(rows, received, ds, claims, made, since) && TakeTurns(rows, base, since, n) && n < |rows| && !ds[n].done
    ensures var since' := since[n := since[n].(turn := |rows[n].trace|)];
            && IsUnderway(rows, received, ds, claims, made, since') && TakeTurns(rows, base, since', n + 1)
            && (SeeClaims(rows, Snapshots(rows), since, made, n) ==> SeeClaims(rows, Snapshots(rows), since', made, n + 1))
  {
    var since' := since[n := since[n].(turn := |rows[n].trace|)];
    UnderwayStill(rows, received, ds, claims, made, since, since', n);
    forall i, j | 0 <= i < j < n + 1 ensures IsBefore(rows, since', i, j) {
      assert HasAdvanced(rows[i], since[i]) && (j < n ==> IsBefore(rows, since, i, j));
    }
    if SeeClaims(rows, Snapshots(rows), since, made, n) {
      OneMoreSees(rows, claims, made, since, since', n);
    }
  }

  lemma UnderwayStill(rows: seq<Row>, received: seq<Received>, ds: seq<Disposition>, claims: seq<Option<Claim>>, made: seq<Option<Claim>>,
                      since: seq<Snapshot>, since': seq<Snapshot>, n: nat)
    requires IsUnderway(rows, received, ds, claims, made, since) && n < |rows| && !ds[n].done
    requires since' == since[n := since[n].(turn := |rows[n].trace|)]
    ensures IsUnderway(rows, received, ds, claims, made, since')
  {
    var now := Snapshots(rows);
    forall i | 0 <= i < |rows| ensures HasAdvanced(rows[i], since'[i]) {
      assert HasAdvanced(rows[i], since[i]);
    }
    forall i | 0 <= i < |rows| ensures IsAccounted(now[i], claims[i], made[i], since'[i]) {
      assert IsAccounted(now[i], claims[i], made[i], since[i]);
    }
    forall i, c | 0 <= i < |rows| && IsNew(now[i], since'[i], c) ensures IsFor(rows, made, rows[i], c) {
      assert IsNew(now[i], since[i], c);
    }
    forall i | 0 <= i < |ds| && ds[i].done ensures IsSound(now[i], received[i], claims[i], since'[i], AreApart(rows)) {
      assert IsSound(now[i], received[i], claims[i], since[i], AreApart(rows));
    }
  }

  lemma OneMoreSees(rows: seq<Row>, claims: seq<Option<Claim>>, made: seq<Option<Claim>>, since: seq<Snapshot>, since': seq<Snapshot>, n: nat)
    requires HaveAdvanced(rows, since) && AreAccounted(rows, Snapshots(rows), claims, made, since) && n < |rows|
    requires SeeClaims(rows, Snapshots(rows), since, made, n) && since' == since[n := since[n].(turn := |rows[n].trace|)]
    ensures SeeClaims(rows, Snapshots(rows), since', made, n + 1)
  {
    var now := Snapshots(rows);
    assert HasAdvanced(rows[n], since[n]);
    forall i, j | 0 <= i < j < n + 1 ensures IsSeen(rows, now, since', made, i, j) {
      assert IsAccounted(now[i], claims[i], made[i], since[i]);
      assert j < n ==> IsSeen(rows, now, since, made, i, j);
    }
  }

  /** What was in sight stays so while the n-th message is dealt with. */
  lemma StillSeen(rows: seq<Row>, before: seq<Snapshot>, after: seq<Snapshot>, since: seq<Snapshot>, made: seq<Option<Claim>>,
                  n: nat, m: Option<Claim>)
    requires OnlyNth(rows, before, after, n) && SeeClaims(rows, before, since, made, n + 1)
    requires forall i {:trigger after[i]} :: 0 <= i < |rows| ==> after[i].me == before[i].me
    ensures SeeClaims(rows, after, since, made[n := m], n + 1)
  {
    var made' := made[n := m];
    forall i, j | 0 <= i < j < n + 1 ensures IsSeen(rows, after, since, made', i, j) {
      assert IsSeen(rows, before, since, made, i, j);
    }
  }

  /** Nobody else changes the runs, no access to them fails, and no two of them are one. */
  predicate AreQuiet(rows: seq<Row>)
    reads rows
  {
    AreApart(rows) && forall r :: r in rows ==> r.Quiet()
  }

  ghost function Worlds(rows: seq<Row>): (worlds: seq<World>)
    reads rows
    ensures |worlds| == |rows| && forall i :: 0 <= i < |rows| ==> worlds[i] == rows[i].world
  {
    seq(|rows|, i requires 0 <= i < |rows| reads rows => rows[i].world)
  }

  method DeliverNth(engine: Engine, deployed: Deployed, rows: seq<Row>, rcv: Received, n: nat, luck: Luck)
    returns (d: Disposition, claimed: Option<Claim>, ghost made: Option<Claim>)
    requires n < |rows| && rows[n].Valid() && rows[n].mine == {} && WellAddressed(rcv.message)
    modifies rows[n]
    ensures rows[n].Advanced() && rows[n].mine == {} && rows[n].minted == old(rows[n].minted)
    ensures HasMadeOne(rows[n], old(rows[n].Made()), rcv.message.delivery, claimed, made, d)
    ensures d.done ==> DoneIsSound(rcv.message, claimed, rows[n].world)
    ensures old(AreQuiet(rows)) && luck.beats == [] ==>
              && AreQuiet(rows) && Worlds(rows) == old(Worlds(rows))[n := rows[n].world]
              && IsDelivered(Single(engine, deployed, luck, rcv, old(rows[n].world)), 0, rows[n].world, claimed, d)
  {
    if AreApart(rows) {
      ApartFrom(rows, n);
    }
    d, claimed, made := DeliverOne(engine, deployed, rows[n], rcv, luck);
  }

  /** `DeliverNth`, with what it leaves standing for the others. */
  method DeliverBeside(engine: Engine, deployed: Deployed, rows: seq<Row>, rcv: Received, n: nat, luck: Luck, ghost since: seq<Snapshot>)
    returns (d: Disposition, claimed: Option<Claim>, ghost made: Option<Claim>)
    requires HaveAdvanced(rows, since) && AreIdle(rows) && n < |rows| && WellAddressed(rcv.message)
    modifies rows[n]
    ensures HaveAdvanced(rows, since) && AreIdle(rows) && OnlyNth(rows, old(Snapshots(rows)), Snapshots(rows), n)
    ensures HasMadeOne(rows[n], old(rows[n].Made()), rcv.message.delivery, claimed, made, d)
    ensures d.done ==> IsSound(Taken(rows[n]), rcv, claimed, since[n], AreApart(rows))
    ensures old(AreQuiet(rows)) && luck.beats == [] ==>
              && AreQuiet(rows) && Worlds(rows) == old(Worlds(rows))[n := rows[n].world]
              && IsDelivered(Single(engine, deployed, luck, rcv, old(rows[n].world)), 0, rows[n].world, claimed, d)
  {
    ghost var before := Snapshots(rows);
    AreLater(rows, since);
    d, claimed, made := DeliverNth(engine, deployed, rows, rcv, n, luck);
    forall i | 0 <= i < |rows| && rows[i] != rows[n] ensures Taken(rows[i]) == before[i] {
    }
    StillAdvanced(rows, before, since, n);
    forall r | r in rows ensures r.mine == {} {
    }
    if d.done {
      SoundNow(rows[n], rcv, claimed, since[n]);
    }
  }

  function Retained(n: nat): seq<Disposition> { seq(n, _ => RETAINED) }

  ghost function NoClaims(n: nat): seq<Option<Claim>> { seq(n, _ => None) }

  predicate NoBeats(lucks: seq<Luck>) { forall n :: 0 <= n < |lucks| ==> lucks[n].beats == [] }

  predicate IsBlocked(deployed: Deployed, received: seq<Received>, blocked: set<string>, i: nat)
    requires i < |received|
  {
    received[i].message.Group(deployed.consumer) in blocked
  }

  /** Where the loop over a slice stands after n messages: every group left undone is blocked. */
  ghost predicate InOrder(deployed: Deployed, received: seq<Received>, ds: seq<Disposition>, claims: seq<Option<Claim>>,
                          made: seq<Option<Claim>>, blocked: set<string>, n: nat)
  {
    && |received| == |ds| == |claims| == |made| && n <= |received|
    && (forall i :: n <= i < |received| ==> ds[i] == RETAINED && claims[i] == None && made[i] == None)
    && (deployed.ordered ==> forall i :: 0 <= i < n ==> ds[i].done || IsBlocked(deployed, received, blocked, i))
    && KeepsOrder(deployed, received, ds, claims, made)
  }

  lemma OneMoreInOrder(deployed: Deployed, received: seq<Received>, ds: seq<Disposition>, claims: seq<Option<Claim>>,
                       made: seq<Option<Claim>>, blocked: set<string>, n: nat, d: Disposition, claimed: Option<Claim>, m: Option<Claim>)
    requires InOrder(deployed, received, ds, claims, made, blocked, n) && n < |received|
    requires received[n].message.Group(deployed.consumer) in blocked ==> m == None
    requires IsMadeFor(received[n], m)
    ensures var group := received[n].message.Group(deployed.consumer);
            InOrder(deployed, received, ds[n := d], claims[n := claimed], made[n := m], if d.done then blocked else blocked + {group}, n + 1)
  {
    forall j | 0 <= j < |received| ensures IsMadeFor(received[j], made[n := m][j]) {
      assert IsMadeFor(received[j], made[j]);
    }
  }

  /** What is known of a slice while it is delivered. */
  ghost predicate IsUnderway(rows: seq<Row>, received: seq<Received>, ds: seq<Disposition>, claims: seq<Option<Claim>>,
                             made: seq<Option<Claim>>, since: seq<Snapshot>)
    reads rows
  {
    && HaveAdvanced(rows, since)
    && AreAccounted(rows, Snapshots(rows), claims, made, since) && AllSound(rows, Snapshots(rows), received, ds, claims, since)
  }

  /** The n-th message of a slice: skipped if its group is blocked, else delivered. */
  method DeliverNext(engine: Engine, deployed: Deployed, rows: seq<Row>, received: seq<Received>, n: nat, luck: Luck,
                     ds: seq<Disposition>, blocked: set<string>, ghost claims: seq<Option<Claim>>, ghost made: seq<Option<Claim>>,
                     ghost since: seq<Snapshot>)
    returns (ds': seq<Disposition>, blocked': set<string>, ghost claims': seq<Option<Claim>>, ghost made': seq<Option<Claim>>)
    requires n < |received| && WellAddressed(received[n].message) && AreIdle(rows)
    requires InOrder(deployed, received, ds, claims, made, blocked, n) && IsUnderway(rows, received, ds, claims, made, since)
    requires SeeClaims(rows, Snapshots(rows), since, made, n + 1)
    modifies rows
    ensures AreIdle(rows) && SeeClaims(rows, Snapshots(rows), since, made', n + 1)
    ensures InOrder(deployed, received, ds', claims', made', blocked', n + 1) && IsUnderway(rows, received, ds', claims', made', since)
    ensures ds' == ds[n := ds'[n]] && claims' == claims[n := claims'[n]]
    ensures var group := received[n].message.Group(deployed.consumer);
            && (deployed.ordered ==> blocked' == if ds'[n].done then blocked else blocked + {group})
            && (old(AreQuiet(rows)) && luck.beats == [] ==>
                  && AreQuiet(rows) && Worlds(rows) == old(Worlds(rows))[n := rows[n].world]
                  && IsTurn(Single(engine, deployed, luck, received[n], old(rows[n].world)), deployed.ordered && group in blocked,
                            rows[n].world, claims'[n], ds'[n]))
  {
    var group := received[n].message.Group(deployed.consumer);
    if deployed.ordered && group in blocked {
      OneMoreInOrder(deployed, received, ds, claims, made, blocked, n, RedeliverAfter(0), None, None);
      assert claims[n := None] == claims && made[n := None] == made;
      return ds[n := RedeliverAfter(0)], blocked + {group}, claims, made;
    }
    var d, claimed;
    ghost var m;
    d, claimed, m := DeliverAccounted(engine, deployed, rows, received, n, luck, ds, claims, made, since);
    ds', blocked' := ds[n := d], if deployed.ordered && !d.done then blocked + {group} else blocked;
    claims', made' := claims[n := claimed], made[n := m];
    OneMoreInOrder(deployed, received, ds, claims, made, if deployed.ordered then blocked else {}, n, d, claimed, m);
  }

  /** `DeliverBeside`, with what it leaves sound and accounted for. */
  method DeliverAccounted(engine: Engine, deployed: Deployed, rows: seq<Row>, received: seq<Received>, n: nat, luck: Luck,
                          ghost ds: seq<Disposition>, ghost claims: seq<Option<Claim>>, ghost made: seq<Option<Claim>>, ghost since: seq<Snapshot>)
    returns (d: Disposition, claimed: Option<Claim>, ghost m: Option<Claim>)
    requires n < |received| && WellAddressed(received[n].message) && AreIdle(rows)
    requires IsUnderway(rows, received, ds, claims, made, since) && made[n].None? && claims[n].None?
    requires SeeClaims(rows, Snapshots(rows), since, made, n + 1)
    modifies rows
    ensures AreIdle(rows) && IsUnderway(rows, received, ds[n := d], claims[n := claimed], made[n := m], since) && IsMadeFor(received[n], m)
    ensures SeeClaims(rows, Snapshots(rows), since, made[n := m], n + 1)
    ensures old(AreQuiet(rows)) && luck.beats == [] ==>
              && AreQuiet(rows) && Worlds(rows) == old(Worlds(rows))[n := rows[n].world]
              && IsDelivered(Single(engine, deployed, luck, received[n], old(rows[n].world)), 0, rows[n].world, claimed, d)
  {
    assert HasAdvanced(rows[n], since[n]);
    ghost var before := Snapshots(rows);
    d, claimed, m := DeliverBeside(engine, deployed, rows, received[n], n, luck, since);
    StillAccounted(rows, before, Snapshots(rows), received, ds, claims, made, since, n, d, claimed, m);
    StillSeen(rows, before, Snapshots(rows), since, made, n, m);
  }

  /** Where a slice stands after n messages, undisturbed. */
  ghost predicate HaveTurned(engine: Engine, deployed: Deployed, rows: seq<Row>, received: seq<Received>, lucks: seq<Luck>,
                             before: seq<World>, ds: seq<Disposition>, claims: seq<Option<Claim>>, blocked: set<string>, n: nat)
    reads rows
  {
    && AreQuiet(rows) && BlocksUndone(deployed, received, ds, blocked, n)
    && AreTurns(engine, deployed, lucks, received, before, Worlds(rows), ds, claims, n)
  }

  /** `DeliverNext`, with what it comes to undisturbed. */
  method DeliverTurn(engine: Engine, deployed: Deployed, rows: seq<Row>, received: seq<Received>, n: nat, lucks: seq<Luck>,
                     ds: seq<Disposition>, blocked: set<string>, ghost claims: seq<Option<Claim>>, ghost made: seq<Option<Claim>>,
                     ghost base: seq<Snapshot>, ghost since: seq<Snapshot>, ghost before: seq<World>, ghost calm: bool)
    returns (ds': seq<Disposition>, blocked': set<string>, ghost claims': seq<Option<Claim>>, ghost made': seq<Option<Claim>>,
             ghost since': seq<Snapshot>)
    requires n < |received| == |lucks| && WellAddressed(received[n].message) && AreIdle(rows)
    requires InOrder(deployed, received, ds, claims, made, blocked, n) && IsUnderway(rows, received, ds, claims, made, since)
    requires TakeTurns(rows, base, since, n) && SeeClaims(rows, Snapshots(rows), since, made, n)
    requires calm ==> NoBeats(lucks) && HaveTurned(engine, deployed, rows, received, lucks, before, ds, claims, blocked, n)
    modifies rows
    ensures AreIdle(rows) && TakeTurns(rows, base, since', n + 1) && SeeClaims(rows, Snapshots(rows), since', made', n + 1)
    ensures InOrder(deployed, received, ds', claims', made', blocked', n + 1) && IsUnderway(rows, received, ds', claims', made', since')
    ensures calm ==> HaveTurned(engine, deployed, rows, received, lucks, before, ds', claims', blocked', n + 1)
  {
    ghost var worlds := Worlds(rows);
    NextTurn(rows, received, ds, claims, made, base, since, n);
    since' := since[n := since[n].(turn := |rows[n].trace|)];
    ds', blocked', claims', made' := DeliverNext(engine, deployed, rows, received, n, lucks[n], ds, blocked, claims, made, since');
    if calm {
      OneMoreTurn(engine, deployed, lucks, received, before, worlds, ds, claims, n, blocked, rows[n].world, ds'[n], claims'[n]);
    }
  }

  /** The loop over a slice of which nothing has been decided. */
  method DeliverTurns(engine: Engine, deployed: Deployed, rows: seq<Row>, received: seq<Received>, lucks: seq<Luck>,
                      ds0: seq<Disposition>, blocked0: set<string>, ghost none: seq<Option<Claim>>, ghost base: seq<Snapshot>,
                      ghost before: seq<World>, ghost calm: bool)
    returns (ds: seq<Disposition>, ghost claims: seq<Option<Claim>>, ghost made: seq<Option<Claim>>, ghost groups: set<string>,
             ghost since: seq<Snapshot>)
    requires AreIdle(rows) && |received| == |lucks| && forall i :: 0 <= i < |received| ==> WellAddressed(received[i].message)
    requires InOrder(deployed, received, ds0, none, none, blocked0, 0) && IsUnderway(rows, received, ds0, none, none, base)
    requires TakeTurns(rows, base, base, 0) && SeeClaims(rows, Snapshots(rows), base, none, 0)
    requires calm ==> NoBeats(lucks) && HaveTurned(engine, deployed, rows, received, lucks, before, ds0, none, blocked0, 0)
    modifies rows
    ensures AreIdle(rows) && TakeTurns(rows, base, since, |received|) && SeeClaims(rows, Snapshots(rows), since, made, |received|)
    ensures InOrder(deployed, received, ds, claims, made, groups, |received|) && IsUnderway(rows, received, ds, claims, made, since)
    ensures calm ==> HaveTurned(engine, deployed, rows, received, lucks, before, ds, claims, groups, |received|)
  {
    ds, claims, made, since := ds0, none, none, base;
    var blocked := blocked0;
    for n := 0 to |received|
      invariant AreIdle(rows) && TakeTurns(rows, base, since, n) && SeeClaims(rows, Snapshots(rows), since, made, n)
      invariant InOrder(deployed, received, ds, claims, made, blocked, n) && IsUnderway(rows, received, ds, claims, made, since)
      invariant calm ==> HaveTurned(engine, deployed, rows, received, lucks, before, ds, claims, blocked, n)
    {
      ds, blocked, claims, made, since :=
        DeliverTurn(engine, deployed, rows, received, n, lucks, ds, blocked, claims, made, base, since, before, calm);
    }
    groups := blocked;
  }

  lemma NoneIsDone(rows: seq<Row>, received: seq<Received>)
    requires |rows| == |received| && forall r :: r in rows ==> r.Valid()
    ensures IsUnderway(rows, received, Retained(|received|), NoClaims(|received|), NoClaims(|received|), Snapshots(rows))
    ensures forall n: nat :: TakeTurns(rows, Snapshots(rows), Snapshots(rows), n)
    ensures forall n: nat :: SeeClaims(rows, Snapshots(rows), Snapshots(rows), NoClaims(|received|), n)
  {
    KeptFromTheFirst(rows, {});
  }

  lemma NoneHasTurned(engine: Engine, deployed: Deployed, rows: seq<Row>, received: seq<Received>, lucks: seq<Luck>)
    requires AreQuiet(rows) && |rows| == |received| == |lucks|
    ensures HaveTurned(engine, deployed, rows, received, lucks, Worlds(rows), Retained(|received|), NoClaims(|received|), {}, 0)
  {
  }

  /** Delivers a slice one message at a time. Undisturbed, each has its turn: it is delivered unless it waits. */
  method DeliverEach(engine: Engine, deployed: Deployed, rows: seq<Row>, received: seq<Received>, lucks: seq<Luck>)
    returns (dispositions: seq<Disposition>, ghost claims: seq<Option<Claim>>, ghost made: seq<Option<Claim>>, ghost since: seq<Snapshot>)
    requires Ready(rows, received, lucks) && AreIdle(rows)
    modifies rows
    ensures IsUnderway(rows, received, dispositions, claims, made, since) && AreIdle(rows)
    ensures TakeTurns(rows, old(Snapshots(rows)), since, |received|) && SeeClaims(rows, Snapshots(rows), since, made, |received|)
    ensures KeepsOrder(deployed, received, dispositions, claims, made)
    ensures old(AreQuiet(rows)) && NoBeats(lucks) ==>
              AreTurns(engine, deployed, lucks, received, old(Worlds(rows)), Worlds(rows), dispositions, claims, |received|)
  {
    assert forall r :: r in rows ==> r.Valid();
    NoneIsDone(rows, received);
    if AreQuiet(rows) {
      NoneHasTurned(engine, deployed, rows, received, lucks);
    }
    dispositions, claims := Retained(|received|), NoClaims(|received|);
    ghost var blocked;
    dispositions, claims, made, blocked, since :=
      DeliverTurns(engine, deployed, rows, received, lucks, dispositions, {}, claims, Snapshots(rows), Worlds(rows),
                   AreQuiet(rows) && NoBeats(lucks));
  }
}
