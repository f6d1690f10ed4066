/** Where the messages of a slice stand in the two passes of `pkg/runs/deliver.go`: `deliverBatch`. */
module RunStages {
  import opened Wrappers
  import opened RunState
  import opened RunSystem
  import opened RunSafety
  import opened RunRow
  import opened RunEngine
  import opened RunAttempt
  import opened RunQuiet
  import opened RunDeliver

  datatype Candidate = Candidate(index: nat, run: Run, at: int)

  /** Where the two passes stand while the messages `pending` are undecided: every group left undone is blocked,
      and nothing is claimed past an undecided message. */
  ghost predicate Settling(deployed: Deployed, received: seq<Received>, ds: seq<Disposition>, claims: seq<Option<Claim>>,
                           made: seq<Option<Claim>>, blocked: set<string>, pending: set<nat>)
  {
    && |received| == |ds| == |claims| == |made|
    && (forall i :: i in pending ==> i < |received| && claims[i] == None && made[i] == None && !ds[i].done)
    && (deployed.ordered ==>
          forall i :: 0 <= i < |ds| && i !in pending && claims[i] == None && !ds[i].done ==> IsBlocked(deployed, received, blocked, i))
    && (forall i, p :: 0 <= i < |made| && made[i].Some? && p in pending ==> i < p)
    && NoneIsClaimedDone(ds, claims)
    && KeepsOrder(deployed, received, ds, claims, made)
  }

  lemma Settle(deployed: Deployed, received: seq<Received>, ds: seq<Disposition>, claims: seq<Option<Claim>>, made: seq<Option<Claim>>,
               blocked: set<string>, pending: set<nat>, i: nat, d: Disposition, claimed: Option<Claim>, m: Option<Claim>)
    requires Settling(deployed, received, ds, claims, made, blocked, pending) && i in pending && deployed.batches
    requires m.Some? ==> (forall p :: p in pending ==> i <= p)
    requires m.Some? && deployed.ordered ==> !IsBlocked(deployed, received, blocked, i)
    requires (claimed.Some? ==> !d.done && m == claimed) && IsMadeFor(received[i], m)
    ensures var group := received[i].message.Group(deployed.consumer);
            Settling(deployed, received, ds[i := d], claims[i := claimed], made[i := m],
                     if claimed.Some? || d.done then blocked else blocked + {group}, pending - {i})
  {
    forall j | 0 <= j < |received| ensures IsMadeFor(received[j], made[i := m][j]) {
      assert IsMadeFor(received[j], made[j]);
    }
    var group := received[i].message.Group(deployed.consumer);
    var grown := if claimed.Some? || d.done then blocked else blocked + {group};
    forall j | 0 <= j < |ds| ensures IsBlocked(deployed, received, blocked, j) ==> IsBlocked(deployed, received, grown, j) {
    }
    forall j | 0 <= j < i && SameGroup(deployed, received, j, i)
      ensures IsBlocked(deployed, received, blocked, j) <==> IsBlocked(deployed, received, blocked, i)
    {
    }
  }

  /** The run of a message may start, as of a version of it that was stored. */
  ghost predicate IsCandidate(now: seq<Snapshot>, received: seq<Received>, c: Candidate) {
    && c.index < |now| && c.index < |received|
    && Known(now[c.index].world, c.run)
    && MayStart(c.run, received[c.index].message.delivery, c.at)
  }

  ghost predicate AreCandidates(now: seq<Snapshot>, received: seq<Received>, candidates: seq<Candidate>, n: nat) {
    forall k {:trigger IsCandidate(now, received, candidates[k])} :: n <= k < |candidates| ==> IsCandidate(now, received, candidates[k])
  }

  lemma StillCandidates(rows: seq<Row>, before: seq<Snapshot>, after: seq<Snapshot>, received: seq<Received>,
                        candidates: seq<Candidate>, from: nat, n: nat)
    requires OnlyNth(rows, before, after, n) && AreCandidates(before, received, candidates, from)
    ensures AreCandidates(after, received, candidates, from)
  {
    forall k | from <= k < |candidates| ensures IsCandidate(after, received, candidates[k]) {
      assert IsCandidate(before, received, candidates[k]);
    }
  }

  predicate Ascend(candidates: seq<Candidate>) {
    forall j, k :: 0 <= j < k < |candidates| ==> candidates[j].index < candidates[k].index
  }

  /** The undecided messages: candidates from the first pass, and those from n on that it has not reached. */
  ghost predicate Undecided(pending: set<nat>, candidates: seq<Candidate>, n: nat, all: nat) {
    forall p :: p in pending <==> n <= p < all || exists k :: 0 <= k < |candidates| && candidates[k].index == p
  }

  ghost function Below(n: nat): (below: set<nat>)
    ensures forall i: nat :: i in below <==> i < n
  {
    if n == 0 then {} else Below(n - 1) + {n - 1}
  }

  lemma AdmittedIsUndecided(pending: set<nat>, candidates: seq<Candidate>, c: Candidate, n: nat, all: nat)
    requires Undecided(pending, candidates, n, all) && c.index == n < all
    ensures Undecided(pending, candidates + [c], n + 1, all)
  {
    var longer := candidates + [c];
    forall p | p in pending ensures n + 1 <= p < all || exists k :: 0 <= k < |longer| && longer[k].index == p {
      if p == n {
        assert longer[|candidates|].index == p;
      } else if !(n < p < all) {
        var k :| 0 <= k < |candidates| && candidates[k].index == p;
        assert longer[k].index == p;
      }
    }
    forall p: nat, k | 0 <= k < |longer| && longer[k].index == p ensures p in pending {
      if k < |candidates| {
        assert candidates[k].index == p;
      }
    }
  }

  ghost predicate Candidates(now: seq<Snapshot>, received: seq<Received>, candidates: seq<Candidate>, n: nat) {
    Ascend(candidates) && (forall k :: 0 <= k < |candidates| ==> candidates[k].index < n) && AreCandidates(now, received, candidates, 0)
  }

  lemma MoreCandidates(rows: seq<Row>, before: seq<Snapshot>, after: seq<Snapshot>, received: seq<Received>,
                       candidates: seq<Candidate>, n: nat, admitted: Option<Candidate>)
    requires OnlyNth(rows, before, after, n) && Candidates(before, received, candidates, n)
    requires admitted.Some? ==> admitted.value.index == n && IsCandidate(after, received, admitted.value)
    ensures Candidates(after, received, candidates + (if admitted.Some? then [admitted.value] else []), n + 1)
  {
    StillCandidates(rows, before, after, received, candidates, 0, n);
    var longer := candidates + (if admitted.Some? then [admitted.value] else []);
    forall k | 0 <= k < |longer| ensures IsCandidate(after, received, longer[k]) {
      assert k < |candidates| ==> IsCandidate(after, received, candidates[k]);
    }
  }

  /** A message sifted is undecided still, or settled. */
  lemma SiftedSettles(deployed: Deployed, received: seq<Received>, ds: seq<Disposition>, none: seq<Option<Claim>>, blocked: set<string>,
                      candidates: seq<Candidate>, pending: set<nat>, n: nat, d: Disposition, admitted: Option<Candidate>)
    requires Settling(deployed, received, ds, none, none, blocked, pending) && deployed.batches && n < |received|
    requires Undecided(pending, candidates, n, |received|) && (admitted.Some? ==> admitted.value.index == n && !d.done)
    requires forall k :: 0 <= k < |candidates| ==> candidates[k].index < n
    ensures var group := received[n].message.Group(deployed.consumer);
            Settling(deployed, received, ds[n := d], none, none, if admitted.Some? || d.done then blocked else blocked + {group},
                     if admitted.Some? then pending else pending - {n})
    ensures Undecided(if admitted.Some? then pending else pending - {n},
                      candidates + (if admitted.Some? then [admitted.value] else []), n + 1, |received|)
  {
    if admitted.Some? {
      AdmittedIsUndecided(pending, candidates, admitted.value, n, |received|);
    } else {
      Settle(deployed, received, ds, none, none, blocked, pending, n, d, None, None);
      assert none[n := None] == none;
      assert candidates + [] == candidates;
    }
  }

  lemma FirstIsUndecided(pending: set<nat>, candidates: seq<Candidate>, n: nat, all: nat)
    requires n < |candidates| && Ascend(candidates) && Undecided(pending, candidates[n..], all, all)
    ensures candidates[n].index in pending && forall p :: p in pending ==> candidates[n].index <= p
    ensures Undecided(pending - {candidates[n].index}, candidates[n + 1..], all, all)
  {
    var left, rest := candidates[n..], candidates[n + 1..];
    assert left[0] == candidates[n];
    forall p | p in pending
      ensures candidates[n].index <= p
      ensures p != candidates[n].index ==> exists k :: 0 <= k < |rest| && rest[k].index == p
    {
      var k :| 0 <= k < |left| && left[k].index == p;
      if k > 0 {
        assert rest[k - 1].index == p;
      }
    }
    forall k | 0 <= k < |rest| ensures rest[k].index in pending && rest[k].index != candidates[n].index {
      assert left[k + 1] == rest[k];
    }
  }

  /** The next candidate is neither claimed nor done. */
  lemma NextIsUndecided(deployed: Deployed, received: seq<Received>, ds: seq<Disposition>, none: seq<Option<Claim>>, made: seq<Option<Claim>>,
                        blocked: set<string>, pending: set<nat>, candidates: seq<Candidate>, n: nat)
    requires Settling(deployed, received, ds, none, made, blocked, pending) && n < |candidates| && Ascend(candidates)
    requires Undecided(pending, candidates[n..], |received|, |received|)
    ensures candidates[n].index < |received| && none[candidates[n].index].None? && made[candidates[n].index].None?
  {
    FirstIsUndecided(pending, candidates, n, |received|);
  }

  /** The next candidate is settled, claimed or not. */
  lemma TakenSettles(deployed: Deployed, received: seq<Received>, ds: seq<Disposition>, claims: seq<Option<Claim>>, made: seq<Option<Claim>>,
                     blocked: set<string>, pending: set<nat>, candidates: seq<Candidate>, n: nat, d: Disposition,
                     claimed: Option<Claim>, m: Option<Claim>)
    requires Settling(deployed, received, ds, claims, made, blocked, pending) && n < |candidates| && Ascend(candidates) && deployed.batches
    requires Undecided(pending, candidates[n..], |received|, |received|) && candidates[n].index < |received|
    requires deployed.ordered && received[candidates[n].index].message.Group(deployed.consumer) in blocked ==> m.None?
    requires (claimed.Some? ==> !d.done && m == claimed) && IsMadeFor(received[candidates[n].index], m)
    ensures var at := candidates[n].index;
            && Settling(deployed, received, ds[at := d], claims[at := claimed], made[at := m],
                        if claimed.Some? || d.done then blocked else blocked + {received[at].message.Group(deployed.consumer)},
                        pending - {at})
            && Undecided(pending - {at}, candidates[n + 1..], |received|, |received|)
  {
    FirstIsUndecided(pending, candidates, n, |received|);
    Settle(deployed, received, ds, claims, made, blocked, pending, candidates[n].index, d, claimed, m);
  }

  // The envelope of the claimed messages.

  /** The engine still holds the claim of a work, and knows a version stored under its fence. */
  ghost predicate WorkStands(now: seq<Snapshot>, work: Work) {
    && work.index < |now|
    && work.claim in now[work.index].mine && Known(now[work.index].world, work.run)
    && Owns(work.run, work.claim.delivery, work.claim.attempts)
    && work.claim.delivery == work.rcv.message.delivery
  }

  /** The works are exactly the claims the engine holds, each held once. */
  ghost predicate Enveloped(rows: seq<Row>, now: seq<Snapshot>, received: seq<Received>, claims: seq<Option<Claim>>, works: seq<Work>) {
    && |claims| == |received| == |rows| == |now|
    && (forall k {:trigger WorkStands(now, works[k])} :: 0 <= k < |works| ==> WorkStands(now, works[k]))
    && (forall k {:trigger IsIn(received, claims, works[k])} :: 0 <= k < |works| ==> IsIn(received, claims, works[k]))
    && (forall j, k {:trigger AreOthers(rows, works[j], works[k])} :: 0 <= j < k < |works| ==> AreOthers(rows, works[j], works[k]))
    && (forall i, c {:trigger IsWorkFor(rows, works, i, c)} :: 0 <= i < |rows| && c in now[i].mine ==> IsWorkFor(rows, works, i, c))
  }

  /** A work is of a message, with the claim made for it. */
  predicate IsIn(received: seq<Received>, claims: seq<Option<Claim>>, work: Work)
    requires |claims| == |received|
  {
    work.index < |claims| && claims[work.index] == Some(work.claim) && work.rcv == received[work.index]
  }

  /** Two works are not of one claim of one entry. */
  predicate AreOthers(rows: seq<Row>, a: Work, b: Work) {
    a.index < |rows| && b.index < |rows| && rows[a.index] == rows[b.index] ==> a.claim != b.claim
  }

  /** Some work is for this claim on this message's entry. */
  ghost predicate IsWorkFor(rows: seq<Row>, works: seq<Work>, i: nat, c: Claim)
    requires i < |rows|
  {
    exists k :: 0 <= k < |works| && IsWorkOf(rows, works[k], i, c)
  }

  predicate IsWorkOf(rows: seq<Row>, work: Work, i: nat, c: Claim)
    requires i < |rows|
  {
    work.index < |rows| && rows[work.index] == rows[i] && work.claim == c
  }

  lemma NothingEnveloped(rows: seq<Row>, received: seq<Received>, claims: seq<Option<Claim>>)
    requires |claims| == |received| == |rows| && AreIdle(rows)
    ensures Enveloped(rows, Snapshots(rows), received, claims, [])
  {
    forall i | 0 <= i < |rows| ensures Snapshots(rows)[i].mine == {} {
      assert rows[i] in rows;
    }
  }

  lemma NothingIsLeft(rows: seq<Row>, received: seq<Received>, claims: seq<Option<Claim>>)
    requires Enveloped(rows, Snapshots(rows), received, claims, [])
    ensures AreIdle(rows)
  {
    forall r | r in rows ensures r.mine == {} {
      var i :| 0 <= i < |rows| && rows[i] == r;
      forall c ensures c !in r.mine {
        assert !IsWorkFor(rows, [], i, c) && Snapshots(rows)[i].mine == r.mine;
      }
    }
  }

  /** What is enveloped is worked, entry by entry. */
  lemma EnvelopeIsWorked(rows: seq<Row>, received: seq<Received>, claims: seq<Option<Claim>>, works: seq<Work>, since: seq<Snapshot>)
    requires Enveloped(rows, Snapshots(rows), received, claims, works) && HaveAdvanced(rows, since)
    ensures Working(rows, works)
  {
    forall k | 0 <= k < |works| ensures IsWorked(rows, works[k]) {
      assert WorkStands(Snapshots(rows), works[k]) && HasAdvanced(rows[works[k].index], since[works[k].index]);
    }
  }

  lemma StillStands(rows: seq<Row>, before: seq<Snapshot>, after: seq<Snapshot>, work: Work, n: nat, dropped: set<Claim>)
    requires OnlyNth(rows, before, after, n) && before[n].mine - dropped <= after[n].mine && WorkStands(before, work)
    requires rows[work.index] == rows[n] ==> work.claim !in dropped
    ensures WorkStands(after, work)
  {
  }

  /** The envelope after one candidate was claimed, or not. */
  lemma EnvelopeGrows(rows: seq<Row>, before: seq<Snapshot>, after: seq<Snapshot>, received: seq<Received>, claims: seq<Option<Claim>>,
                      works: seq<Work>, n: nat, work: Option<Work>)
    requires OnlyNth(rows, before, after, n) && Enveloped(rows, before, received, claims, works) && claims[n].None?
    requires after[n].mine == before[n].mine + (if work.Some? then {work.value.claim} else {})
    requires work.Some? ==>
               && work.value.index == n && work.value.rcv == received[n] && WorkStands(after, work.value)
               && work.value.claim !in before[n].mine
    ensures Enveloped(rows, after, received, claims[n := if work.Some? then Some(work.value.claim) else None],
                      works + (if work.Some? then [work.value] else []))
  {
    var longer := works + (if work.Some? then [work.value] else []);
    var claims' := claims[n := if work.Some? then Some(work.value.claim) else None];
    forall k | 0 <= k < |longer| ensures WorkStands(after, longer[k]) && IsIn(received, claims', longer[k]) {
      if k < |works| {
        assert WorkStands(before, works[k]) && IsIn(received, claims, works[k]);
        StillStands(rows, before, after, works[k], n, {});
      }
    }
    forall j, k | 0 <= j < k < |longer| ensures AreOthers(rows, longer[j], longer[k]) {
      assert k < |works| ==> AreOthers(rows, works[j], works[k]);
      assert WorkStands(before, works[j]);
    }
    forall i, c | 0 <= i < |rows| && c in after[i].mine ensures IsWorkFor(rows, longer, i, c) {
      if c in before[i].mine {
        assert IsWorkFor(rows, works, i, c);
        var k :| 0 <= k < |works| && IsWorkOf(rows, works[k], i, c);
        assert IsWorkOf(rows, longer[k], i, c);
      } else {
        assert IsWorkOf(rows, longer[|works|], i, c);
      }
    }
  }

  /** The envelope after its first work is finished. */
  lemma EnvelopeShrinks(rows: seq<Row>, before: seq<Snapshot>, after: seq<Snapshot>, received: seq<Received>, claims: seq<Option<Claim>>,
                        works: seq<Work>)
    requires works != [] && OnlyNth(rows, before, after, works[0].index) && Enveloped(rows, before, received, claims, works)
    requires after[works[0].index].mine == before[works[0].index].mine - {works[0].claim}
    ensures Enveloped(rows, after, received, claims, works[1..])
  {
    var n, rest, gone := works[0].index, works[1..], works[0].claim;
    forall k | 0 <= k < |rest| ensures WorkStands(after, rest[k]) && IsIn(received, claims, rest[k]) {
      assert AreOthers(rows, works[0], works[k + 1]) && WorkStands(before, works[k + 1]) && IsIn(received, claims, works[k + 1]);
      StillStands(rows, before, after, works[k + 1], n, {gone});
    }
    forall j, k | 0 <= j < k < |rest| ensures AreOthers(rows, rest[j], rest[k]) {
      assert AreOthers(rows, works[j + 1], works[k + 1]);
    }
    forall i, c | 0 <= i < |rows| && c in after[i].mine ensures IsWorkFor(rows, rest, i, c) {
      assert IsWorkFor(rows, works, i, c);
      var k :| 0 <= k < |works| && IsWorkOf(rows, works[k], i, c);
      assert k > 0;
      assert IsWorkOf(rows, rest[k - 1], i, c);
    }
  }

  /** The envelope while its works are attempted. */
  lemma EnvelopeIsRenewed(rows: seq<Row>, received: seq<Received>, claims: seq<Option<Claim>>, works: seq<Work>, latest: seq<Work>,
                          before: seq<Snapshot>, aside: set<Row>)
    requires Enveloped(rows, before, received, claims, works) && HaveKept(rows, before, aside)
    requires Working(rows, latest) && AreSame(latest, works)
    ensures Enveloped(rows, Snapshots(rows), received, claims, latest)
  {
    var now := Snapshots(rows);
    forall k | 0 <= k < |latest| ensures WorkStands(now, latest[k]) && IsIn(received, claims, latest[k]) {
      assert IsWorked(rows, latest[k]) && IsIn(received, claims, works[k]);
    }
    forall j, k | 0 <= j < k < |latest| ensures AreOthers(rows, latest[j], latest[k]) {
      assert AreOthers(rows, works[j], works[k]);
    }
    forall i, c | 0 <= i < |rows| && c in now[i].mine ensures IsWorkFor(rows, latest, i, c) {
      assert HasKept(rows[i], before[i], aside) && IsWorkFor(rows, works, i, c);
      var k :| 0 <= k < |works| && IsWorkOf(rows, works[k], i, c);
      assert SameWork(latest[k], works[k]) && IsWorkOf(rows, latest[k], i, c);
    }
  }

  lemma WorksApart(rows: seq<Row>, now: seq<Snapshot>, received: seq<Received>, claims: seq<Option<Claim>>, works: seq<Work>)
    requires Enveloped(rows, now, received, claims, works)
    ensures forall j, k :: 0 <= j < k < |works| ==> works[j].index != works[k].index
  {
    forall j, k | 0 <= j < k < |works| ensures works[j].index != works[k].index {
      assert AreOthers(rows, works[j], works[k]) && IsIn(received, claims, works[j]) && IsIn(received, claims, works[k]);
    }
  }

  /** An attempt counts as canceled only for one run, and only once its claim is lost. */
  ghost predicate StopIsSound(now: seq<Snapshot>, works: seq<Work>, answer: Answer) {
    answer.outcome == CanceledOutcome && works != [] ==>
      |works| == 1 && works[0].index < |now| && !Owned(now[works[0].index].world, works[0].claim)
  }

  // What stays sound and accounted for past an attempt, and past an outcome.

  /** The entries of the messages that are done, if no two of the entries are one. */
  ghost function Aside(rows: seq<Row>, ds: seq<Disposition>): (aside: set<Row>)
    requires |rows| == |ds|
    ensures forall i :: 0 <= i < |rows| && ds[i].done && AreApart(rows) ==> rows[i] in aside
  {
    if AreApart(rows) then set i | 0 <= i < |rows| && ds[i].done :: rows[i] else {}
  }

  ghost predicate NoneIsClaimedDone(ds: seq<Disposition>, claims: seq<Option<Claim>>) {
    |ds| == |claims| && forall i {:trigger claims[i]} :: 0 <= i < |ds| && claims[i].Some? ==> !ds[i].done
  }

  lemma WorksAreNotAside(rows: seq<Row>, now: seq<Snapshot>, received: seq<Received>, claims: seq<Option<Claim>>, works: seq<Work>,
                         ds: seq<Disposition>)
    requires Enveloped(rows, now, received, claims, works) && NoneIsClaimedDone(ds, claims)
    ensures AreAside(rows, works, Aside(rows, ds))
  {
    forall k | 0 <= k < |works| && works[k].index < |rows| ensures rows[works[k].index] !in Aside(rows, ds) {
      assert IsIn(received, claims, works[k]);
      if AreApart(rows) {
        ApartFrom(rows, works[k].index);
      }
    }
  }

  lemma AttemptKeepsAccounts(rows: seq<Row>, before: seq<Snapshot>, received: seq<Received>, ds: seq<Disposition>,
                             claims: seq<Option<Claim>>, made: seq<Option<Claim>>, since: seq<Snapshot>)
    requires |rows| == |ds| && HaveKept(rows, before, Aside(rows, ds)) && NoneIsClaimedDone(ds, claims)
    requires AreAccounted(rows, before, claims, made, since) && AllSound(rows, before, received, ds, claims, since)
    ensures AreAccounted(rows, Snapshots(rows), claims, made, since) && AllSound(rows, Snapshots(rows), received, ds, claims, since)
  {
    var now := Snapshots(rows);
    forall i | 0 <= i < |rows| ensures now[i].made == before[i].made && before[i].trace <= now[i].trace {
      assert HasKept(rows[i], before[i], Aside(rows, ds));
    }
    forall i | 0 <= i < |rows| ensures IsAccounted(now[i], claims[i], made[i], since[i]) {
      assert IsAccounted(before[i], claims[i], made[i], since[i]);
    }
    forall i, c | 0 <= i < |rows| && IsNew(now[i], since[i], c) ensures IsFor(rows, made, rows[i], c) {
      assert IsNew(before[i], since[i], c);
    }
    forall i | 0 <= i < |ds| && ds[i].done ensures IsSound(now[i], received[i], claims[i], since[i], AreApart(rows)) {
      assert HasKept(rows[i], before[i], Aside(rows, ds)) && IsSound(before[i], received[i], claims[i], since[i], AreApart(rows));
      var k :| WasSoundAt(before[i], received[i], claims[i], since[i], k);
      assert WasSoundAt(now[i], received[i], claims[i], since[i], k);
    }
  }

  /** What is sound and accounted for stays so while the n-th message gets its outcome. */
  lemma OutcomeKeepsAccounts(rows: seq<Row>, before: seq<Snapshot>, after: seq<Snapshot>, received: seq<Received>, ds: seq<Disposition>,
                             claims: seq<Option<Claim>>, made: seq<Option<Claim>>, since: seq<Snapshot>, n: nat, d: Disposition)
    requires OnlyNth(rows, before, after, n) && after[n].made == before[n].made
    requires AreAccounted(rows, before, claims, made, since) && AllSound(rows, before, received, ds, claims, since)
    requires d.done ==> IsSound(after[n], received[n], claims[n], since[n], AreApart(rows))
    ensures AreAccounted(rows, after, claims, made, since) && AllSound(rows, after, received, ds[n := d], claims, since)
  {
    if AreApart(rows) {
      ApartFrom(rows, n);
    }
    forall i | 0 <= i < |rows| ensures IsAccounted(after[i], claims[i], made[i], since[i]) {
      assert IsAccounted(before[i], claims[i], made[i], since[i]);
    }
    forall i, c | 0 <= i < |rows| && IsNew(after[i], since[i], c) ensures IsFor(rows, made, rows[i], c) {
      assert IsNew(before[i], since[i], c);
    }
    forall i | 0 <= i < |ds| && i != n && ds[i].done ensures IsSound(after[i], received[i], claims[i], since[i], AreApart(rows)) {
      assert IsSound(before[i], received[i], claims[i], since[i], AreApart(rows));
      var k :| WasSoundAt(before[i], received[i], claims[i], since[i], k);
      assert WasSoundAt(after[i], received[i], claims[i], since[i], k);
    }
  }

  lemma OutcomeKeepsOrder(deployed: Deployed, received: seq<Received>, ds: seq<Disposition>, claims: seq<Option<Claim>>,
                          made: seq<Option<Claim>>, i: nat, d: Disposition)
    requires |received| == |ds| == |claims| == |made| && i < |ds| && claims[i].Some? && deployed.batches
    requires KeepsOrder(deployed, received, ds, claims, made)
    ensures KeepsOrder(deployed, received, ds[i := d], claims, made)
  {
  }

  // The stages of the messages follow the candidates and the works.

  /** Messages from `reached` on are unreached, the candidates from `from` on are admitted, and the works are started. */
  ghost predicate Tracks(stages: seq<Stage>, candidates: seq<Candidate>, from: nat, works: seq<Work>, reached: nat) {
    && (forall i :: 0 <= i < |stages| ==> (stages[i].Unreached? <==> reached <= i))
    && (forall k :: from <= k < |candidates| ==> IsAdmittedAt(stages, candidates[k]))
    && (forall k :: 0 <= k < |works| ==> IsStartedAt(stages, works[k]))
    && (forall i :: 0 <= i < |stages| && stages[i].Admitted? ==> exists k :: from <= k < |candidates| && candidates[k].index == i)
    && (forall i :: 0 <= i < |stages| && stages[i].Started? ==> exists k :: 0 <= k < |works| && works[k].index == i)
  }

  predicate IsAdmittedAt(stages: seq<Stage>, c: Candidate) {
    c.index < |stages| && stages[c.index] == Admitted(c.run)
  }

  predicate IsStartedAt(stages: seq<Stage>, work: Work) {
    work.index < |stages| && stages[work.index].Started? && stages[work.index].run == work.run
  }

  lemma TracksAdmitted(stages: seq<Stage>, candidates: seq<Candidate>, n: nat, c: Candidate)
    requires Tracks(stages, candidates, 0, [], n) && n < |stages| && c.index == n
    ensures Tracks(stages[n := Admitted(c.run)], candidates + [c], 0, [], n + 1)
  {
    var stages', longer := stages[n := Admitted(c.run)], candidates + [c];
    forall k | 0 <= k < |longer| ensures IsAdmittedAt(stages', longer[k]) {
      if k < |candidates| {
        assert IsAdmittedAt(stages, candidates[k]);
      }
    }
    forall i | 0 <= i < |stages'| && stages'[i].Admitted? ensures exists k :: 0 <= k < |longer| && longer[k].index == i {
      if i == n {
        assert longer[|candidates|].index == i;
      } else {
        var k :| 0 <= k < |candidates| && candidates[k].index == i;
        assert longer[k].index == i;
      }
    }
  }

  lemma TracksJudged(stages: seq<Stage>, candidates: seq<Candidate>, n: nat, stage: Stage)
    requires Tracks(stages, candidates, 0, [], n) && n < |stages| && !IsOpen(stage)
    ensures Tracks(stages[n := stage], candidates, 0, [], n + 1)
  {
    forall k | 0 <= k < |candidates| ensures IsAdmittedAt(stages[n := stage], candidates[k]) {
      assert IsAdmittedAt(stages, candidates[k]);
    }
  }

  /** The next candidate is claimed or decided. */
  lemma TracksClaimed(stages: seq<Stage>, candidates: seq<Candidate>, n: nat, works: seq<Work>, stage: Stage, work: Option<Work>)
    requires Tracks(stages, candidates, n, works, |stages|) && n < |candidates| && Ascend(candidates)
    requires if work.Some? then work.value.index == candidates[n].index && stage.Started? && stage.run == work.value.run
             else !IsOpen(stage)
    ensures Tracks(stages[candidates[n].index := stage], candidates, n + 1, works + (if work.Some? then [work.value] else []), |stages|)
  {
    var at := candidates[n].index;
    assert IsAdmittedAt(stages, candidates[n]);
    var stages', more := stages[at := stage], works + (if work.Some? then [work.value] else []);
    forall k | n + 1 <= k < |candidates| ensures IsAdmittedAt(stages', candidates[k]) {
      assert IsAdmittedAt(stages, candidates[k]);
    }
    forall k | 0 <= k < |more| ensures IsStartedAt(stages', more[k]) {
      if k < |works| {
        assert IsStartedAt(stages, works[k]);
      }
    }
    forall i | 0 <= i < |stages'| && stages'[i].Started? ensures exists k :: 0 <= k < |more| && more[k].index == i {
      if i == at {
        assert more[|works|].index == i;
      } else {
        var k :| 0 <= k < |works| && works[k].index == i;
        assert more[k].index == i;
      }
    }
  }

  lemma TracksFinished(stages: seq<Stage>, works: seq<Work>, stage: Stage)
    requires Tracks(stages, [], 0, works, |stages|) && works != [] && !IsOpen(stage)
    requires forall k :: 0 < k < |works| ==> works[k].index != works[0].index
    ensures works[0].index < |stages| && Tracks(stages[works[0].index := stage], [], 0, works[1..], |stages|)
  {
    assert IsStartedAt(stages, works[0]);
    var stages', rest := stages[works[0].index := stage], works[1..];
    forall k | 0 <= k < |rest| ensures IsStartedAt(stages', rest[k]) {
      assert IsStartedAt(stages, works[k + 1]);
    }
    forall i | 0 <= i < |stages'| && stages'[i].Started? ensures exists k :: 0 <= k < |rest| && rest[k].index == i {
      var k :| 0 <= k < |works| && works[k].index == i;
      assert rest[k - 1].index == i;
    }
  }

  /** What the first pass makes of a message, undisturbed. */
  ghost predicate IsSifted(s: Delivery, n: nat, w: World, blocked: bool, d: Disposition, admitted: Option<Candidate>)
    requires IsDelivery(s) && n < |s.before|
  {
    if blocked then admitted.None? && d == RedeliverAfter(0) && w == s.before[n]
    else if admitted.Some? then IsFoundAt(s, n, admitted.value.run) && w.stored == Some(admitted.value.run)
    else IsJudged(s, n, w, d)
  }

  /** What the second pass makes of a candidate, undisturbed. */
  ghost predicate IsTaken(engine: Engine, c: Candidate, w: World, blocked: bool, d: Disposition, work: Option<Work>) {
    if blocked then work.None? && d == RedeliverAfter(0) && w.stored == Some(c.run)
    else
      && work.Some? && w.stored == Some(work.value.run) && IsClaimOn(work.value.claim, c.run)
      && engine.IsClaimedFrom(work.value.run, c.run)
  }

  lemma StageSifted(s: Delivery, worlds: seq<World>, ds: seq<Disposition>, blocked: set<string>, candidates: seq<Candidate>,
                    stages: seq<Stage>, n: nat, w: World, d: Disposition, admitted: Option<Candidate>, grown: set<string>)
    returns (stages': seq<Stage>)
    requires AllStand(s, worlds, ds, NoClaims(|ds|), blocked, stages) && Tracks(stages, candidates, 0, [], n) && n < |stages|
    requires IsSifted(s, n, w, s.deployed.ordered && GroupAt(s, n) in blocked, d, admitted)
    requires admitted.Some? ==> admitted.value.index == n
    requires grown == if admitted.Some? || d.done then blocked else blocked + {GroupAt(s, n)}
    ensures AllStand(s, worlds[n := w], ds[n := d], NoClaims(|ds|), grown, stages')
    ensures Tracks(stages', candidates + (if admitted.Some? then [admitted.value] else []), 0, [], n + 1)
  {
    var stage := if admitted.Some? then Admitted(admitted.value.run)
                 else if s.deployed.ordered && GroupAt(s, n) in blocked then HeldBack else Judged;
    OneMoves(s, worlds, ds, NoClaims(|ds|), blocked, stages, n, w, d, None, stage, grown);
    assert NoClaims(|ds|)[n := None] == NoClaims(|ds|);
    stages' := stages[n := stage];
    if admitted.Some? {
      TracksAdmitted(stages, candidates, n, admitted.value);
    } else {
      TracksJudged(stages, candidates, n, stage);
      assert candidates + [] == candidates;
    }
  }

  lemma StageClaimed(s: Delivery, worlds: seq<World>, ds: seq<Disposition>, claims: seq<Option<Claim>>, blocked: set<string>,
                     candidates: seq<Candidate>, n: nat, works: seq<Work>, stages: seq<Stage>,
                     w: World, d: Disposition, taken: Option<Work>, grown: set<string>)
    returns (stages': seq<Stage>)
    requires AllStand(s, worlds, ds, claims, blocked, stages) && Tracks(stages, candidates, n, works, |stages|)
    requires n < |candidates| && Ascend(candidates) && candidates[n].index < |stages|
    requires var c := candidates[n];
             && IsTaken(s.engine, c, w, s.deployed.ordered && GroupAt(s, c.index) in blocked, d, taken)
             && (taken.Some? ==> taken.value.index == c.index)
             && grown == if taken.Some? || d.done then blocked else blocked + {GroupAt(s, c.index)}
    ensures var at := candidates[n].index;
            && AllStand(s, worlds[at := w], ds[at := d], if taken.Some? then claims[at := Some(taken.value.claim)] else claims, grown, stages')
            && Tracks(stages', candidates, n + 1, works + (if taken.Some? then [taken.value] else []), |stages'|)
  {
    var c := candidates[n];
    assert IsAdmittedAt(stages, c) && Stands(s, c.index, worlds[c.index], ds[c.index], claims[c.index], blocked, stages[c.index]);
    var stage := if taken.Some? then Started(c.run, taken.value.run) else HeldBack;
    var claim := if taken.Some? then Some(taken.value.claim) else None;
    OneMoves(s, worlds, ds, claims, blocked, stages, c.index, w, d, claim, stage, grown);
    assert taken.None? ==> claims[c.index := claim] == claims;
    TracksClaimed(stages, candidates, n, works, stage, taken);
    stages' := stages[c.index := stage];
  }

  lemma StageRefused(s: Delivery, worlds: seq<World>, ds: seq<Disposition>, blocked: set<string>, candidates: seq<Candidate>, n: nat,
                     stages: seq<Stage>, w: World, d: Disposition)
    returns (stages': seq<Stage>)
    requires AllStand(s, worlds, ds, NoClaims(|ds|), blocked, stages) && Tracks(stages, candidates, n, [], |stages|)
    requires n < |candidates| && Ascend(candidates) && candidates[n].index < |stages| && s.luck.slots != SlotsHeld
    requires var c := candidates[n];
             s.engine.IsPassedOver(w, c.run, s.received[c.index], SlotHold(s.received[c.index].receives, s.luck.jitter(c.index)), d)
    ensures var at := candidates[n].index;
            && AllStand(s, worlds[at := w], ds[at := d], NoClaims(|ds|), blocked, stages')
            && Tracks(stages', candidates, n + 1, [], |stages'|)
  {
    var c := candidates[n];
    assert IsAdmittedAt(stages, c) && Stands(s, c.index, worlds[c.index], ds[c.index], NoClaims(|ds|)[c.index], blocked, stages[c.index]);
    OneMoves(s, worlds, ds, NoClaims(|ds|), blocked, stages, c.index, w, d, None, TurnedAway(c.run), blocked);
    assert NoClaims(|ds|)[c.index := None] == NoClaims(|ds|);
    TracksClaimed(stages, candidates, n, [], TurnedAway(c.run), None);
    stages' := stages[c.index := TurnedAway(c.run)];
  }

  lemma StageFinished(s: Delivery, worlds: seq<World>, ds: seq<Disposition>, claims: seq<Option<Claim>>, blocked: set<string>,
                      works: seq<Work>, stages: seq<Stage>, w: World, d: Disposition)
    returns (stages': seq<Stage>)
    requires AllStand(s, worlds, ds, claims, blocked, stages) && Tracks(stages, [], 0, works, |stages|) && works != []
    requires works[0].index < |stages| && s.luck.slots == SlotsHeld && w.stored.Some?
    requires forall k :: 0 < k < |works| ==> works[k].index != works[0].index
    requires var at := works[0].index;
             IsAnswered(w.stored.value, works[0].run, s.deployed, s.received[at], AnswerTo(s.luck.reply, false), s.luck.backoff(at), d)
    ensures var at := works[0].index;
            AllStand(s, worlds[at := w], ds[at := d], claims, blocked, stages') && Tracks(stages', [], 0, works[1..], |stages'|)
  {
    var at := works[0].index;
    assert IsStartedAt(stages, works[0]) && Stands(s, at, worlds[at], ds[at], claims[at], blocked, stages[at]);
    var stage := Finished(stages[at].found);
    OneMoves(s, worlds, ds, claims, blocked, stages, at, w, d, claims[at], stage, blocked);
    assert claims[at := claims[at]] == claims;
    TracksFinished(stages, works, stage);
    stages' := stages[at := stage];
  }
}
