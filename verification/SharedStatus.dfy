/** The status entries that projects share, and the markers of the projects that share them, as a transition system
    over the record store: `pkg/envsource/status.go`. Any number of syncs and deploys take steps in any order. */
module SharedStatus {
  /** A status entry and a marker are each kept under a dedupe key. `pending` counts the looks each caller has yet to take
      at a status it may have left unshared. `actors` says who took each step, in order. */
  datatype World = World(
    status: map<string, nat>, markers: map<(string, string), nat>, pending: multiset<(nat, string)>, revisions: nat, actors: seq<nat>)

  datatype Act =
    | CreateStatus(key: string)
    | UpdateStatus(key: string)
    | RemoveStatus(key: string)
    | AddMarker(key: string, project: string)
    | DropMarker(key: string, project: string)
    | TakeOn(key: string)
    | Settle(key: string)

  datatype Step = Step(actor: nat, act: Act)

  const BLANK := World(map[], map[], multiset{}, 0, [])

  predicate IsShared(w: World, key: string) {
    exists marker :: marker in w.markers && marker.0 == key
  }

  /** Nobody shares the status, and it is still kept. */
  predicate IsOrphan(w: World, key: string) {
    key in w.status && !IsShared(w, key)
  }

  /** Creating a status and dropping a marker take on the duty to look again; only a look that finds the status shared
      or gone, or the removal of the status, ends it. */
  predicate Enabled(w: World, step: Step) {
    match step.act
    case CreateStatus(key) => key !in w.status
    case UpdateStatus(key) => key in w.status
    case RemoveStatus(key) => key in w.status && (step.actor, key) in w.pending
    case AddMarker(key, project) => (key, project) !in w.markers
    case DropMarker(key, project) => (key, project) in w.markers
    case TakeOn(_) => true
    case Settle(key) => (step.actor, key) in w.pending && !IsOrphan(w, key)
  }

  function Apply(w: World, step: Step): World
    requires Enabled(w, step)
  {
    var next, duty, acted := w.revisions + 1, multiset{(step.actor, step.act.key)}, w.(actors := w.actors + [step.actor]);
    match step.act
    case CreateStatus(key) => acted.(status := w.status[key := next], pending := w.pending + duty, revisions := next)
    case UpdateStatus(key) => acted.(status := w.status[key := next], revisions := next)
    case RemoveStatus(key) => acted.(status := w.status - {key}, pending := w.pending - duty)
    case AddMarker(key, project) => acted.(markers := w.markers[(key, project) := next], revisions := next)
    case DropMarker(key, project) => acted.(markers := w.markers - {(key, project)}, pending := w.pending + duty)
    case TakeOn(key) => acted.(pending := w.pending + duty)
    case Settle(key) => acted.(pending := w.pending - duty)
  }

  ghost predicate Inv(w: World) {
    && (forall key :: IsOrphan(w, key) ==> IsOwed(w, key))
    && (forall key :: key in w.status ==> 0 < w.status[key] <= w.revisions)
    && (forall marker :: marker in w.markers ==> 0 < w.markers[marker] <= w.revisions)
  }

  /** Someone has yet to look at this status. */
  ghost predicate IsOwed(w: World, key: string) {
    exists actor :: (actor, key) in w.pending
  }

  lemma InvIsKept(w: World, step: Step)
    requires Inv(w) && Enabled(w, step)
    ensures Inv(Apply(w, step))
  {
    var w' := Apply(w, step);
    forall key | IsOrphan(w', key) ensures IsOwed(w', key) {
      if step.act.key == key && (step.act.CreateStatus? || step.act.DropMarker?) {
        assert (step.actor, key) in w'.pending;
      } else {
        SharedStaysShared(w, step, key);
        assert IsOrphan(w, key);
        var actor :| (actor, key) in w.pending;
        assert (actor, key) in w'.pending;
      }
    }
  }

  lemma SharedStaysShared(w: World, step: Step, key: string)
    requires Enabled(w, step) && !(step.act.DropMarker? && step.act.key == key)
    ensures IsShared(w, key) ==> IsShared(Apply(w, step), key)
  {
    if IsShared(w, key) {
      var marker :| marker in w.markers && marker.0 == key;
      assert marker in Apply(w, step).markers;
    }
  }

  // Histories: any steps of anyone's, in any order.

  ghost predicate Next(w: World, w': World) {
    exists step :: Enabled(w, step) && w' == Apply(w, step)
  }

  function Last(trace: seq<World>): World
    requires trace != []
  {
    trace[|trace| - 1]
  }

  ghost predicate Behaviour(trace: seq<World>) {
    trace != [] && trace[0] == BLANK && forall i: nat :: i + 1 < |trace| ==> StepsOn(trace, i)
  }

  ghost predicate StepsOn(trace: seq<World>, i: nat)
    requires i + 1 < |trace|
  {
    Next(trace[i], trace[i + 1])
  }

  lemma StepOf(trace: seq<World>, i: nat) returns (step: Step)
    requires Behaviour(trace) && i + 1 < |trace|
    ensures Enabled(trace[i], step) && trace[i + 1] == Apply(trace[i], step)
  {
    assert StepsOn(trace, i);
    step :| Enabled(trace[i], step) && trace[i + 1] == Apply(trace[i], step);
  }

  lemma Extended(trace: seq<World>, step: Step) returns (longer: seq<World>)
    requires Behaviour(trace) && Enabled(Last(trace), step)
    ensures Behaviour(longer) && longer == trace + [Apply(Last(trace), step)] && trace <= longer
  {
    longer := trace + [Apply(Last(trace), step)];
    forall i: nat | i + 1 < |longer| ensures StepsOn(longer, i) {
      assert i + 1 < |trace| ==> StepsOn(trace, i);
    }
  }

  lemma {:induction false} BehavioursKeepInv(trace: seq<World>, i: nat)
    requires Behaviour(trace) && i < |trace|
    ensures Inv(trace[i])
  {
    if i > 0 {
      BehavioursKeepInv(trace, i - 1);
      var step := StepOf(trace, i - 1);
      InvIsKept(trace[i - 1], step);
    }
  }

  /** The caller owes no look. */
  ghost predicate IsThrough(w: World, caller: nat) {
    forall key :: (caller, key) !in w.pending
  }

  /** The step after state k is this caller's. */
  predicate ActsAt(trace: seq<World>, k: nat, caller: nat) {
    k + 1 < |trace| && |trace[k].actors| < |trace[k + 1].actors| && trace[k + 1].actors[|trace[k].actors|] == caller
  }

  lemma DutyEnds(w: World, step: Step, caller: nat, key: string)
    requires Enabled(w, step) && Apply(w, step).pending[(caller, key)] < w.pending[(caller, key)]
    ensures step.actor == caller && step.act.key == key && (step.act.RemoveStatus? || step.act.Settle?)
    ensures !IsOrphan(Apply(w, step), key)
  {
    assert step.act.RemoveStatus? || step.act.Settle?;
  }

  /** A duty is ended only by its caller's look, at which the status is shared or gone. */
  lemma {:induction false} DutiesEndInLooking(trace: seq<World>, i: nat, j: nat, caller: nat, key: string) returns (k: nat)
    requires Behaviour(trace) && i <= j < |trace| && trace[j].pending[(caller, key)] < trace[i].pending[(caller, key)]
    ensures i <= k < j && ActsAt(trace, k, caller) && !IsOrphan(trace[k + 1], key)
    decreases j - i
  {
    var step := StepOf(trace, j - 1);
    if trace[j - 1].pending[(caller, key)] < trace[i].pending[(caller, key)] {
      k := DutiesEndInLooking(trace, i, j - 1, caller, key);
    } else {
      DutyEnds(trace[j - 1], step, caller, key);
      k := j - 1;
    }
  }

  /** A caller that takes no step stays through. */
  lemma {:induction false} ThroughStaysThrough(trace: seq<World>, i: nat, j: nat, caller: nat)
    requires Behaviour(trace) && i <= j < |trace| && IsThrough(trace[i], caller)
    requires forall k: nat :: i <= k < j ==> !ActsAt(trace, k, caller)
    ensures IsThrough(trace[j], caller)
    decreases j - i
  {
    if i < j {
      ThroughStaysThrough(trace, i, j - 1, caller);
      var step := StepOf(trace, j - 1);
      assert !ActsAt(trace, j - 1, caller);
    }
  }

  /** Once everyone is through, each at its own time and idle since, each status left has a sharer. */
  lemma NoOrphanOnceAllAreThrough(trace: seq<World>, ends: nat -> nat, key: string)
    requires Behaviour(trace)
    requires forall caller: nat :: ends(caller) < |trace| && IsThrough(trace[ends(caller)], caller)
    requires forall caller: nat, k: nat :: ends(caller) <= k < |trace| ==> !ActsAt(trace, k, caller)
    ensures key in Last(trace).status ==> IsShared(Last(trace), key)
  {
    BehavioursKeepInv(trace, |trace| - 1);
    forall caller: nat ensures (caller, key) !in Last(trace).pending {
      ThroughStaysThrough(trace, ends(caller), |trace| - 1, caller);
    }
    assert !IsOrphan(Last(trace), key);
  }
}
