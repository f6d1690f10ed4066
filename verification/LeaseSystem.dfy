/** The leases of one project's environments and of the project itself, as a transition system over the record
    store: `pkg/stackrecords/environmentleases.go`. Any number of holders take steps in any order; each step is one
    compare-and-swap write. */
module LeaseSystem {
  import opened Wrappers

  datatype Name = Project | Environment(env: string)

  /** A stored lease. `at` is when the store took it, which no code reads. `expiresAt` is what its holder's wall
      clock made of it, which no rule below relies on. */
  datatype Lease = Lease(token: string, expiresAt: int, revision: nat, at: int)

  /** `written` holds every lease ever stored, in order; a lease's revision is its place there. `freed` says which token
      freed which lease, in order. `ttl` is the time a lease must have stood still before another token may take it. */
  datatype World = World(leases: map<Name, Lease>, written: seq<(Name, Lease)>, freed: seq<(Name, string)>, time: int, ttl: nat)

  datatype Step =
    | Pass(span: nat)
    | Put(name: Name, token: string, expiresAt: int)
    | Free(name: Name, token: string)

  function Blank(ttl: nat): World { World(map[], [], [], 0, ttl) }

  predicate Holds(w: World, name: Name, token: string) {
    name in w.leases && w.leases[name].token == token
  }

  /** Nobody renewed the lease for a whole TTL. */
  predicate StoodStill(w: World, lease: Lease) { lease.at + w.ttl <= w.time }

  predicate MayReplace(w: World, name: Name, token: string) {
    name !in w.leases || w.leases[name].token == token || StoodStill(w, w.leases[name])
  }

  predicate Enabled(w: World, step: Step) {
    match step
    case Pass(_) => true
    case Put(name, token, _) => token != "" && MayReplace(w, name, token)
    case Free(name, token) => name in w.leases && MayReplace(w, name, token)
  }

  function Apply(w: World, step: Step): World
    requires Enabled(w, step)
  {
    match step
    case Pass(span) => w.(time := w.time + span)
    case Put(name, token, expiresAt) =>
      var lease := Lease(token, expiresAt, |w.written| + 1, w.time);
      w.(leases := w.leases[name := lease], written := w.written + [(name, lease)])
    case Free(name, token) => w.(leases := w.leases - {name}, freed := w.freed + [(name, token)])
  }

  /** A lease that was once stored under this name. */
  predicate Known(w: World, name: Name, lease: Lease) {
    1 <= lease.revision <= |w.written| && w.written[lease.revision - 1] == (name, lease)
  }

  predicate Inv(w: World) {
    && (forall name :: name in w.leases ==> Known(w, name, w.leases[name]))
    && (forall i :: 0 <= i < |w.written| ==>
          w.written[i].1.revision == i + 1 && w.written[i].1.token != "" && w.written[i].1.at <= w.time)
  }

  lemma InvIsKept(w: World, step: Step)
    requires Inv(w) && Enabled(w, step)
    ensures Inv(Apply(w, step))
  {
  }

  ghost predicate Next(w: World, w': World) {
    exists step :: Enabled(w, step) && w' == Apply(w, step)
  }

  function Last(trace: seq<World>): World
    requires |trace| > 0
  {
    trace[|trace| - 1]
  }

  /** A history of the leases: from none stored, one legal step at a time. */
  ghost predicate Behaviour(trace: seq<World>) {
    trace != [] && trace[0] == Blank(trace[0].ttl) && forall i: nat :: i + 1 < |trace| ==> StepsOn(trace, i)
  }

  ghost predicate StepsOn(trace: seq<World>, i: nat)
    requires i + 1 < |trace|
  {
    Next(trace[i], trace[i + 1])
  }

  lemma StepOf(trace: seq<World>, i: nat) returns (step: Step)
    requires Behaviour(trace) && i + 1 < |trace|
    ensures Enabled(trace[i], step) && trace[i + 1] == Apply(trace[i], step)
  {
    assert StepsOn(trace, i);
    step :| Enabled(trace[i], step) && trace[i + 1] == Apply(trace[i], step);
  }

  lemma {:induction false} BehavioursKeepInv(trace: seq<World>, i: nat)
    requires Behaviour(trace) && i < |trace|
    ensures Inv(trace[i])
  {
    if i > 0 {
      BehavioursKeepInv(trace, i - 1);
      var step := StepOf(trace, i - 1);
      InvIsKept(trace[i - 1], step);
    }
  }

  lemma Extended(trace: seq<World>, step: Step) returns (longer: seq<World>)
    requires Behaviour(trace) && Enabled(Last(trace), step)
    ensures Behaviour(longer) && longer == trace + [Apply(Last(trace), step)] && trace <= longer
  {
    longer := trace + [Apply(Last(trace), step)];
    forall i: nat | i + 1 < |longer| ensures StepsOn(longer, i) {
      assert i + 1 < |trace| ==> StepsOn(trace, i);
    }
  }

  // What each step shows of who took it.

  datatype Deed = Putting | Freeing

  /** The step between two states was this token's writing, or freeing, of this lease. */
  predicate IsDeed(w: World, w': World, deed: Deed, name: Name, token: string) {
    match deed
    case Putting => |w.written| < |w'.written| && w'.written[|w.written|].0 == name && w'.written[|w.written|].1.token == token
    case Freeing => |w.freed| < |w'.freed| && w'.freed[|w.freed|] == (name, token)
  }

  predicate DidAt(trace: seq<World>, k: nat, deed: Deed, name: Name, token: string) {
    k + 1 < |trace| && IsDeed(trace[k], trace[k + 1], deed, name, token)
  }

  lemma DeedsAreSteps(w: World, step: Step, deed: Deed, name: Name, token: string)
    requires Enabled(w, step)
    ensures IsDeed(w, Apply(w, step), deed, name, token) <==>
              if deed == Putting then step.Put? && step.name == name && step.token == token else step == Free(name, token)
  {
  }

  // What holds over every history.

  lemma {:induction false} TimeNeverRunsBack(trace: seq<World>, i: nat, j: nat)
    requires Behaviour(trace) && i <= j < |trace|
    ensures trace[i].time <= trace[j].time && trace[i].ttl == trace[j].ttl
    decreases j - i
  {
    if i < j {
      TimeNeverRunsBack(trace, i, j - 1);
      var step := StepOf(trace, j - 1);
    }
  }

  /** A lease that has not stood still for a whole TTL is lost only by its holder's own freeing. */
  lemma LostOnlyAfterStandingStill(trace: seq<World>, k: nat, name: Name, token: string)
    requires Behaviour(trace) && k + 1 < |trace| && Holds(trace[k], name, token) && !Holds(trace[k + 1], name, token)
    requires !StoodStill(trace[k], trace[k].leases[name])
    ensures DidAt(trace, k, Freeing, name, token)
  {
    var step := StepOf(trace, k);
    assert step.Free?;
  }

  /** A lease is gained only by its holder's own writing. */
  lemma {:induction false} HeldBefore(trace: seq<World>, i: nat, j: nat, name: Name, token: string)
    requires Behaviour(trace) && i <= j < |trace| && Holds(trace[j], name, token)
    requires forall k: nat :: i <= k < j ==> !DidAt(trace, k, Putting, name, token)
    ensures Holds(trace[i], name, token)
    decreases j - i
  {
    if i < j {
      var step := StepOf(trace, j - 1);
      assert !DidAt(trace, j - 1, Putting, name, token);
      HeldBefore(trace, i, j - 1, name, token);
    }
  }

  /** The holder renews its lease less than a TTL apart from state i to state j, and does not free it. */
  ghost predicate KeepsUp(trace: seq<World>, i: nat, j: nat, name: Name, token: string)
    requires i <= j < |trace|
  {
    && (forall k :: i <= k <= j && Holds(trace[k], name, token) ==> !StoodStill(trace[k], trace[k].leases[name]))
    && (forall k: nat :: i <= k < j ==> !DidAt(trace, k, Freeing, name, token))
  }

  /** So a holder that keeps up is never displaced, whatever the others' clocks say. */
  lemma {:induction false} HoldersThatKeepUpStay(trace: seq<World>, i: nat, j: nat, name: Name, token: string)
    requires Behaviour(trace) && i <= j < |trace| && Holds(trace[i], name, token)
    requires KeepsUp(trace, i, j, name, token)
    ensures Holds(trace[j], name, token)
    decreases j - i
  {
    if i < j {
      HoldersThatKeepUpStay(trace, i, j - 1, name, token);
      if !Holds(trace[j], name, token) {
        LostOnlyAfterStandingStill(trace, j - 1, name, token);
      }
    }
  }

  // The two levels: an environment's lease and its project's.

  /** A holder took the environment's lease and then found no other's lease on the project. */
  predicate Entered(trace: seq<World>, taken: nat, looked: nat, env: string, token: string) {
    && taken <= looked < |trace| && Holds(trace[taken], Environment(env), token)
    && (Project !in trace[looked].leases || Holds(trace[looked], Project, token))
  }

  /** A holder took the project's lease and then listed the environments' leases. */
  predicate Listed(trace: seq<World>, taken: nat, listed: nat, token: string) {
    taken <= listed < |trace| && Holds(trace[taken], Project, token)
  }

  /** In every interleaving one of the two sees the other: the environment's holder was in place before the project's
      lease was, so the listing names it. */
  lemma OneSeesTheOther(trace: seq<World>, env: string, deploy: string, a: nat, i: nat, removal: string, p: nat, l: nat)
    requires Behaviour(trace) && deploy != removal
    requires Entered(trace, a, i, env, deploy) && Listed(trace, p, l, removal)
    requires a <= l ==> KeepsUp(trace, a, l, Environment(env), deploy)
    requires p <= i ==> KeepsUp(trace, p, i, Project, removal)
    ensures i < p && Environment(env) in trace[l].leases && Holds(trace[l], Environment(env), deploy)
  {
    if p <= i {
      HoldersThatKeepUpStay(trace, p, i, Project, removal);
    } else {
      HoldersThatKeepUpStay(trace, a, l, Environment(env), deploy);
    }
  }

  /** So a removal that holds the project and has since taken every environment it listed runs beside no deploy that
      keeps its lease. */
  lemma RemovalRunsAlone(trace: seq<World>, n: nat, env: string, deploy: string, a: nat, i: nat, removal: string, p: nat, l: nat)
    requires Behaviour(trace) && deploy != removal && i <= n && l <= n < |trace|
    requires Entered(trace, a, i, env, deploy) && Listed(trace, p, l, removal)
    requires KeepsUp(trace, p, n, Project, removal)
    requires forall name :: name in trace[l].leases && name.Environment? ==>
               exists q :: l <= q <= n && Holds(trace[q], name, removal)
    ensures a > n || !KeepsUp(trace, a, n, Environment(env), deploy)
  {
    if a <= n && KeepsUp(trace, a, n, Environment(env), deploy) {
      OneSeesTheOther(trace, env, deploy, a, i, removal, p, l);
      var q :| l <= q <= n && Holds(trace[q], Environment(env), removal);
      HoldersThatKeepUpStay(trace, a, q, Environment(env), deploy);
    }
  }

  /** Without the second look it fails: a deploy that only takes its own lease may be missed by a removal that listed
      before it, so the order of write and read is what excludes. */
  lemma WithoutLookingBothRun() returns (trace: seq<World>)
    ensures Behaviour(trace) && |trace| == 3
    ensures Listed(trace, 1, 1, "removal") && trace[1].leases.Keys == {Project}
    ensures Holds(trace[2], Environment("e"), "deploy") && Holds(trace[2], Project, "removal")
  {
    trace := [Blank(1)];
    trace := Extended(trace, Put(Project, "removal", 0));
    trace := Extended(trace, Put(Environment("e"), "deploy", 0));
  }
}
