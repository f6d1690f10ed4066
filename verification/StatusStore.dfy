/** `pkg/envsource/status.go`: recording a status, and moving and releasing the marker of a project that shares it.
    Every access below is a step of `SharedStatus`, because `Client` takes no other. */
module StatusStore {
  import opened Wrappers
  import opened SharedStatus

  const TRIES := 10

  datatype Fault = NoFault | Lost | Unacknowledged

  datatype Written = Stored | Stale | WriteFailed

  /** The caller owes one look more or fewer at this status, and as many as before at any other. */
  ghost predicate Shifts(w: World, w': World, me: nat, key: string, more: int) {
    && w'.pending[(me, key)] == w.pending[(me, key)] + more
    && forall other {:trigger w'.pending[(me, other)]} :: other != key ==> w'.pending[(me, other)] == w.pending[(me, other)]
  }

  ghost predicate OwesTheSame(w: World, w': World, me: nat) {
    forall key {:trigger w'.pending[(me, key)]} :: w'.pending[(me, key)] == w.pending[(me, key)]
  }

  function Duty(act: Act): int {
    if act.CreateStatus? || act.DropMarker? || act.TakeOn? then 1 else if act.RemoveStatus? || act.Settle? then -1 else 0
  }

  /** The step after state k is this caller's, and records the status. */
  predicate RecordsAt(trace: seq<World>, k: nat, me: nat, key: string) {
    && ActsAt(trace, k, me) && trace[k].revisions < trace[k + 1].revisions
    && key in trace[k + 1].status && trace[k + 1].status[key] == trace[k + 1].revisions
  }

  ghost predicate HasRecorded(trace: seq<World>, from: int, me: nat, key: string) {
    exists k: nat :: from <= k && RecordsAt(trace, k, me, key)
  }

  lemma StillRecorded(shorter: seq<World>, trace: seq<World>, from: int, later: int, me: nat, key: string)
    requires shorter <= trace && from <= later && HasRecorded(shorter, later, me, key)
    ensures HasRecorded(trace, from, me, key)
  {
    var k: nat :| later <= k && RecordsAt(shorter, k, me, key);
    assert RecordsAt(trace, k, me, key);
  }

  /** In some state since, the marker was not there. */
  ghost predicate WasWithout(trace: seq<World>, from: int, marker: (string, string)) {
    exists k: nat :: from <= k < |trace| && marker !in trace[k].markers
  }

  /** In some state since, the new marker was there, and then in some state the old one was not. */
  ghost predicate HasMoved(trace: seq<World>, from: int, before: (string, string), after: (string, string)) {
    exists k: nat :: from <= k < |trace| && after in trace[k].markers && (before.0 != "" && before != after ==> WasWithout(trace, k, before))
  }

  /** One caller of the store. Between its accesses the others take the steps `rivals` lists, and its accesses fail as
      `faults` lists. */
  class Client {
    const me: nat
    var world: World
    var rivals: seq<seq<Step>>
    var faults: seq<Fault>
    ghost var trace: seq<World>

    constructor (me: nat, rivals: seq<seq<Step>>, faults: seq<Fault>)
      ensures Valid() && world == BLANK && this.me == me && this.rivals == rivals && this.faults == faults
    {
      this.me, world, this.rivals, this.faults := me, BLANK, rivals, faults;
      trace := [BLANK];
    }

    ghost predicate Valid()
      reads this
    {
      Behaviour(trace) && Last(trace) == world && Inv(world)
    }

    /** What every operation keeps: it adds legal steps to the history. */
    twostate predicate Advanced()
      reads this
    {
      Valid() && old(trace) <= trace && (old(faults) == [] ==> faults == [])
    }

    /** Nobody else acts and no access fails. */
    predicate Quiet()
      reads this
    {
      rivals == [] && faults == []
    }

    /** In a quiet store, exactly these statuses and markers are left. */
    twostate predicate Leaves(new status: set<string>, new markers: set<(string, string)>)
      reads this
    {
      old(Quiet()) ==> Quiet() && world.status.Keys == status && world.markers.Keys == markers
    }

    twostate predicate OnlyLooked()
      reads this
    {
      old(Quiet()) ==> Quiet() && world.status == old(world.status) && world.markers == old(world.markers)
    }

    /** The looks this caller owes are those it owed, but for this one. */
    twostate predicate Owes(new key: string, more: int)
      reads this
    {
      Shifts(old(world), world, me, key, more)
    }

    twostate predicate OwesAsBefore()
      reads this
    {
      OwesTheSame(old(world), world, me)
    }

    method Take(step: Step)
      requires Valid() && Enabled(world, step)
      modifies this`world, this`trace
      ensures Advanced() && world == Apply(old(world), step) && trace == old(trace) + [world]
    {
      InvIsKept(world, step);
      ghost var longer := Extended(trace, step);
      world := Apply(world, step);
      trace := longer;
    }

    /** This caller's own step. */
    method Do(act: Act)
      requires Valid() && Enabled(world, Step(me, act))
      modifies this`world, this`trace
      ensures Advanced() && world == Apply(old(world), Step(me, act)) && Owes(act.key, Duty(act))
      ensures act.CreateStatus? || act.UpdateStatus? ==> HasRecorded(trace, |old(trace)| - 1, me, act.key)
    {
      Take(Step(me, act));
      assert act.CreateStatus? || act.UpdateStatus? ==> RecordsAt(trace, |old(trace)| - 1, me, act.key);
    }

    /** Another's step: it takes on and ends that other's duties alone. */
    method TakeRivals(step: Step)
      requires Valid() && Enabled(world, step) && step.actor != me
      modifies this`world, this`trace
      ensures Advanced() && OwesAsBefore()
    {
      Take(step);
    }

    method Interfere()
      requires Valid()
      modifies this`world, this`trace, this`rivals
      ensures Advanced() && OnlyLooked() && OwesAsBefore()
    {
      if rivals == [] {
        return;
      }
      var steps := rivals[0];
      rivals := rivals[1..];
      for i := 0 to |steps|
        invariant Advanced() && OwesAsBefore()
      {
        if Enabled(world, steps[i]) && steps[i].actor != me {
          TakeRivals(steps[i]);
        }
      }
    }

    method Draw() returns (fault: Fault)
      modifies this`faults
      ensures old(faults) == [] ==> fault == NoFault && faults == []
    {
      if faults == [] {
        return NoFault;
      }
      fault := faults[0];
      faults := faults[1..];
    }

    /** `Read` of a status: its revision, 0 for none. A caller that looks for a status it may have orphaned, and finds
        none, is through. */
    method ReadStatus(key: string, last: bool) returns (revision: Option<nat>)
      requires Valid() && (last ==> (me, key) in world.pending)
      modifies this`world, this`trace, this`rivals, this`faults
      ensures Advanced() && OnlyLooked() && (old(faults) == [] ==> revision.Some?)
      ensures revision == Some(0) ==> key !in world.status
      ensures revision.Some? && revision.value > 0 ==> key in world.status && world.status[key] == revision.value
      ensures if last && revision == Some(0) then Owes(key, -1) else OwesAsBefore()
    {
      Interfere();
      var fault := Draw();
      if fault != NoFault {
        return None;
      } else if key in world.status {
        return Some(world.status[key]);
      }
      if last {
        Do(Settle(key));
      }
      return Some(0);
    }

    /** `Write` of a status over the revision read; creating it takes on the duty to look who shares it. */
    method WriteStatus(key: string, revision: nat) returns (result: Written)
      requires Valid()
      modifies this`world, this`trace, this`rivals, this`faults
      ensures Advanced() && (result == Stored ==> key in world.status)
      ensures old(Quiet()) && revision == (if key in old(world.status) then old(world.status)[key] else 0) ==>
                result == Stored && Leaves(old(world).status.Keys + {key}, old(world).markers.Keys)
      ensures result == Stored ==> Owes(key, if revision == 0 then 1 else 0) && HasRecorded(trace, |old(trace)| - 1, me, key)
      ensures result == Stale ==> OwesAsBefore() && if key in world.status then world.status[key] != revision else revision != 0
      ensures result == WriteFailed ==> old(faults) != []
    {
      Interfere();
      var fault := Draw();
      if fault == Lost || (if key in world.status then world.status[key] != revision else revision != 0) {
        return if fault == NoFault then Stale else WriteFailed;
      }
      ghost var before := trace;
      Do(if key !in world.status then CreateStatus(key) else UpdateStatus(key));
      StillRecorded(trace, trace, |old(trace)| - 1, |before| - 1, me, key);
      return if fault == NoFault then Stored else WriteFailed;
    }

    /** `Remove` of a status under the revision read; one already gone is as good as removed. */
    method RemoveStatus(key: string, revision: nat) returns (result: Written)
      requires Valid() && (me, key) in world.pending && revision > 0
      modifies this`world, this`trace, this`rivals, this`faults
      ensures Advanced() && (result == Stored ==> key !in world.status)
      ensures result == Stored ==> Owes(key, -1)
      ensures result == Stale ==> OwesAsBefore() && key in world.status && world.status[key] != revision
      ensures result == WriteFailed ==> old(faults) != []
      ensures old(Quiet()) && key in old(world).status && old(world).status[key] == revision ==>
                result == Stored && Leaves(old(world).status.Keys - {key}, old(world).markers.Keys)
    {
      Interfere();
      var fault := Draw();
      if fault == Lost || (key in world.status && world.status[key] != revision) {
        return if fault == NoFault then Stale else WriteFailed;
      }
      if key in world.status {
        Do(SharedStatus.Act.RemoveStatus(key));
      } else {
        Do(Settle(key));
      }
      return if fault == NoFault then Stored else WriteFailed;
    }

    /** `List` of the markers under a key. A caller that finds one is through. */
    method ListSharers(key: string) returns (shared: Option<bool>)
      requires Valid() && (me, key) in world.pending
      modifies this`world, this`trace, this`rivals, this`faults
      ensures Advanced() && OnlyLooked() && (old(faults) == [] ==> shared.Some?)
      ensures shared.Some? ==> (shared.value <==> IsShared(world, key))
      ensures if shared == Some(true) then Owes(key, -1) else OwesAsBefore()
    {
      Interfere();
      var fault := Draw();
      if fault != NoFault {
        return None;
      }
      if IsShared(world, key) {
        Do(Settle(key));
        return Some(true);
      }
      return Some(false);
    }

    method ReadMarker(key: string, project: string) returns (revision: Option<nat>)
      requires Valid()
      modifies this`world, this`trace, this`rivals, this`faults
      ensures Advanced() && OnlyLooked() && OwesAsBefore() && (old(faults) == [] ==> revision.Some?)
      ensures revision == Some(0) ==> (key, project) !in world.markers
      ensures revision.Some? && revision.value > 0 ==> (key, project) in world.markers && world.markers[(key, project)] == revision.value
    {
      Interfere();
      var fault := Draw();
      return if fault != NoFault then None
             else if (key, project) in world.markers then Some(world.markers[(key, project)])
             else Some(0);
    }

    /** `Write` of a marker that was not there. */
    method CreateMarker(key: string, project: string) returns (result: Written)
      requires Valid()
      modifies this`world, this`trace, this`rivals, this`faults
      ensures Advanced() && OwesAsBefore()
      ensures if result == WriteFailed then old(faults) != [] else (key, project) in world.markers
      ensures old(Quiet()) && (key, project) !in old(world).markers ==>
                result == Stored && Leaves(old(world).status.Keys, old(world).markers.Keys + {(key, project)})
    {
      Interfere();
      var fault := Draw();
      if fault == Lost || (key, project) in world.markers {
        return if fault == NoFault then Stale else WriteFailed;
      }
      Do(AddMarker(key, project));
      return if fault == NoFault then Stored else WriteFailed;
    }

    /** `Remove` of a marker under the revision read. */
    method RemoveMarker(key: string, project: string, revision: nat) returns (result: Written)
      requires Valid() && revision > 0
      modifies this`world, this`trace, this`rivals, this`faults
      ensures Advanced() && (result == Stored ==> (key, project) !in world.markers)
      ensures result == Stored ==> Owes(key, 1)
      ensures result == Stale ==> OwesAsBefore() && (key, project) in world.markers && world.markers[(key, project)] != revision
      ensures result == WriteFailed ==> old(faults) != []
      ensures old(Quiet()) && (key, project) in old(world).markers && old(world).markers[(key, project)] == revision ==>
                result == Stored && Leaves(old(world).status.Keys, old(world).markers.Keys - {(key, project)})
    {
      Interfere();
      var fault := Draw();
      var marker := (key, project);
      if fault == Lost || (marker in world.markers && world.markers[marker] != revision) {
        return if fault == NoFault then Stale else WriteFailed;
      }
      if marker in world.markers {
        Do(DropMarker(key, project));
      } else {
        Do(TakeOn(key));
      }
      return if fault == NoFault then Stored else WriteFailed;
    }
  }

  predicate Sharers(markers: set<(string, string)>, key: string) {
    exists marker :: marker in markers && marker.0 == key
  }

  method TryForgetStatus(client: Client, key: string) returns (ok: bool, again: bool)
    requires client.Valid() && (client.me, key) in client.world.pending
    modifies client
    ensures client.Advanced() && (ok ==> !again && client.Owes(key, -1) && key !in client.world.status)
    ensures again ==> client.OwesAsBefore() && |old(client.trace)| < |client.trace|
    ensures old(client.faults) == [] ==> ok || again
    ensures old(client.Quiet()) ==> ok
    ensures client.Leaves(old(client.world).status.Keys - {key}, old(client.world).markers.Keys)
  {
    again := false;
    var revision := client.ReadStatus(key, true);
    if revision.None? || revision.value == 0 {
      return revision.Some?, false;
    }
    var removed := client.RemoveStatus(key, revision.value);
    return removed == Stored, removed == Stale;
  }

  /** Removes a status nobody shares. Whoever calls it ends without an error only after a look at which the status was
      shared or gone. */
  method ForgetUnshared(client: Client, key: string) returns (ok: bool)
    requires client.Valid() && (client.me, key) in client.world.pending
    modifies client
    ensures client.Advanced() && (ok ==> client.Owes(key, -1) && !IsOrphan(client.world, key))
    ensures old(client.Quiet()) ==> ok
    ensures old(client.faults) == [] && !ok ==> |client.trace| >= |old(client.trace)| + TRIES
    ensures client.Leaves(old(client.world).status.Keys - (if Sharers(old(client.world).markers.Keys, key) then {} else {key}),
                          old(client.world).markers.Keys)
  {
    var shared := client.ListSharers(key);
    if shared.None? || shared.value {
      return shared.Some?;
    }
    for n := 0 to TRIES
      invariant client.Advanced() && client.OwesAsBefore() && |client.trace| >= |old(client.trace)| + n
      invariant old(client.Quiet()) ==> n == 0
      invariant client.OnlyLooked()
    {
      var again;
      ok, again := TryForgetStatus(client, key);
      if !again {
        return;
      }
    }
    return false;
  }

  /** The statuses left once one is recorded: it stays if it was there, or is shared. */
  function StatusesKept(w: World, key: string): set<string> {
    if key in w.status || Sharers(w.markers.Keys, key) then w.status.Keys + {key} else w.status.Keys - {key}
  }

  method TryWriteStatus(client: Client, key: string) returns (ok: bool, again: bool)
    requires client.Valid()
    modifies client
    ensures client.Advanced() && (ok || again ==> client.OwesAsBefore()) && !(ok && again)
    ensures ok ==> HasRecorded(client.trace, |old(client.trace)| - 1, client.me, key)
    ensures old(client.Quiet()) ==> ok
    ensures again ==> |old(client.trace)| < |client.trace|
    ensures old(client.faults) == [] && !ok && !again ==> |client.trace| >= |old(client.trace)| + TRIES
    ensures client.Leaves(StatusesKept(old(client.world), key), old(client.world).markers.Keys)
  {
    var revision := client.ReadStatus(key, false);
    if revision.None? {
      return false, false;
    }
    ghost var before := |client.trace| - 1;
    var written := client.WriteStatus(key, revision.value);
    ok, again := written == Stored, written == Stale;
    ghost var recorded := client.trace;
    if ok && revision.value == 0 {
      ok := ForgetUnshared(client, key);
    }
    if ok {
      StillRecorded(recorded, client.trace, |old(client.trace)| - 1, before, client.me, key);
    }
  }

  /** Records a status, and looks who shares it if the record made it. */
  method WriteStatus(client: Client, key: string) returns (ok: bool)
    requires client.Valid()
    modifies client
    ensures client.Advanced() && (ok ==> client.OwesAsBefore() && HasRecorded(client.trace, |old(client.trace)| - 1, client.me, key))
    ensures old(client.Quiet()) ==> ok
    ensures old(client.faults) == [] && !ok ==> |client.trace| >= |old(client.trace)| + TRIES
    ensures client.Leaves(StatusesKept(old(client.world), key), old(client.world).markers.Keys)
  {
    for n := 0 to TRIES
      invariant client.Advanced() && client.OwesAsBefore() && |client.trace| >= |old(client.trace)| + n
      invariant client.OnlyLooked() && (old(client.Quiet()) ==> n == 0)
    {
      ghost var before := |client.trace| - 1;
      var again;
      ok, again := TryWriteStatus(client, key);
      if !again {
        if ok {
          StillRecorded(client.trace, client.trace, |old(client.trace)| - 1, before, client.me, key);
        }
        return;
      }
    }
    return false;
  }

  method TryForgetMarker(client: Client, key: string, project: string) returns (ok: bool, again: bool)
    requires client.Valid()
    modifies client
    ensures client.Advanced() && (ok ==> !again && client.Owes(key, 1))
    ensures ok ==> (key, project) !in client.world.markers
    ensures again ==> client.OwesAsBefore() && |old(client.trace)| < |client.trace|
    ensures old(client.faults) == [] ==> ok || again
    ensures old(client.Quiet()) ==> ok
    ensures client.Leaves(old(client.world).status.Keys, old(client.world).markers.Keys - {(key, project)})
  {
    var revision := client.ReadMarker(key, project);
    if revision.None? {
      return false, false;
    } else if revision.value == 0 {
      client.Do(TakeOn(key));
      return true, false;
    }
    var removed := client.RemoveMarker(key, project, revision.value);
    return removed == Stored, removed == Stale;
  }

  /** The statuses left once a project's marker under this key is gone. */
  function StatusesLeft(w: World, key: string, project: string): set<string> {
    if key == "" || Sharers(w.markers.Keys - {(key, project)}, key) then w.status.Keys else w.status.Keys - {key}
  }

  /** Takes a project's marker away, and the status with it if it was the last. */
  method Release(client: Client, key: string, project: string) returns (ok: bool)
    requires client.Valid()
    modifies client
    ensures client.Advanced() && (ok ==> client.OwesAsBefore())
    ensures ok && key != "" ==> WasWithout(client.trace, |old(client.trace)| - 1, (key, project))
    ensures old(client.Quiet()) ==> ok
    ensures old(client.faults) == [] && !ok ==> |client.trace| >= |old(client.trace)| + TRIES
    ensures client.Leaves(StatusesLeft(old(client.world), key, project),
                          if key == "" then old(client.world).markers.Keys else old(client.world).markers.Keys - {(key, project)})
  {
    if key == "" {
      return true;
    }
    for n := 0 to TRIES
      invariant client.Advanced() && client.OwesAsBefore() && |client.trace| >= |old(client.trace)| + n
      invariant client.OnlyLooked() && (old(client.Quiet()) ==> n == 0)
    {
      var again;
      ok, again := TryForgetMarker(client, key, project);
      if ok {
        ghost var gone := client.trace;
        assert (key, project) !in gone[|gone| - 1].markers;
        ok := ForgetUnshared(client, key);
        assert client.trace[|gone| - 1] == gone[|gone| - 1];
        return;
      } else if !again {
        return false;
      }
    }
    return false;
  }

  /** Moves a project's marker from one key to another: the new one is in place before the old one goes. */
  method MoveSharer(client: Client, project: string, before: string, after: string) returns (ok: bool)
    requires client.Valid()
    modifies client
    ensures client.Advanced() && (ok ==> client.OwesAsBefore())
    ensures ok ==> HasMoved(client.trace, |old(client.trace)| - 1, (before, project), (after, project))
    ensures old(client.Quiet()) ==> ok
    ensures old(client.faults) == [] && !ok ==> |client.trace| >= |old(client.trace)| + TRIES
    ensures client.Leaves(
              if before == after then old(client.world).status.Keys else StatusesLeft(old(client.world), before, project),
              old(client.world).markers.Keys + {(after, project)} -
                (if before == "" || before == after then {} else {(before, project)}))
  {
    var revision := client.ReadMarker(after, project);
    if revision.None? {
      return false;
    }
    if revision.value == 0 {
      var written := client.CreateMarker(after, project);
      if written == WriteFailed {
        return false;
      }
    }
    ghost var moved := client.trace;
    assert (after, project) in moved[|moved| - 1].markers;
    if before == "" || before == after {
      return true;
    }
    ok := Release(client, before, project);
    assert client.trace[|moved| - 1] == moved[|moved| - 1];
  }
}
