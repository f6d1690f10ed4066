/** `pkg/variablestore/bindings.go`: publishing, removing and resolving bindings while others do the same between any
    two accesses. Every write below is a step of `BindingSystem`, because `Client` takes no other. */
module Bindings {
  import opened Wrappers
  import opened BindingSystem

  const TRIES := 10
  const TIER_WIDE := "*"

  datatype Fault = NoFault | Lost | Unacknowledged

  datatype Written = Stored | Stale | WriteFailed

  datatype Published = Published(version: nat) | ClaimedBy(owner: string) | ChangedTo(version: nat) | Raced | Failed

  datatype Removal = Removed | Unchanged | RemovalFailed

  function At(name: string, environment: string): Coordinate {
    Coordinate(name, if environment == "" then TIER_WIDE else environment)
  }

  function Shadowing(environment: string): seq<string> {
    if environment == "" || environment == TIER_WIDE then [""] else [environment, ""]
  }

  /** What a call may do: nothing, publish, take either half of a binding, one of its halves, or what a version-checked
      removal takes. */
  datatype Limit =
    | ToNothing
    | ToPublish(publish: Publish)
    | ToRecord(at: Coordinate)
    | ToValue(at: Coordinate)
    | ToEither(at: Coordinate)
    | ToVersion(at: Coordinate, expected: nat)

  /** A version-checked removal takes only the record of a publish of the expected version, and a value whose record is
      gone. */
  predicate Permits(limit: Limit, w: World, act: Act) {
    match limit
    case ToNothing => false
    case ToPublish(p) => act.WritePair? && act.publish == p
    case ToRecord(at) => act.DropRecord? && act.at == at
    case ToValue(at) => act.DropValue? && act.at == at
    case ToEither(at) => !act.WritePair? && act.at == at
    case ToVersion(at, expected) =>
      !act.WritePair? && act.at == at && if act.DropRecord? then VersionOf(w, act.revision) == expected else PairAt(w, at).record == 0
  }

  /** From one state on, this client did only what the limit permits. */
  ghost predicate KeepsTo(trace: seq<World>, from: int, me: nat, limit: Limit) {
    forall k: nat, act {:trigger DidAt(trace, k, me, act)} :: from <= k && DidAt(trace, k, me, act) ==> Permits(limit, trace[k], act)
  }

  lemma KeepsToStill(shorter: seq<World>, trace: seq<World>, from: int, me: nat, limit: Limit)
    requires shorter != [] && shorter <= trace && from < |shorter|
    requires KeepsTo(shorter, from, me, limit) && KeepsTo(trace, |shorter| - 1, me, limit)
    ensures KeepsTo(trace, from, me, limit)
  {
    forall k: nat, act | from <= k && DidAt(trace, k, me, act) ensures Permits(limit, trace[k], act) {
      assert k + 1 < |shorter| ==> DidAt(shorter, k, me, act);
    }
  }

  /** One caller of the store, among others. Between its accesses the others take the steps `rivals` lists, and its accesses
      fail as `faults` lists. */
  class Client {
    const me: nat
    var world: World
    var rivals: seq<seq<Step>>
    var faults: seq<Fault>
    ghost var trace: seq<World>

    constructor (me: nat, rivals: seq<seq<Step>>, faults: seq<Fault>)
      ensures Valid() && world == BLANK && this.me == me && this.rivals == rivals && this.faults == faults
    {
      this.me, world, this.rivals, this.faults := me, BLANK, rivals, faults;
      trace := [BLANK];
    }

    ghost predicate Valid()
      reads this
    {
      Behaviour(trace) && Last(trace) == world
    }

    lemma InvHolds()
      requires Valid()
      ensures Inv(world)
    {
      BehavioursKeepInv(trace, |trace| - 1);
    }

    twostate predicate Advanced()
      reads this
    {
      Valid() && old(trace) <= trace && old(world.written) <= world.written && (old(faults) == [] ==> faults == [])
    }

    predicate Quiet()
      reads this
    {
      rivals == [] && faults == []
    }

    twostate predicate Undisturbed()
      reads this
    {
      old(Quiet()) ==> Quiet() && world == old(world)
    }

    /** All it has done since. */
    twostate predicate KeptTo(new limit: Limit)
      reads this
    {
      KeepsTo(trace, |old(trace)| - 1, me, limit)
    }

    /** A quiet store keeps every other binding, and this one as given. */
    twostate predicate Leaves(new at: Coordinate, new pair: Pair)
      reads this
    {
      old(Quiet()) ==>
        Quiet() && PairAt(world, at) == pair && world.written == old(world.written)
        && forall other :: other != at ==> PairAt(world, other) == PairAt(old(world), other)
    }

    method Take(step: Step)
      requires Valid() && Enabled(world, step)
      modifies this`world, this`trace
      ensures Advanced() && world == Apply(old(world), step) && trace == old(trace) + [world]
      ensures step.actor != me ==> KeptTo(ToNothing)
      ensures forall limit :: Permits(limit, old(world), step.act) ==> KeptTo(limit)
    {
      ghost var longer := Extended(trace, step);
      world := Apply(world, step);
      trace := longer;
      forall k: nat, act | |old(trace)| - 1 <= k && DidAt(trace, k, me, act) ensures step == Step(me, act) && trace[k] == old(world) {
        assert trace[k + 1].log[|trace[k].log|] == step;
      }
    }

    method Interfere()
      requires Valid()
      modifies this`world, this`trace, this`rivals
      ensures Advanced() && Undisturbed() && KeptTo(ToNothing)
    {
      if rivals == [] {
        return;
      }
      var steps := rivals[0];
      rivals := rivals[1..];
      for i := 0 to |steps|
        invariant Advanced() && KeptTo(ToNothing)
      {
        ghost var before := trace;
        if Enabled(world, steps[i]) && steps[i].actor != me {
          Take(steps[i]);
          KeepsToStill(before, trace, |old(trace)| - 1, me, ToNothing);
        }
      }
    }

    method Draw() returns (fault: Fault)
      modifies this`faults
      ensures old(faults) == [] ==> fault == NoFault && faults == []
    {
      if faults == [] {
        return NoFault;
      }
      fault := faults[0];
      faults := faults[1..];
    }

    /** `Read` of both entries' revisions at once would be more than the store offers: each read sees one moment. */
    method Look() returns (found: bool)
      requires Valid()
      modifies this`world, this`trace, this`rivals, this`faults
      ensures Advanced() && Undisturbed() && KeptTo(ToNothing) && (old(faults) == [] ==> found)
    {
      Interfere();
      var fault := Draw();
      found := fault == NoFault;
    }

    /** This client's own step, at the end of an access. */
    method Do(act: Act, ghost from: nat, ghost limit: Limit)
      requires Valid() && Enabled(world, Step(me, act)) && Permits(limit, world, act)
      requires from < |trace| && KeepsTo(trace, from, me, ToNothing)
      modifies this`world, this`trace
      ensures Advanced() && world == Apply(old(world), Step(me, act)) && trace == old(trace) + [world]
      ensures KeepsTo(trace, from, me, limit)
    {
      Take(Step(me, act));
      KeepsToStill(old(trace), trace, from, me, limit);
    }

    /** `WritePair`: both entries, or neither. */
    method PutPair(p: Publish, base: Pair) returns (result: Written)
      requires Valid() && p.version == VersionOf(world, base.record) + 1 && MayWrite(world, p.owner, base.record)
      requires base.record <= |world.written|
      modifies this`world, this`trace, this`rivals, this`faults
      ensures Advanced() && KeptTo(ToPublish(p)) && (result == Stale ==> KeptTo(ToNothing))
      ensures result == Stored ==> IsPublished(trace, p, base)
      ensures result == Stale ==> PairAt(world, p.at) != base
      ensures result == WriteFailed ==> old(faults) != []
      ensures old(Quiet()) && PairAt(old(world), p.at) == base ==>
                && result == Stored && Quiet() && world.pairs == old(world).pairs[p.at := Pair(|world.written|, |world.written|)]
                && world.written == old(world).written + [p]
    {
      Interfere();
      var fault := Draw();
      if fault == Lost || PairAt(world, p.at) != base {
        return if fault == NoFault then Stale else WriteFailed;
      }
      Do(WritePair(p, base), |old(trace)| - 1, ToPublish(p));
      return if fault == NoFault then Stored else WriteFailed;
    }

    /** `Remove` of the record under the revision it was read at; one already gone counts as removed. */
    method RemoveRecord(at: Coordinate, revision: nat) returns (result: Written)
      requires Valid() && 0 < revision <= |world.written|
      modifies this`world, this`trace, this`rivals, this`faults
      ensures Advanced() && KeptTo(ToRecord(at)) && KeptTo(ToVersion(at, VersionOf(old(world), revision)))
      ensures result == Stale ==> KeptTo(ToNothing) && PairAt(world, at).record !in {0, revision}
      ensures result == WriteFailed ==> old(faults) != []
      ensures result == Stored ==> PairAt(world, at).record == 0
      ensures old(Quiet()) && PairAt(old(world), at).record == revision ==> result == Stored
      ensures PairAt(old(world), at).record == revision ==> Leaves(at, PairAt(old(world), at).(record := 0))
    {
      ghost var expected := VersionOf(world, revision);
      Interfere();
      var fault := Draw();
      var stored := PairAt(world, at).record;
      if fault == Lost || (stored > 0 && stored != revision) {
        return if fault == NoFault then Stale else WriteFailed;
      }
      if stored > 0 {
        ghost var before := trace;
        Do(DropRecord(at, revision), |old(trace)| - 1, ToVersion(at, expected));
        KeepsToStill(before, trace, |old(trace)| - 1, me, ToRecord(at));
      }
      return if fault == NoFault then Stored else WriteFailed;
    }

    method RemoveValue(at: Coordinate, revision: nat) returns (result: Written)
      requires Valid() && 0 < revision <= |world.written|
      modifies this`world, this`trace, this`rivals, this`faults
      ensures Advanced() && KeptTo(ToValue(at)) && (result == Stale ==> KeptTo(ToNothing) && PairAt(world, at).value !in {0, revision})
      ensures result == WriteFailed ==> old(faults) != []
      ensures PairAt(old(world), at).record == 0 ==> forall expected :: KeptTo(ToVersion(at, expected))
      ensures result == Stored ==> PairAt(world, at).value == 0
      ensures old(Quiet()) && PairAt(old(world), at).value == revision ==> result == Stored
      ensures PairAt(old(world), at).value == revision ==> Leaves(at, PairAt(old(world), at).(value := 0))
    {
      Interfere();
      var fault := Draw();
      var stored := PairAt(world, at).value;
      if fault == Lost || (stored > 0 && stored != revision) {
        return if fault == NoFault then Stale else WriteFailed;
      }
      if stored > 0 {
        ghost var before := trace;
        if PairAt(old(world), at).record == 0 {
          StaysLone(trace, |old(trace)| - 1, |trace| - 1, at, revision);
        }
        Do(DropValue(at, revision), |old(trace)| - 1, ToValue(at));
        KeepsLoneStill(before, trace, |old(trace)| - 1, me, at, PairAt(old(world), at).record == 0);
      }
      return if fault == NoFault then Stored else WriteFailed;
    }
  }

  lemma KeepsLoneStill(shorter: seq<World>, trace: seq<World>, from: nat, me: nat, at: Coordinate, lone: bool)
    requires shorter != [] && shorter <= trace && from < |shorter| && KeepsTo(shorter, from, me, ToNothing)
    requires lone ==> forall expected :: KeepsTo(trace, |shorter| - 1, me, ToVersion(at, expected))
    ensures lone ==> forall expected :: KeepsTo(trace, from, me, ToVersion(at, expected))
  {
    if lone {
      forall expected ensures KeepsTo(trace, from, me, ToVersion(at, expected)) {
        KeepsToStill(shorter, trace, from, me, ToVersion(at, expected));
      }
    }
  }

  /** A value whose record was gone when it was stored under this revision is still without one. */
  lemma StaysLone(trace: seq<World>, i: nat, j: nat, at: Coordinate, revision: nat)
    requires Behaviour(trace) && i <= j < |trace| && PairAt(trace[i], at).record == 0
    requires PairAt(trace[j], at).value == revision && 0 < revision <= |trace[i].written|
    ensures PairAt(trace[j], at).record == 0
  {
    if PairAt(trace[j], at).record > 0 {
      HalvesAgree(trace, j, at);
      RecordsNeverReturn(trace, i, j, at);
    }
  }

  /** The last step of the history stored both halves of this publish over the version before it. */
  ghost predicate IsPublished(trace: seq<World>, p: Publish, base: Pair) {
    && |trace| > 1
    && var w, w' := trace[|trace| - 2], Last(trace);
    && PairAt(w, p.at) == base && p.version == VersionOf(w, base.record) + 1
    && w'.written == w.written + [p] && PairAt(w', p.at) == Pair(|w'.written|, |w'.written|)
  }

  /** What publishing a binding came to. */
  ghost predicate EndsPublishing(trace: seq<World>, result: Published, at: Coordinate, owner: string, record: string,
                                 sealed: string, expected: Option<nat>)
  {
    result.Published? ==>
      && (exists base :: IsPublished(trace, Publish(at, owner, result.version, record, sealed), base))
      && (expected.Some? ==> result.version == expected.value + 1)
  }

  /** Publishes a binding: both halves at once, over the version and the owner it read, or nothing. */
  method PublishPair(client: Client, at: Coordinate, owner: string, record: string, sealed: string, expected: Option<nat>)
    returns (result: Published, ghost p: Publish)
    requires client.Valid()
    modifies client
    ensures client.Advanced() && client.KeptTo(ToPublish(p)) && IsPublishOf(p, at, owner, record, sealed)
    ensures EndsPublishing(client.trace, result, at, owner, record, sealed, expected)
    ensures result.ClaimedBy? || result.ChangedTo? || result.Raced? ==> client.KeptTo(ToNothing)
    ensures var w := client.world;
            match result
            case Published(_) => true
            case ClaimedBy(holder) => !MayWrite(w, owner, PairAt(w, at).record) && HoldsRecord(w, at, holder)
            case ChangedTo(version) => expected.Some? && version == VersionOf(w, PairAt(w, at).record) != expected.value
            case Raced => |old(client.trace)| < |client.trace|
            case Failed => old(client.faults) != []
    ensures old(client.Quiet()) ==>
              match result
              case Published(version) => version == VersionOf(old(client.world), PairAt(old(client.world), at).record) + 1
              case ClaimedBy(_) => !MayWrite(old(client.world), owner, PairAt(old(client.world), at).record)
              case ChangedTo(version) => expected.Some? && version != expected.value
              case _ => false
  {
    p := Publish(at, owner, 1, record, sealed);
    var found := client.Look();
    if !found {
      return Failed, p;
    }
    client.InvHolds();
    assert PairOk(client.world, at);
    var revision := PairAt(client.world, at).record;
    var version := VersionOf(client.world, revision);
    if !MayWrite(client.world, owner, revision) {
      return ClaimedBy(client.world.written[revision - 1].owner), p;
    } else if expected.Some? && version != expected.value {
      return ChangedTo(version), p;
    }
    var pair := Publish(at, owner, version + 1, record, sealed);
    p := pair;
    result := WriteOver(client, pair, revision, |old(client.trace)| - 1);
  }

  predicate HoldsRecord(w: World, at: Coordinate, holder: string) {
    0 < PairAt(w, at).record <= |w.written| && w.written[PairAt(w, at).record - 1].owner == holder
  }

  predicate IsPublishOf(p: Publish, at: Coordinate, owner: string, record: string, sealed: string) {
    p == Publish(at, owner, p.version, record, sealed)
  }

  /** Reads the value's entry too, and writes both over what was read. */
  method WriteOver(client: Client, p: Publish, revision: nat, ghost from: nat) returns (result: Published)
    requires client.Valid() && from < |client.trace| && KeepsTo(client.trace, from, client.me, ToNothing)
    requires revision == PairAt(client.world, p.at).record <= |client.world.written| && p.version == VersionOf(client.world, revision) + 1
    requires MayWrite(client.world, p.owner, revision)
    modifies client
    ensures client.Advanced() && KeepsTo(client.trace, from, client.me, ToPublish(p))
    ensures result == Raced ==> KeepsTo(client.trace, from, client.me, ToNothing)
    ensures result.Published? || result == Raced || result == Failed
    ensures result.Published? ==> result.version == p.version && exists base :: IsPublished(client.trace, p, base)
    ensures result == Raced ==> |old(client.trace)| < |client.trace|
    ensures result == Failed ==> old(client.faults) != []
    ensures old(client.Quiet()) ==> result.Published?
  {
    ghost var before := client.trace;
    var found := client.Look();
    KeepsToStill(before, client.trace, from, client.me, ToNothing);
    if !found {
      return Failed;
    }
    before := client.trace;
    var base := Pair(revision, PairAt(client.world, p.at).value);
    var written := client.PutPair(p, base);
    KeepsToStill(before, client.trace, from, client.me, ToPublish(p));
    match written
    case Stored =>
      assert IsPublished(client.trace, p, base);
      result := Published(p.version);
    case Stale =>
      KeepsToStill(before, client.trace, from, client.me, ToNothing);
      result := Raced;
    case WriteFailed => result := Failed;
  }

  function Half(w: World, at: Coordinate, record: bool): nat {
    if record then PairAt(w, at).record else PairAt(w, at).value
  }

  function WithoutHalf(pair: Pair, record: bool): Pair { if record then pair.(record := 0) else pair.(value := 0) }

  method TryForget(client: Client, at: Coordinate, record: bool) returns (ok: bool, again: bool)
    requires client.Valid()
    modifies client
    ensures client.Advanced() && client.KeptTo(if record then ToRecord(at) else ToValue(at))
    ensures ok ==> !again && Half(client.world, at, record) == 0
    ensures old(client.Quiet()) ==> ok
    ensures again ==> |old(client.trace)| < |client.trace|
    ensures old(client.faults) == [] ==> ok || again
    ensures client.Leaves(at, WithoutHalf(PairAt(old(client.world), at), record))
  {
    ok := client.Look();
    client.InvHolds();
    assert PairOk(client.world, at);
    var revision := Half(client.world, at, record);
    if !ok || revision == 0 {
      return ok, false;
    }
    ghost var before := client.trace;
    var removed;
    if record {
      removed := client.RemoveRecord(at, revision);
    } else {
      removed := client.RemoveValue(at, revision);
    }
    KeepsToStill(before, client.trace, |old(client.trace)| - 1, client.me, if record then ToRecord(at) else ToValue(at));
    return removed == Stored, removed == Stale;
  }

  /** Removes an entry whatever it has become: `Forget`. */
  method Forget(client: Client, at: Coordinate, record: bool) returns (ok: bool)
    requires client.Valid()
    modifies client
    ensures client.Advanced() && client.KeptTo(if record then ToRecord(at) else ToValue(at))
    ensures ok ==> Half(client.world, at, record) == 0
    ensures old(client.Quiet()) ==> ok
    ensures old(client.faults) == [] && !ok ==> |client.trace| >= |old(client.trace)| + TRIES
    ensures client.Leaves(at, WithoutHalf(PairAt(old(client.world), at), record))
  {
    for n := 0 to TRIES
      invariant client.Advanced() && client.Undisturbed() && (old(client.Quiet()) ==> n == 0) && |client.trace| >= |old(client.trace)| + n
      invariant client.KeptTo(if record then ToRecord(at) else ToValue(at))
    {
      ghost var before := client.trace;
      var again;
      ok, again := TryForget(client, at, record);
      KeepsToStill(before, client.trace, |old(client.trace)| - 1, client.me, if record then ToRecord(at) else ToValue(at));
      if !again {
        return;
      }
    }
    return false;
  }

  /** Of the steps since state i, each of this client's that takes a value leaves a record torn exactly if a publish has
      overtaken the removal. */
  ghost predicate TearsOnlyIfOvertaken(trace: seq<World>, i: nat, me: nat, at: Coordinate) {
    forall k: nat, revision {:trigger DidAt(trace, k, me, DropValue(at, revision))} ::
      i <= k && DidAt(trace, k, me, DropValue(at, revision)) ==> (IsTorn(trace[k + 1], at) <==> IsOvertaken(trace, i, k, at))
  }

  lemma TearingIsOvertaking(trace: seq<World>, i: nat, me: nat, at: Coordinate)
    requires Behaviour(trace) && i < |trace| && PairAt(trace[i], at).record == 0
    ensures TearsOnlyIfOvertaken(trace, i, me, at)
  {
    forall k: nat, revision | i <= k && DidAt(trace, k, me, DropValue(at, revision))
      ensures IsTorn(trace[k + 1], at) <==> IsOvertaken(trace, i, k, at)
    {
      var step := StepOf(trace, k);
      assert trace[k + 1].log[|trace[k].log|] == step;
      TornIffOvertaken(trace, i, k, at);
    }
  }

  /** Removes a binding whoever published it last: its record, and then its value. A value is torn from its record exactly if
      a publish overtakes the removal. */
  method RemoveBinding(client: Client, at: Coordinate) returns (ok: bool, ghost between: nat)
    requires client.Valid()
    modifies client
    ensures client.Advanced() && client.KeptTo(ToEither(at))
    ensures ok ==> |old(client.trace)| <= between + 1 <= |client.trace| && PairAt(client.trace[between], at).record == 0
    ensures ok ==> PairAt(client.world, at).value == 0 && TearsOnlyIfOvertaken(client.trace, between, client.me, at)
    ensures old(client.Quiet()) ==> ok
    ensures old(client.faults) == [] && !ok ==> |client.trace| >= |old(client.trace)| + TRIES
    ensures client.Leaves(at, NOTHING)
  {
    ok := Forget(client, at, true);
    between := |client.trace| - 1;
    ghost var before := client.trace;
    if ok {
      ok := Forget(client, at, false);
      KeepsToStill(before, client.trace, |old(client.trace)| - 1, client.me, ToEither(at));
      TearingIsOvertaking(client.trace, between, client.me, at);
    }
  }

  /** Removes a binding if it is still at the version its caller read, and tears no other publish doing so. */
  method RemoveUnchanged(client: Client, at: Coordinate, expected: nat) returns (result: Removal)
    requires client.Valid()
    modifies client
    ensures client.Advanced() && client.KeptTo(ToVersion(at, expected))
    ensures result == Unchanged ==> client.KeptTo(ToNothing)
    ensures result == RemovalFailed ==> old(client.faults) != []
    ensures old(client.Quiet()) ==>
              if VersionOf(old(client.world), PairAt(old(client.world), at).record) == expected > 0
              then result == Removed && PairAt(client.world, at) == NOTHING
              else result == Unchanged && client.world == old(client.world)
  {
    var found := client.Look();
    var revision := PairAt(client.world, at).record;
    if !found {
      return RemovalFailed;
    } else if VersionOf(client.world, revision) == 0 || VersionOf(client.world, revision) != expected {
      return Unchanged;
    }
    ghost var before := client.trace;
    found := client.Look();
    KeepsToStill(before, client.trace, |old(client.trace)| - 1, client.me, ToNothing);
    if !found {
      return RemovalFailed;
    }
    client.InvHolds();
    assert PairOk(client.world, at);
    before := client.trace;
    result := RemovePair(client, at, Pair(revision, PairAt(client.world, at).value), expected);
    KeepsToStill(before, client.trace, |old(client.trace)| - 1, client.me, ToVersion(at, expected));
    if result == Unchanged {
      KeepsToStill(before, client.trace, |old(client.trace)| - 1, client.me, ToNothing);
    }
  }

  /** The removals that follow the two reads. The owner's claim on the name is given up first, and taken again if the
      record turns out to be another publish's. */
  method RemovePair(client: Client, at: Coordinate, pair: Pair, expected: nat) returns (result: Removal)
    requires client.Valid() && pair.value <= |client.world.written|
    requires 0 < pair.record <= |client.world.written| && VersionOf(client.world, pair.record) == expected
    modifies client
    ensures client.Advanced() && client.KeptTo(ToVersion(at, expected))
    ensures result == Unchanged ==> client.KeptTo(ToNothing)
    ensures result == RemovalFailed ==> old(client.faults) != []
    ensures old(client.Quiet()) && PairAt(old(client.world), at) == pair ==> result == Removed && PairAt(client.world, at) == NOTHING
  {
    var unclaimed := client.Look();
    if !unclaimed {
      return RemovalFailed;
    }
    ghost var before := client.trace;
    var removed := client.RemoveRecord(at, pair.record);
    KeepsToStill(before, client.trace, |old(client.trace)| - 1, client.me, ToVersion(at, expected));
    if removed == Stale {
      KeepsToStill(before, client.trace, |old(client.trace)| - 1, client.me, ToNothing);
      before := client.trace;
      var claimedAgain := client.Look();
      KeepsToStill(before, client.trace, |old(client.trace)| - 1, client.me, ToNothing);
      return if claimedAgain then Unchanged else RemovalFailed;
    } else if removed == WriteFailed || pair.value == 0 {
      return if removed == Stored then Removed else RemovalFailed;
    }
    before := client.trace;
    result := RemoveLone(client, at, pair.value, expected);
    KeepsToStill(before, client.trace, |old(client.trace)| - 1, client.me, ToVersion(at, expected));
  }

  /** The second half of a version-checked removal. */
  method RemoveLone(client: Client, at: Coordinate, value: nat, ghost expected: nat) returns (result: Removal)
    requires client.Valid() && PairAt(client.world, at).record == 0 && 0 < value <= |client.world.written|
    modifies client
    ensures client.Advanced() && result != Unchanged && client.KeptTo(ToVersion(at, expected))
    ensures result == RemovalFailed ==> old(client.faults) != []
    ensures old(client.Quiet()) && PairAt(old(client.world), at) == Pair(0, value) ==>
              result == Removed && PairAt(client.world, at) == NOTHING
  {
    var removed := client.RemoveValue(at, value);
    result := if removed == WriteFailed then RemovalFailed else Removed;
  }

  // Resolving: every name from one listing of the store.

  datatype Served = Resolved(publish: Publish) | Torn | NotPublished

  /** What is served from one coordinate: the publish that both its halves are of. */
  ghost predicate IsServedAt(w: World, at: Coordinate, served: Served) {
    match served
    case Resolved(p) =>
      exists revision: nat :: PairAt(w, at) == Pair(revision, revision) && 0 < revision <= |w.written| && p == w.written[revision - 1] && p.at == at
    case NotPublished => PairAt(w, at) == NOTHING
    case Torn => (PairAt(w, at).record > 0) != (PairAt(w, at).value > 0)
  }

  /** A name is served as its environment has it, and where that has neither half of it, or none is named, as the whole tier
      does. */
  ghost predicate IsServed(w: World, name: string, environment: string, served: Served) {
    if environment in {"", "*"} || PairAt(w, Coordinate(name, environment)) == NOTHING then IsServedAt(w, Coordinate(name, "*"), served)
    else IsServedAt(w, Coordinate(name, environment), served)
  }

  /** `readPair`. It compares versions, which in one listing is as good as comparing publishes. */
  method ReadPair(cache: World, name: string, environment: string) returns (served: Served)
    requires Inv(cache)
    ensures IsServed(cache, name, environment, served)
  {
    var at := Shadowing(environment);
    for n := 0 to |at|
      invariant forall m :: 0 <= m < n ==> PairAt(cache, At(name, at[m])) == NOTHING
    {
      var pair := PairAt(cache, At(name, at[n]));
      assert PairOk(cache, At(name, at[n]));
      var record, value := VersionOf(cache, pair.record), VersionOf(cache, pair.value);
      if record == 0 && value == 0 {
        continue;
      }
      assert At(name, at[n]) == if n == |at| - 1 then Coordinate(name, "*") else Coordinate(name, environment);
      assert n > 0 ==> At(name, at[0]) == Coordinate(name, environment);
      if record != value {
        return Torn;
      }
      assert pair == Pair(pair.record, pair.record);
      return Resolved(cache.written[pair.record - 1]);
    }
    assert At(name, at[|at| - 1]) == Coordinate(name, "*") && (|at| > 1 ==> At(name, at[0]) == Coordinate(name, environment));
    return NotPublished;
  }

  /** Every name read from one listing, unless one is torn or not published in it. */
  method ReadPairs(cache: World, names: seq<string>, environment: string) returns (out: seq<Publish>, unserved: Served)
    requires Inv(cache)
    ensures |out| <= |names| && forall i :: 0 <= i < |out| ==> IsServed(cache, names[i], environment, Resolved(out[i]))
    ensures |out| == |names| <==> unserved.Resolved?
    ensures |out| < |names| ==> IsServed(cache, names[|out|], environment, unserved)
  {
    out := [];
    unserved := Resolved(Publish(At("", ""), "", 0, "", ""));
    for i := 0 to |names|
      invariant |out| == i && unserved.Resolved?
      invariant forall j :: 0 <= j < i ==> IsServed(cache, names[j], environment, Resolved(out[j]))
    {
      var served := ReadPair(cache, names[i], environment);
      if !served.Resolved? {
        return out, served;
      }
      out := out + [served.publish];
    }
  }

  datatype Resolution = AllResolved(publishes: seq<Publish>) | NoneResolved(unserved: Served) | Unread

  /** What was resolved, at the moment the store was listed. */
  ghost predicate IsResolution(w: World, names: seq<string>, environment: string, result: Resolution) {
    match result
    case AllResolved(publishes) =>
      |publishes| == |names| && forall i :: 0 <= i < |names| ==> IsServed(w, names[i], environment, Resolved(publishes[i]))
    case NoneResolved(unserved) =>
      !unserved.Resolved? && exists i :: 0 <= i < |names| && IsServed(w, names[i], environment, unserved)
    case Unread => true
  }

  method TryResolve(client: Client, names: seq<string>, environment: string) returns (result: Resolution)
    requires client.Valid()
    modifies client
    ensures client.Advanced() && client.Undisturbed() && IsResolution(client.world, names, environment, result)
    ensures old(client.faults) == [] ==> !result.Unread?
  {
    var listed := client.Look();
    if !listed {
      return Unread;
    }
    client.InvHolds();
    var out, unserved := ReadPairs(client.world, names, environment);
    result := if unserved.Resolved? then AllResolved(out) else NoneResolved(unserved);
  }

  /** Resolves names to what one moment of the store published under them, each with both halves of one publish; a
      listing that catches a removal half done is read again. */
  method ResolveBindings(client: Client, names: seq<string>, environment: string) returns (result: Resolution)
    requires client.Valid()
    modifies client
    ensures client.Advanced() && client.Undisturbed() && IsResolution(client.world, names, environment, result)
    ensures old(client.faults) == [] ==> !result.Unread?
  {
    result := TryResolve(client, names, environment);
    for n := 1 to TRIES
      invariant client.Advanced() && client.Undisturbed() && IsResolution(client.world, names, environment, result)
      invariant old(client.faults) == [] ==> !result.Unread?
    {
      if result != NoneResolved(Torn) {
        return;
      }
      result := TryResolve(client, names, environment);
    }
  }
}
