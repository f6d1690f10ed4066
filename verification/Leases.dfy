/** `pkg/stackrecords/environmentleases.go`: taking, renewing and freeing leases, while every other holder does the
    same between any two accesses. Every write below is a step of `LeaseSystem`, because `Client` takes no other. */
module Leases {
  import opened Wrappers
  import opened LeaseSystem

  const LEASE_WRITE_ATTEMPTS := 5
  const TRIES := 10

  datatype Fault = NoFault | Lost | Unacknowledged

  datatype Looked = Found(lease: Lease) | Absent | LookFailed

  datatype Written = Stored | Stale | WriteFailed

  /** `already` is whether the token held the lease before it was taken. */
  datatype Taken = Taken(already: bool) | Busy | Failed

  datatype Renewal = Renewed | LostLease | Unrenewed

  function Least(a: int, b: int): (least: int)
    ensures least <= a && least <= b && least in {a, b}
  {
    if a <= b then a else b
  }

  predicate IsFresh(w: World, name: Name, token: string) {
    Holds(w, name, token) && !StoodStill(w, w.leases[name])
  }

  /** Which stored leases a deed is done over: any or none, the token's own, or the one under a revision. */
  datatype Match = Any | Own | Revision(revision: nat)

  predicate Matches(m: Match, w: World, name: Name, token: string) {
    match m
    case Any => true
    case Own => Holds(w, name, token)
    case Revision(revision) => name in w.leases && w.leases[name].revision == revision
  }

  /** From one state on the token did only this, to this lease, and only over a matching one. */
  ghost predicate DidOnly(trace: seq<World>, from: int, deed: Deed, name: Name, m: Match, token: string) {
    forall k: nat, did, other {:trigger DidAt(trace, k, did, other, token)} :: from <= k && DidAt(trace, k, did, other, token) ==>
      did == deed && other == name && Matches(m, trace[k], name, token)
  }

  ghost predicate DidNothing(trace: seq<World>, from: int, token: string) {
    forall k: nat, did, other {:trigger DidAt(trace, k, did, other, token)} :: from <= k ==> !DidAt(trace, k, did, other, token)
  }

  lemma OnlyStill(shorter: seq<World>, trace: seq<World>, from: int, deed: Deed, name: Name, m: Match, token: string)
    requires shorter != [] && shorter <= trace && from < |shorter|
    requires DidOnly(shorter, from, deed, name, m, token) && DidOnly(trace, |shorter| - 1, deed, name, m, token)
    ensures DidOnly(trace, from, deed, name, m, token)
  {
    forall k: nat, did, other | from <= k && DidAt(trace, k, did, other, token)
      ensures did == deed && other == name && Matches(m, trace[k], name, token)
    {
      assert k + 1 < |shorter| ==> DidAt(shorter, k, did, other, token);
    }
  }

  lemma NothingStill(shorter: seq<World>, trace: seq<World>, from: int, token: string)
    requires shorter != [] && shorter <= trace && from < |shorter|
    requires DidNothing(shorter, from, token) && DidNothing(trace, |shorter| - 1, token)
    ensures DidNothing(trace, from, token)
  {
    forall k: nat, did, other | from <= k && DidAt(trace, k, did, other, token) ensures false {
      assert k + 1 < |shorter| ==> DidAt(shorter, k, did, other, token);
    }
  }

  /** How much time passes in the steps of others between two accesses, and at most between any two. */
  function Elapsed(steps: seq<Step>): nat {
    if steps == [] then 0 else (if steps[0].Pass? then steps[0].span else 0) + Elapsed(steps[1..])
  }

  function Slowest(rivals: seq<seq<Step>>): nat {
    if rivals == [] then 0
    else if Elapsed(rivals[0]) >= Slowest(rivals[1..]) then Elapsed(rivals[0]) else Slowest(rivals[1..])
  }

  predicate IsRivals(step: Step, token: string) {
    match step
    case Pass(_) => true
    case Put(_, other, _) => other != token
    case Free(_, other) => other != token
  }

  /** The token a read found: none when nothing is stored. */
  function TokenOf(looked: Looked): string {
    if looked.Found? then looked.lease.token else ""
  }

  /** What a read finds. */
  predicate IsCurrent(w: World, name: Name, looked: Looked) {
    && (looked.Found? ==> name in w.leases && looked.lease == w.leases[name])
    && (looked.Absent? ==> name !in w.leases)
  }

  /** Between this holder's accesses the others take the steps `rivals` lists, store accesses fail as `faults` lists,
      and its wall clock reads as `walls` lists, however wrong. */
  class Client {
    const token: string
    const watch: nat
    var world: World
    var rivals: seq<seq<Step>>
    var faults: seq<Fault>
    var walls: seq<int>
    /** How many waits have passed in their own time, and how many were cut short. */
    ghost var waits: nat
    ghost var cuts: nat
    /** How long it last asked to wait, and what its wall clock read last. */
    ghost var asked: int
    ghost var wall: int
    ghost var trace: seq<World>

    constructor (token: string, ttl: nat, watch: nat, rivals: seq<seq<Step>>, faults: seq<Fault>, walls: seq<int>)
      requires token != "" && ttl > 0 && watch > 0
      ensures Valid() && world == Blank(ttl) && this.token == token && this.watch == watch
      ensures this.rivals == rivals && this.faults == faults && this.walls == walls
    {
      this.token, this.watch, world := token, watch, Blank(ttl);
      this.rivals, this.faults, this.walls := rivals, faults, walls;
      waits, cuts, asked, wall, trace := 0, 0, 0, 0, [Blank(ttl)];
    }

    ghost predicate Valid()
      reads this
    {
      && Behaviour(trace) && Last(trace) == world && Inv(world)
      && token != "" && world.ttl > 0 && watch > 0
    }

    /** What every operation keeps: it adds legal steps to the history. */
    twostate predicate Advanced()
      reads this
    {
      && Valid() && old(trace) <= trace && old(world.written) <= world.written
      && old(world.time) <= world.time && old(world.ttl) == world.ttl
      && Slowest(rivals) <= Slowest(old(rivals)) && (old(faults) == [] ==> faults == [])
    }

    /** Nobody else acts and no access fails. */
    predicate Quiet()
      reads this
    {
      rivals == [] && faults == []
    }

    /** A quiet store stays quiet, and keeps its leases while only looked at. */
    twostate predicate Undisturbed()
      reads this
    {
      old(Quiet()) ==> Quiet() && world.leases == old(world.leases) && world.written == old(world.written)
    }

    /** What the token has done since, to leases. */
    twostate predicate Did(deed: Deed, name: Name, m: Match)
      reads this
    {
      DidOnly(trace, |old(trace)| - 1, deed, name, m, token)
    }

    twostate predicate OnlyLooked()
      reads this
    {
      DidNothing(trace, |old(trace)| - 1, token)
    }

    /** The token has done nothing before the last step since. */
    twostate predicate OnlyLookedTillLast()
      reads this
    {
      |old(trace)| < |trace| && DidNothing(trace[..|trace| - 1], |old(trace)| - 1, token)
    }

    /** One access has taken no longer than the slowest of those to come. */
    twostate predicate TookOneAccess()
      reads this
    {
      world.time <= old(world.time) + Slowest(old(rivals))
    }

    /** Alone, it has changed nothing. */
    twostate predicate LeftAlone()
      reads this
    {
      old(rivals) == [] ==> rivals == [] && world == old(world)
    }

    method Take(step: Step)
      requires Valid() && Enabled(world, step)
      modifies this`world, this`trace
      ensures Advanced() && world == Apply(old(world), step) && trace == old(trace) + [world]
      ensures step.Pass? || IsRivals(step, token) ==> OnlyLooked()
      ensures step.Put? ==> Did(Putting, step.name, Any) && (Holds(old(world), step.name, token) ==> Did(Putting, step.name, Own))
      ensures step.Free? ==> DidOnly(trace, |old(trace)| - 1, Freeing, step.name, Revision(old(world).leases[step.name].revision), token)
      ensures step.Free? && Holds(old(world), step.name, token) ==> Did(Freeing, step.name, Own)
    {
      InvIsKept(world, step);
      forall did, other ensures IsDeed(world, Apply(world, step), did, other, token) ==>
                                  if did == Putting then step.Put? && step.name == other && step.token == token else step == Free(other, token)
      {
        DeedsAreSteps(world, step, did, other, token);
      }
      ghost var longer := Extended(trace, step);
      world := Apply(world, step);
      trace := longer;
    }

    method Interfere()
      requires Valid()
      modifies this`world, this`trace, this`rivals
      ensures Advanced() && Undisturbed() && OnlyLooked() && TookOneAccess() && LeftAlone()
    {
      if rivals == [] {
        return;
      }
      var steps := rivals[0];
      rivals := rivals[1..];
      for i := 0 to |steps|
        invariant Advanced() && OnlyLooked() && rivals == old(rivals)[1..]
        invariant world.time + Elapsed(steps[i..]) <= old(world.time) + Elapsed(steps)
      {
        ghost var before := trace;
        assert steps[i..][0] == steps[i] && steps[i..][1..] == steps[i + 1..];
        if Enabled(world, steps[i]) && IsRivals(steps[i], token) {
          Take(steps[i]);
          NothingStill(before, trace, |old(trace)| - 1, token);
        }
      }
    }

    method Draw() returns (fault: Fault)
      modifies this`faults
      ensures old(faults) == [] ==> fault == NoFault && faults == []
    {
      if faults == [] {
        return NoFault;
      }
      fault := faults[0];
      faults := faults[1..];
    }

    /** `terms.Now`: the reading `Sub` uses, which runs with time. */
    method Now() returns (now: int)
      requires Valid()
      modifies this`world, this`trace, this`rivals
      ensures Advanced() && Undisturbed() && OnlyLooked() && TookOneAccess() && LeftAlone() && now == world.time
    {
      Interfere();
      now := world.time;
    }

    /** `terms.Now` as `Before` compares it with a stored expiry: any reading at all. */
    method Wall() returns (now: int)
      modifies this`walls, this`wall
      ensures wall == now == if old(walls) == [] then 0 else old(walls)[0]
    {
      now := 0;
      if walls != [] {
        now := walls[0];
        walls := walls[1..];
      }
      wall := now;
    }

    /** `terms.Wait`: the time asked for passes, unless the context ends first. */
    method Wait(span: int) returns (goOn: bool)
      requires Valid()
      modifies this`world, this`trace, this`rivals, this`faults, this`waits, this`cuts, this`asked
      ensures Advanced() && Undisturbed() && OnlyLooked() && (goOn ==> world.time >= old(world.time) + span)
      ensures if goOn then waits == old(waits) + 1 && cuts == old(cuts) else waits == old(waits) && cuts == old(cuts) + 1
      ensures world.time <= old(world.time) + (if span > 0 then span else 0) + Slowest(old(rivals))
      ensures asked == span && (if old(faults) == [] then goOn else true)
    {
      asked := span;
      Interfere();
      var fault := Draw();
      goOn := fault == NoFault;
      waits, cuts := waits + (if goOn then 1 else 0), cuts + (if goOn then 0 else 1);
      if goOn && span > 0 {
        ghost var before := trace;
        Take(Pass(span));
        NothingStill(before, trace, |old(trace)| - 1, token);
      }
    }

    method Look(name: Name) returns (looked: Looked)
      requires Valid()
      modifies this`world, this`trace, this`rivals, this`faults
      ensures Advanced() && Undisturbed() && OnlyLooked() && TookOneAccess() && LeftAlone() && (old(faults) == [] ==> !looked.LookFailed?)
      ensures IsCurrent(world, name, looked)
    {
      Interfere();
      var fault := Draw();
      if fault != NoFault {
        return LookFailed;
      }
      return if name in world.leases then Found(world.leases[name]) else Absent;
    }

    /** `List` of the environments' leases. */
    method List() returns (listing: Option<map<Name, Lease>>)
      requires Valid()
      modifies this`world, this`trace, this`rivals, this`faults
      ensures Advanced() && Undisturbed() && OnlyLooked() && LeftAlone() && (old(faults) == [] ==> listing.Some?)
      ensures listing.Some? ==> IsListing(world, listing.value)
    {
      Interfere();
      var fault := Draw();
      if fault != NoFault {
        return None;
      }
      var all := world.leases;
      return Some(map name | name in all && name.Environment? :: all[name]);
    }

    /** `Write` of this token's lease over the entry just read. */
    method Write(name: Name, base: Looked, expiresAt: int) returns (result: Written)
      requires Valid() && !base.LookFailed? && IsBase(name, base) && expiresAt == wall + world.ttl
      requires base.Absent? || base.lease.token == token || StoodStill(world, base.lease)
      modifies this`world, this`trace, this`rivals, this`faults
      ensures Advanced() && TookOneAccess() && Did(Putting, name, Any)
      ensures base.Found? && base.lease.token == token ==> Did(Putting, name, Own)
      ensures result == Stored ==> IsTaken(trace, name, token, base.Found? && base.lease.token == token)
      ensures result == Stored ==> OnlyLookedTillLast() && name in world.leases && world.leases[name].expiresAt == expiresAt
      ensures result == Stale ==> OnlyLooked() && !Replaces(world, name, base)
      ensures old(faults) == [] ==> result != WriteFailed
      ensures old(Quiet()) && Replaces(old(world), name, base) ==> result == Stored && Quiet() && HasPut(old(world), world, name, token)
    {
      var fault, current := Race(name, base);
      if !current {
        return if fault == NoFault then Stale else WriteFailed;
      }
      ghost var before := trace;
      PutOwn(name, expiresAt);
      assert trace[..|trace| - 1] == before;
      OnlyStill(before, trace, |old(trace)| - 1, Putting, name, Any, token);
      if base.Found? && base.lease.token == token {
        OnlyStill(before, trace, |old(trace)| - 1, Putting, name, Own, token);
      }
      return if fault == NoFault then Stored else WriteFailed;
    }

    /** What happens before a write lands: whether it lands, over the entry it was made from. */
    method Race(name: Name, base: Looked) returns (fault: Fault, current: bool)
      requires Valid() && IsBase(name, base)
      modifies this`world, this`trace, this`rivals, this`faults
      ensures Advanced() && OnlyLooked() && TookOneAccess() && LeftAlone()
      ensures current ==> Replaces(world, name, base) && (base.Found? ==> world.leases[name] == base.lease)
      ensures current == (fault != Lost && Replaces(world, name, base)) && (old(faults) == [] ==> fault == NoFault)
      ensures old(Quiet()) ==> Quiet()
    {
      Interfere();
      fault := Draw();
      current := fault != Lost && Replaces(world, name, base);
      if current {
        ReplacesOnlyItself(world, name, base);
      }
    }

    method PutOwn(name: Name, expiresAt: int)
      requires Valid() && MayReplace(world, name, token)
      modifies this`world, this`trace
      ensures Advanced() && Did(Putting, name, Any) && (Holds(old(world), name, token) ==> Did(Putting, name, Own))
      ensures IsTaken(trace, name, token, Holds(old(world), name, token)) && trace == old(trace) + [world]
      ensures HasPut(old(world), world, name, token) && world.leases[name].expiresAt == expiresAt
    {
      Take(Put(name, token, expiresAt));
    }

    method FreeOwn(name: Name, revision: nat)
      requires Valid() && name in world.leases && world.leases[name].revision == revision && MayReplace(world, name, token)
      modifies this`world, this`trace
      ensures Advanced() && Did(Freeing, name, Revision(revision)) && (Holds(old(world), name, token) ==> Did(Freeing, name, Own))
      ensures world == old(world).(leases := old(world).leases - {name}, freed := old(world).freed + [(name, token)])
    {
      Take(Free(name, token));
    }

    /** Whether a read could have found this. */
    ghost predicate IsBase(name: Name, base: Looked)
      reads this
    {
      base.Found? ==> Known(world, name, base.lease)
    }

    /** `Remove` of the entry just read. */
    method Remove(name: Name, base: Lease) returns (result: Written)
      requires Valid() && Known(world, name, base) && (base.token == token || StoodStill(world, base))
      modifies this`world, this`trace, this`rivals, this`faults
      ensures Advanced() && Did(Freeing, name, Revision(base.revision)) && (base.token == token ==> Did(Freeing, name, Own))
      ensures result == Stored ==> name !in world.leases
      ensures result == Stale ==> name in world.leases && world.leases[name].revision != base.revision
      ensures result == WriteFailed ==> old(faults) != []
      ensures old(Quiet()) && Replaces(old(world), name, Found(base)) ==>
                result == Stored && Quiet() && world.leases == old(world).leases - {name}
    {
      Interfere();
      var fault := Draw();
      if fault == Lost || (name in world.leases && world.leases[name].revision != base.revision) {
        return if fault == NoFault then Stale else WriteFailed;
      }
      if name in world.leases {
        ReplacesOnlyItself(world, name, Found(base));
        ghost var before := trace;
        FreeOwn(name, base.revision);
        OnlyStill(before, trace, |old(trace)| - 1, Freeing, name, Revision(base.revision), token);
        if base.token == token {
          OnlyStill(before, trace, |old(trace)| - 1, Freeing, name, Own, token);
        }
      }
      return if fault == NoFault then Stored else WriteFailed;
    }
  }

  /** The token's lease was put in place, and nothing else changed. */
  ghost predicate HasPut(w: World, w': World, name: Name, token: string) {
    && Holds(w', name, token) && w'.leases == w.leases[name := w'.leases[name]]
    && w'.written == w.written + [(name, w'.leases[name])] && w'.time == w.time
  }

  ghost predicate IsListing(w: World, listing: map<Name, Lease>) {
    forall name :: name in listing <==> name in w.leases && name.Environment?
  }

  /** The stored entry is the very one a write was made from: its revision says so. */
  predicate Replaces(w: World, name: Name, base: Looked) {
    match base
    case Absent => name !in w.leases
    case Found(lease) => name in w.leases && w.leases[name].revision == lease.revision
    case LookFailed => false
  }

  lemma ReplacesOnlyItself(w: World, name: Name, base: Looked)
    requires Inv(w) && Replaces(w, name, base) && (base.Found? ==> Known(w, name, base.lease))
    ensures base.Found? ==> w.leases[name] == base.lease
  {
  }

  /** The last step of the history was the token's taking, or renewing, of this lease. */
  ghost predicate IsTaken(trace: seq<World>, name: Name, token: string, already: bool) {
    && |trace| > 1 && Holds(Last(trace), name, token) && Last(trace).leases[name].at == Last(trace).time
    && (already <==> Holds(trace[|trace| - 2], name, token))
  }

  predicate IsOthers(w: World, name: Name, token: string) {
    name in w.leases && w.leases[name].token != token
  }

  /** What a taker has seen of another's lease so far. `since` is its own clock when it began to watch. */
  datatype Watch = NotWatching | Watching(revision: nat, since: int)

  /** A watched revision was stored before the watch began. */
  ghost predicate WatchIsSound(w: World, watch: Watch) {
    watch.Watching? ==>
      1 <= watch.revision <= |w.written| && w.written[watch.revision - 1].1.at <= watch.since <= w.time
  }

  /** The watched revision is still the one stored. */
  predicate WatchIsCurrent(w: World, name: Name, watch: Watch) {
    watch.Watching? ==> name in w.leases && w.leases[name].revision == watch.revision
  }

  function WatchLeft(w: World, watch: Watch): nat {
    if watch.Watching? && watch.since + w.ttl > w.time then watch.since + w.ttl - w.time else 0
  }

  datatype Turn = MayWrite | GoOn | Stop(result: Taken)

  /** One look at the lease, and what it decides: to write, to wait and look again, or to give up. */
  method Ponder(client: Client, name: Name, watching: Watch) returns (turn: Turn, looked: Looked, watch: Watch)
    requires client.Valid() && WatchIsSound(client.world, watching)
    modifies client
    ensures client.Advanced() && client.OnlyLooked() && WatchIsSound(client.world, watch)
    ensures turn == MayWrite ==> !looked.LookFailed? && client.IsBase(name, looked) && watch == watching
    ensures turn == MayWrite ==> looked.Absent? || looked.lease.token == client.token || StoodStill(client.world, looked.lease)
    ensures turn == MayWrite && looked.Found? && looked.lease.token != client.token ==>
              watch.Watching? && looked.lease.revision == watch.revision
    ensures turn == GoOn ==>
              watch.Watching? &&
              (watching == NotWatching || (watch == watching && WatchLeft(client.world, watch) < WatchLeft(old(client.world), watch)))
    ensures turn == Stop(Busy) ==> looked.Found? && looked.lease.token != client.token
    ensures turn.Stop? ==> turn.result in {Busy, Failed} && (turn.result == Failed ==> old(client.faults) != [])
    ensures turn == MayWrite ==> Replaces(client.world, name, looked) || |old(client.trace)| < |client.trace|
    ensures client.Undisturbed() && (old(client.Quiet()) ==> turn != Stop(Failed))
    ensures old(client.Quiet()) && turn == MayWrite ==> Replaces(client.world, name, looked)
    ensures old(client.Quiet()) && turn == Stop(Busy) ==> IsOthers(client.world, name, client.token)
    ensures old(client.Quiet()) && WatchIsCurrent(old(client.world), name, watching) ==>
              WatchIsCurrent(client.world, name, watch)
  {
    watch := watching;
    looked := client.Look(name);
    ghost var before := client.trace;
    if looked.LookFailed? {
      return Stop(Failed), looked, watch;
    }
    if TokenOf(looked) == "" || TokenOf(looked) == client.token {
      return MayWrite, looked, watch;
    }
    turn, watch := Consider(client, looked.lease, name, watching);
    NothingStill(before, client.trace, |old(client.trace)| - 1, client.token);
  }

  /** What a look at another's lease decides. */
  method Consider(client: Client, lease: Lease, name: Name, watching: Watch) returns (turn: Turn, watch: Watch)
    requires client.Valid() && Known(client.world, name, lease) && WatchIsSound(client.world, watching)
    requires name in client.world.leases && client.world.leases[name] == lease && lease.token != client.token
    modifies client
    ensures client.Advanced() && client.OnlyLooked() && WatchIsSound(client.world, watch)
    ensures turn == MayWrite ==> watch == watching && watch.Watching? && lease.revision == watch.revision && StoodStill(client.world, lease)
    ensures turn == GoOn ==>
              watch.Watching? &&
              (watching == NotWatching || (watch == watching && WatchLeft(client.world, watch) < WatchLeft(old(client.world), watch)))
    ensures turn.Stop? ==> turn.result in {Busy, Failed} && (turn.result == Failed ==> old(client.faults) != [])
    ensures turn == Stop(Busy) ==> if watching.Watching? then lease.revision != watching.revision else client.wall < lease.expiresAt
    ensures client.Undisturbed() && (old(client.Quiet()) ==> turn != Stop(Failed))
    ensures old(client.Quiet()) && WatchIsCurrent(old(client.world), name, watching) ==>
              WatchIsCurrent(client.world, name, watch)
  {
    watch := watching;
    if watch.NotWatching? {
      turn, watch := StartWatching(client, lease, name);
    } else if lease.revision != watch.revision {
      turn := Stop(Busy);
    } else {
      turn := GoOnWatching(client, watch);
    }
  }

  method StartWatching(client: Client, lease: Lease, name: Name) returns (turn: Turn, watch: Watch)
    requires client.Valid() && Known(client.world, name, lease)
    modifies client
    ensures client.Advanced() && client.OnlyLooked() && WatchIsSound(client.world, watch)
    ensures turn == GoOn ==> watch.Watching? && client.asked <= client.watch && client.asked <= client.world.ttl
    ensures turn == Stop(Busy) <==> client.wall < lease.expiresAt
    ensures turn == Stop(Failed) ==> old(client.faults) != []
    ensures turn != MayWrite && (turn.Stop? ==> turn.result in {Busy, Failed})
    ensures client.Undisturbed() && (old(client.Quiet()) ==> turn != Stop(Failed))
    ensures watch.Watching? ==> watch.revision == lease.revision
  {
    watch := NotWatching;
    var wall := client.Wall();
    if wall < lease.expiresAt {
      return Stop(Busy), watch;
    }
    var now := client.Now();
    watch := Watching(lease.revision, now);
    ghost var before := client.trace;
    var goOn := client.Wait(Least(client.watch, client.world.ttl));
    NothingStill(before, client.trace, |old(client.trace)| - 1, client.token);
    turn := if goOn then GoOn else Stop(Failed);
  }

  method GoOnWatching(client: Client, watch: Watch) returns (turn: Turn)
    requires client.Valid() && watch.Watching? && WatchIsSound(client.world, watch)
    modifies client
    ensures client.Advanced() && client.OnlyLooked()
    ensures turn == GoOn ==> WatchLeft(client.world, watch) < WatchLeft(old(client.world), watch)
    ensures turn == MayWrite ==> client.world.time >= watch.since + client.world.ttl
    ensures turn.Stop? ==> turn.result == Failed && old(client.faults) != []
    ensures turn == GoOn ==> client.asked <= client.watch && client.asked <= client.world.ttl - (old(client.world).time - watch.since)
    ensures client.Undisturbed() && (old(client.Quiet()) ==> !turn.Stop?)
  {
    var now := client.Now();
    if now - watch.since >= client.world.ttl {
      return MayWrite;
    }
    ghost var before := client.trace;
    now := client.Now();
    NothingStill(before, client.trace, |old(client.trace)| - 1, client.token);
    before := client.trace;
    var goOn := client.Wait(Least(client.watch, client.world.ttl - (now - watch.since)));
    NothingStill(before, client.trace, |old(client.trace)| - 1, client.token);
    turn := if goOn then GoOn else Stop(Failed);
  }

  /** One look, and the write if it allows one. `stale` is whether another was faster. */
  method TryTake(client: Client, name: Name, watching: Watch) returns (turn: Turn, watch: Watch, stale: bool)
    requires client.Valid() && WatchIsSound(client.world, watching)
    modifies client
    ensures client.Advanced() && client.Did(Putting, name, Any) && WatchIsSound(client.world, watch) && turn != MayWrite
    ensures turn == GoOn ==>
              if stale then watch == watching
              else watch.Watching?
                   && (watching == NotWatching || WatchLeft(client.world, watch) < WatchLeft(old(client.world), watching))
    ensures turn.Stop? && turn.result.Taken? ==>
              IsTaken(client.trace, name, client.token, turn.result.already) && client.OnlyLookedTillLast()
    ensures turn == GoOn || turn == Stop(Busy) ==> client.OnlyLooked()
    ensures (stale ==> |old(client.trace)| < |client.trace|) && (turn == Stop(Failed) ==> old(client.faults) != [])
    ensures turn.Stop? && turn.result.Taken? ==>
              name in client.world.leases && client.world.leases[name].expiresAt == client.wall + client.world.ttl
    ensures old(client.Quiet()) ==> !stale && turn != Stop(Failed) && (!turn.Stop? || turn == Stop(Busy) ==> client.Undisturbed())
    ensures old(client.Quiet()) && turn == Stop(Busy) ==> IsOthers(client.world, name, client.token)
    ensures old(client.Quiet()) && WatchIsCurrent(old(client.world), name, watching) && turn == GoOn ==>
              WatchIsCurrent(client.world, name, watch)
    ensures old(client.Quiet()) && turn.Stop? && turn.result.Taken? ==>
              client.Quiet() && client.world.leases == old(client.world).leases[name := client.world.leases[name]]
  {
    var looked;
    stale := false;
    turn, looked, watch := Ponder(client, name, watching);
    if turn == MayWrite {
      turn := TakeOver(client, name, looked, |old(client.trace)| - 1);
      stale := turn == GoOn;
    }
  }

  /** The write of a taker that may: `GoOn` if another was faster. */
  method TakeOver(client: Client, name: Name, looked: Looked, ghost from: nat) returns (turn: Turn)
    requires client.Valid() && !looked.LookFailed? && client.IsBase(name, looked)
    requires looked.Absent? || looked.lease.token == client.token || StoodStill(client.world, looked.lease)
    requires from < |client.trace| && DidNothing(client.trace, from, client.token)
    modifies client
    ensures client.Advanced() && DidOnly(client.trace, from, Putting, name, Any, client.token) && turn != MayWrite
    ensures turn == GoOn ==> DidNothing(client.trace, from, client.token) && !Replaces(client.world, name, looked)
    ensures turn.Stop? ==> turn == Stop(Taken(TokenOf(looked) == client.token)) || (turn == Stop(Failed) && old(client.faults) != [])
    ensures turn.Stop? && turn.result.Taken? ==>
              && IsTaken(client.trace, name, client.token, turn.result.already)
              && |old(client.trace)| < |client.trace| && DidNothing(client.trace[..|client.trace| - 1], from, client.token)
              && name in client.world.leases && client.world.leases[name].expiresAt == client.wall + client.world.ttl
    ensures old(client.Quiet()) && Replaces(old(client.world), name, looked) ==>
              && turn == Stop(Taken(TokenOf(looked) == client.token)) && client.Quiet()
              && client.world.leases == old(client.world).leases[name := client.world.leases[name]]
  {
    var wall := client.Wall();
    var written := client.Write(name, looked, wall + client.world.ttl);
    StillTaking(old(client.trace), client.trace, from, name, client.token);
    match written
    case Stored => turn := Stop(Taken(TokenOf(looked) == client.token));
    case Stale => turn := GoOn;
    case WriteFailed => turn := Stop(Failed);
  }

  /** What was true of one turn is true of all. */
  lemma StillTaking(before: seq<World>, trace: seq<World>, from: nat, name: Name, token: string)
    requires before != [] && before <= trace && from < |before| && DidNothing(before, from, token)
    ensures DidOnly(trace, |before| - 1, Putting, name, Any, token) ==> DidOnly(trace, from, Putting, name, Any, token)
    ensures DidNothing(trace, |before| - 1, token) ==> DidNothing(trace, from, token)
    ensures |before| < |trace| && DidNothing(trace[..|trace| - 1], |before| - 1, token) ==> DidNothing(trace[..|trace| - 1], from, token)
  {
    if DidOnly(trace, |before| - 1, Putting, name, Any, token) {
      OnlyStill(before, trace, from, Putting, name, Any, token);
    }
    if DidNothing(trace, |before| - 1, token) {
      NothingStill(before, trace, from, token);
    }
    if |before| < |trace| && DidNothing(trace[..|trace| - 1], |before| - 1, token) {
      NothingStill(before, trace[..|trace| - 1], from, token);
    }
  }

  /** `TryTake`, with what it leaves true of every turn so far. */
  method TakeTurn(client: Client, name: Name, watching: Watch, ghost since: nat) returns (turn: Turn, watch: Watch, stale: bool)
    requires client.Valid() && WatchIsSound(client.world, watching)
    requires since < |client.trace| && DidNothing(client.trace, since, client.token)
    modifies client
    ensures client.Advanced() && WatchIsSound(client.world, watch) && turn != MayWrite
    ensures DidOnly(client.trace, since, Putting, name, Any, client.token)
    ensures turn == GoOn ==>
              if stale then watch == watching
              else watch.Watching?
                   && (watching == NotWatching || WatchLeft(client.world, watch) < WatchLeft(old(client.world), watching))
    ensures turn.Stop? && turn.result.Taken? ==>
              && IsTaken(client.trace, name, client.token, turn.result.already) && |old(client.trace)| < |client.trace|
              && DidNothing(client.trace[..|client.trace| - 1], since, client.token)
    ensures turn == GoOn || turn == Stop(Busy) ==> DidNothing(client.trace, since, client.token)
    ensures (stale ==> |old(client.trace)| < |client.trace|) && (turn == Stop(Failed) ==> old(client.faults) != [])
    ensures turn.Stop? && turn.result.Taken? ==>
              name in client.world.leases && client.world.leases[name].expiresAt == client.wall + client.world.ttl
    ensures old(client.Quiet()) ==> !stale && turn != Stop(Failed) && (!turn.Stop? || turn == Stop(Busy) ==> client.Undisturbed())
    ensures old(client.Quiet()) && turn == Stop(Busy) ==> IsOthers(client.world, name, client.token)
    ensures old(client.Quiet()) && WatchIsCurrent(old(client.world), name, watching) && turn == GoOn ==>
              WatchIsCurrent(client.world, name, watch)
    ensures old(client.Quiet()) && turn.Stop? && turn.result.Taken? ==>
              client.Quiet() && client.world.leases == old(client.world).leases[name := client.world.leases[name]]
  {
    ghost var before := client.trace;
    turn, watch, stale := TryTake(client, name, watching);
    StillTaking(before, client.trace, since, name, client.token);
  }

  /** Takes a lease that is free, its own, or another's whose revision stood still for a whole TTL on this taker's
      own clock. */
  method TakeLease(client: Client, name: Name) returns (taken: Taken)
    requires client.Valid()
    modifies client
    ensures client.Advanced() && client.Did(Putting, name, Any)
    ensures taken.Taken? ==> IsTaken(client.trace, name, client.token, taken.already) && client.OnlyLookedTillLast()
    ensures taken == Busy ==> client.OnlyLooked()
    ensures taken.Taken? ==> name in client.world.leases && client.world.leases[name].expiresAt == client.wall + client.world.ttl
    ensures taken == Failed ==> old(client.faults) != [] || |client.trace| > |old(client.trace)| + LEASE_WRITE_ATTEMPTS
    ensures old(client.Quiet()) ==> client.Quiet() && (taken.Taken? || (taken == Busy && IsOthers(old(client.world), name, client.token)))
    ensures old(client.Quiet()) ==>
              client.world.leases == if taken.Taken? then old(client.world).leases[name := client.world.leases[name]] else old(client.world).leases
  {
    var watch, stale := NotWatching, 0;
    while true
      invariant client.Undisturbed() && (old(client.Quiet()) ==> WatchIsCurrent(client.world, name, watch))
      invariant client.OnlyLooked()
      invariant client.Advanced() && WatchIsSound(client.world, watch) && 0 <= stale <= LEASE_WRITE_ATTEMPTS
      invariant |client.trace| >= |old(client.trace)| + stale
      decreases if watch.Watching? then 0 else 1, LEASE_WRITE_ATTEMPTS - stale, WatchLeft(client.world, watch)
    {
      var turn, again;
      turn, watch, again := TakeTurn(client, name, watch, |old(client.trace)| - 1);
      if turn.Stop? {
        return turn.result;
      }
      if again {
        if stale >= LEASE_WRITE_ATTEMPTS {
          return Failed;
        }
        stale := stale + 1;
      }
    }
  }

  /** A deadline has passed. */
  predicate IsPast(deadline: Option<int>, now: int) { deadline.Some? && deadline.value < now }

  /** What a renewal comes to when nobody interferes and no deadline passes: the token's lease is written again, and
      nothing else happens. */
  twostate predicate IsQuietRenewal(client: Client, name: Name, renewal: Renewal)
    reads client
  {
    && client.Quiet() && client.world.time == old(client.world.time)
    && if Holds(old(client.world), name, client.token) then renewal == Renewed && HasPut(old(client.world), client.world, name, client.token)
       else renewal == LostLease && client.world == old(client.world)
  }

  /** A renewal ends by its deadline, but for the access under way. */
  twostate predicate EndsBy(client: Client, deadline: Option<int>)
    reads client
  {
    deadline.Some? && old(client.world.time) <= deadline.value ==> client.world.time <= deadline.value + Slowest(old(client.rivals))
  }

  /** Whether a lease in one state is still fresh by the time of another. */
  predicate IsFreshTill(w: World, w': World, name: Name, token: string) {
    Holds(w, name, token) && w'.time < w.leases[name].at + w.ttl
  }

  /** Nobody touches a token's fresh lease but the token. */
  lemma {:induction false} UntouchedWhileFresh(trace: seq<World>, i: nat, j: nat, name: Name, token: string)
    requires Behaviour(trace) && i <= j < |trace| && IsFreshTill(trace[i], trace[j], name, token)
    requires forall k: nat, deed :: i <= k < j ==> !DidAt(trace, k, deed, name, token)
    ensures name in trace[j].leases && trace[j].leases[name] == trace[i].leases[name]
    decreases j - i
  {
    if i < j {
      TimeNeverRunsBack(trace, j - 1, j);
      TimeNeverRunsBack(trace, i, j - 1);
      UntouchedWhileFresh(trace, i, j - 1, name, token);
      var step := StepOf(trace, j - 1);
      DeedsAreSteps(trace[j - 1], step, Putting, name, token);
      DeedsAreSteps(trace[j - 1], step, Freeing, name, token);
      assert !DidAt(trace, j - 1, Putting, name, token) && !DidAt(trace, j - 1, Freeing, name, token);
    }
  }

  /** Two accesses from now, each as slow as the slowest, the lease is fresh and the deadline not past. */
  predicate HasTimeToRenew(w: World, name: Name, token: string, deadline: Option<int>, slack: nat) {
    && Holds(w, name, token) && w.time + 2 * slack < w.leases[name].at + w.ttl
    && !IsPast(deadline, w.time + 2 * slack)
  }

  /** A renewal that nothing fails, and that has time for two accesses, is a success whatever others do. */
  twostate predicate IsSureRenewal(client: Client, name: Name, deadline: Option<int>, renewal: Renewal)
    reads client
  {
    old(client.faults) == [] && HasTimeToRenew(old(client.world), name, client.token, deadline, Slowest(old(client.rivals))) ==>
      renewal == Renewed
  }

  /** The read of a renewal: a lease still fresh is found as it was. */
  method LookForOwn(client: Client, name: Name) returns (looked: Looked)
    requires client.Valid()
    modifies client`world, client`trace, client`rivals, client`faults, client`walls, client`wall
    ensures client.Advanced() && client.Undisturbed() && client.OnlyLooked() && client.TookOneAccess() && client.LeftAlone()
    ensures IsCurrent(client.world, name, looked)
    ensures old(client.faults) == [] ==>
              !looked.LookFailed? && (IsFreshTill(old(client.world), client.world, name, client.token) ==> looked == Found(old(client.world).leases[name]))
  {
    looked := client.Look(name);
    if IsFreshTill(old(client.world), client.world, name, client.token) {
      UntouchedWhileFresh(client.trace, |old(client.trace)| - 1, |client.trace| - 1, name, client.token);
    }
  }

  /** One try to renew; `again` asks for another. An access that ends past the deadline counts as failed, whether or not
      the store kept it. */
  method TryRenew(client: Client, name: Name, deadline: Option<int>) returns (renewal: Renewal, again: bool)
    requires client.Valid()
    modifies client`world, client`trace, client`rivals, client`faults, client`walls, client`wall
    ensures client.Advanced() && client.Did(Putting, name, Own) && EndsBy(client, deadline)
    ensures renewal == Renewed ==> Holds(client.world, name, client.token) && client.world.leases[name].at >= old(client.world.time)
    ensures renewal == LostLease ==> !Holds(client.world, name, client.token)
    ensures old(client.Quiet()) && !IsPast(deadline, old(client.world.time)) ==> IsQuietRenewal(client, name, renewal) && !again
    ensures again ==> renewal == Unrenewed && !IsPast(deadline, client.world.time) && |old(client.trace)| < |client.trace|
    ensures renewal == Renewed ==> client.world.leases[name].expiresAt == client.wall + client.world.ttl
    ensures old(client.faults) == [] && renewal == Unrenewed && !again ==> IsPast(deadline, client.world.time)
    ensures IsSureRenewal(client, name, deadline, renewal)
  {
    var looked := LookForOwn(client, name);
    ghost var before := client.trace;
    renewal, again := RenewOver(client, name, looked, deadline);
    OnlyStill(before, client.trace, |old(client.trace)| - 1, Putting, name, Own, client.token);
  }

  /** What a renewal does with what it read. */
  method RenewOver(client: Client, name: Name, looked: Looked, deadline: Option<int>) returns (renewal: Renewal, again: bool)
    requires client.Valid() && IsCurrent(client.world, name, looked)
    modifies client`world, client`trace, client`rivals, client`faults, client`walls, client`wall
    ensures client.Advanced() && client.Did(Putting, name, Own) && client.TookOneAccess()
    ensures IsPast(deadline, old(client.world.time)) ==> client.world.time == old(client.world.time)
    ensures renewal == Renewed ==> Holds(client.world, name, client.token) && client.world.leases[name].at >= old(client.world.time)
    ensures renewal == LostLease ==> !Holds(client.world, name, client.token)
    ensures again ==> renewal == Unrenewed && !IsPast(deadline, client.world.time) && |old(client.trace)| < |client.trace|
    ensures renewal == Renewed ==> client.world.leases[name].expiresAt == client.wall + client.world.ttl
    ensures old(client.faults) == [] && !looked.LookFailed? && renewal == Unrenewed && !again ==> IsPast(deadline, client.world.time)
    ensures old(client.Quiet()) && !looked.LookFailed? && !IsPast(deadline, old(client.world.time)) ==>
              IsQuietRenewal(client, name, renewal) && !again
    ensures old(client.faults) == [] && looked.Found? ==>
              (IsFreshTill(old(client.world), client.world, name, client.token) && !IsPast(deadline, client.world.time) ==> renewal == Renewed)
  {
    if looked.LookFailed? || IsPast(deadline, client.world.time) {
      return Unrenewed, false;
    } else if TokenOf(looked) != client.token {
      return LostLease, false;
    }
    var wall := client.Wall();
    var written := client.Write(name, looked, wall + client.world.ttl);
    if written == Stale && IsFreshTill(old(client.world), client.world, name, client.token) {
      UntouchedWhileFresh(client.trace, |old(client.trace)| - 1, |client.trace| - 1, name, client.token);
    }
    if IsPast(deadline, client.world.time) {
      return Unrenewed, false;
    }
    renewal, again := if written == Stored then Renewed else Unrenewed, written == Stale;
  }

  /** Renews a lease the token still holds; one that was displaced is told so and writes nothing. */
  method RenewLease(client: Client, name: Name, deadline: Option<int>) returns (renewal: Renewal)
    requires client.Valid()
    modifies client`world, client`trace, client`rivals, client`faults, client`walls, client`wall
    ensures client.Advanced() && client.Did(Putting, name, Own) && EndsBy(client, deadline)
    ensures renewal == Renewed ==> Holds(client.world, name, client.token) && client.world.leases[name].at >= old(client.world.time)
    ensures renewal == LostLease ==> !Holds(client.world, name, client.token)
    ensures renewal == Renewed ==> client.world.leases[name].expiresAt == client.wall + client.world.ttl
    ensures old(client.faults) == [] && renewal == Unrenewed ==>
              IsPast(deadline, client.world.time) || |client.trace| >= |old(client.trace)| + TRIES
    ensures old(client.Quiet()) && !IsPast(deadline, old(client.world.time)) ==> IsQuietRenewal(client, name, renewal)
    ensures IsSureRenewal(client, name, deadline, renewal)
  {
    for n := 0 to TRIES
      invariant client.Advanced() && client.Did(Putting, name, Own)
      invariant n > 0 ==> !IsPast(deadline, client.world.time)
      invariant |client.trace| >= |old(client.trace)| + n
      invariant n == 0 ==> client.world == old(client.world) && client.trace == old(client.trace) && client.rivals == old(client.rivals)
      invariant n == 0 ==> client.faults == old(client.faults)
      invariant old(client.Quiet()) && !IsPast(deadline, old(client.world.time)) ==> n == 0
      invariant n > 0 ==> IsSureRenewal(client, name, deadline, Unrenewed)
    {
      ghost var before := client.trace;
      var again;
      renewal, again := TryRenew(client, name, deadline);
      OnlyStill(before, client.trace, |old(client.trace)| - 1, Putting, name, Own, client.token);
      if !again {
        return;
      }
    }
    return Unrenewed;
  }
}
