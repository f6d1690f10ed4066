/** `pkg/stackrecords/environmentleases.go`: an environment's lease is taken beneath its project's, and
    `pkg/provider/providerserver/environmentleases.go`: a hold on a lease renews it until it ends. */
module LeaseLevels {
  import opened Wrappers
  import opened LeaseSystem
  import opened Leases

  datatype Cleared = Clear | Refused | Unknown

  /** A match that may be freed: the token's own lease, or the one under a revision that stood still. */
  ghost predicate MayFree(w: World, m: Match) {
    m == Own || (m.Revision? && 1 <= m.revision <= |w.written| && StoodStill(w, w.written[m.revision - 1].1))
  }

  /** What freeing comes to when nobody interferes: a matching lease is gone, and every other stays. */
  ghost predicate IsForgotten(w: World, w': World, name: Name, m: Match, token: string) {
    w'.leases == if Matches(m, w, name, token) then w.leases - {name} else w.leases
  }

  method TryForget(client: Client, name: Name, m: Match) returns (cleared: Cleared, again: bool)
    requires client.Valid() && MayFree(client.world, m)
    modifies client
    ensures client.wall == old(client.wall)
    ensures client.Advanced() && client.Did(Freeing, name, m)
    ensures cleared == Clear ==> !Matches(m, client.world, name, client.token)
    ensures cleared != Refused && (again ==> cleared == Unknown && |old(client.trace)| < |client.trace|)
    ensures old(client.faults) == [] ==> cleared == Clear || again
    ensures old(client.Quiet()) ==>
              client.Quiet() && cleared == Clear && IsForgotten(old(client.world), client.world, name, m, client.token)
  {
    var looked := client.Look(name);
    if looked.LookFailed? {
      return Unknown, false;
    } else if !Matches(m, client.world, name, client.token) {
      return Clear, false;
    }
    ghost var before := client.trace;
    var removed := client.Remove(name, looked.lease);
    OnlyStill(before, client.trace, |old(client.trace)| - 1, Freeing, name, m, client.token);
    cleared, again := if removed == Stored then Clear else Unknown, removed == Stale;
  }

  /** `ForgetMatching`. */
  method ForgetMatching(client: Client, name: Name, m: Match) returns (cleared: Cleared)
    requires client.Valid() && MayFree(client.world, m)
    modifies client
    ensures client.wall == old(client.wall)
    ensures client.Advanced() && client.Did(Freeing, name, m)
    ensures cleared == Clear ==> !Matches(m, client.world, name, client.token)
    ensures cleared != Refused
    ensures old(client.faults) == [] && cleared == Unknown ==> |client.trace| >= |old(client.trace)| + TRIES
    ensures old(client.Quiet()) ==>
              client.Quiet() && cleared == Clear && IsForgotten(old(client.world), client.world, name, m, client.token)
  {
    for n := 0 to TRIES
      invariant client.wall == old(client.wall) && client.Advanced() && client.Did(Freeing, name, m) && |client.trace| >= |old(client.trace)| + n
      invariant old(client.Quiet()) ==> n == 0 && client.Quiet() && client.world == old(client.world)
    {
      ghost var before := client.trace;
      var again;
      cleared, again := TryForget(client, name, m);
      OnlyStill(before, client.trace, |old(client.trace)| - 1, Freeing, name, m, client.token);
      if !again {
        return;
      }
    }
    return Unknown;
  }

  /** Frees the token's own lease, and no other's. */
  method ForgetLease(client: Client, name: Name) returns (cleared: Cleared)
    requires client.Valid()
    modifies client
    ensures client.Advanced() && client.Did(Freeing, name, Own)
    ensures cleared == Clear ==> !Holds(client.world, name, client.token)
    ensures cleared != Refused
    ensures old(client.faults) == [] && cleared == Unknown ==> |client.trace| >= |old(client.trace)| + TRIES
    ensures old(client.Quiet()) ==>
              client.Quiet() && cleared == Clear && IsForgotten(old(client.world), client.world, name, Own, client.token)
  {
    cleared := ForgetMatching(client, name, Own);
  }

  /** Nobody else has the project. */
  predicate ProjectIsFree(w: World, token: string) { Project !in w.leases || Holds(w, Project, token) }

  /** Watches another's project lease until it stood still for a whole TTL. */
  method WatchProject(client: Client, watched: Lease) returns (cleared: Cleared, stopped: bool)
    requires client.Valid() && Known(client.world, Project, watched)
    modifies client
    ensures client.wall == old(client.wall)
    ensures client.Advanced() && client.OnlyLooked()
    ensures stopped ==> StoodStill(client.world, watched)
    ensures cleared == Clear && !stopped ==> Project !in client.world.leases
    ensures cleared == Refused ==> Project in client.world.leases && client.world.leases[Project].revision != watched.revision
    ensures old(client.Quiet()) && Project in old(client.world).leases && old(client.world).leases[Project] == watched ==>
              stopped && client.Undisturbed()
  {
    cleared, stopped := Clear, false;
    var since := client.Now();
    var elapsed := 0;
    while elapsed < client.world.ttl
      invariant client.wall == old(client.wall) && client.Advanced() && client.OnlyLooked() && Known(client.world, Project, watched) && client.Undisturbed()
      invariant cleared == Clear
      invariant watched.at <= since && elapsed <= client.world.time - since
      decreases client.world.ttl - elapsed
    {
      ghost var before := client.trace;
      var goOn;
      cleared, goOn, elapsed := WatchOnce(client, watched, since, elapsed);
      NothingStill(before, client.trace, |old(client.trace)| - 1, client.token);
      if !goOn {
        return;
      }
    }
    stopped := true;
  }

  /** One wait and one look at the project's lease. */
  method WatchOnce(client: Client, watched: Lease, since: int, elapsed: int) returns (cleared: Cleared, goOn: bool, elapsed': int)
    requires client.Valid() && elapsed < client.world.ttl && elapsed <= client.world.time - since
    modifies client
    ensures client.wall == old(client.wall)
    ensures client.Advanced() && client.OnlyLooked() && client.Undisturbed()
    ensures goOn ==> cleared == Clear && elapsed < elapsed' <= client.world.time - since
    ensures client.asked <= client.watch && client.asked <= client.world.ttl - elapsed
    ensures cleared == Clear && !goOn ==> Project !in client.world.leases
    ensures cleared == Refused ==> Project in client.world.leases && client.world.leases[Project].revision != watched.revision
    ensures old(client.Quiet()) && Project in old(client.world).leases && old(client.world).leases[Project] == watched ==> goOn
  {
    cleared, goOn, elapsed' := Unknown, false, elapsed;
    var waited := client.Wait(Least(client.watch, client.world.ttl - elapsed));
    if !waited {
      return;
    }
    ghost var before := client.trace;
    var looked := client.Look(Project);
    NothingStill(before, client.trace, |old(client.trace)| - 1, client.token);
    if looked.LookFailed? {
      return;
    } else if looked.Absent? {
      return Clear, false, elapsed;
    } else if looked.lease.revision != watched.revision {
      return Refused, false, elapsed;
    }
    before := client.trace;
    var now := client.Now();
    NothingStill(before, client.trace, |old(client.trace)| - 1, client.token);
    cleared, goOn, elapsed' := Clear, true, now - since;
  }

  /** What clearing the project came to, as of the state `found` it was looked at in: refused if another held it there;
      clear if nobody else did, or if the lease found there has since stood still and is gone. Nothing but that lease was
      freed. */
  ghost predicate IsCleared(trace: seq<World>, from: int, found: nat, cleared: Cleared, token: string) {
    && from <= found < |trace|
    && (cleared == Refused ==> !ProjectIsFree(trace[found], token))
    && (cleared == Clear ==> ProjectIsFree(trace[found], token) || IsLeftBehind(trace[found], Last(trace), token))
    && (if ProjectIsFree(trace[found], token) then DidNothing(trace, from, token)
        else DidOnly(trace, from, Freeing, Project, Revision(trace[found].leases[Project].revision), token))
  }

  predicate IsLeftBehind(w: World, w': World, token: string) {
    && Project in w.leases && StoodStill(w', w.leases[Project])
    && !Matches(Revision(w.leases[Project].revision), w', Project, token)
  }

  /** Clears away the lease a stopped holder left on the project; a live one refuses the taker. */
  method ForgetStoppedProjectLease(client: Client) returns (cleared: Cleared, ghost found: nat)
    requires client.Valid()
    modifies client
    ensures client.Advanced() && IsCleared(client.trace, |old(client.trace)| - 1, found, cleared, client.token)
    ensures cleared == Clear && !ProjectIsFree(client.trace[found], client.token) ==> client.wall >= client.trace[found].leases[Project].expiresAt
    ensures old(client.Quiet()) && !ProjectIsFree(old(client.world), client.token) ==>
              (cleared == Refused <==> client.wall < old(client.world).leases[Project].expiresAt)
    ensures old(client.Quiet()) ==> client.Quiet() && cleared != Unknown
    ensures old(client.Quiet()) && ProjectIsFree(old(client.world), client.token) ==> cleared == Clear
    ensures old(client.Quiet()) ==>
              client.world.leases == if cleared == Clear && !ProjectIsFree(old(client.world), client.token)
                                     then old(client.world).leases - {Project} else old(client.world).leases
  {
    var looked := client.Look(Project);
    found := |client.trace| - 1;
    if looked.LookFailed? {
      return Unknown, found;
    } else if TokenOf(looked) == "" || TokenOf(looked) == client.token {
      return Clear, found;
    }
    var wall := client.Wall();
    if wall < looked.lease.expiresAt {
      return Refused, found;
    }
    cleared, found := ClearStopped(client, looked.lease, found, |old(client.trace)| - 1);
  }

  /** Clears the lease found on the project once it has stood still. */
  method ClearStopped(client: Client, watched: Lease, ghost at: nat, ghost from: int) returns (cleared: Cleared, ghost found: nat)
    requires client.Valid() && Known(client.world, Project, watched) && from <= at == |client.trace| - 1
    requires Project in client.world.leases && client.world.leases[Project] == watched && !ProjectIsFree(client.world, client.token)
    requires DidNothing(client.trace, from, client.token)
    modifies client
    ensures client.wall == old(client.wall) && (found == at || (found < |client.trace| && ProjectIsFree(client.trace[found], client.token)))
    ensures client.Advanced() && IsCleared(client.trace, from, found, cleared, client.token)
    ensures old(client.Quiet()) ==>
              client.Quiet() && cleared == Clear && client.world.leases == old(client.world).leases - {Project}
  {
    ghost var before := client.trace;
    var stopped;
    cleared, stopped := WatchProject(client, watched);
    found := at;
    NothingStill(before, client.trace, from, client.token);
    if stopped {
      before := client.trace;
      cleared := ForgetMatching(client, Project, Revision(watched.revision));
      OnlyStill(before, client.trace, from, Freeing, Project, Revision(watched.revision), client.token);
    } else if cleared == Clear {
      found := |client.trace| - 1;
    }
  }

  method RefuseHeldProject(client: Client) returns (cleared: Cleared)
    requires client.Valid()
    modifies client
    ensures client.Advanced() && client.OnlyLooked() && client.Undisturbed()
    ensures cleared == Clear ==> ProjectIsFree(client.world, client.token)
    ensures cleared == Refused ==> !ProjectIsFree(client.world, client.token)
    ensures old(client.Quiet()) ==> cleared == if ProjectIsFree(old(client.world), client.token) then Clear else Refused
  {
    var looked := client.Look(Project);
    if looked.LookFailed? {
      return Unknown;
    }
    return if TokenOf(looked) == "" || TokenOf(looked) == client.token then Clear else Refused;
  }

  /** `ForgetStoppedProjectLease`, with what it means for another lease. */
  method ClearProject(client: Client, name: Name) returns (cleared: Cleared)
    requires client.Valid() && name != Project
    modifies client
    ensures client.Advanced() && client.trace[|old(client.trace)| - 1] == old(client.world)
    ensures forall k: nat :: |old(client.trace)| - 1 <= k < |client.trace| ==> !DidAt(client.trace, k, Putting, name, client.token)
    ensures Holds(client.world, name, client.token) ==> Holds(old(client.world), name, client.token)
    ensures old(client.Quiet()) ==>
              && client.Quiet() && cleared != Unknown && (ProjectIsFree(old(client.world), client.token) ==> cleared == Clear)
              && SameBut(old(client.world), client.world, if ProjectIsFree(old(client.world), client.token) then {} else {Project})
  {
    ghost var found;
    cleared, found := ForgetStoppedProjectLease(client);
    ClearedPutsNothing(client.trace, |old(client.trace)| - 1, found, cleared, client.token, name);
    NotPutSince(client.trace, |old(client.trace)| - 1, |client.trace| - 1, name, client.token);
  }

  /** Takes an environment's lease and then looks at its project's. A taker that succeeds has entered: at the states
      `taken` and `looked` of the history its own lease was in place and then no other's was on the project. One that
      is refused holds no lease it did not hold before, unless freeing it failed. Undisturbed, a taker is refused only by
      another's lease on the environment or on the project. */
  method TakeEnvironmentLease(client: Client, env: string)
    returns (result: Taken, freed: Cleared, ghost taken: nat, ghost looked: nat)
    requires client.Valid()
    modifies client
    ensures client.Advanced()
    ensures result.Taken? ==> |old(client.trace)| <= taken && Entered(client.trace, taken, looked, env, client.token)
    ensures result == Busy && freed == Clear && Holds(client.world, Environment(env), client.token) ==>
              Holds(old(client.world), Environment(env), client.token)
    ensures old(client.Quiet()) ==> freed == Clear && (result.Taken? || result == Busy)
    ensures old(client.Quiet()) && ProjectIsFree(old(client.world), client.token) && !IsOthers(old(client.world), Environment(env), client.token) ==>
              result.Taken?
    ensures old(client.Quiet()) ==>
              SameBut(old(client.world), client.world,
                      {Environment(env)} + if ProjectIsFree(old(client.world), client.token) then {} else {Project})
  {
    ghost var from := |client.trace| - 1;
    var cleared := ClearProject(client, Environment(env));
    if cleared != Clear {
      return if cleared == Refused then Busy else Failed, Clear, 0, 0;
    }
    assert client.trace[from] == old(client.world);
    result, freed, taken, looked := TakeBeneathProject(client, env, from);
  }

  /** A token that has put no lease holds none it did not hold before. */
  lemma NotPutSince(trace: seq<World>, from: int, to: nat, name: Name, token: string)
    requires Behaviour(trace) && 0 <= from <= to < |trace|
    requires forall k: nat :: from <= k < to ==> !DidAt(trace, k, Putting, name, token)
    ensures Holds(trace[to], name, token) ==> Holds(trace[from], name, token)
  {
    if Holds(trace[to], name, token) {
      HeldBefore(trace, from, to, name, token);
    }
  }

  /** Takes the environment's lease, the project being clear, and looks at the project again. */
  method TakeBeneathProject(client: Client, env: string, ghost from: nat)
    returns (result: Taken, freed: Cleared, ghost taken: nat, ghost looked: nat)
    requires client.Valid() && from < |client.trace|
    requires forall k: nat :: from <= k < |client.trace| ==> !DidAt(client.trace, k, Putting, Environment(env), client.token)
    modifies client
    ensures client.Advanced()
    ensures result.Taken? ==> |old(client.trace)| <= taken && Entered(client.trace, taken, looked, env, client.token)
    ensures result == Busy && freed == Clear && Holds(client.world, Environment(env), client.token) ==>
              Holds(old(client.trace)[from], Environment(env), client.token)
    ensures old(client.Quiet()) ==> freed == Clear && (result.Taken? || result == Busy)
    ensures old(client.Quiet()) && ProjectIsFree(old(client.world), client.token) && !IsOthers(old(client.world), Environment(env), client.token) ==>
              result.Taken?
    ensures old(client.Quiet()) ==> SameBut(old(client.world), client.world, {Environment(env)})
  {
    freed, looked := Clear, 0;
    result := TakeLease(client, Environment(env));
    taken := |client.trace| - 1;
    if !result.Taken? {
      assert client.trace[..|client.trace|] == client.trace;
      if result == Busy {
        NotPutYet(old(client.trace), client.trace, from, |client.trace| - 1, Environment(env), client.token);
      }
      return;
    }
    NotPutYet(old(client.trace), client.trace, from, |client.trace| - 2, Environment(env), client.token);
    result, freed, looked := LookAgain(client, env, result.already);
  }

  /** The look at the project that follows the taking of an environment's lease; a lease that is newly taken is freed again if
      another has the project. */
  method LookAgain(client: Client, env: string, already: bool) returns (result: Taken, freed: Cleared, ghost looked: nat)
    requires client.Valid()
    modifies client
    ensures client.Advanced() && |old(client.trace)| - 1 <= looked < |client.trace|
    ensures result.Taken? ==> freed == Clear && ProjectIsFree(client.trace[looked], client.token)
    ensures !result.Taken? && !already && freed == Clear ==> !Holds(client.world, Environment(env), client.token)
    ensures old(client.Quiet()) ==> freed == Clear && if ProjectIsFree(old(client.world), client.token) then result.Taken? else result == Busy
    ensures old(client.Quiet()) ==> SameBut(old(client.world), client.world, {Environment(env)})
  {
    freed := Clear;
    var cleared := RefuseHeldProject(client);
    looked := |client.trace| - 1;
    if cleared == Clear {
      return Taken.Taken(already), Clear, looked;
    }
    if !already {
      freed := ForgetLease(client, Environment(env));
    }
    result := if cleared == Refused then Busy else Failed;
  }

  /** The same, for a stretch in two parts. */
  lemma NotPutYet(before: seq<World>, trace: seq<World>, from: nat, to: nat, name: Name, token: string)
    requires Behaviour(trace) && before <= trace && from < |before| <= to + 1 <= |trace|
    requires forall k: nat :: from <= k < |before| ==> !DidAt(before, k, Putting, name, token)
    requires DidNothing(trace[..to + 1], |before| - 1, token)
    ensures Holds(trace[to], name, token) ==> Holds(before[from], name, token)
  {
    var shorter := trace[..to + 1];
    forall k: nat | from <= k < to ensures !DidAt(trace, k, Putting, name, token) {
      assert k + 1 < |before| ==> !DidAt(before, k, Putting, name, token);
      assert DidAt(trace, k, Putting, name, token) <==> DidAt(shorter, k, Putting, name, token);
    }
    NotPutSince(trace, from, to, name, token);
  }

  /** Clearing the project puts no lease in place. */
  lemma ClearedPutsNothing(trace: seq<World>, from: int, found: nat, cleared: Cleared, token: string, name: Name)
    requires IsCleared(trace, from, found, cleared, token)
    ensures forall k: nat :: from <= k < |trace| ==> !DidAt(trace, k, Putting, name, token)
  {
  }

  /** No other lease has changed. */
  ghost predicate SameBut(w: World, w': World, names: set<Name>) {
    forall name :: name !in names ==>
      (name in w.leases <==> name in w'.leases) && (name in w.leases ==> w'.leases[name] == w.leases[name])
  }

  /** `RemoveProject`: takes the project's lease and then lists its environments' leases. Undisturbed, it is refused only by
      another's lease on the project. */
  method TakeProjectAndList(client: Client) returns (listing: Option<map<Name, Lease>>, ghost taken: nat, ghost listed: nat)
    requires client.Valid()
    modifies client
    ensures client.Advanced() && client.Did(Putting, Project, Any)
    ensures listing.Some? ==>
              && |old(client.trace)| <= taken && Listed(client.trace, taken, listed, client.token)
              && IsListing(client.trace[listed], listing.value)
    ensures old(client.Quiet()) && !IsOthers(old(client.world), Project, client.token) ==> listing.Some?
    ensures old(client.Quiet()) ==> SameBut(old(client.world), client.world, {Project})
  {
    taken, listed, listing := 0, 0, None;
    var result := TakeLease(client, Project);
    if result.Taken? {
      taken := |client.trace| - 1;
      ghost var before := client.trace;
      listing := client.List();
      OnlyStill(before, client.trace, |old(client.trace)| - 1, Putting, Project, Any, client.token);
      listed := |client.trace| - 1;
    }
  }
}
