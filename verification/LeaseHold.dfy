/** `pkg/provider/providerserver/environmentleases.go`: the loop that renews a lease while its holder works, and
    stops the holder when it can no longer be sure of the lease. */
module LeaseHold {
  import opened Wrappers
  import opened LeaseSystem
  import opened Leases

  /** How long after a renewal the next is due, how long after a failed one and at most how long each takes, and how
      long before the lease may be taken the holder gives up. */
  datatype Terms = Terms(renewal: nat, retry: nat, margin: nat)

  const DEFAULT_TTL := 300
  const DEFAULT_TERMS := Terms(120, 15, 60)

  datatype Ended = Released | Stopped | Displaced

  /** One access, or a waking, may take this much longer than it should, and the lease was this old when its holder began to
      renew it. Within these the terms leave room to give up in time. */
  predicate LeaveRoom(terms: Terms, ttl: nat, lag: int, slack: nat) {
    && lag + 2 * terms.retry + 5 * slack <= terms.margin <= ttl
    && lag + terms.renewal + 2 * terms.retry + 6 * slack < ttl
  }

  lemma DefaultTermsLeaveRoom(lag: nat, slack: nat)
    requires lag + 5 * slack <= 30
    ensures LeaveRoom(DEFAULT_TERMS, DEFAULT_TTL, lag, slack)
  {
  }

  /** The token holds the lease, and its terms leave room. */
  predicate HasRoom(w: World, name: Name, token: string, terms: Terms, slack: nat) {
    Holds(w, name, token) && LeaveRoom(terms, w.ttl, w.time - w.leases[name].at, slack)
  }

  ghost predicate HeldSince(trace: seq<World>, i: nat, name: Name, token: string) {
    forall k :: i <= k < |trace| ==> Holds(trace[k], name, token)
  }

  /** A lease is held, and grows no older, through any stretch of history that ends within a TTL of its writing and in which
      its holder does not free it. */
  lemma {:induction false} HeldThrough(trace: seq<World>, i: nat, j: nat, name: Name, token: string)
    requires Behaviour(trace) && i <= j < |trace| && Holds(trace[i], name, token)
    requires trace[j].time < trace[i].leases[name].at + trace[i].ttl
    requires forall k: nat :: i <= k < j ==> !DidAt(trace, k, Freeing, name, token)
    ensures Holds(trace[j], name, token) && trace[j].leases[name].at >= trace[i].leases[name].at
    decreases j - i
  {
    if i < j {
      TimeNeverRunsBack(trace, j - 1, j);
      TimeNeverRunsBack(trace, i, j - 1);
      HeldThrough(trace, i, j - 1, name, token);
      var step := StepOf(trace, j - 1);
      assert !DidAt(trace, j - 1, Freeing, name, token);
      LeasesAreNoNewer(trace, j - 1, name);
    }
  }

  lemma LeasesAreNoNewer(trace: seq<World>, k: nat, name: Name)
    requires Behaviour(trace) && k < |trace| && name in trace[k].leases
    ensures trace[k].leases[name].at <= trace[k].time
  {
    BehavioursKeepInv(trace, k);
  }

  /** Held through every state of a stretch, by the same argument. */
  lemma HeldThroughout(trace: seq<World>, i: nat, name: Name, token: string)
    requires Behaviour(trace) && i < |trace| && Holds(trace[i], name, token)
    requires Last(trace).time < trace[i].leases[name].at + trace[i].ttl
    requires DidOnly(trace, i, Putting, name, Own, token)
    ensures HeldSince(trace, i, name, token) && Last(trace).leases[name].at >= trace[i].leases[name].at
  {
    forall k | i <= k < |trace| ensures Holds(trace[k], name, token) {
      TimeNeverRunsBack(trace, k, |trace| - 1);
      HeldThrough(trace, i, k, name, token);
    }
    HeldThrough(trace, i, |trace| - 1, name, token);
  }

  /** What was held so far is still held after a stretch that ends within a TTL. */
  lemma StillHeld(before: seq<World>, trace: seq<World>, from: nat, name: Name, token: string)
    requires Behaviour(trace) && from < |before| && before <= trace && HeldSince(before, from, name, token)
    requires Last(trace).time < Last(before).leases[name].at + Last(before).ttl
    requires DidOnly(trace, |before| - 1, Putting, name, Own, token)
    ensures HeldSince(trace, from, name, token) && Last(trace).leases[name].at >= Last(before).leases[name].at
    ensures IsFresh(Last(trace), name, token)
  {
    HeldThroughout(trace, |before| - 1, name, token);
    TimeNeverRunsBack(trace, |before| - 1, |trace| - 1);
    forall k | from <= k < |trace| ensures Holds(trace[k], name, token) {
      assert k < |before| ==> Holds(before[k], name, token);
    }
  }

  /** Nobody touches the lease until the turn's renewal has been made, and that has time for two accesses. */
  twostate predicate IsSureToKeep(client: Client, name: Name, wait: nat, retry: nat)
    reads client
  {
    var slack := Slowest(old(client.rivals));
    2 * slack <= retry && Holds(old(client.world), name, client.token)
    && old(client.world).time + wait + 4 * slack < old(client.world).leases[name].at + old(client.world).ttl
  }

  /** One wait was begun: it went on to its end, or was cut short. */
  twostate predicate HasWaited(client: Client, goOn: bool)
    reads client
  {
    if goOn then client.waits == old(client.waits) + 1 && client.cuts == old(client.cuts) else client.cuts > old(client.cuts)
  }

  /** The wait of a turn, and when it ended. */
  method Awake(client: Client, name: Name, wait: nat) returns (goOn: bool, now: int)
    requires client.Valid()
    modifies client
    ensures client.Advanced() && client.Undisturbed() && client.OnlyLooked() && now == client.world.time && HasWaited(client, goOn)
    ensures now <= old(client.world.time) + wait + 2 * Slowest(old(client.rivals)) && (goOn ==> now >= old(client.world.time) + wait)
    ensures old(client.faults) == [] ==> goOn
    ensures IsFreshTill(old(client.world), client.world, name, client.token) ==>
              name in client.world.leases && client.world.leases[name] == old(client.world).leases[name]
  {
    goOn := client.Wait(wait);
    now := client.world.time;
    if goOn {
      ghost var before := client.trace;
      now := client.Now();
      NothingStill(before, client.trace, |old(client.trace)| - 1, client.token);
    }
    if IsFreshTill(old(client.world), client.world, name, client.token) {
      UntouchedWhileFresh(client.trace, |old(client.trace)| - 1, |client.trace| - 1, name, client.token);
    }
  }

  /** One turn of the loop: a wait and a renewal, which is given as long as a retry. */
  method Beat(client: Client, name: Name, wait: nat, retry: nat, ghost since: nat) returns (goOn: bool, started: int, renewal: Renewal)
    requires client.Valid() && since < |client.trace| && DidOnly(client.trace, since, Putting, name, Own, client.token)
    modifies client
    ensures client.Advanced() && DidOnly(client.trace, since, Putting, name, Own, client.token)
    ensures var slack := Slowest(old(client.rivals));
            started <= old(client.world.time) + wait + 2 * slack && client.world.time <= started + retry + slack
    ensures HasWaited(client, goOn) && (goOn ==> started >= old(client.world.time) + wait)
    ensures renewal == Renewed ==> goOn && Holds(client.world, name, client.token) && client.world.leases[name].at >= started
    ensures old(client.faults) == [] ==> goOn && (IsSureToKeep(client, name, wait, retry) ==> renewal == Renewed)
    ensures renewal == LostLease ==> goOn && !Holds(client.world, name, client.token)
    ensures old(client.Quiet()) && Holds(old(client.world), name, client.token) ==>
              && client.Quiet() && goOn && renewal == Renewed && Holds(client.world, name, client.token)
              && client.world.written == old(client.world.written) + [(name, client.world.leases[name])]
  {
    renewal := Unrenewed;
    goOn, started := Awake(client, name, wait);
    OnlyStill(old(client.trace), client.trace, since, Putting, name, Own, client.token);
    if goOn {
      ghost var before := client.trace;
      renewal := RenewLease(client, name, Some(started + retry));
      OnlyStill(before, client.trace, since, Putting, name, Own, client.token);
    }
  }

  /** A turn of this wait leaves the holder sure of its lease to its end. */
  predicate HasTime(w: World, name: Name, token: string, terms: Terms, lag: int, slack: nat, renewed: int, wait: nat) {
    && Holds(w, name, token) && w.leases[name].at + lag >= renewed
    && w.time + wait + terms.retry + 4 * slack + lag < renewed + w.ttl
  }

  /** The lease was last written at this time or later. */
  predicate IsWrittenSince(w: World, name: Name, since: int) {
    name in w.leases && w.leases[name].at >= since
  }

  /** What so many waits come to. */
  function Turns(beats: nat, wait: nat): nat {
    if beats == 0 then 0 else Turns(beats - 1, wait) + wait
  }

  lemma {:induction false} TurnsTake(beats: nat, wait: nat)
    ensures Turns(beats, wait) == beats * wait
  {
    if beats > 0 {
      TurnsTake(beats - 1, wait);
    }
  }

  /** What a turn of the loop decides. */
  datatype Course = GoOnIn(wait: nat) | EndAs(ended: Ended)

  /** A holder stops only once it has not renewed its lease for all but the margin of a TTL, and is displaced only if it no
      longer has it. */
  predicate EndsRightly(w: World, name: Name, token: string, terms: Terms, renewed: int, ended: Ended) {
    && (ended == Stopped ==> w.time - renewed >= w.ttl - terms.margin)
    && (ended == Displaced ==> !Holds(w, name, token))
  }

  /** One turn, and what follows from it. The holder is sure to have had the lease since `since`. */
  method TakeTurn(client: Client, name: Name, terms: Terms, renewed: int, wait: nat, ghost since: nat, ghost lag: nat, ghost slack: nat, ghost sure: bool)
    returns (course: Course, renewed': int)
    requires client.Valid() && since < |client.trace| && DidOnly(client.trace, since, Putting, name, Own, client.token) && Slowest(client.rivals) <= slack
    requires sure ==>
               && LeaveRoom(terms, client.world.ttl, lag - slack, slack) && HeldSince(client.trace, since, name, client.token)
               && HasTime(client.world, name, client.token, terms, lag, slack, renewed, wait)
    modifies client
    ensures client.Advanced() && DidOnly(client.trace, since, Putting, name, Own, client.token)
    ensures sure ==>
              && HeldSince(client.trace, since, name, client.token) && IsFresh(client.world, name, client.token)
              && course != EndAs(Displaced)
              && (course.GoOnIn? ==> HasTime(client.world, name, client.token, terms, lag, slack, renewed', course.wait))
    ensures course != EndAs(Released) ==> client.waits == old(client.waits) + 1 && client.cuts == old(client.cuts)
    ensures course == EndAs(Released) ==> client.cuts > old(client.cuts)
    ensures renewed' == renewed || renewed' >= old(client.world.time)
    ensures course.EndAs? ==> EndsRightly(client.world, name, client.token, terms, renewed, course.ended)
    ensures sure && old(client.faults) == [] && 2 * slack <= terms.retry ==>
              course == GoOnIn(terms.renewal) && IsWrittenSince(client.world, name, old(client.world.time) + wait)
    ensures old(client.Quiet()) && Holds(old(client.world), name, client.token) ==>
              && client.Quiet() && course.GoOnIn? && Holds(client.world, name, client.token)
              && client.world.written == old(client.world.written) + [(name, client.world.leases[name])]
  {
    var goOn, started, renewal := Beat(client, name, wait, terms.retry, since);
    if sure {
      StillHeld(old(client.trace), client.trace, since, name, client.token);
    }
    renewed' := renewed;
    if !goOn {
      return EndAs(Released), renewed;
    } else if renewal == Renewed {
      return GoOnIn(terms.renewal), started;
    } else if renewal == LostLease {
      return EndAs(Displaced), renewed;
    }
    ghost var before := client.trace;
    var now := client.Now();
    OnlyStill(before, client.trace, since, Putting, name, Own, client.token);
    if sure {
      StillHeld(old(client.trace), client.trace, since, name, client.token);
    }
    course := if now - renewed >= client.world.ttl - terms.margin then EndAs(Stopped) else GoOnIn(terms.retry);
  }

  /** Every turn, until the work ends or the lease can no longer be counted on. */
  method KeepOn(client: Client, name: Name, terms: Terms, beats: nat, renewed0: int, ghost since: nat, ghost lag: nat, ghost slack: nat,
                ghost sure: bool, ghost certain: bool, ghost calm: bool)
    returns (ended: Ended)
    requires client.Valid() && since < |client.trace| && DidOnly(client.trace, since, Putting, name, Own, client.token) && Slowest(client.rivals) <= slack
    requires renewed0 <= client.world.time
    requires sure ==>
               && LeaveRoom(terms, client.world.ttl, lag - slack, slack) && HeldSince(client.trace, since, name, client.token)
               && HasTime(client.world, name, client.token, terms, lag, slack, renewed0, terms.renewal)
    requires certain ==> sure && client.faults == [] && 2 * slack <= terms.retry
    requires calm ==> client.Quiet() && Holds(client.world, name, client.token)
    modifies client
    ensures client.Advanced() && DidOnly(client.trace, since, Putting, name, Own, client.token)
    ensures sure ==> ended != Displaced && HeldSince(client.trace, since, name, client.token) && IsFresh(client.world, name, client.token)
    ensures EndsRightly(client.world, name, client.token, terms, renewed0, ended)
    ensures ended == Released ==> client.cuts > old(client.cuts) || client.waits == old(client.waits) + beats
    ensures certain ==>
              ended == Released && (beats > 0 ==> IsWrittenSince(client.world, name, old(client.world.time) + Turns(beats, terms.renewal)))
    ensures calm ==>
              ended == Released && Holds(client.world, name, client.token) && |client.world.written| == |old(client.world.written)| + beats
  {
    var renewed, wait := renewed0, terms.renewal;
    for n := 0 to beats
      invariant client.Advanced() && DidOnly(client.trace, since, Putting, name, Own, client.token)
      invariant client.waits == old(client.waits) + n && client.cuts == old(client.cuts) && renewed >= renewed0
      invariant sure ==> HeldSince(client.trace, since, name, client.token) && HasTime(client.world, name, client.token, terms, lag, slack, renewed, wait)
      invariant certain ==>
                  && client.faults == [] && wait == terms.renewal && client.world.time >= old(client.world.time) + Turns(n, terms.renewal)
                  && (n > 0 ==> IsWrittenSince(client.world, name, old(client.world.time) + Turns(n, terms.renewal)))
      invariant calm ==>
                  client.Quiet() && Holds(client.world, name, client.token) && |client.world.written| == |old(client.world.written)| + n
    {
      var course;
      course, renewed := TakeTurn(client, name, terms, renewed, wait, since, lag, slack, sure);
      if course.EndAs? {
        return course.ended;
      }
      wait := course.wait;
    }
    return Released;
  }

  lemma AtIsPast(client: Client, name: Name)
    requires client.Valid() && name in client.world.leases
    ensures client.world.leases[name].at <= client.world.time
  {
    LeasesAreNoNewer(client.trace, |client.trace| - 1, name);
  }

  /** The clock is read first; what room there is then is known of the turns to come. */
  method Begin(client: Client, name: Name, terms: Terms) returns (renewed: int, ghost lag: nat, ghost slack: nat, ghost sure: bool)
    requires client.Valid()
    modifies client`world, client`trace, client`rivals
    ensures client.Advanced() && client.Undisturbed() && client.OnlyLooked() && renewed == client.world.time
    ensures slack == Slowest(old(client.rivals)) && sure == HasRoom(old(client.world), name, client.token, terms, slack)
    ensures sure ==>
              && LeaveRoom(terms, client.world.ttl, lag - slack, slack)
              && HeldSince(client.trace, |old(client.trace)| - 1, name, client.token)
              && HasTime(client.world, name, client.token, terms, lag, slack, renewed, terms.renewal)
  {
    slack, lag, sure := Slowest(client.rivals), 0, HasRoom(client.world, name, client.token, terms, Slowest(client.rivals));
    if sure {
      AtIsPast(client, name);
      lag := slack + client.world.time - client.world.leases[name].at;
    }
    renewed := client.Now();
    if sure {
      StillHeld(old(client.trace), client.trace, |old(client.trace)| - 1, name, client.token);
    }
  }

  /** Renews the lease until the work ends, after `beats` turns, or the lease can no longer be counted on. If its terms leave
      room for the slowest of the accesses to come, the holder has the lease in every state up to the moment it is told to
      stop: it gives up before anyone else may take the lease, and never because someone did. If no access fails either and
      each pair of them fits in a retry, it renews the lease at every turn until the work ends, whatever others do. In any case
      it ends with the work, when told to, when it could not renew for almost a TTL, or displaced. */
  method KeepRenewing(client: Client, name: Name, terms: Terms, beats: nat) returns (ended: Ended)
    requires client.Valid()
    modifies client
    ensures client.Advanced() && client.Did(Putting, name, Own)
    ensures HasRoom(old(client.world), name, client.token, terms, Slowest(old(client.rivals))) ==>
              && ended != Displaced && HeldSince(client.trace, |old(client.trace)| - 1, name, client.token)
              && IsFresh(client.world, name, client.token)
    ensures EndsRightly(client.world, name, client.token, terms, old(client.world.time), ended)
    ensures ended == Released ==> client.cuts > old(client.cuts) || client.waits == old(client.waits) + beats
    ensures HasRoom(old(client.world), name, client.token, terms, Slowest(old(client.rivals))) ==>
              old(client.faults) == [] && 2 * Slowest(old(client.rivals)) <= terms.retry ==>
              ended == Released && (beats > 0 ==> IsWrittenSince(client.world, name, old(client.world.time) + beats * terms.renewal))
    ensures old(client.Quiet()) && Holds(old(client.world), name, client.token) ==>
              && ended == Released && Holds(client.world, name, client.token)
              && |client.world.written| == |old(client.world.written)| + beats
  {
    ghost var from := |client.trace| - 1;
    var renewed;
    ghost var lag, slack, sure;
    renewed, lag, slack, sure := Begin(client, name, terms);
    ended := KeepOn(client, name, terms, beats, renewed, from, lag, slack, sure, sure && client.faults == [] && 2 * slack <= terms.retry,
                    client.Quiet() && Holds(client.world, name, client.token));
    TurnsTake(beats, terms.renewal);
  }
}
