/** `pkg/runs/slots.go`: how many deliveries a consumer and its worker have under way, counted while other reservations
    on the same slots come and go. */
module Slots {

  function Sum(held: seq<nat>): nat {
    if held == [] then 0 else Sum(held[..|held| - 1]) + held[|held| - 1]
  }

  lemma {:induction false} SumChanges(held: seq<nat>, i: nat, n: nat)
    requires i < |held|
    ensures Sum(held[i := n]) == Sum(held) - held[i] + n
  {
    var last := |held| - 1;
    if i < last {
      SumChanges(held[..last], i, n);
      assert held[i := n][..last] == held[..last][i := n];
    } else {
      assert held[i := n][..last] == held[..last];
    }
  }

  lemma SumAppends(held: seq<nat>, n: nat)
    ensures Sum(held + [n]) == Sum(held) + n
  {
    assert (held + [n])[..|held|] == held;
  }

  lemma {:induction false} SumOfNone(held: seq<nat>)
    requires forall i :: 0 <= i < |held| ==> held[i] == 0
    ensures Sum(held) == 0
  {
    if held != [] {
      SumOfNone(held[..|held| - 1]);
    }
  }

  datatype Op = Join | Reserve(other: nat, want: nat) | Unreserve(other: nat, n: nat) | Release(other: nat, n: nat) | SetLimit(limit: int)

  /** `held` says what each reservation holds, by its number; no code reads it. `rivals` are what other reservations do
      between two steps of this one's, each under the lock. */
  class LocalSlots {
    var limit: int
    var used: int
    var changed: nat
    var held: seq<nat>
    var rivals: seq<seq<Op>>

    constructor (limit: int, rivals: seq<seq<Op>>)
      ensures Valid() && this.limit == limit && used == 0 && held == [] && this.rivals == rivals
    {
      this.limit, used, changed, held, this.rivals := limit, 0, 0, [], rivals;
    }

    /** What is used is what the outstanding reservations hold. */
    ghost predicate Valid()
      reads this
    {
      used == Sum(held)
    }

    function HeldBy(r: nat): nat
      reads this
    {
      if r < |held| then held[r] else 0
    }

    /** A new reservation, which holds nothing yet. */
    method Begin() returns (r: nat)
      requires Valid()
      modifies this`held
      ensures Valid() && r == |old(held)| && held == old(held) + [0]
    {
      r := |held|;
      SumAppends(held, 0);
      held := held + [0];
    }

    method Hold(r: nat, n: nat)
      requires used == Sum(held) - HeldBy(r) + n && r < |held|
      modifies this`held
      ensures Valid() && held == old(held)[r := n]
    {
      SumChanges(held, r, n);
      held := held[r := n];
    }

    /** As many as are free, if there is a limit. */
    static function Granted(limit: int, used: int, want: nat): (granted: nat)
      ensures granted <= want && (granted > 0 && limit > 0 ==> used + granted <= limit)
      ensures granted < want ==> 0 < limit <= used + granted
    {
      if limit <= 0 then want else if used >= limit then 0 else if want <= limit - used then want else limit - used
    }

    /** Grants as many as asked for, or as many as are free. A grant never takes what is used past a positive limit. */
    method Reserve(r: nat, want: nat) returns (granted: nat)
      requires Valid() && r < |held|
      modifies this`used, this`held
      ensures Valid() && held == old(held)[r := old(held)[r] + granted] && used == old(used) + granted
      ensures granted == Granted(limit, old(used), want)
      ensures granted > 0 && limit > 0 ==> used <= limit
    {
      granted := want;
      if limit > 0 {
        var free := if limit - used >= 0 then limit - used else 0;
        granted := if want <= free then want else free;
      }
      used := used + granted;
      Hold(r, held[r] + granted);
    }

    method Unreserve(r: nat, n: nat)
      requires Valid() && r < |held| && n <= held[r]
      modifies this`used, this`held
      ensures Valid() && held == old(held)[r := old(held)[r] - n] && used == old(used) - n
    {
      used := used - n;
      Hold(r, held[r] - n);
    }

    /** Gives slots back and wakes whoever waits for some. */
    method Release(r: nat, n: nat)
      requires Valid() && r < |held| && n <= held[r]
      modifies this`used, this`held, this`changed
      ensures Valid() && held == old(held)[r := old(held)[r] - n] && used == old(used) - n
      ensures changed == old(changed) + 1
    {
      Unreserve(r, n);
      changed := changed + 1;
    }

    method SetLimit(limit: int)
      requires Valid()
      modifies this`limit, this`changed
      ensures Valid() && this.limit == limit && changed == old(changed) + if limit == old(this.limit) then 0 else 1
    {
      if this.limit != limit {
        this.limit := limit;
        changed := changed + 1;
      }
    }

    /** One step of another reservation's, or of whoever sets the limit. */
    method TakeRivals(op: Op, r: nat)
      requires Valid() && r < |held|
      modifies this`limit, this`used, this`changed, this`held
      ensures Valid() && |held| >= |old(held)| && held[r] == old(held)[r]
    {
      match op
      case Join =>
        var other := Begin();
      case Reserve(other, want) =>
        if other != r && other < |held| {
          var granted := Reserve(other, want);
        }
      case Unreserve(other, n) =>
        if other != r && other < |held| && n <= held[other] {
          Unreserve(other, n);
        }
      case Release(other, n) =>
        if other != r && other < |held| && n <= held[other] {
          Release(other, n);
        }
      case SetLimit(limit) => SetLimit(limit);
    }

    method Interfere(r: nat)
      requires Valid() && r < |held|
      modifies this
      ensures Valid() && |held| >= |old(held)| && held[r] == old(held)[r]
      ensures old(rivals) == [] ==> rivals == [] && used == old(used) && limit == old(limit)
    {
      if rivals == [] {
        return;
      }
      var ops := rivals[0];
      rivals := rivals[1..];
      for i := 0 to |ops|
        invariant Valid() && |held| >= |old(held)| && held[r] == old(held)[r]
      {
        TakeRivals(ops[i], r);
      }
    }
  }

  /** Once every reservation has given back what it held, nothing is used. */
  lemma NothingLeftMeansNothingUsed(slots: LocalSlots)
    requires slots.Valid() && forall r :: 0 <= r < |slots.held| ==> slots.held[r] == 0
    ensures slots.used == 0
  {
    SumOfNone(slots.held);
  }

  class Reservation {
    const consumer: LocalSlots
    const worker: LocalSlots
    /** The numbers of this reservation among those of the consumer and of the worker. */
    const c: nat
    const w: nat
    var n: nat
    /** The slots of it that are not yet given back. */
    ghost var left: nat

    /** Both hold for this reservation what is left of it. */
    ghost predicate Valid()
      reads this, consumer, worker
    {
      && consumer != worker && consumer.Valid() && worker.Valid()
      && c < |consumer.held| && w < |worker.held| && consumer.held[c] == worker.held[w] == left
    }

    /** Reserves first on the consumer and then on the worker, and gives back on the consumer what the worker did not
        grant. */
    constructor (want: nat, consumer: LocalSlots, worker: LocalSlots)
      requires consumer != worker && consumer.Valid() && worker.Valid()
      modifies consumer, worker
      ensures Valid() && this.consumer == consumer && this.worker == worker && left == n <= want
      ensures old(consumer.rivals) == [] && old(worker.rivals) == [] ==>
                n == LocalSlots.Granted(old(worker.limit), old(worker.used), LocalSlots.Granted(old(consumer.limit), old(consumer.used), want))
    {
      var c := consumer.Begin();
      var w := worker.Begin();
      consumer.Interfere(c);
      var granted := consumer.Reserve(c, want);
      var kept := 0;
      if granted > 0 {
        worker.Interfere(w);
        consumer.Interfere(c);
        kept := worker.Reserve(w, granted);
        worker.Interfere(w);
        consumer.Interfere(c);
        consumer.Unreserve(c, granted - kept);
      }
      this.consumer, this.worker, this.c, this.w, n, left := consumer, worker, c, w, kept, kept;
    }

    /** Others' steps on the consumer and the worker leave what this one holds alone. */
    method Wait()
      requires Valid()
      modifies consumer, worker
      ensures Valid() && left == old(left)
    {
      consumer.Interfere(c);
      worker.Interfere(w);
    }

    /** Gives back all but n of what was reserved. */
    method Keep(n: nat)
      requires Valid() && left == this.n && n <= this.n
      modifies this, consumer, worker
      ensures Valid() && left == this.n == n
    {
      consumer.Unreserve(c, this.n - n);
      worker.Interfere(w);
      worker.Unreserve(w, this.n - n);
      this.n, left := n, n;
    }

    method Release(n: nat)
      requires Valid() && n <= left
      modifies this`left, consumer, worker
      ensures Valid() && left == old(left) - n && this.n == old(this.n)
    {
      consumer.Release(c, n);
      worker.Interfere(w);
      worker.Release(w, n);
      left := left - n;
    }
  }
}
