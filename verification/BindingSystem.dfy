/** The published bindings of one project, as a transition system over the record store:
    `pkg/variablestore/bindings.go`. A binding is kept as two entries, its record and its value, which are written
    together and removed one after the other. Any number of publishers and removers take steps in any order. */
module BindingSystem {
  const OCEL := "OCEL"

  datatype Coordinate = Coordinate(name: string, environment: string)

  datatype Publish = Publish(at: Coordinate, owner: string, version: nat, record: string, sealed: string)

  /** The two entries of a binding, each named by the publish that wrote it: 0 for none. A revision is the place of
      the publish among all of them. */
  datatype Pair = Pair(record: nat, value: nat)

  const NOTHING := Pair(0, 0)

  /** `log` says who took each step, in order. */
  datatype World = World(pairs: map<Coordinate, Pair>, written: seq<Publish>, log: seq<Step>)

  datatype Step = Step(actor: nat, act: Act)

  datatype Act =
    | WritePair(publish: Publish, base: Pair)
    | DropRecord(at: Coordinate, revision: nat)
    | DropValue(at: Coordinate, revision: nat)

  const BLANK := World(map[], [], [])

  function PairAt(w: World, at: Coordinate): Pair {
    if at in w.pairs then w.pairs[at] else NOTHING
  }

  function VersionOf(w: World, revision: nat): nat {
    if 0 < revision <= |w.written| then w.written[revision - 1].version else 0
  }

  /** A publisher other than ocel itself writes over no other's record. */
  predicate MayWrite(w: World, owner: string, revision: nat) {
    owner == OCEL || !(0 < revision <= |w.written|) || w.written[revision - 1].owner == owner
  }

  predicate Enabled(w: World, step: Step) {
    match step.act
    case WritePair(p, base) =>
      PairAt(w, p.at) == base && p.version == VersionOf(w, base.record) + 1 && MayWrite(w, p.owner, base.record)
    case DropRecord(at, revision) => revision > 0 && PairAt(w, at).record == revision
    case DropValue(at, revision) => revision > 0 && PairAt(w, at).value == revision
  }

  function Apply(w: World, step: Step): World
    requires Enabled(w, step)
  {
    var acted := w.(log := w.log + [step]);
    match step.act
    case WritePair(p, _) =>
      var revision := |w.written| + 1;
      acted.(pairs := w.pairs[p.at := Pair(revision, revision)], written := w.written + [p])
    case DropRecord(at, _) => acted.(pairs := w.pairs[at := PairAt(w, at).(record := 0)])
    case DropValue(at, _) => acted.(pairs := w.pairs[at := PairAt(w, at).(value := 0)])
  }

  predicate IsOf(w: World, at: Coordinate, revision: nat) {
    revision == 0 || (revision <= |w.written| && w.written[revision - 1].at == at)
  }

  /** Every stored half is of a publish to its own coordinate, and two halves beside each other are of the same one. */
  predicate PairOk(w: World, at: Coordinate) {
    var pair := PairAt(w, at);
    && IsOf(w, at, pair.record) && IsOf(w, at, pair.value)
    && (pair.record > 0 && pair.value > 0 ==> pair.record == pair.value)
  }

  ghost predicate Inv(w: World) {
    && (forall at :: PairOk(w, at))
    && (forall i :: 0 <= i < |w.written| ==> w.written[i].version > 0)
  }

  lemma InvIsKept(w: World, step: Step)
    requires Inv(w) && Enabled(w, step)
    ensures Inv(Apply(w, step))
  {
    var w' := Apply(w, step);
    forall at ensures PairOk(w', at) {
      assert PairOk(w, at);
    }
  }

  ghost predicate Next(w: World, w': World) {
    exists step :: Enabled(w, step) && w' == Apply(w, step)
  }

  function Last(trace: seq<World>): World
    requires |trace| > 0
  {
    trace[|trace| - 1]
  }

  ghost predicate Behaviour(trace: seq<World>) {
    trace != [] && trace[0] == BLANK && forall i: nat :: i + 1 < |trace| ==> StepsOn(trace, i)
  }

  ghost predicate StepsOn(trace: seq<World>, i: nat)
    requires i + 1 < |trace|
  {
    Next(trace[i], trace[i + 1])
  }

  lemma StepOf(trace: seq<World>, i: nat) returns (step: Step)
    requires Behaviour(trace) && i + 1 < |trace|
    ensures Enabled(trace[i], step) && trace[i + 1] == Apply(trace[i], step) && DidAt(trace, i, step.actor, step.act)
  {
    assert StepsOn(trace, i);
    step :| Enabled(trace[i], step) && trace[i + 1] == Apply(trace[i], step);
  }

  /** The step after state k. */
  predicate DidAt(trace: seq<World>, k: nat, actor: nat, act: Act) {
    k + 1 < |trace| && trace[k + 1].log == trace[k].log + [Step(actor, act)]
  }

  lemma {:induction false} BehavioursKeepInv(trace: seq<World>, i: nat)
    requires Behaviour(trace) && i < |trace|
    ensures Inv(trace[i])
    decreases i
  {
    if i > 0 {
      BehavioursKeepInv(trace, i - 1);
      var step := StepOf(trace, i - 1);
      InvIsKept(trace[i - 1], step);
    }
  }

  lemma Extended(trace: seq<World>, step: Step) returns (longer: seq<World>)
    requires Behaviour(trace) && Enabled(Last(trace), step)
    ensures Behaviour(longer) && longer == trace + [Apply(Last(trace), step)] && trace <= longer
  {
    longer := trace + [Apply(Last(trace), step)];
    forall i: nat | i + 1 < |longer| ensures StepsOn(longer, i) {
      assert i + 1 < |trace| ==> StepsOn(trace, i);
    }
  }

  // What holds over every history.

  /** Two halves stored beside each other come from one publish. */
  lemma HalvesAgree(trace: seq<World>, k: nat, at: Coordinate)
    requires Behaviour(trace) && k < |trace| && PairAt(trace[k], at).record > 0 && PairAt(trace[k], at).value > 0
    ensures PairAt(trace[k], at).record == PairAt(trace[k], at).value <= |trace[k].written|
    ensures trace[k].written[PairAt(trace[k], at).record - 1].at == at
  {
    BehavioursKeepInv(trace, k);
    assert PairOk(trace[k], at);
  }

  /** The record stays in place from state i to state j, whoever rewrites it. */
  ghost predicate StaysPublished(trace: seq<World>, i: nat, j: nat, at: Coordinate)
    requires i <= j < |trace|
  {
    forall k :: i <= k <= j ==> PairAt(trace[k], at).record > 0
  }

  /** While a record stays in place its version tells one publish from another, and its owner stays unless ocel takes
      the name itself. */
  lemma {:induction false} VersionsCountPublishes(trace: seq<World>, i: nat, j: nat, at: Coordinate)
    requires Behaviour(trace) && i <= j < |trace| && StaysPublished(trace, i, j, at)
    ensures 0 < PairAt(trace[i], at).record <= |trace[i].written| && trace[i].written <= trace[j].written
    ensures PairAt(trace[i], at).record <= PairAt(trace[j], at).record <= |trace[j].written|
    ensures var a, b := PairAt(trace[i], at).record, PairAt(trace[j], at).record;
            && VersionOf(trace[i], a) <= VersionOf(trace[j], b)
            && (VersionOf(trace[i], a) == VersionOf(trace[j], b) <==> a == b)
            && trace[j].written[b - 1].owner in {trace[i].written[a - 1].owner, OCEL}
    decreases j - i
  {
    BehavioursKeepInv(trace, i);
    assert PairOk(trace[i], at);
    if i < j {
      BehavioursKeepInv(trace, j - 1);
      VersionsCountPublishes(trace, i, j - 1, at);
      var step := StepOf(trace, j - 1);
      OneStepCountsOn(trace[j - 1], step, at);
    }
  }

  lemma OneStepCountsOn(w: World, step: Step, at: Coordinate)
    requires Inv(w) && Enabled(w, step) && PairAt(w, at).record > 0 && PairAt(Apply(w, step), at).record > 0
    ensures var w' := Apply(w, step);
            var a, b := PairAt(w, at).record, PairAt(w', at).record;
            && w.written <= w'.written && a <= |w.written| && b <= |w'.written|
            && if b == a then VersionOf(w', b) == VersionOf(w, a)
               else b == |w.written| + 1 && VersionOf(w', b) == VersionOf(w, a) + 1
                    && w'.written[b - 1].owner in {w.written[a - 1].owner, OCEL}
  {
    assert PairOk(w, at);
  }

  lemma {:induction false} PublishesAreKept(trace: seq<World>, i: nat, j: nat)
    requires Behaviour(trace) && i <= j < |trace|
    ensures trace[i].written <= trace[j].written
    decreases j - i
  {
    if i < j {
      PublishesAreKept(trace, i, j - 1);
      var step := StepOf(trace, j - 1);
    }
  }

  /** A record that was replaced or removed is never stored again. */
  lemma {:induction false} RecordsNeverReturn(trace: seq<World>, i: nat, j: nat, at: Coordinate)
    requires Behaviour(trace) && i <= j < |trace|
    requires 0 < PairAt(trace[j], at).record <= |trace[i].written|
    ensures PairAt(trace[i], at).record == PairAt(trace[j], at).record
    decreases j - i
  {
    if i < j {
      var step := StepOf(trace, i);
      RecordsNeverReturn(trace, i + 1, j, at);
    }
  }

  /** Two records of one version are of one publish exactly if the record was never gone in between. */
  lemma SameVersionSamePublishIffItStayed(trace: seq<World>, i: nat, j: nat, at: Coordinate)
    requires Behaviour(trace) && i <= j < |trace| && PairAt(trace[i], at).record > 0 && PairAt(trace[j], at).record > 0
    requires VersionOf(trace[i], PairAt(trace[i], at).record) == VersionOf(trace[j], PairAt(trace[j], at).record)
    ensures PairAt(trace[i], at).record == PairAt(trace[j], at).record <==> StaysPublished(trace, i, j, at)
  {
    if StaysPublished(trace, i, j, at) {
      VersionsCountPublishes(trace, i, j, at);
    } else if PairAt(trace[i], at).record == PairAt(trace[j], at).record {
      BehavioursKeepInv(trace, i);
      assert PairOk(trace[i], at);
      forall k | i <= k <= j ensures PairAt(trace[k], at).record > 0 {
        PublishesAreKept(trace, i, k);
        RecordsNeverReturn(trace, k, j, at);
      }
    }
  }

  /** A record is stored without its value. */
  predicate IsTorn(w: World, at: Coordinate) { PairAt(w, at).record > 0 && PairAt(w, at).value == 0 }

  /** A value is taken away. */
  predicate TakesValueAt(trace: seq<World>, k: nat, at: Coordinate) {
    k + 1 < |trace| && PairAt(trace[k], at).value > 0 && PairAt(trace[k + 1], at).value == 0
  }

  /** Every value taken away in this history was one without a record beside it. */
  ghost predicate RemovesOnlyLoneValues(trace: seq<World>, at: Coordinate) {
    forall k: nat :: TakesValueAt(trace, k, at) ==> PairAt(trace[k], at).record == 0
  }

  ghost predicate NeverTorn(trace: seq<World>, at: Coordinate) {
    forall k: nat :: k < |trace| ==> !IsTorn(trace[k], at)
  }

  /** No record is ever left without its value exactly if removals take a value only when its record is gone. */
  lemma NeverTornIffOnlyLoneValuesGo(trace: seq<World>, at: Coordinate)
    requires Behaviour(trace)
    ensures NeverTorn(trace, at) <==> RemovesOnlyLoneValues(trace, at)
  {
    if RemovesOnlyLoneValues(trace, at) {
      forall k: nat | k < |trace| ensures !IsTorn(trace[k], at) {
        LoneValueRemovalsNeverTear(trace, k, at);
      }
    }
    if NeverTorn(trace, at) {
      forall k: nat | TakesValueAt(trace, k, at) ensures PairAt(trace[k], at).record == 0 {
        var step := StepOf(trace, k);
        assert !IsTorn(trace[k + 1], at);
      }
    }
  }

  lemma {:induction false} LoneValueRemovalsNeverTear(trace: seq<World>, k: nat, at: Coordinate)
    requires Behaviour(trace) && k < |trace| && RemovesOnlyLoneValues(trace, at)
    ensures !IsTorn(trace[k], at)
  {
    if k > 0 {
      var step := StepOf(trace, k - 1);
      LoneValueRemovalsNeverTear(trace, k - 1, at);
      assert TakesValueAt(trace, k - 1, at) ==> PairAt(trace[k - 1], at).record == 0;
    }
  }

  /** A publish to the coordinate lands between two states, and its record is not removed before the second. */
  ghost predicate IsOvertaken(trace: seq<World>, i: nat, j: nat, at: Coordinate) {
    i <= j < |trace| && exists k :: i <= k < j && PublishesAt(trace, k, at) && StaysPublished(trace, k + 1, j, at)
  }

  ghost predicate PublishesAt(trace: seq<World>, k: nat, at: Coordinate) {
    exists actor: nat, p: Publish, base: Pair :: p.at == at && DidAt(trace, k, actor, WritePair(p, base))
  }

  /** A removal that finds the record gone, and then takes the value, leaves a record without its value exactly if a
      publish overtakes it. */
  lemma TornIffOvertaken(trace: seq<World>, i: nat, j: nat, at: Coordinate)
    requires Behaviour(trace) && i <= j && TakesValueAt(trace, j, at) && PairAt(trace[i], at).record == 0
    ensures IsTorn(trace[j + 1], at) <==> IsOvertaken(trace, i, j, at)
  {
    var step := StepOf(trace, j);
    assert step.act.DropValue?;
    if PairAt(trace[j], at).record > 0 {
      OvertakenSince(trace, i, j, at);
    }
  }

  lemma {:induction false} OvertakenSince(trace: seq<World>, i: nat, j: nat, at: Coordinate)
    requires Behaviour(trace) && i <= j < |trace| && PairAt(trace[i], at).record == 0 && PairAt(trace[j], at).record > 0
    ensures IsOvertaken(trace, i, j, at)
    decreases j - i
  {
    var step := StepOf(trace, j - 1);
    if PairAt(trace[j - 1], at).record == 0 {
      assert step.act.WritePair? && step.act.publish.at == at && DidAt(trace, j - 1, step.actor, WritePair(step.act.publish, step.act.base));
      assert PublishesAt(trace, j - 1, at) && StaysPublished(trace, j, j, at);
    } else {
      OvertakenSince(trace, i, j - 1, at);
      var k :| i <= k < j - 1 && PublishesAt(trace, k, at) && StaysPublished(trace, k + 1, j - 1, at);
      assert StaysPublished(trace, k + 1, j, at);
    }
  }

  /** The version does not tell publishes apart once a record was removed: the next publish counts from one again.
      Halves read at different times can agree on their version and still be of different publishes, so a reader must
      list both at once. */
  lemma RemovalRestartsVersions(at: Coordinate) returns (trace: seq<World>)
    ensures Behaviour(trace) && |trace| == 5
    ensures PairAt(trace[1], at) == Pair(1, 1) && PairAt(trace[4], at) == Pair(2, 2)
    ensures VersionOf(trace[1], 1) == VersionOf(trace[4], 2) && |trace[4].written| == 2
    ensures trace[4].written[0].sealed != trace[4].written[1].sealed
  {
    trace := [BLANK];
    trace := Extended(trace, Step(1, WritePair(Publish(at, OCEL, 1, "", "old"), NOTHING)));
    trace := Extended(trace, Step(0, DropRecord(at, 1)));
    trace := Extended(trace, Step(0, DropValue(at, 1)));
    trace := Extended(trace, Step(1, WritePair(Publish(at, OCEL, 1, "", "new"), NOTHING)));
  }

  /** An unconditional removal that a publish overtakes leaves that publish's record without its value, and only
      another publish or removal mends it. */
  lemma RemovalTearsAnOvertakingPublish(at: Coordinate) returns (trace: seq<World>)
    ensures Behaviour(trace) && PairAt(Last(trace), at) == Pair(2, 0)
  {
    trace := [BLANK];
    trace := Extended(trace, Step(1, WritePair(Publish(at, OCEL, 1, "", ""), NOTHING)));
    trace := Extended(trace, Step(0, DropRecord(at, 1)));
    trace := Extended(trace, Step(1, WritePair(Publish(at, OCEL, 1, "", ""), Pair(0, 1))));
    trace := Extended(trace, Step(0, DropValue(at, 2)));
  }
}
