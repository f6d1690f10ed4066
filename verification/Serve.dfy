/** `pkg/runs/serve.go`: a turn of the serving loop, which reserves slots, receives messages, and delivers them in
    groups, each of which is disposed of and gives its slot back when it ends. */
module Serve {
  import opened Wrappers
  import opened RunEngine
  import opened Slots

  const MAX_RECEIVE := 100

  // Which messages are delivered together.

  function GroupOf(rcv: Received, consumer: string): string { rcv.message.Group(consumer) }

  /** The messages of a group, in the order they were received. */
  function OfGroup(received: seq<Received>, consumer: string, group: string): seq<Received> {
    if received == [] then []
    else
      var n := |received| - 1;
      OfGroup(received[..n], consumer, group) + if GroupOf(received[n], consumer) == group then [received[n]] else []
  }

  function EachGroup(received: seq<Received>, consumer: string, groups: seq<string>): seq<seq<Received>> {
    seq(|groups|, i requires 0 <= i < |groups| => OfGroup(received, consumer, groups[i]))
  }

  predicate AreDistinct(groups: seq<string>) {
    forall i, j :: 0 <= i < j < |groups| ==> groups[i] != groups[j]
  }

  /** The groups are those of the messages, each once. */
  ghost predicate AreTheGroups(groups: seq<string>, received: seq<Received>, consumer: string) {
    AreDistinct(groups) && forall g :: g in groups <==> exists i :: 0 <= i < |received| && GroupOf(received[i], consumer) == g
  }

  /** Everything delivered, group by group. */
  function All(deliveries: seq<seq<Received>>): multiset<Received> {
    if deliveries == [] then multiset{} else All(deliveries[..|deliveries| - 1]) + multiset(deliveries[|deliveries| - 1])
  }

  lemma {:induction false} NoneOfGroup(received: seq<Received>, consumer: string, group: string)
    requires forall i :: 0 <= i < |received| ==> GroupOf(received[i], consumer) != group
    ensures OfGroup(received, consumer, group) == []
  {
    if received != [] {
      NoneOfGroup(received[..|received| - 1], consumer, group);
    }
  }

  lemma EachGroupAppends(received: seq<Received>, consumer: string, groups: seq<string>)
    requires groups != []
    ensures var g := |groups| - 1;
            All(EachGroup(received, consumer, groups)) ==
            All(EachGroup(received, consumer, groups[..g])) + multiset(OfGroup(received, consumer, groups[g]))
  {
    var g := |groups| - 1;
    assert EachGroup(received, consumer, groups)[..g] == EachGroup(received, consumer, groups[..g]);
  }

  function One(rcv: Received, among: bool): multiset<Received> { if among then multiset{rcv} else multiset{} }

  lemma OfGroupGrows(received: seq<Received>, consumer: string, group: string)
    requires received != []
    ensures var n := |received| - 1;
            multiset(OfGroup(received, consumer, group)) ==
            multiset(OfGroup(received[..n], consumer, group)) + One(received[n], GroupOf(received[n], consumer) == group)
  {
  }

  lemma Regrouped(a: multiset<Received>, b: multiset<Received>, one: Received, first: bool, second: bool)
    requires !(first && second)
    ensures (a + One(one, first)) + (b + One(one, second)) == (a + b) + One(one, first || second)
  {
  }

  /** One message more adds itself to what its group is delivered. */
  lemma {:induction false} OneMessageMore(received: seq<Received>, consumer: string, groups: seq<string>)
    requires received != [] && AreDistinct(groups)
    ensures var n := |received| - 1;
            All(EachGroup(received, consumer, groups)) ==
            All(EachGroup(received[..n], consumer, groups)) + One(received[n], GroupOf(received[n], consumer) in groups)
  {
    if groups != [] {
      var n, g := |received| - 1, |groups| - 1;
      var group := GroupOf(received[n], consumer);
      OneMessageMore(received, consumer, groups[..g]);
      EachGroupAppends(received, consumer, groups);
      EachGroupAppends(received[..n], consumer, groups);
      OfGroupGrows(received, consumer, groups[g]);
      assert group in groups <==> group in groups[..g] || group == groups[g];
      Regrouped(All(EachGroup(received[..n], consumer, groups[..g])), multiset(OfGroup(received[..n], consumer, groups[g])),
                received[n], group in groups[..g], group == groups[g]);
    }
  }

  lemma {:induction false} NothingOfNothing(consumer: string, groups: seq<string>)
    ensures All(EachGroup([], consumer, groups)) == multiset{}
  {
    if groups != [] {
      var g := |groups| - 1;
      NothingOfNothing(consumer, groups[..g]);
      assert EachGroup([], consumer, groups)[..g] == EachGroup([], consumer, groups[..g]);
    }
  }

  /** Delivering every group delivers every message, and none twice. */
  lemma {:induction false} GroupsPartition(received: seq<Received>, consumer: string, groups: seq<string>)
    requires AreDistinct(groups)
    requires forall i :: 0 <= i < |received| ==> GroupOf(received[i], consumer) in groups
    ensures All(EachGroup(received, consumer, groups)) == multiset(received)
  {
    if received == [] {
      NothingOfNothing(consumer, groups);
    } else {
      var n := |received| - 1;
      GroupsPartition(received[..n], consumer, groups);
      OneMessageMore(received, consumer, groups);
      Appended(received);
    }
  }

  lemma Appended(received: seq<Received>)
    requires received != []
    ensures multiset(received) == multiset(received[..|received| - 1]) + One(received[|received| - 1], true)
  {
    assert received == received[..|received| - 1] + [received[|received| - 1]];
  }

  lemma {:induction false} Singly(received: seq<Received>)
    ensures All(seq(|received|, i requires 0 <= i < |received| => [received[i]])) == multiset(received)
  {
    if received != [] {
      var n := |received| - 1;
      Singly(received[..n]);
      var all := seq(|received|, i requires 0 <= i < |received| => [received[i]]);
      assert all[..n] == seq(n, i requires 0 <= i < n => [received[..n][i]]);
      assert received == received[..n] + [received[n]];
    }
  }

  /** Whether a topic's messages are delivered together as they should be: a batch as one, an ordered topic's by group
      and in order, and any other's singly. */
  ghost predicate IsPartition(deployed: Deployed, received: seq<Received>, deliveries: seq<seq<Received>>) {
    && All(deliveries) == multiset(received) && |deliveries| <= |received|
    && (deployed.batches && received != [] ==> deliveries == [received])
    && (!deployed.batches && !deployed.ordered ==> forall i :: 0 <= i < |deliveries| ==> |deliveries[i]| == 1)
    && (!deployed.batches && deployed.ordered ==>
          exists groups :: AreTheGroups(groups, received, deployed.consumer)
                           && deliveries == EachGroup(received, deployed.consumer, groups))
  }

  method DeliveriesOf(deployed: Deployed, received: seq<Received>) returns (deliveries: seq<seq<Received>>)
    ensures IsPartition(deployed, received, deliveries)
  {
    if |received| == 0 {
      assert AreTheGroups([], received, deployed.consumer) && [] == EachGroup(received, deployed.consumer, []);
      return [];
    }
    if deployed.batches {
      assert [received][..0] == [];
      return [received];
    }
    if !deployed.ordered {
      Singly(received);
      return seq(|received|, i requires 0 <= i < |received| => [received[i]]);
    }
    deliveries := ByGroup(deployed.consumer, received);
  }

  /** The messages of each group together. */
  method ByGroup(consumer: string, received: seq<Received>) returns (deliveries: seq<seq<Received>>)
    ensures All(deliveries) == multiset(received) && |deliveries| <= |received|
    ensures exists groups :: AreTheGroups(groups, received, consumer) && deliveries == EachGroup(received, consumer, groups)
  {
    var order, byGroup := GroupEach(consumer, received);
    GroupsPartition(received, consumer, order);
    deliveries := InTurn(order, byGroup);
    assert deliveries == EachGroup(received, consumer, order);
  }

  method InTurn(order: seq<string>, byGroup: map<string, seq<Received>>) returns (deliveries: seq<seq<Received>>)
    requires forall g :: g in order ==> g in byGroup
    ensures |deliveries| == |order| && forall i :: 0 <= i < |order| ==> deliveries[i] == byGroup[order[i]]
  {
    deliveries := [];
    for i := 0 to |order|
      invariant |deliveries| == i && forall k :: 0 <= k < i ==> deliveries[k] == byGroup[order[k]]
    {
      deliveries := deliveries + [byGroup[order[i]]];
    }
  }

  /** Sorts messages by group, the groups in the order they first appear. */
  method GroupEach(consumer: string, received: seq<Received>) returns (order: seq<string>, byGroup: map<string, seq<Received>>)
    ensures AreTheGroups(order, received, consumer) && |order| <= |received|
    ensures forall g :: g in order ==> g in byGroup && byGroup[g] == OfGroup(received, consumer, g)
  {
    order, byGroup := [], map[];
    for i := 0 to |received|
      invariant AreTheGroups(order, received[..i], consumer) && |order| <= i
      invariant forall g :: g in order <==> g in byGroup
      invariant forall g :: g in byGroup ==> byGroup[g] == OfGroup(received[..i], consumer, g)
    {
      var group := GroupOf(received[i], consumer);
      assert received[..i + 1][..i] == received[..i];
      ghost var before := order;
      if group !in byGroup {
        NoneOfGroup(received[..i], consumer, group);
        order, byGroup := order + [group], byGroup[group := []];
      }
      byGroup := byGroup[group := byGroup[group] + [received[i]]];
      GroupsGrow(before, order, received, i, consumer);
    }
    assert received[..|received|] == received;
  }

  lemma GroupsGrow(before: seq<string>, order: seq<string>, received: seq<Received>, i: nat, consumer: string)
    requires i < |received| && AreTheGroups(before, received[..i], consumer) && AreDistinct(order)
    requires forall g :: g in order <==> g in before || g == GroupOf(received[i], consumer)
    ensures AreTheGroups(order, received[..i + 1], consumer)
  {
    var more := received[..i + 1];
    forall g | g in order ensures exists k :: 0 <= k < |more| && GroupOf(more[k], consumer) == g {
      if g in before {
        var k :| 0 <= k < i && GroupOf(received[..i][k], consumer) == g;
        assert GroupOf(more[k], consumer) == g;
      } else {
        assert GroupOf(more[i], consumer) == g;
      }
    }
    forall k | 0 <= k < |more| ensures GroupOf(more[k], consumer) in order {
      assert k < i ==> GroupOf(received[..i][k], consumer) in before;
    }
  }

  // What a turn receives, and holds on to until it is disposed of.

  /** An answer of the queue's. A queue hands out no more than it is asked for; an error may come with messages too. */
  datatype Answer = Answer(messages: seq<Received>, failed: bool)

  function Handed(answer: Answer, most: int): (messages: seq<Received>)
    requires most >= 0
    ensures |messages| <= most && messages <= answer.messages
  {
    if |answer.messages| <= most then answer.messages else answer.messages[..most]
  }

  /** All that the first answers hand out to one who asks for what is still missing. */
  function HandedOut(queue: seq<Answer>, most: nat, asked: nat): (messages: seq<Received>)
    requires asked <= |queue|
    ensures |messages| <= most
  {
    if asked == 0 then [] else
      var before := HandedOut(queue, most, asked - 1);
      before + Handed(queue[asked - 1], most - |before|)
  }

  function HandlesOf(received: seq<Received>): set<string> { set rcv | rcv in received && rcv.handle != "" :: rcv.handle }

  /** The messages kept hidden in their queue while they are worked. */
  class Held {
    var handles: set<string>

    constructor ()
      ensures handles == {}
    {
      handles := {};
    }

    method Hold(received: seq<Received>)
      modifies this
      ensures handles == old(handles) + HandlesOf(received)
    {
      for i := 0 to |received|
        invariant handles == old(handles) + HandlesOf(received[..i])
      {
        assert received[..i + 1] == received[..i] + [received[i]];
        if received[i].handle != "" {
          handles := handles + {received[i].handle};
        }
      }
      assert received[..|received|] == received;
    }

    method Drop(received: seq<Received>)
      modifies this
      ensures "" !in old(handles) ==> handles == old(handles) - HandlesOf(received)
    {
      for i := 0 to |received|
        invariant "" !in old(handles) ==> handles == old(handles) - HandlesOf(received[..i])
      {
        assert received[..i + 1] == received[..i] + [received[i]];
        handles := handles - {received[i].handle};
      }
      assert received[..|received|] == received;
    }
  }

  /** The first answers leave a batch begun, but wanting more. */
  ghost predicate IsFilling(queue: seq<Answer>, most: nat, asked: nat) {
    1 <= asked <= |queue| && forall k :: 1 <= k <= asked ==> WantsMore(queue, most, k)
  }

  predicate WantsMore(queue: seq<Answer>, most: nat, k: nat)
    requires 1 <= k <= |queue|
  {
    !queue[k - 1].failed && 0 < |HandedOut(queue, most, k)| < most
  }

  /** How many answers a turn takes: one, or for a batch as many as it needs to be full, up to an error, a first answer
      with nothing in it, or its deadline, by which the queue has no more answers. */
  ghost predicate IsAsked(deployed: Deployed, queue: seq<Answer>, most: nat, asked: nat) {
    && asked <= |queue| && (asked == 0 <==> queue == [])
    && if !deployed.batches then asked <= 1
       else (asked > 1 ==> IsFilling(queue, most, asked - 1)) && (0 < asked < |queue| ==> !WantsMore(queue, most, asked))
  }

  lemma FirstAnswer(queue: seq<Answer>, most: nat)
    requires queue != []
    ensures HandedOut(queue, most, 1) == Handed(queue[0], most)
    ensures WantsMore(queue, most, 1) ==> !queue[0].failed && Handed(queue[0], most) != []
  {
    assert HandedOut(queue, most, 0) == [];
  }

  /** What a turn receives is all that the answers it takes hand out, an error after the first answer or not. */
  method Gather(deployed: Deployed, n: nat, size: nat, queue: seq<Answer>, held: Held)
    returns (received: seq<Received>, failed: bool, ghost asked: nat)
    modifies held
    ensures var most := if deployed.batches then size else n;
            IsAsked(deployed, queue, most, asked) && received == HandedOut(queue, most, asked)
    ensures failed <==> queue != [] && queue[0].failed
    ensures held.handles == old(held.handles) + HandlesOf(received)
  {
    if queue == [] {
      return [], false, 0;
    }
    if deployed.batches {
      received, failed, asked := GatherBatch(size, queue, held);
    } else {
      received, failed, asked := Handed(queue[0], n), queue[0].failed, 1;
      FirstAnswer(queue, n);
      held.Hold(received);
    }
  }

  /** Asks once and, unless that fails or finds nothing, again until the batch is full. */
  method GatherBatch(size: nat, queue: seq<Answer>, held: Held) returns (received: seq<Received>, failed: bool, ghost asked: nat)
    requires queue != []
    modifies held
    ensures 1 <= asked <= |queue| && received == HandedOut(queue, size, asked) && failed == queue[0].failed
    ensures asked > 1 ==> IsFilling(queue, size, asked - 1)
    ensures asked < |queue| ==> !WantsMore(queue, size, asked)
    ensures held.handles == old(held.handles) + HandlesOf(received)
  {
    received, failed, asked := Handed(queue[0], size), queue[0].failed, 1;
    FirstAnswer(queue, size);
    held.Hold(received);
    if !failed && |received| != 0 {
      received, asked := GatherMore(size, queue, held, received, old(held.handles));
    }
  }

  /** The next answer is taken. */
  method TakeAnswer(size: nat, queue: seq<Answer>, held: Held, received: seq<Received>, ghost base: set<string>, i: nat)
    returns (all: seq<Received>)
    requires 1 <= i < |queue| && received == HandedOut(queue, size, i) && held.handles == base + HandlesOf(received)
    modifies held
    ensures all == HandedOut(queue, size, i + 1) && received <= all && held.handles == base + HandlesOf(all)
  {
    var more := Handed(queue[i], size - |received|);
    held.Hold(more);
    all := received + more;
    assert HandlesOf(all) == HandlesOf(received) + HandlesOf(more);
  }

  /** Asks on until the batch is full. */
  method GatherMore(size: nat, queue: seq<Answer>, held: Held, first: seq<Received>, ghost base: set<string>)
    returns (received: seq<Received>, ghost asked: nat)
    requires queue != [] && first == HandedOut(queue, size, 1) && !queue[0].failed && first != []
    requires held.handles == base + HandlesOf(first)
    modifies held
    ensures 1 <= asked <= |queue| && received == HandedOut(queue, size, asked)
    ensures asked > 1 ==> IsFilling(queue, size, asked - 1)
    ensures asked < |queue| ==> !WantsMore(queue, size, asked)
    ensures held.handles == base + HandlesOf(received)
  {
    received := first;
    var i := 1;
    while |received| < size && i < |queue| && !queue[i - 1].failed
      invariant 1 <= i <= |queue| && received == HandedOut(queue, size, i) && received != []
      invariant i > 1 ==> IsFilling(queue, size, i - 1)
      invariant held.handles == base + HandlesOf(received)
    {
      assert WantsMore(queue, size, i);
      received := TakeAnswer(size, queue, held, received, base, i);
      i := i + 1;
    }
    asked := i;
  }

  // Disposing of messages.

  /** What the queue was told: which messages to delete, and which to hide for how long. Each telling may fail. */
  class Broker {
    var acked: set<string>
    var hidden: set<(string, int)>
    var faults: seq<bool>

    constructor (faults: seq<bool>)
      ensures acked == {} && hidden == {} && this.faults == faults
    {
      acked, hidden, this.faults := {}, {}, faults;
    }

    method Draw() returns (fails: bool)
      modifies this`faults
      ensures old(faults) == [] ==> !fails && faults == []
    {
      if faults == [] {
        return false;
      }
      fails := faults[0];
      faults := faults[1..];
    }

    method Hide(handle: string, after: int)
      modifies this`hidden, this`faults
      ensures old(hidden) <= hidden <= old(hidden) + {(handle, after)}
      ensures old(faults) == [] ==> faults == [] && (handle, after) in hidden
    {
      var fails := Draw();
      if !fails {
        hidden := hidden + {(handle, after)};
      }
    }

    method Ack(handles: seq<string>)
      modifies this`acked, this`faults
      ensures old(acked) <= acked && forall h :: h in acked ==> h in old(acked) || h in handles
      ensures old(faults) == [] ==> faults == [] && forall h :: h in handles ==> h in acked
    {
      var fails := Draw();
      if !fails {
        acked := acked + (set h | h in handles);
      }
    }
  }

  function DoneOf(received: seq<Received>, decide: Received -> Disposition): set<string> {
    set rcv | rcv in received && decide(rcv).done :: rcv.handle
  }

  function UndoneOf(received: seq<Received>, decide: Received -> Disposition): set<(string, int)> {
    set rcv | rcv in received && !decide(rcv).done :: (rcv.handle, decide(rcv).after)
  }

  /** Of these messages only those done are deleted and only those not done are hidden, and all of them are if nothing
      fails. */
  twostate predicate HasDisposed(broker: Broker, received: seq<Received>, decide: Received -> Disposition)
    reads broker
  {
    && old(broker.acked) <= broker.acked <= old(broker.acked) + DoneOf(received, decide)
    && old(broker.hidden) <= broker.hidden <= old(broker.hidden) + UndoneOf(received, decide)
    && (old(broker.faults) == [] ==>
          broker.faults == [] && DoneOf(received, decide) <= broker.acked && UndoneOf(received, decide) <= broker.hidden)
  }

  method Dispose(broker: Broker, received: seq<Received>, decide: Received -> Disposition)
    modifies broker
    ensures HasDisposed(broker, received, decide)
  {
    var acked: seq<string> := [];
    for i := 0 to |received|
      invariant broker.acked == old(broker.acked)
      invariant forall h :: h in acked <==> h in DoneOf(received[..i], decide)
      invariant old(broker.hidden) <= broker.hidden <= old(broker.hidden) + UndoneOf(received[..i], decide)
      invariant old(broker.faults) == [] ==> broker.faults == [] && UndoneOf(received[..i], decide) <= broker.hidden
    {
      OneMoreDecided(received, decide, i);
      if decide(received[i]).done {
        acked := acked + [received[i].handle];
      } else {
        broker.Hide(received[i].handle, decide(received[i]).after);
      }
    }
    assert received[..|received|] == received;
    if |acked| > 0 {
      broker.Ack(acked);
    }
  }

  lemma OneMoreDecided(received: seq<Received>, decide: Received -> Disposition, i: nat)
    requires i < |received|
    ensures var rcv := received[i];
            && DoneOf(received[..i + 1], decide) == DoneOf(received[..i], decide) + (if decide(rcv).done then {rcv.handle} else {})
            && UndoneOf(received[..i + 1], decide) ==
               UndoneOf(received[..i], decide) + (if decide(rcv).done then {} else {(rcv.handle, decide(rcv).after)})
  {
    assert received[..i + 1] == received[..i] + [received[i]];
  }

  // A turn of the loop.

  function Flat(deliveries: seq<seq<Received>>): seq<Received> {
    if deliveries == [] then [] else Flat(deliveries[..|deliveries| - 1]) + deliveries[|deliveries| - 1]
  }

  lemma {:induction false} FlatIsAll(deliveries: seq<seq<Received>>)
    ensures multiset(Flat(deliveries)) == All(deliveries)
  {
    if deliveries != [] {
      FlatIsAll(deliveries[..|deliveries| - 1]);
    }
  }

  /** Dispositions and handles go by the messages, however they are put together. */
  lemma SameMessages(a: seq<Received>, b: seq<Received>, decide: Received -> Disposition)
    requires multiset(a) == multiset(b)
    ensures DoneOf(a, decide) == DoneOf(b, decide) && UndoneOf(a, decide) == UndoneOf(b, decide) && HandlesOf(a) == HandlesOf(b)
  {
    assert forall rcv :: rcv in a <==> rcv in multiset(a);
    assert forall rcv :: rcv in b <==> rcv in multiset(b);
  }

  lemma OneMoreDelivery(deliveries: seq<seq<Received>>, i: nat, decide: Received -> Disposition)
    requires i < |deliveries|
    ensures var before, group, after := Flat(deliveries[..i]), deliveries[i], Flat(deliveries[..i + 1]);
            && DoneOf(after, decide) == DoneOf(before, decide) + DoneOf(group, decide)
            && UndoneOf(after, decide) == UndoneOf(before, decide) + UndoneOf(group, decide)
            && HandlesOf(after) == HandlesOf(before) + HandlesOf(group)
  {
    assert deliveries[..i + 1][..i] == deliveries[..i];
    assert Flat(deliveries[..i + 1]) == Flat(deliveries[..i]) + deliveries[i];
  }

  /** What becomes of messages that are given back unworked. */
  function GivenBack(rcv: Received): (d: Disposition)
    ensures d == Disposition(false, 0)
  {
    RedeliverAfter(0)
  }

  twostate predicate HasDropped(held: Held, received: seq<Received>)
    reads held
  {
    "" !in old(held.handles) ==> held.handles == old(held.handles) - HandlesOf(received)
  }

  /** The groups of a turn, each delivered, disposed of, and given its slot back. */
  method DeliverGroups(deliveries: seq<seq<Received>>, slots: Reservation, held: Held, broker: Broker, decide: Received -> Disposition)
    requires slots.Valid() && slots.left == |deliveries|
    modifies slots, slots.consumer, slots.worker, held, broker
    ensures slots.Valid() && slots.left == 0
    ensures HasDisposed(broker, Flat(deliveries), decide) && HasDropped(held, Flat(deliveries))
  {
    for i := 0 to |deliveries|
      invariant slots.Valid() && slots.left == |deliveries| - i
      invariant HasDisposed(broker, Flat(deliveries[..i]), decide) && HasDropped(held, Flat(deliveries[..i]))
    {
      OneMoreDelivery(deliveries, i, decide);
      slots.Wait();
      Dispose(broker, deliveries[i], decide);
      held.Drop(deliveries[i]);
      slots.Release(1);
    }
    assert deliveries[..|deliveries|] == deliveries;
  }

  /** Gives back, unworked, what came with an error. */
  method GiveBack(received: seq<Received>, held: Held, broker: Broker)
    modifies held, broker
    ensures HasDisposed(broker, received, GivenBack) && HasDropped(held, received)
  {
    if |received| == 0 {
      return;
    }
    Dispose(broker, received, GivenBack);
    held.Drop(received);
  }

  /** Delivers what a turn received, on the slots it keeps for it. */
  method DeliverReceived(deployed: Deployed, received: seq<Received>, slots: Reservation, held: Held, broker: Broker, decide: Received -> Disposition)
    returns (deliveries: seq<seq<Received>>)
    requires slots.Valid() && slots.left == slots.n && (if deployed.batches then slots.n > 0 else |received| <= slots.n)
    modifies slots, slots.consumer, slots.worker, held, broker
    ensures slots.Valid() && slots.left == 0
    ensures IsPartition(deployed, received, deliveries) && HasDisposed(broker, received, decide) && HasDropped(held, received)
  {
    deliveries := DeliveriesOf(deployed, received);
    slots.Keep(|deliveries|);
    DeliverGroups(deliveries, slots, held, broker, decide);
    FlatIsAll(deliveries);
    SameMessages(Flat(deliveries), received, decide);
  }

  /** Reserves, receives and delivers. Whatever others do on the same slots meanwhile, the turn ends holding none of them,
      and every message it received was delivered once, disposed of as decided, and let go. What groups of earlier turns hold,
      they hold still. */
  method Turn(consumer: LocalSlots, worker: LocalSlots, limit: int, deployed: Deployed, size: nat, queue: seq<Answer>,
              held: Held, broker: Broker, decide: Received -> Disposition)
    returns (deliveries: seq<seq<Received>>, received: seq<Received>, failed: bool, slots: Reservation, ghost granted: nat, ghost asked: nat)
    requires consumer != worker && consumer.Valid() && worker.Valid() && "" !in held.handles
    modifies consumer, worker, held, broker
    ensures fresh(slots) && slots.consumer == consumer && slots.worker == worker && slots.Valid() && slots.left == 0
    ensures granted <= (if deployed.batches then 1 else MAX_RECEIVE) && (granted == 0 ==> received == [] && !failed)
    ensures old(consumer.rivals) == [] && old(worker.rivals) == [] ==>
              granted == LocalSlots.Granted(old(worker.limit), old(worker.used),
                           LocalSlots.Granted(limit, old(consumer.used), if deployed.batches then 1 else MAX_RECEIVE))
    ensures granted > 0 ==>
              var most := if deployed.batches then size else granted;
              && IsAsked(deployed, queue, most, asked) && received == HandedOut(queue, most, asked)
              && (failed <==> queue != [] && queue[0].failed)
    ensures failed ==> deliveries == [] && HasDisposed(broker, received, GivenBack)
    ensures !failed ==> IsPartition(deployed, received, deliveries) && HasDisposed(broker, received, decide)
    ensures held.handles == old(held.handles) - HandlesOf(received)
  {
    consumer.SetLimit(limit);
    slots := new Reservation(if deployed.batches then 1 else MAX_RECEIVE, consumer, worker);
    received, failed, granted, asked := [], false, slots.n, 0;
    if slots.n == 0 {
      deliveries := DeliveriesOf(deployed, []);
      return;
    }
    slots.Wait();
    received, failed, asked := Gather(deployed, slots.n, size, queue, held);
    if failed {
      slots.Keep(0);
      GiveBack(received, held, broker);
      return [], received, failed, slots, granted, asked;
    }
    deliveries := DeliverReceived(deployed, received, slots, held, broker, decide);
  }
}
