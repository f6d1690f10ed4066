/** `pkg/pricing/card.go`: rates with price steps. Quantities and prices are decimals, here `real`. */
module RateCard {
  import opened Wrappers

  datatype Step = Step(start: real, price: real)

  datatype Allowance = Unscoped | PerAccount | PerResource | OtherAllowance(name: string)

  datatype Rate = Rate(id: string, region: string, unit: string, steps: seq<Step>, allowance: Allowance, source: string, verified: string)

  datatype RateKey = RateKey(id: string, region: string)

  function KeyOf(rate: Rate): RateKey { RateKey(rate.id, rate.region) }

  // The price of a quantity.

  /** The steps begin at nothing and come in order; two may begin at the same quantity. */
  predicate IsTiered(steps: seq<Step>) {
    steps != [] && steps[0].start == 0.0 && forall i, j :: 0 <= i < j < |steps| ==> steps[i].start <= steps[j].start
  }

  /** What a step's price makes of a quantity past its start. */
  function Part(step: Step, upper: real): real { (upper - step.start) * step.price }

  /** The tiered cost: what lies past the start of the last step at its price, and the rest by the steps before it. */
  function Tiered(steps: seq<Step>, quantity: real): real {
    if steps == [] then 0.0
    else
      var n := |steps| - 1;
      if quantity > steps[n].start
      then Tiered(steps[..n], steps[n].start) + Part(steps[n], quantity)
      else Tiered(steps[..n], quantity)
  }

  lemma {:induction false} LaterStepsDoNotMatter(steps: seq<Step>, i: nat, quantity: real)
    requires i < |steps| && quantity <= steps[i].start
    requires forall i, j :: 0 <= i < j < |steps| ==> steps[i].start <= steps[j].start
    ensures Tiered(steps, quantity) == Tiered(steps[..i], quantity)
  {
    var n := |steps| - 1;
    if i < n {
      LaterStepsDoNotMatter(steps[..n], i, quantity);
      assert steps[..n][..i] == steps[..i];
    }
  }

  /** Nothing costs nothing. */
  lemma NothingIsFree(steps: seq<Step>)
    requires IsTiered(steps)
    ensures Tiered(steps, 0.0) == 0.0
  {
    LaterStepsDoNotMatter(steps, 0, 0.0);
  }

  /** How far the first i steps have priced a quantity. */
  function Reached(steps: seq<Step>, i: nat, quantity: real): real {
    if i < |steps| && steps[i].start < quantity then steps[i].start else quantity
  }

  lemma OneMoreStep(steps: seq<Step>, i: nat, quantity: real)
    requires IsTiered(steps) && i < |steps| && steps[i].start < quantity
    ensures Tiered(steps[..i + 1], Reached(steps, i + 1, quantity)) ==
            Tiered(steps[..i], steps[i].start) + Part(steps[i], Reached(steps, i + 1, quantity))
  {
    assert steps[..i + 1][..i] == steps[..i];
    InTheLastTier(steps[..i + 1], Reached(steps, i + 1, quantity));
  }

  method Cumulative(steps: seq<Step>, quantity: real) returns (cost: real)
    requires IsTiered(steps)
    ensures cost == Tiered(steps, quantity)
  {
    cost := 0.0;
    for i := 0 to |steps|
      invariant cost == Tiered(steps[..i], Reached(steps, i, quantity))
    {
      if quantity <= steps[i].start {
        LaterStepsDoNotMatter(steps, i, quantity);
        return;
      }
      OneMoreStep(steps, i, quantity);
      var upper := if i + 1 < |steps| && steps[i + 1].start < quantity then steps[i + 1].start else quantity;
      cost := cost + Part(steps[i], upper);
    }
    assert steps[..|steps|] == steps;
  }

  /** The price of the tier that the last unit of a quantity falls in. */
  function MarginalOf(steps: seq<Step>, quantity: real): real
    requires steps != []
  {
    var n := |steps| - 1;
    if n == 0 || steps[n].start < quantity then steps[n].price else MarginalOf(steps[..n], quantity)
  }

  /** What the units from one quantity to another cost, and what the last of them did. */
  method Between(steps: seq<Step>, before: real, after: real) returns (cost: real, marginal: real)
    requires IsTiered(steps)
    ensures cost == Tiered(steps, after) - Tiered(steps, before) && marginal == MarginalOf(steps, after)
  {
    var upTo := Cumulative(steps, after);
    var already := Cumulative(steps, before);
    cost, marginal := upTo - already, steps[0].price;
    for i := 0 to |steps|
      invariant marginal == if i == 0 then steps[0].price else MarginalOf(steps[..i], after)
    {
      assert steps[..i + 1][..i] == steps[..i];
      if steps[i].start < after {
        marginal := steps[i].price;
      }
    }
    assert steps[..|steps|] == steps;
  }

  /** Units that all fall in one tier cost its price each, and that is the marginal price reported. */
  lemma WithinATier(steps: seq<Step>, k: nat, before: real, after: real)
    requires IsTiered(steps) && k < |steps| && steps[k].start <= before < after
    requires k + 1 < |steps| ==> after <= steps[k + 1].start
    ensures Tiered(steps, after) - Tiered(steps, before) == (after - before) * steps[k].price
    ensures MarginalOf(steps, after) == steps[k].price
  {
    InATier(steps, k, before);
    InATier(steps, k, after);
    SharedPrice(steps[k], before, after, Tiered(steps[..k], steps[k].start), Tiered(steps, before), Tiered(steps, after));
    MarginalWithinATier(steps, k, after);
  }

  lemma {:induction false} InATier(steps: seq<Step>, k: nat, quantity: real)
    requires IsTiered(steps) && k < |steps| && steps[k].start <= quantity
    requires k + 1 < |steps| ==> quantity <= steps[k + 1].start
    ensures Tiered(steps, quantity) == Tiered(steps[..k], steps[k].start) + Part(steps[k], quantity)
  {
    var n := |steps| - 1;
    if k < n {
      InATier(steps[..n], k, quantity);
      assert steps[..n][..k] == steps[..k];
    } else {
      InTheLastTier(steps, quantity);
    }
  }

  lemma {:induction false} MarginalWithinATier(steps: seq<Step>, k: nat, after: real)
    requires IsTiered(steps) && k < |steps| && steps[k].start < after
    requires k + 1 < |steps| ==> after <= steps[k + 1].start
    ensures MarginalOf(steps, after) == steps[k].price
  {
    if k < |steps| - 1 {
      MarginalWithinATier(steps[..|steps| - 1], k, after);
    }
  }

  lemma InTheLastTier(steps: seq<Step>, quantity: real)
    requires steps != [] && steps[|steps| - 1].start <= quantity
    ensures var last := steps[|steps| - 1];
            Tiered(steps, quantity) == Tiered(steps[..|steps| - 1], last.start) + Part(last, quantity)
  {
  }

  lemma SharedPrice(step: Step, before: real, after: real, rest: real, costBefore: real, costAfter: real)
    requires costBefore == rest + Part(step, before) && costAfter == rest + Part(step, after)
    ensures costAfter - costBefore == (after - before) * step.price
  {
  }

  // Which rates a card may hold.

  predicate Allows(rate: Rate) { |rate.steps| > 1 && rate.steps[0].price == 0.0 }

  /** What `sort.SliceIsSorted` finds: no step starts before the one in front of it. */
  predicate IsSortedBy(steps: seq<Step>) {
    forall i :: 0 < i < |steps| ==> !(steps[i].start < steps[i - 1].start)
  }

  /** Whether `check` accepts the rate. */
  predicate Check(rate: Rate) {
    && rate.id != "" && rate.unit != "" && rate.source != "" && rate.verified != "" && rate.steps != []
    && rate.steps[0].start == 0.0 && IsSortedBy(rate.steps)
    && (match rate.allowance
        case Unscoped => !Allows(rate)
        case PerAccount => Allows(rate)
        case PerResource => Allows(rate)
        case OtherAllowance(_) => false)
  }

  /** A well made rate is named, measured, sourced and dated, prices every quantity from the first on, and says who gets its free
      first tier exactly if it has one. */
  predicate IsWellMade(rate: Rate) {
    && "" !in {rate.id, rate.unit, rate.source, rate.verified} && IsTiered(rate.steps)
    && match rate.allowance
       case Unscoped => |rate.steps| == 1 || rate.steps[0].price != 0.0
       case OtherAllowance(_) => false
       case _ => |rate.steps| >= 2 && rate.steps[0].price == 0.0
  }

  lemma ChecksAreForWellMade(rate: Rate)
    ensures Check(rate) <==> IsWellMade(rate)
  {
    if Check(rate) {
      CheckedRatesAreTiered(rate);
    }
  }

  lemma {:induction false} SortedByNeighbours(steps: seq<Step>, i: nat, j: nat)
    requires IsSortedBy(steps) && i <= j < |steps|
    ensures steps[i].start <= steps[j].start
    decreases j - i
  {
    if i < j {
      SortedByNeighbours(steps, i, j - 1);
    }
  }

  lemma CheckedRatesAreTiered(rate: Rate)
    requires Check(rate)
    ensures IsTiered(rate.steps)
  {
    forall i, j | 0 <= i < j < |rate.steps| ensures rate.steps[i].start <= rate.steps[j].start {
      SortedByNeighbours(rate.steps, i, j);
    }
  }

  /** A card and the place of each rate in it. */
  datatype Card = Card(rates: seq<Rate>, index: map<RateKey, nat>)

  /** Every rate has its own key, and is found under it. */
  predicate IsIndexed(card: Card) {
    && (forall i :: 0 <= i < |card.rates| ==> KeyOf(card.rates[i]) in card.index && card.index[KeyOf(card.rates[i])] == i)
    && (forall key :: key in card.index ==> card.index[key] < |card.rates| && KeyOf(card.rates[card.index[key]]) == key)
  }

  predicate IsLoaded(card: Card) {
    IsIndexed(card) && forall i :: 0 <= i < |card.rates| ==> Check(card.rates[i])
  }

  predicate AllChecked(rates: seq<Rate>) {
    forall i :: 0 <= i < |rates| ==> Check(rates[i])
  }

  predicate AllWellMade(rates: seq<Rate>) {
    forall i :: 0 <= i < |rates| ==> IsWellMade(rates[i])
  }

  lemma AllAreChecked(rates: seq<Rate>)
    ensures AllChecked(rates) <==> AllWellMade(rates)
  {
    forall i | 0 <= i < |rates| ensures Check(rates[i]) <==> IsWellMade(rates[i]) {
      ChecksAreForWellMade(rates[i]);
    }
  }

  predicate AllApart(rates: seq<Rate>) {
    forall i, j :: 0 <= i < j < |rates| ==> KeyOf(rates[i]) != KeyOf(rates[j])
  }

  /** Loads the rates of a card, exactly if each is well made and no two share a key. */
  method Load(rates: seq<Rate>) returns (card: Option<Card>)
    ensures card.Some? <==> AllWellMade(rates) && AllApart(rates)
    ensures card.Some? ==> IsLoaded(card.value) && card.value.rates == rates
  {
    card := LoadChecked(rates);
    AllAreChecked(rates);
  }

  /** Loads the rates that `check` accepts. */
  method LoadChecked(rates: seq<Rate>) returns (card: Option<Card>)
    ensures card.Some? <==> AllChecked(rates) && AllApart(rates)
    ensures card.Some? ==> IsLoaded(card.value) && card.value.rates == rates
  {
    var index: map<RateKey, nat> := map[];
    for i := 0 to |rates|
      invariant AllChecked(rates[..i]) && IsIndexed(Card(rates[..i], index)) && AllApart(rates[..i])
    {
      if !Check(rates[i]) {
        return None;
      }
      if KeyOf(rates[i]) in index {
        assert KeyOf(rates[..i][index[KeyOf(rates[i])]]) == KeyOf(rates[i]);
        return None;
      }
      OneMoreIndexed(rates[..i], index, rates[i]);
      assert rates[..i + 1] == rates[..i] + [rates[i]];
      index := index[KeyOf(rates[i]) := i];
    }
    assert rates[..|rates|] == rates;
    return Some(Card(rates, index));
  }

  lemma OneMoreIndexed(rates: seq<Rate>, index: map<RateKey, nat>, rate: Rate)
    requires AllChecked(rates) && IsIndexed(Card(rates, index)) && AllApart(rates) && Check(rate) && KeyOf(rate) !in index
    ensures AllChecked(rates + [rate]) && IsIndexed(Card(rates + [rate], index[KeyOf(rate) := |rates|])) && AllApart(rates + [rate])
  {
  }

  datatype Looked = Looked(rate: Rate, fellBack: bool) | NoRate

  /** The rate of a region, or else the one that holds for every region. */
  function Lookup(card: Card, id: string, region: string): (looked: Looked)
    requires IsIndexed(card)
    ensures looked.Looked? ==> looked.rate in card.rates && looked.rate.id == id
    ensures looked.Looked? ==> looked.rate.region == if looked.fellBack then "" else region
    ensures looked.NoRate? ==> forall r :: r in card.rates ==> KeyOf(r) != RateKey(id, region) && KeyOf(r) != RateKey(id, "")
    ensures looked.Looked? && looked.fellBack ==> forall r :: r in card.rates ==> KeyOf(r) != RateKey(id, region)
  {
    if RateKey(id, region) in card.index then Looked(card.rates[card.index[RateKey(id, region)]], false)
    else if RateKey(id, "") in card.index then Looked(card.rates[card.index[RateKey(id, "")]], region != "")
    else NoRate
  }

  function RateAt(card: Card, key: RateKey): Option<Rate>
    requires IsIndexed(card)
  {
    if key in card.index then Some(card.rates[card.index[key]]) else None
  }

  /** The rate the first of these cards to have the key has. */
  function FirstWith(cards: seq<Card>, key: RateKey): Option<Rate>
    requires forall i :: 0 <= i < |cards| ==> IsIndexed(cards[i])
  {
    if cards == [] then None
    else
      var before := FirstWith(cards[..|cards| - 1], key);
      var last := cards[|cards| - 1];
      if before.Some? then before else RateAt(last, key)
  }

  method MergeOne(merged: Card, card: Card) returns (more: Card)
    requires IsIndexed(merged) && IsIndexed(card)
    ensures IsIndexed(more)
    ensures forall key :: RateAt(more, key) == if key in merged.index then RateAt(merged, key) else RateAt(card, key)
  {
    more := merged;
    for i := 0 to |card.rates|
      invariant IsIndexed(more)
      invariant forall key :: RateAt(more, key) ==
                              if key in merged.index then RateAt(merged, key)
                              else if key in card.index && card.index[key] < i then RateAt(card, key) else None
    {
      var key := KeyOf(card.rates[i]);
      if key !in more.index {
        more := Card(more.rates + [card.rates[i]], more.index[key := |more.rates|]);
      }
    }
  }

  /** Merges cards, an earlier one's rates before a later one's of the same key. */
  method Merge(cards: seq<Card>) returns (merged: Card)
    requires forall i :: 0 <= i < |cards| ==> IsIndexed(cards[i])
    ensures IsIndexed(merged) && forall key :: RateAt(merged, key) == FirstWith(cards, key)
  {
    merged := Card([], map[]);
    for i := 0 to |cards|
      invariant IsIndexed(merged) && forall key :: RateAt(merged, key) == FirstWith(cards[..i], key)
    {
      assert cards[..i + 1][..i] == cards[..i];
      merged := MergeOne(merged, cards[i]);
    }
    assert cards[..|cards|] == cards;
  }
}
