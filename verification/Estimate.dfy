/** `pkg/pricing/estimate.go`: charging resources against the rates of a card, and totalling what they cost. */
module Estimate {
  import opened Wrappers
  import opened RateCard
  import opened ScopeTree

  datatype Component = Component(rate: string, quantity: real, usageBased: bool, unknown: seq<string>)

  /** A resource, and the components its formula built. */
  datatype Subject = Subject(scope: string, region: string, free: bool, built: seq<Component>)

  datatype Line = Unknown | NotFound | Costed(cost: real, marginal: real, exact: real, usageBased: bool)

  datatype Status = Free | NoPrice | Priced | NotSupported

  datatype PricedResource = PricedResource(status: Status, lines: seq<Line>, fixed: real, usage: real)

  /** `Round(2)`: to the cent, half a cent away from zero. */
  function Rounded(amount: real): real {
    if amount >= 0.0 then (amount * 100.0 + 0.5).Floor as real / 100.0
    else -((-amount * 100.0 + 0.5).Floor as real / 100.0)
  }

  lemma RoundingIsSmall(amount: real)
    ensures amount - 0.005 <= Rounded(amount) <= amount + 0.005
  {
  }

  /** The nearest whole number of cents, and of two as near the one further from zero. */
  lemma RoundsToTheCent(amount: real, other: int) returns (cents: int)
    ensures Rounded(amount) == cents as real / 100.0
    ensures Distance(amount * 100.0, cents as real) <= Distance(amount * 100.0, other as real)
    ensures Distance(amount * 100.0, cents as real) == Distance(amount * 100.0, other as real) ==>
              Distance(0.0, other as real) <= Distance(0.0, cents as real)
  {
    if amount >= 0.0 {
      cents := (amount * 100.0 + 0.5).Floor;
      IsNearest(amount * 100.0, cents, other);
    } else {
      var n := (-amount * 100.0 + 0.5).Floor;
      cents := -n;
      IsNearest(-amount * 100.0, n, -other);
      assert cents as real == -(n as real) && (-other) as real == -(other as real);
    }
  }

  lemma IsNearest(x: real, n: int, other: int)
    requires x >= 0.0 && n == (x + 0.5).Floor
    ensures n >= 0 && Distance(x, n as real) <= Distance(x, other as real)
    ensures Distance(x, n as real) == Distance(x, other as real) ==> Distance(0.0, other as real) <= n as real
  {
    assert n as real <= x + 0.5 < (n + 1) as real;
    if other > n {
      assert other as real >= (n + 1) as real;
    } else if other < n {
      assert other as real <= (n - 1) as real;
      assert other <= -n ==> other as real <= -(n as real);
    }
  }

  function Distance(a: real, b: real): real { if a <= b then b - a else a - b }

  /** The sum of the costs of the lines that are, or are not, usage-based: rounded, or before rounding. */
  function Costs(lines: seq<Line>, usageBased: bool, exact: bool): real {
    if lines == [] then 0.0
    else
      var line := lines[|lines| - 1];
      Costs(lines[..|lines| - 1], usageBased, exact) +
      if line.Costed? && line.usageBased == usageBased then (if exact then line.exact else line.cost) else 0.0
  }

  predicate AreRounded(lines: seq<Line>) {
    forall i :: 0 <= i < |lines| && lines[i].Costed? ==> lines[i].cost == Rounded(lines[i].exact)
  }

  /** What the components that are, or are not, usage-based were charged. */
  function Billed(lines: seq<Line>, built: seq<Component>, usageBased: bool): real
    requires |lines| == |built|
  {
    if lines == [] then 0.0
    else
      var n := |lines| - 1;
      Billed(lines[..n], built[..n], usageBased) + if lines[n].Costed? && built[n].usageBased == usageBased then lines[n].cost else 0.0
  }

  predicate AreOf(lines: seq<Line>, built: seq<Component>) {
    |lines| == |built| && forall i :: 0 <= i < |lines| && lines[i].Costed? ==> lines[i].usageBased == built[i].usageBased
  }

  lemma {:induction false} CostsAreBilled(lines: seq<Line>, built: seq<Component>, usageBased: bool)
    requires AreOf(lines, built)
    ensures Costs(lines, usageBased, false) == Billed(lines, built, usageBased)
  {
    if lines != [] {
      CostsAreBilled(lines[..|lines| - 1], built[..|lines| - 1], usageBased);
    }
  }

  /** What no component is of is not charged. */
  lemma {:induction false} NothingOfTheKindIsBilled(lines: seq<Line>, built: seq<Component>, usageBased: bool)
    requires |lines| == |built| && forall i :: 0 <= i < |built| ==> built[i].usageBased != usageBased
    ensures Billed(lines, built, usageBased) == 0.0
  {
    if lines != [] {
      NothingOfTheKindIsBilled(lines[..|lines| - 1], built[..|lines| - 1], usageBased);
    }
  }

  /** What a resource is charged differs from its exact cost by at most half a cent a component. */
  lemma {:induction false} RoundingAddsUp(lines: seq<Line>, usageBased: bool)
    requires AreRounded(lines)
    ensures var off := Costs(lines, usageBased, false) - Costs(lines, usageBased, true);
            -0.005 * |lines| as real <= off <= 0.005 * |lines| as real
  {
    if lines != [] {
      var n := |lines| - 1;
      RoundingAddsUp(lines[..n], usageBased);
      if lines[n].Costed? {
        RoundingIsSmall(lines[n].exact);
      }
    }
  }

  /** What a quantity costs under the rate of a key. */
  function Coster(card: Card): (RateKey, real) -> real
    requires IsIndexed(card)
  {
    (key: RateKey, quantity: real) => if key in card.index then Tiered(RateAt(card, key).value.steps, quantity) else 0.0
  }

  /** Whatever was charged under each key is the cost of the whole quantity. */
  ghost predicate Conserves(cost: (RateKey, real) -> real, spent: map<RateKey, real>, charged: map<RateKey, real>) {
    spent.Keys == charged.Keys && forall key :: key in spent ==> charged[key] == cost(key, spent[key])
  }

  function Of(amounts: map<RateKey, real>, key: RateKey): real {
    if key in amounts then amounts[key] else 0.0
  }

  lemma ChargingOnConserves(cost: (RateKey, real) -> real, spent: map<RateKey, real>, charged: map<RateKey, real>,
                            key: RateKey, quantity: real, more: real)
    requires Conserves(cost, spent, charged) && cost(key, 0.0) == 0.0
    requires more == cost(key, Of(spent, key) + quantity) - cost(key, Of(spent, key))
    ensures Conserves(cost, spent[key := Of(spent, key) + quantity], charged[key := Of(charged, key) + more])
  {
  }

  // What pricing comes to, resource by resource.

  /** How much of a rate had been used before: nothing, unless the account shares it. */
  function UsedBefore(spent: map<RateKey, real>, rate: Rate): real {
    if rate.allowance == PerAccount then Of(spent, KeyOf(rate)) else 0.0
  }

  function LineOf(card: Card, spent: map<RateKey, real>, region: string, b: Component): Line
    requires IsLoaded(card)
  {
    if b.unknown != [] then Unknown
    else
      match Lookup(card, b.rate, region)
      case NoRate => NotFound
      case Looked(rate, _) =>
        var before := UsedBefore(spent, rate);
        var exact := Tiered(rate.steps, before + b.quantity) - Tiered(rate.steps, before);
        assert Check(rate);
        Costed(Rounded(exact), MarginalOf(rate.steps, before + b.quantity), exact, b.usageBased)
  }

  function SpentBy(card: Card, spent: map<RateKey, real>, region: string, b: Component): map<RateKey, real>
    requires IsLoaded(card)
  {
    match Lookup(card, b.rate, region)
    case Looked(rate, _) =>
      if b.unknown == [] && rate.allowance == PerAccount then spent[KeyOf(rate) := Of(spent, KeyOf(rate)) + b.quantity] else spent
    case NoRate => spent
  }

  function SpentOn(card: Card, spent: map<RateKey, real>, region: string, built: seq<Component>): map<RateKey, real>
    requires IsLoaded(card)
  {
    if built == [] then spent
    else SpentBy(card, SpentOn(card, spent, region, built[..|built| - 1]), region, built[|built| - 1])
  }

  function LinesOf(card: Card, spent: map<RateKey, real>, region: string, built: seq<Component>): (lines: seq<Line>)
    requires IsLoaded(card)
    ensures |lines| == |built|
  {
    if built == [] then []
    else
      var n := |built| - 1;
      LinesOf(card, spent, region, built[..n]) + [LineOf(card, SpentOn(card, spent, region, built[..n]), region, built[n])]
  }

  predicate AnyCosted(lines: seq<Line>) { exists i :: 0 <= i < |lines| && lines[i].Costed? }

  /** A resource that is free, or has no components, costs nothing; any other costs what its lines sum to, those of usage-based
      components apart, and is priced if any line is. */
  ghost predicate IsPricedOf(out: PricedResource, card: Card, spent: map<RateKey, real>, subject: Subject)
    requires IsLoaded(card)
  {
    if subject.free || subject.built == [] then out.status == Free && out.lines == [] && out.fixed == 0.0 && out.usage == 0.0
    else
      && out.lines == LinesOf(card, spent, subject.region, subject.built)
      && out.status == (if AnyCosted(out.lines) then Priced else NoPrice)
      && out.fixed == Billed(out.lines, subject.built, false) && out.usage == Billed(out.lines, subject.built, true)
  }

  function SpentAfter(card: Card, spent: map<RateKey, real>, subject: Subject): map<RateKey, real>
    requires IsLoaded(card)
  {
    if subject.free then spent else SpentOn(card, spent, subject.region, subject.built)
  }

  /** A component that depends on something unknown, or has no rate, adds nothing; each other line is rounded from what it
      costs. */
  lemma {:induction false} LinesAreRounded(card: Card, spent: map<RateKey, real>, region: string, built: seq<Component>)
    requires IsLoaded(card)
    ensures var lines := LinesOf(card, spent, region, built);
            && AreRounded(lines)
            && forall i :: 0 <= i < |built| ==>
                 (lines[i].Costed? <==> built[i].unknown == [] && Lookup(card, built[i].rate, region).Looked?)
  {
    if built != [] {
      LinesAreRounded(card, spent, region, built[..|built| - 1]);
    }
  }

  lemma {:induction false} LinesAreOf(card: Card, spent: map<RateKey, real>, region: string, built: seq<Component>)
    requires IsLoaded(card)
    ensures AreOf(LinesOf(card, spent, region, built), built)
  {
    if built != [] {
      LinesAreOf(card, spent, region, built[..|built| - 1]);
    }
  }

  lemma OneMoreComponent(card: Card, spent: map<RateKey, real>, region: string, built: seq<Component>, i: nat)
    requires IsLoaded(card) && i < |built|
    ensures var before := SpentOn(card, spent, region, built[..i]);
            && LinesOf(card, spent, region, built[..i + 1]) ==
               LinesOf(card, spent, region, built[..i]) + [LineOf(card, before, region, built[i])]
            && SpentOn(card, spent, region, built[..i + 1]) == SpentBy(card, before, region, built[i])
  {
    assert built[..i + 1][..i] == built[..i];
  }

  function LineCost(line: Line, usageBased: bool): real {
    if line.Costed? && line.usageBased == usageBased then line.cost else 0.0
  }

  /** The running totals are those of the lines. */
  predicate IsTotal(lines: seq<Line>, fixed: real, usage: real, priced: nat) {
    fixed == Costs(lines, false, false) && usage == Costs(lines, true, false) && (priced > 0 <==> AnyCosted(lines))
  }

  lemma OneMoreLine(lines: seq<Line>, line: Line)
    ensures AnyCosted(lines + [line]) <==> AnyCosted(lines) || line.Costed?
    ensures Costs(lines + [line], false, false) == Costs(lines, false, false) + LineCost(line, false)
    ensures Costs(lines + [line], true, false) == Costs(lines, true, false) + LineCost(line, true)
  {
    var more := lines + [line];
    assert more[..|lines|] == lines && more[|lines|] == line;
    if AnyCosted(lines) {
      var i :| 0 <= i < |lines| && lines[i].Costed?;
      assert more[i].Costed?;
    }
  }

  /** What the account has used of each rate that it shares among its resources. */
  class Tally {
    const card: Card
    var spent: map<RateKey, real>
    /** What has been charged for it in all, before rounding. */
    ghost var charged: map<RateKey, real>

    constructor (card: Card)
      requires IsLoaded(card)
      ensures Valid() && this.card == card && spent == map[]
    {
      this.card, spent, charged := card, map[], map[];
    }

    /** Conservation: whatever was charged, resource by resource, is the tiered cost of the whole quantity. */
    ghost predicate Valid()
      reads this
    {
      IsLoaded(card) && Conserves(Coster(card), spent, charged)
    }

    /** Charges a quantity. Under an account's rate it goes on from what was charged before; under any other it is
        charged as if it were the first. */
    method Charge(rate: Rate, quantity: real) returns (cost: real, marginal: real)
      requires Valid() && RateAt(card, KeyOf(rate)) == Some(rate)
      modifies this
      ensures Valid()
      ensures var before := UsedBefore(old(spent), rate);
              && cost == Tiered(rate.steps, before + quantity) - Tiered(rate.steps, before)
              && marginal == MarginalOf(rate.steps, before + quantity)
      ensures if rate.allowance == PerAccount
              then spent == old(spent)[KeyOf(rate) := Of(old(spent), KeyOf(rate)) + quantity]
                   && charged == old(charged)[KeyOf(rate) := Of(old(charged), KeyOf(rate)) + cost]
              else spent == old(spent) && charged == old(charged)
    {
      CheckedRatesAreTiered(rate);
      NothingIsFree(rate.steps);
      if rate.allowance != PerAccount {
        cost, marginal := Between(rate.steps, 0.0, quantity);
        return;
      }
      var key := KeyOf(rate);
      var before := Of(spent, key);
      cost, marginal := Between(rate.steps, before, before + quantity);
      ChargingOnConserves(Coster(card), spent, charged, key, quantity, cost);
      charged := charged[key := Of(charged, key) + cost];
      spent := spent[key := before + quantity];
    }

    method PriceComponent(region: string, b: Component) returns (line: Line)
      requires Valid()
      modifies this
      ensures Valid() && line == LineOf(card, old(spent), region, b) && spent == SpentBy(card, old(spent), region, b)
    {
      if b.unknown != [] {
        return Unknown;
      }
      var looked := Lookup(card, b.rate, region);
      if looked.NoRate? {
        return NotFound;
      }
      var cost, marginal := Charge(looked.rate, b.quantity);
      line := Costed(Rounded(cost), marginal, cost, b.usageBased);
    }

    /** Prices a resource. */
    method Price(subject: Subject) returns (out: PricedResource)
      requires Valid()
      modifies this
      ensures Valid() && IsPricedOf(out, card, old(spent), subject) && spent == SpentAfter(card, old(spent), subject)
    {
      if subject.free || |subject.built| == 0 {
        return PricedResource(Free, [], 0.0, 0.0);
      }
      var lines, fixed, usage, priced := PriceLines(subject.region, subject.built);
      LinesAreOf(card, old(spent), subject.region, subject.built);
      CostsAreBilled(lines, subject.built, false);
      CostsAreBilled(lines, subject.built, true);
      out := PricedResource(if priced == 0 then NoPrice else Priced, lines, fixed, usage);
    }

    /** Prices the components of a resource, one after another. */
    method PriceLines(region: string, built: seq<Component>) returns (lines: seq<Line>, fixed: real, usage: real, priced: nat)
      requires Valid()
      modifies this
      ensures Valid() && lines == LinesOf(card, old(spent), region, built) && spent == SpentOn(card, old(spent), region, built)
      ensures IsTotal(lines, fixed, usage, priced)
    {
      lines, fixed, usage, priced := [], 0.0, 0.0, 0;
      for i := 0 to |built|
        invariant Valid() && lines == LinesOf(card, old(spent), region, built[..i])
        invariant spent == SpentOn(card, old(spent), region, built[..i])
        invariant IsTotal(lines, fixed, usage, priced)
      {
        OneMoreComponent(card, old(spent), region, built, i);
        var line := PriceComponent(region, built[i]);
        OneMoreLine(lines, line);
        fixed, usage, priced := AddLine(line, fixed, usage, priced);
        lines := lines + [line];
      }
      assert built[..|built|] == built;
    }
  }

  method AddLine(line: Line, fixed: real, usage: real, priced: nat) returns (fixed': real, usage': real, priced': nat)
    ensures fixed' == fixed + LineCost(line, false) && usage' == usage + LineCost(line, true)
    ensures priced' == priced + if line.Costed? then 1 else 0
  {
    fixed', usage', priced' := fixed, usage, priced;
    if line.Costed? {
      priced' := priced + 1;
      if line.usageBased {
        usage' := usage + line.cost;
      } else {
        fixed' := fixed + line.cost;
      }
    }
  }

  /** What an account's rate charges one quantity after another, the first from where `before` ended. */
  function Charges(steps: seq<Step>, before: real, quantities: seq<real>): real
    decreases |quantities|
  {
    if quantities == [] then 0.0
    else Tiered(steps, before + quantities[0]) - Tiered(steps, before) + Charges(steps, before + quantities[0], quantities[1..])
  }

  function Total(amounts: seq<real>): real {
    if amounts == [] then 0.0 else amounts[0] + Total(amounts[1..])
  }

  /** Charged resource by resource, an account pays the tiered cost of the total, however it is spread among them. */
  lemma {:induction false} ChargesSumToTheTieredCost(steps: seq<Step>, before: real, quantities: seq<real>)
    ensures Charges(steps, before, quantities) == Tiered(steps, before + Total(quantities)) - Tiered(steps, before)
    decreases |quantities|
  {
    if quantities != [] {
      ChargesSumToTheTieredCost(steps, before + quantities[0], quantities[1..]);
      assert before + quantities[0] + Total(quantities[1..]) == before + Total(quantities);
    }
  }

  // The estimate of a whole set of resources.

  /** A resource the table has a formula for, with what the formula made of it, or one it has none for. */
  datatype Resource = Known(subject: Subject) | Unsupported

  /** `order` is the order in which scopes were first charged. */
  datatype Sums = Sums(fixed: map<string, real>, usage: map<string, real>, order: seq<string>, totalFixed: real, totalUsage: real)

  ghost predicate Lists(order: seq<string>, amounts: map<string, real>) {
    AreDistinct(order) && forall s :: s in order <==> s in amounts
  }

  ghost predicate AddsUp(sums: Sums) {
    && Lists(sums.order, sums.fixed) && Sum(sums.order, sums.fixed) == sums.totalFixed
    && Lists(sums.order, sums.usage) && Sum(sums.order, sums.usage) == sums.totalUsage
  }

  function Grown(amounts: map<string, real>, scope: string, more: real): map<string, real> {
    amounts[scope := AmountOf(amounts, scope) + more]
  }

  function Added(sums: Sums, scope: string, fixed: real, usage: real): Sums {
    Sums(Grown(sums.fixed, scope, fixed), Grown(sums.usage, scope, usage),
         Ordered(sums.order, scope), sums.totalFixed + fixed, sums.totalUsage + usage)
  }

  lemma {:induction false} SumsApart(order: seq<string>, amounts: map<string, real>, scope: string, amount: real)
    requires scope !in order
    ensures Sum(order, amounts[scope := amount]) == Sum(order, amounts)
  {
    if order != [] {
      SumsApart(order[..|order| - 1], amounts, scope, amount);
    }
  }

  lemma {:induction false} SumsTogether(order: seq<string>, amounts: map<string, real>, scope: string, more: real)
    requires AreDistinct(order) && scope in order
    ensures Sum(order, Grown(amounts, scope, more)) == Sum(order, amounts) + more
  {
    var n := |order| - 1;
    if order[n] == scope {
      SumsApart(order[..n], amounts, scope, AmountOf(amounts, scope) + more);
    } else {
      SumsTogether(order[..n], amounts, scope, more);
    }
  }

  lemma SumsAppended(order: seq<string>, amounts: map<string, real>, scope: string, more: real)
    requires scope !in order && scope !in amounts
    ensures Sum(order + [scope], Grown(amounts, scope, more)) == Sum(order, amounts) + more
  {
    assert (order + [scope])[..|order|] == order;
    SumsApart(order, amounts, scope, AmountOf(amounts, scope) + more);
  }

  function Ordered(order: seq<string>, scope: string): seq<string> {
    if scope in order then order else order + [scope]
  }

  lemma ListGrows(order: seq<string>, amounts: map<string, real>, scope: string, more: real)
    requires Lists(order, amounts)
    ensures Lists(Ordered(order, scope), Grown(amounts, scope, more))
  {
  }

  lemma SumGrows(order: seq<string>, amounts: map<string, real>, scope: string, more: real)
    requires Lists(order, amounts)
    ensures Sum(Ordered(order, scope), Grown(amounts, scope, more)) == Sum(order, amounts) + more
  {
    if scope in order {
      SumsTogether(order, amounts, scope, more);
    } else {
      SumsAppended(order, amounts, scope, more);
    }
  }

  lemma OneMoreAddsUp(sums: Sums, scope: string, fixed: real, usage: real)
    requires AddsUp(sums)
    ensures AddsUp(Added(sums, scope, fixed, usage))
  {
    ListGrows(sums.order, sums.fixed, scope, fixed);
    ListGrows(sums.order, sums.usage, scope, usage);
    SumGrows(sums.order, sums.fixed, scope, fixed);
    SumGrows(sums.order, sums.usage, scope, usage);
  }

  datatype Coverage = Coverage(supported: nat, free: nat, noPrice: nat, unsupported: nat)

  /** `priced` is each resource's own estimate, in order. */
  datatype Totals = Totals(fixed: real, usage: real, priced: seq<PricedResource>, scopes: seq<ScopeTotal>, coverage: Coverage)

  /** What the account has used once the first resources are priced. */
  function SpentUpTo(card: Card, resources: seq<Resource>): map<RateKey, real>
    requires IsLoaded(card)
  {
    if resources == [] then map[]
    else
      var before := SpentUpTo(card, resources[..|resources| - 1]);
      match resources[|resources| - 1]
      case Known(subject) => SpentAfter(card, before, subject)
      case Unsupported => before
  }

  /** A resource's own estimate, charged after those before it. */
  ghost predicate IsPriceOf(out: PricedResource, card: Card, resources: seq<Resource>, i: nat)
    requires IsLoaded(card) && i < |resources|
  {
    match resources[i]
    case Known(subject) => IsPricedOf(out, card, SpentUpTo(card, resources[..i]), subject)
    case Unsupported => out == PricedResource(NotSupported, [], 0.0, 0.0)
  }

  ghost predicate ArePrices(priced: seq<PricedResource>, card: Card, resources: seq<Resource>)
    requires IsLoaded(card)
  {
    |priced| == |resources| && forall i {:trigger priced[i]} :: 0 <= i < |priced| ==> IsPriceOf(priced[i], card, resources, i)
  }

  /** What the lines of one resource come to. */
  function BilledTo(out: PricedResource, resource: Resource, usageBased: bool): real {
    if resource.Known? && |out.lines| == |resource.subject.built| then Billed(out.lines, resource.subject.built, usageBased) else 0.0
  }

  /** What the lines of one scope's resources come to. */
  function ScopeAmount(priced: seq<PricedResource>, resources: seq<Resource>, scope: string, usageBased: bool): real
    requires |priced| == |resources|
  {
    if resources == [] then 0.0
    else
      var n := |resources| - 1;
      ScopeAmount(priced[..n], resources[..n], scope, usageBased) +
      if resources[n].Known? && resources[n].subject.scope == scope then BilledTo(priced[n], resources[n], usageBased) else 0.0
  }

  /** What the lines of all resources come to. */
  function WholeAmount(priced: seq<PricedResource>, resources: seq<Resource>, usageBased: bool): real
    requires |priced| == |resources|
  {
    if resources == [] then 0.0
    else
      var n := |resources| - 1;
      WholeAmount(priced[..n], resources[..n], usageBased) + BilledTo(priced[n], resources[n], usageBased)
  }

  /** If no component is usage-based, or every one is, the estimate has no such part. */
  lemma {:induction false} NothingOfTheKind(priced: seq<PricedResource>, resources: seq<Resource>, usageBased: bool)
    requires |priced| == |resources|
    requires forall i, k :: 0 <= i < |resources| && resources[i].Known? && 0 <= k < |resources[i].subject.built| ==>
               resources[i].subject.built[k].usageBased != usageBased
    ensures WholeAmount(priced, resources, usageBased) == 0.0
  {
    if resources != [] {
      var n := |resources| - 1;
      NothingOfTheKind(priced[..n], resources[..n], usageBased);
      if resources[n].Known? && |priced[n].lines| == |resources[n].subject.built| {
        NothingOfTheKindIsBilled(priced[n].lines, resources[n].subject.built, usageBased);
      }
    }
  }

  function Counted(coverage: Coverage, status: Status): Coverage {
    match status
    case Free => coverage.(free := coverage.free + 1)
    case NoPrice => coverage.(noPrice := coverage.noPrice + 1)
    case Priced => coverage.(supported := coverage.supported + 1)
    case NotSupported => coverage.(unsupported := coverage.unsupported + 1)
  }

  /** How many resources ended so. */
  function CountOf(priced: seq<PricedResource>, status: Status): nat {
    if priced == [] then 0 else CountOf(priced[..|priced| - 1], status) + if priced[|priced| - 1].status == status then 1 else 0
  }

  /** Every resource is counted once, by how it ended. */
  predicate IsCoverage(coverage: Coverage, priced: seq<PricedResource>) {
    && coverage.supported == CountOf(priced, Priced) && coverage.free == CountOf(priced, Free)
    && coverage.noPrice == CountOf(priced, NoPrice) && coverage.unsupported == CountOf(priced, NotSupported)
  }

  lemma {:induction false} AllAreCounted(priced: seq<PricedResource>)
    ensures CountOf(priced, Priced) + CountOf(priced, Free) + CountOf(priced, NoPrice) + CountOf(priced, NotSupported) == |priced|
  {
    if priced != [] {
      AllAreCounted(priced[..|priced| - 1]);
    }
  }

  /** The amounts kept by scope are those of the scopes' resources, and the totals those of all. */
  ghost predicate AreAmounts(priced: seq<PricedResource>, resources: seq<Resource>, sums: Sums)
    requires |priced| == |resources|
  {
    && (forall scope :: AmountOf(sums.fixed, scope) == ScopeAmount(priced, resources, scope, false))
    && (forall scope :: AmountOf(sums.usage, scope) == ScopeAmount(priced, resources, scope, true))
    && sums.totalFixed == WholeAmount(priced, resources, false) && sums.totalUsage == WholeAmount(priced, resources, true)
  }

  function WithOne(sums: Sums, resource: Resource, out: PricedResource): Sums {
    if resource.Known? then Added(sums, resource.subject.scope, out.fixed, out.usage) else sums
  }

  lemma BilledIsCharged(out: PricedResource, card: Card, spent: map<RateKey, real>, subject: Subject)
    requires IsLoaded(card) && IsPricedOf(out, card, spent, subject)
    ensures BilledTo(out, Known(subject), false) == out.fixed && BilledTo(out, Known(subject), true) == out.usage
  {
    assert Billed([], [], false) == Billed([], [], true) == 0.0;
  }

  lemma OneMorePrice(card: Card, resources: seq<Resource>, i: nat, priced: seq<PricedResource>, out: PricedResource)
    requires IsLoaded(card) && i < |resources| && ArePrices(priced, card, resources[..i]) && IsPriceOf(out, card, resources, i)
    ensures ArePrices(priced + [out], card, resources[..i + 1])
  {
    var longer, more := resources[..i + 1], priced + [out];
    forall k | 0 <= k < |more| ensures IsPriceOf(more[k], card, longer, k) {
      if k < i {
        assert IsPriceOf(priced[k], card, resources[..i], k) && resources[..i][..k] == longer[..k] && resources[..i][k] == longer[k];
      } else {
        assert longer[..k] == resources[..k];
      }
    }
  }

  lemma OneMoreAmount(resources: seq<Resource>, sums: Sums, priced: seq<PricedResource>, resource: Resource, out: PricedResource)
    requires |priced| == |resources| && AreAmounts(priced, resources, sums)
    requires BilledTo(out, resource, false) == out.fixed && BilledTo(out, resource, true) == out.usage
    ensures AreAmounts(priced + [out], resources + [resource], WithOne(sums, resource, out))
  {
    var more, longer, sums' := resources + [resource], priced + [out], WithOne(sums, resource, out);
    assert more[..|resources|] == resources && longer[..|priced|] == priced;
    forall scope
      ensures AmountOf(sums'.fixed, scope) == ScopeAmount(longer, more, scope, false)
      ensures AmountOf(sums'.usage, scope) == ScopeAmount(longer, more, scope, true)
    {
      assert AmountOf(sums.fixed, scope) == ScopeAmount(priced, resources, scope, false);
      assert AmountOf(sums.usage, scope) == ScopeAmount(priced, resources, scope, true);
    }
  }

  method PriceEach(tally: Tally, resources: seq<Resource>) returns (sums: Sums, priced: seq<PricedResource>, coverage: Coverage)
    requires tally.Valid() && tally.spent == map[]
    modifies tally
    ensures tally.Valid() && AddsUp(sums) && ArePrices(priced, tally.card, resources) && AreAmounts(priced, resources, sums)
    ensures forall s :: s in sums.order ==> exists i :: 0 <= i < |resources| && resources[i].Known? && resources[i].subject.scope == s
    ensures IsCoverage(coverage, priced)
  {
    sums, priced, coverage := Sums(map[], map[], [], 0.0, 0.0), [], Coverage(0, 0, 0, 0);
    for i := 0 to |resources|
      invariant tally.Valid() && AddsUp(sums) && ArePrices(priced, tally.card, resources[..i]) && AreAmounts(priced, resources[..i], sums)
      invariant tally.spent == SpentUpTo(tally.card, resources[..i]) && IsCoverage(coverage, priced)
      invariant forall s :: s in sums.order ==> exists k :: 0 <= k < i && resources[k].Known? && resources[k].subject.scope == s
    {
      assert resources[..i + 1][..i] == resources[..i];
      var out := PriceOne(tally, resources, i);
      OneMorePrice(tally.card, resources, i, priced, out);
      NextAmount(resources, i, sums, priced, out);
      WithOneAddsUp(sums, resources[i], out);
      OneMoreCounted(coverage, priced, out);
      sums, priced, coverage := WithOne(sums, resources[i], out), priced + [out], Counted(coverage, out.status);
    }
    assert resources[..|resources|] == resources;
  }

  /** One resource's own estimate. */
  method PriceOne(tally: Tally, resources: seq<Resource>, i: nat) returns (out: PricedResource)
    requires tally.Valid() && i < |resources| && tally.spent == SpentUpTo(tally.card, resources[..i])
    modifies tally
    ensures tally.Valid() && tally.spent == SpentUpTo(tally.card, resources[..i + 1]) && IsPriceOf(out, tally.card, resources, i)
    ensures BilledTo(out, resources[i], false) == out.fixed && BilledTo(out, resources[i], true) == out.usage
  {
    assert resources[..i + 1][..i] == resources[..i];
    match resources[i]
    case Unsupported => out := PricedResource(NotSupported, [], 0.0, 0.0);
    case Known(subject) =>
      out := tally.Price(subject);
      BilledIsCharged(out, tally.card, old(tally.spent), subject);
  }

  lemma WithOneAddsUp(sums: Sums, resource: Resource, out: PricedResource)
    requires AddsUp(sums)
    ensures AddsUp(WithOne(sums, resource, out))
  {
    if resource.Known? {
      OneMoreAddsUp(sums, resource.subject.scope, out.fixed, out.usage);
    }
  }

  lemma NextAmount(resources: seq<Resource>, i: nat, sums: Sums, priced: seq<PricedResource>, out: PricedResource)
    requires i < |resources| && |priced| == i && AreAmounts(priced, resources[..i], sums)
    requires BilledTo(out, resources[i], false) == out.fixed && BilledTo(out, resources[i], true) == out.usage
    ensures AreAmounts(priced + [out], resources[..i + 1], WithOne(sums, resources[i], out))
  {
    OneMoreAmount(resources[..i], sums, priced, resources[i], out);
    assert resources[..i] + [resources[i]] == resources[..i + 1];
  }

  lemma OneMoreCounted(coverage: Coverage, priced: seq<PricedResource>, out: PricedResource)
    requires IsCoverage(coverage, priced)
    ensures IsCoverage(Counted(coverage, out.status), priced + [out])
  {
    assert (priced + [out])[..|priced|] == priced;
  }

  /** Prices a set of resources and totals every scope. When every resource's scope is one of a closed forest, the roots'
      totals sum to the estimate's. */
  method EstimateSet(card: Card, scopes: seq<Scope>, resources: seq<Resource>) returns (totals: Totals, ghost sums: Sums)
    requires IsLoaded(card) && IsForest(scopes)
    ensures Shrinks(ParentsOf(scopes)) && |totals.scopes| == |scopes| && AddsUp(sums)
    ensures ArePrices(totals.priced, card, resources) && AreAmounts(totals.priced, resources, sums)
    ensures totals.fixed == WholeAmount(totals.priced, resources, false) && totals.usage == WholeAmount(totals.priced, resources, true)
    ensures forall i :: 0 <= i < |scopes| ==>
              IsTotalOf(totals.scopes[i], scopes[i].id, sums.fixed, sums.usage, sums.order, ParentsOf(scopes))
    ensures forall roots :: IsClosed(scopes) && AllListed(scopes, resources) && AreTheRoots(roots, ParentsOf(scopes)) ==>
              && SumOver(roots, sums.order, sums.fixed, ParentsOf(scopes)) == totals.fixed
              && SumOver(roots, sums.order, sums.usage, ParentsOf(scopes)) == totals.usage
    ensures IsCoverage(totals.coverage, totals.priced)
  {
    var account := new Tally(card);
    var all, priced, coverage := PriceEach(account, resources);
    var rolled := RollUp(scopes, all.fixed, all.usage, all.order);
    totals, sums := Totals(all.totalFixed, all.totalUsage, priced, rolled, coverage), all;
    forall roots | IsClosed(scopes) && AllListed(scopes, resources) && AreTheRoots(roots, ParentsOf(scopes))
      ensures SumOver(roots, sums.order, sums.fixed, ParentsOf(scopes)) == totals.fixed
      ensures SumOver(roots, sums.order, sums.usage, ParentsOf(scopes)) == totals.usage
    {
      ParentsOfAForest(scopes);
      ClosedForestsAreListed(scopes);
      forall s | s in sums.order ensures s in ParentsOf(scopes) {
        var i :| 0 <= i < |resources| && resources[i].Known? && resources[i].subject.scope == s;
      }
      RootsSumToTheTotal(roots, sums.order, sums.fixed, ParentsOf(scopes));
      RootsSumToTheTotal(roots, sums.order, sums.usage, ParentsOf(scopes));
    }
  }

  predicate AllListed(scopes: seq<Scope>, resources: seq<Resource>) {
    forall i :: 0 <= i < |resources| && resources[i].Known? ==> resources[i].subject.scope in ParentsOf(scopes)
  }

  ghost predicate AreTheRoots(roots: seq<string>, parents: map<string, string>) {
    AreDistinct(roots) && forall x :: x in roots <==> IsRoot(parents, x)
  }
}
