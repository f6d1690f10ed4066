/** `pkg/cron`: five-field schedules and the search for the next minute one fires at.
    A 64-bit set of values is the set of its bit positions. */
module Cron {
  import opened Wrappers
  import opened Strings
  import opened Arithmetic

  datatype Names = Unnamed | MonthNames | WeekdayNames

  datatype Field = Field(min: int, max: int, names: Names)

  const MINUTE := Field(0, 59, Unnamed)
  const HOUR := Field(0, 23, Unnamed)
  const DAY := Field(1, 31, Unnamed)
  const MONTH := Field(1, 12, MonthNames)
  const WEEKDAY := Field(0, 7, WeekdayNames)

  function NamesIn(names: Names): (list: seq<string>)
    ensures |list| <= 12
    ensures forall i :: 0 <= i < |list| ==> list[i] != "" && 'A' <= list[i][0] <= 'Z'
  {
    match names
    case Unnamed => []
    case MonthNames => ["JAN", "FEB", "MAR", "APR", "MAY", "JUN", "JUL", "AUG", "SEP", "OCT", "NOV", "DEC"]
    case WeekdayNames => ["SUN", "MON", "TUE", "WED", "THU", "FRI", "SAT"]
  }
  const FIELD_COUNT := 5

  const LONGEST_MONTH := [0, 31, 29, 31, 30, 31, 30, 31, 31, 30, 31, 30, 31]

  datatype Error = WrongFieldCount | BadStep | BadValue | Backwards | NeverFires

  datatype Schedule = Schedule(
    minutes: set<int>, hours: set<int>, days: set<int>, months: set<int>, weekdays: set<int>,
    anyDay: bool, anyWeekday: bool)

  // What an item of a field means, as it is written.

  /** An item is a star, one value or a range of values, with or without a step. */
  datatype Item = Item(base: Base, step: Option<string>)

  datatype Base = Star | Single(value: string) | Range(low: string, high: string)

  predicate IsWritten(item: Item) {
    match item.base
    case Star => true
    case Single(value) => value != "*" && '-' !in value && '/' !in value
    case Range(low, high) => '-' !in low && '/' !in low && '/' !in high
  }

  function TextOf(item: Item): string {
    BaseText(item.base) + if item.step.Some? then ['/'] + item.step.value else ""
  }

  function BaseText(base: Base): string {
    match base
    case Star => "*"
    case Single(value) => value
    case Range(low, high) => low + ['-'] + high
  }

  /** Every text is that of an item. */
  lemma TextsAreItems(text: string) returns (item: Item)
    ensures IsWritten(item) && TextOf(item) == text
  {
    var stepped := Cut(text, '/');
    var step := if stepped.found then Some(stepped.after) else None;
    assert BaseText(Single(stepped.before)) + (if step.Some? then ['/'] + step.value else "") == text;
    var ranged := Cut(stepped.before, '-');
    if stepped.before == "*" {
      return Item(Star, step);
    } else if ranged.found {
      return Item(Range(ranged.before, ranged.after), step);
    } else {
      return Item(Single(stepped.before), step);
    }
  }

  predicate IsName(f: Field, text: string, i: nat) { i < |NamesIn(f.names)| && EqualFold(text, NamesIn(f.names)[i]) }

  /** A value is written as one of the field's names, which count from its least value, or else as a number in its range. */
  ghost predicate Means(f: Field, text: string, n: int) {
    if exists i: nat :: IsName(f, text, i) then exists i: nat :: IsName(f, text, i) && n == f.min + i
    else Atoi(text) == Some(n) && f.min <= n <= f.max
  }

  ghost predicate StepMeans(step: Option<string>, k: int) {
    k >= 1 && if step.None? then k == 1 else Atoi(step.value) == Some(k)
  }

  /** The first and the last value of an item: all the field's values, one value, or, with a step, that one and all after it; or a
      range that does not run backwards. */
  ghost predicate Bounds(f: Field, item: Item, first: int, last: int) {
    match item.base
    case Star => first == f.min && last == f.max
    case Single(value) => Means(f, value, first) && last == if item.step.Some? then f.max else first
    case Range(low, high) => Means(f, low, first) && Means(f, high, last) && first <= last
  }

  /** An item stands for every step-th value from its first to its last. */
  ghost predicate StandsFor(f: Field, item: Item, n: int) {
    exists first, last, k ::
      Bounds(f, item, first, last) && StepMeans(item.step, k) && first <= n <= last && (n - first) % k == 0
  }

  ghost predicate HasMeaning(f: Field, text: string) { exists n :: Means(f, text, n) }

  ghost predicate HasBounds(f: Field, item: Item) { exists first, last :: Bounds(f, item, first, last) }

  ghost predicate HasStep(step: Option<string>) { exists k :: StepMeans(step, k) }

  /** Why an item is refused. */
  ghost predicate IsRefused(f: Field, item: Item, e: Error) {
    if !HasStep(item.step) then e == BadStep
    else !HasBounds(f, item) &&
         if item.base.Range? && HasMeaning(f, item.base.low) && HasMeaning(f, item.base.high) then e == Backwards else e == BadValue
  }

  /** The names of a field are apart, so that a text means one value at most. */
  lemma NamesAreApart(f: Field, text: string, i: nat, j: nat)
    requires IsName(f, text, i) && IsName(f, text, j)
    ensures i == j
  {
    var a, b := NamesIn(f.names)[i], NamesIn(f.names)[j];
    assert Fold(a[0]) == Fold(b[0]) && Fold(a[1]) == Fold(b[1]) && Fold(a[2]) == Fold(b[2]);
  }

  /** The values an item covers: from first to last by step. */
  datatype Span = Span(first: int, last: int, step: int)

  predicate WellFormed(f: Field) {
    f.min <= f.max && f.min + |NamesIn(f.names)| - 1 <= f.max
  }

  function FieldAt(i: nat): (f: Field)
    requires i < FIELD_COUNT
    ensures WellFormed(f)
  {
    if i == 0 then MINUTE else if i == 1 then HOUR else if i == 2 then DAY else if i == 3 then MONTH else WEEKDAY
  }

  function NameIndex(names: seq<string>, text: string): (index: Option<nat>)
    ensures index.Some? ==> index.value < |names| && EqualFold(text, names[index.value])
    ensures index.None? ==> forall i :: 0 <= i < |names| ==> !EqualFold(text, names[i])
  {
    if names == [] then None
    else if EqualFold(text, names[0]) then Some(0)
    else
      match NameIndex(names[1..], text)
      case None => None
      case Some(i) => Some(i + 1)
  }

  function ValueOf(f: Field, text: string): (value: Result<int, Error>)
    requires WellFormed(f)
    ensures value.Success? ==> f.min <= value.value <= f.max
    ensures value.Success? ==> text != "" && text[0] != '*'
  {
    match NameIndex(NamesIn(f.names), text)
    case Some(i) => Success(f.min + i)
    case None =>
      match Atoi(text)
      case None => Failure(BadValue)
      case Some(n) => if n < f.min || n > f.max then Failure(BadValue) else Success(n)
  }

  function StepOf(item: Halves): (step: Result<int, Error>)
    ensures step.Success? ==> step.value >= 1
  {
    if !item.found then Success(1)
    else
      match Atoi(item.after)
      case None => Failure(BadStep)
      case Some(n) => if n < 1 then Failure(BadStep) else Success(n)
  }

  function SpanOf(f: Field, item: string): (span: Result<Span, Error>)
    requires WellFormed(f)
    ensures span.Success? ==>
              f.min <= span.value.first <= span.value.last <= f.max && span.value.step >= 1
    ensures span.Success? && item != "" && item[0] == '*' ==> span.value.first == f.min
  {
    var stepped := Cut(item, '/');
    match StepOf(stepped)
    case Failure(e) => Failure(e)
    case Success(step) =>
      if stepped.before == "*" then Success(Span(f.min, f.max, step))
      else
        var ranged := Cut(stepped.before, '-');
        match ValueOf(f, ranged.before)
        case Failure(e) => Failure(e)
        case Success(first) =>
          if !ranged.found then Success(Span(first, if stepped.found then f.max else first, step))
          else
            match ValueOf(f, ranged.after)
            case Failure(e) => Failure(e)
            case Success(last) => if first > last then Failure(Backwards) else Success(Span(first, last, step))
  }

  lemma ValuesMean(f: Field, text: string)
    requires WellFormed(f)
    ensures var value := ValueOf(f, text);
            if value.Success? then HasMeaning(f, text) && forall n :: Means(f, text, n) <==> n == value.value
            else value.error == BadValue && !HasMeaning(f, text)
  {
    var index := NameIndex(NamesIn(f.names), text);
    if index.Some? {
      assert IsName(f, text, index.value);
      forall i: nat | IsName(f, text, i) ensures i == index.value {
        NamesAreApart(f, text, i, index.value);
      }
    }
    if ValueOf(f, text).Success? {
      assert Means(f, text, ValueOf(f, text).value);
    }
  }

  lemma StepsMean(step: Option<string>)
    ensures var k := StepOf(Halves("", if step.Some? then step.value else "", step.Some?));
            if k.Success? then HasStep(step) && forall n :: StepMeans(step, n) <==> n == k.value else k.error == BadStep && !HasStep(step)
  {
    var k := StepOf(Halves("", if step.Some? then step.value else "", step.Some?));
    if k.Success? {
      assert StepMeans(step, k.value);
    }
  }

  lemma SpansAreBounds(f: Field, item: Item)
    requires WellFormed(f) && IsWritten(item) && HasStep(item.step)
    ensures var span := SpanOf(f, TextOf(item));
            if span.Success? then
              && StepMeans(item.step, span.value.step)
              && forall first, last :: Bounds(f, item, first, last) <==> first == span.value.first && last == span.value.last
            else IsRefused(f, item, span.error)
  {
    ItemIsCut(item);
    StepsMean(item.step);
    match item.base
    case Star =>
    case Single(value) => ValuesMean(f, value);
    case Range(low, high) => RangesAreBounds(f, item);
  }

  lemma RangesAreBounds(f: Field, item: Item)
    requires WellFormed(f) && IsWritten(item) && HasStep(item.step) && item.base.Range?
    ensures var span := SpanOf(f, TextOf(item));
            if span.Success? then
              && StepMeans(item.step, span.value.step)
              && forall first, last :: Bounds(f, item, first, last) <==> first == span.value.first && last == span.value.last
            else IsRefused(f, item, span.error)
  {
    ItemIsCut(item);
    StepsMean(item.step);
    ValuesMean(f, item.base.low);
    ValuesMean(f, item.base.high);
  }

  /** The span of an item's text holds what the item stands for, and there is none exactly if the item is refused. */
  lemma SpansMean(f: Field, item: Item)
    requires WellFormed(f) && IsWritten(item)
    ensures var span := SpanOf(f, TextOf(item));
            if span.Success? then forall n :: StandsFor(f, item, n) <==> Covers(span.value, n)
            else IsRefused(f, item, span.error) && forall n :: !StandsFor(f, item, n)
  {
    ItemIsCut(item);
    StepsMean(item.step);
    if HasStep(item.step) {
      SpansAreBounds(f, item);
      var span := SpanOf(f, TextOf(item));
      if span.Success? {
        assert Bounds(f, item, span.value.first, span.value.last);
        assert forall k :: StepMeans(item.step, k) ==> k == span.value.step;
      } else {
        assert forall first, last :: !Bounds(f, item, first, last);
      }
    }
  }

  lemma ItemIsCut(item: Item)
    requires IsWritten(item)
    ensures Cut(TextOf(item), '/') == Halves(BaseText(item.base), if item.step.Some? then item.step.value else "", item.step.Some?)
    ensures item.base.Single? ==> BaseText(item.base) != "*" && Cut(BaseText(item.base), '-') == Halves(item.base.value, "", false)
    ensures item.base.Range? ==> BaseText(item.base) != "*" && Cut(BaseText(item.base), '-') == Halves(item.base.low, item.base.high, true)
  {
    var text := BaseText(item.base);
    if item.step.Some? {
      CutAt(text, '/', item.step.value);
      assert TextOf(item) == text + ['/'] + item.step.value;
    } else {
      CutWhole(text, '/');
      assert TextOf(item) == text;
    }
    if item.base.Single? {
      CutWhole(text, '-');
    } else if item.base.Range? {
      CutAt(item.base.low, '-', item.base.high);
      assert '-' in text;
    }
  }

  predicate Covers(span: Span, n: int)
    requires span.step >= 1
  {
    span.first <= n <= span.last && (n - span.first) % span.step == 0
  }

  function Covered(span: Span): set<int>
    requires span.step >= 1
  {
    set n | span.first <= n <= span.last && Covers(span, n)
  }

  /** What the text of an item stands for, and why it is refused. */
  ghost predicate TextStandsFor(f: Field, text: string, n: int) {
    exists item :: IsWritten(item) && TextOf(item) == text && StandsFor(f, item, n)
  }

  ghost predicate TextIsRefused(f: Field, text: string, e: Error) {
    exists item :: IsWritten(item) && TextOf(item) == text && IsRefused(f, item, e)
  }

  ghost predicate IsReadAs(f: Field, text: string, bits: Result<set<int>, Error>) {
    if bits.Success? then bits.value != {} && forall n :: n in bits.value <==> TextStandsFor(f, text, n)
    else TextIsRefused(f, text, bits.error) && forall n :: !TextStandsFor(f, text, n)
  }

  lemma TextsMean(f: Field, text: string)
    requires WellFormed(f)
    ensures var span := SpanOf(f, text);
            if span.Success? then forall n :: TextStandsFor(f, text, n) <==> Covers(span.value, n)
            else TextIsRefused(f, text, span.error) && forall n :: !TextStandsFor(f, text, n)
  {
    var written := TextsAreItems(text);
    SpansMean(f, written);
    forall item | IsWritten(item) && TextOf(item) == text ensures forall n :: StandsFor(f, item, n) <==> StandsFor(f, written, n) {
      SpansMean(f, item);
    }
  }

  function ItemSet(f: Field, text: string): (bits: Result<set<int>, Error>)
    requires WellFormed(f)
  {
    match SpanOf(f, text)
    case Failure(e) => Failure(e)
    case Success(span) => Success(Covered(span))
  }

  lemma ItemsMean(f: Field, text: string)
    requires WellFormed(f)
    ensures IsReadAs(f, text, ItemSet(f, text))
  {
    TextsMean(f, text);
    if ItemSet(f, text).Success? {
      var span := SpanOf(f, text).value;
      assert Covers(span, span.first);
      assert span.first in Covered(span);
    }
  }

  method ParseItem(f: Field, item: string) returns (bits: Result<set<int>, Error>)
    requires WellFormed(f)
    ensures bits == ItemSet(f, item) && IsReadAs(f, item, bits)
  {
    ItemsMean(f, item);
    var found := SpanOf(f, item);
    if found.Failure? {
      return Failure(found.error);
    }
    var bits' := BitsOf(found.value);
    return Success(bits');
  }

  method BitsOf(span: Span) returns (covered: set<int>)
    requires span.step >= 1
    ensures covered == Covered(span)
  {
    covered := {};
    var n := span.first;
    while n <= span.last
      invariant span.first <= n && (n - span.first) % span.step == 0
      invariant forall v :: v in covered <==> v < n && Covers(span, v)
      decreases span.last - n
    {
      StepCovers(span, n);
      covered := covered + {n};
      n := n + span.step;
    }
  }

  /** From one covered value to the next, the step skips none. */
  lemma StepCovers(span: Span, n: int)
    requires span.step >= 1 && span.first <= n <= span.last && (n - span.first) % span.step == 0
    ensures (n + span.step - span.first) % span.step == 0
    ensures forall v :: v < n + span.step && Covers(span, v) <==> v == n || (v < n && Covers(span, v))
  {
    var q := (n - span.first) / span.step;
    DivisionIsUnique(n + span.step - span.first, q + 1, 0, span.step);
    forall v | n < v < n + span.step ensures !Covers(span, v) {
      DivisionIsUnique(v - span.first, q, v - n, span.step);
    }
  }

  function FieldSet(f: Field, items: seq<string>): (bits: Result<set<int>, Error>)
    requires WellFormed(f)
  {
    if items == [] then Success({})
    else
      match FieldSet(f, items[..|items| - 1])
      case Failure(e) => Failure(e)
      case Success(before) =>
        match ItemSet(f, items[|items| - 1])
        case Failure(e) => Failure(e)
        case Success(bits) => Success(before + bits)
  }

  lemma {:induction false} FieldSetStopsAtAFailure(f: Field, items: seq<string>, n: nat)
    requires WellFormed(f) && n <= |items| && FieldSet(f, items[..n]).Failure?
    ensures FieldSet(f, items) == FieldSet(f, items[..n])
    decreases |items| - n
  {
    if n == |items| {
      assert items[..n] == items;
    } else {
      assert items[..n + 1][..n] == items[..n];
      FieldSetStopsAtAFailure(f, items, n + 1);
    }
  }

  /** A field is a list of items, and stands for what any of them does. */
  ghost predicate ListStandsFor(f: Field, items: seq<string>, n: int) {
    exists i :: 0 <= i < |items| && TextStandsFor(f, items[i], n)
  }

  /** The first item refused is why the list is. */
  ghost predicate ListIsRefused(f: Field, items: seq<string>, e: Error) {
    exists i :: 0 <= i < |items| && TextIsRefused(f, items[i], e) && forall j :: 0 <= j < i ==> IsMeant(f, items[j])
  }

  ghost predicate IsMeant(f: Field, text: string) { exists n :: TextStandsFor(f, text, n) }

  ghost predicate IsListReadAs(f: Field, items: seq<string>, bits: Result<set<int>, Error>) {
    if bits.Success? then
      && (forall n :: n in bits.value <==> ListStandsFor(f, items, n))
      && forall i :: 0 <= i < |items| ==> IsMeant(f, items[i])
    else ListIsRefused(f, items, bits.error)
  }

  lemma OneMoreStandsFor(f: Field, items: seq<string>, k: nat, n: int)
    requires k < |items|
    ensures ListStandsFor(f, items[..k + 1], n) <==> ListStandsFor(f, items[..k], n) || TextStandsFor(f, items[k], n)
  {
    assert forall i :: 0 <= i < k ==> items[..k][i] == items[..k + 1][i];
    assert items[..k + 1][k] == items[k];
    if ListStandsFor(f, items[..k], n) {
      var i :| 0 <= i < k && TextStandsFor(f, items[..k][i], n);
      assert TextStandsFor(f, items[..k + 1][i], n);
    }
  }

  lemma OneMoreItem(f: Field, items: seq<string>, k: nat, before: set<int>, item: Result<set<int>, Error>)
    requires k < |items| && IsListReadAs(f, items[..k], Success(before)) && IsReadAs(f, items[k], item)
    ensures IsListReadAs(f, items[..k + 1], if item.Success? then Success(before + item.value) else item)
  {
    var shorter, longer := items[..k], items[..k + 1];
    forall i | 0 <= i < k ensures longer[i] == shorter[i] && IsMeant(f, longer[i]) {
      assert IsMeant(f, shorter[i]);
    }
    assert longer[k] == items[k];
    if item.Success? {
      var m := AMember(item.value);
      assert TextStandsFor(f, items[k], m);
      forall n ensures ListStandsFor(f, longer, n) <==> ListStandsFor(f, shorter, n) || TextStandsFor(f, items[k], n) {
        OneMoreStandsFor(f, items, k, n);
      }
    }
  }

  lemma RefusedStill(f: Field, items: seq<string>, k: nat, e: Error)
    requires k <= |items| && ListIsRefused(f, items[..k], e)
    ensures ListIsRefused(f, items, e)
  {
    var i :| 0 <= i < k && TextIsRefused(f, items[..k][i], e) && forall j :: 0 <= j < i ==> IsMeant(f, items[..k][j]);
    assert items[..k][i] == items[i];
    forall j | 0 <= j < i ensures IsMeant(f, items[j]) {
      assert items[..k][j] == items[j] && IsMeant(f, items[..k][j]);
    }
  }

  lemma {:induction false} ListsMean(f: Field, items: seq<string>)
    requires WellFormed(f)
    ensures IsListReadAs(f, items, FieldSet(f, items))
  {
    if items != [] {
      var k := |items| - 1;
      ListsMean(f, items[..k]);
      ItemsMean(f, items[k]);
      var before := FieldSet(f, items[..k]);
      if before.Failure? {
        RefusedStill(f, items, k, before.error);
      } else {
        OneMoreItem(f, items, k, before.value, ItemSet(f, items[k]));
        assert items[..k + 1] == items;
      }
    }
  }

  /** The next item is added to what was found. */
  method AddItem(f: Field, items: seq<string>, i: nat, found: set<int>) returns (bits: Result<set<int>, Error>)
    requires WellFormed(f) && i < |items| && FieldSet(f, items[..i]) == Success(found)
    ensures bits == FieldSet(f, items[..i + 1])
  {
    assert items[..i + 1][..i] == items[..i];
    bits := ParseItem(f, items[i]);
    if bits.Success? {
      bits := Success(found + bits.value);
    }
  }

  method ParseField(f: Field, part: string) returns (bits: Result<set<int>, Error>)
    requires WellFormed(f)
    ensures bits == FieldSet(f, Split(part, ',')) && IsListReadAs(f, Split(part, ','), bits)
  {
    var items := Split(part, ',');
    var found: set<int> := {};
    for i := 0 to |items|
      invariant FieldSet(f, items[..i]) == Success(found)
    {
      bits := AddItem(f, items, i, found);
      if bits.Failure? {
        FieldSetStopsAtAFailure(f, items, i + 1);
        ListsMean(f, items);
        return;
      }
      found := bits.value;
    }
    assert items[..|items|] == items;
    ListsMean(f, items);
    return Success(found);
  }

  /** Every field parsed in turn, up to the first that is refused. */
  function SetsOf(parts: seq<string>, n: nat): (sets: Result<seq<set<int>>, Error>)
    requires n <= |parts| == FIELD_COUNT
    ensures sets.Success? ==> |sets.value| == n
  {
    if n == 0 then Success([])
    else
      match SetsOf(parts, n - 1)
      case Failure(e) => Failure(e)
      case Success(before) =>
        match FieldSet(FieldAt(n - 1), Split(parts[n - 1], ','))
        case Failure(e) => Failure(e)
        case Success(bits) => Success(before + [bits])
  }

  lemma {:induction false} SetsStopAtAFailure(parts: seq<string>, n: nat, all: nat)
    requires n <= all <= |parts| == FIELD_COUNT && SetsOf(parts, n).Failure?
    ensures SetsOf(parts, all) == SetsOf(parts, n)
    decreases all - n
  {
    if n < all {
      SetsStopAtAFailure(parts, n + 1, all);
    }
  }

  predicate StartsWithStar(part: string) { part != "" && part[0] == '*' }

  function Assembled(parts: seq<string>, sets: seq<set<int>>): Schedule
    requires |parts| == |sets| == FIELD_COUNT
  {
    var weekdays := if 7 in sets[4] then sets[4] + {0} else sets[4];
    Schedule(sets[0], sets[1], sets[2], sets[3], weekdays - {7}, StartsWithStar(parts[2]), StartsWithStar(parts[4]))
  }

  predicate NamesADay(s: Schedule, month: int, day: int) {
    1 <= month <= 12 && month in s.months && 1 <= day <= LONGEST_MONTH[month] && day in s.days
  }

  /** What the check asks: a schedule whose weekday is `*` names a day that one of its months can have. */
  ghost predicate Reachable(s: Schedule) {
    !s.anyWeekday || exists month, day :: NamesADay(s, month, day)
  }

  method IsReachable(s: Schedule) returns (reachable: bool)
    ensures reachable == Reachable(s)
  {
    if !s.anyWeekday {
      return true;
    }
    for month := 1 to 13
      invariant forall m, d :: m < month ==> !NamesADay(s, m, d)
    {
      if month !in s.months {
        continue;
      }
      for day := 1 to LONGEST_MONTH[month] + 1
        invariant forall d :: d < day ==> !NamesADay(s, month, d)
      {
        if day in s.days {
          assert NamesADay(s, month, day);
          return true;
        }
      }
    }
    return false;
  }

  ghost function ScheduleOf(expr: string): Result<Schedule, Error> {
    var parts := Fields(expr);
    if |parts| != FIELD_COUNT then Failure(WrongFieldCount)
    else
      match SetsOf(parts, FIELD_COUNT)
      case Failure(e) => Failure(e)
      case Success(sets) =>
        var s := Assembled(parts, sets);
        if Reachable(s) then Success(s) else Failure(NeverFires)
  }

  /** The next field is added to those parsed. */
  method AddField(parts: seq<string>, i: nat, found: seq<set<int>>) returns (sets: Result<seq<set<int>>, Error>)
    requires i < |parts| == FIELD_COUNT && SetsOf(parts, i) == Success(found)
    ensures sets == SetsOf(parts, i + 1)
  {
    var bits := ParseField(FieldAt(i), parts[i]);
    return if bits.Failure? then Failure(bits.error) else Success(found + [bits.value]);
  }

  method ParseFields(parts: seq<string>) returns (sets: Result<seq<set<int>>, Error>)
    requires |parts| == FIELD_COUNT
    ensures sets == SetsOf(parts, FIELD_COUNT)
  {
    var found := [];
    for i := 0 to |parts|
      invariant SetsOf(parts, i) == Success(found)
    {
      sets := AddField(parts, i, found);
      if sets.Failure? {
        SetsStopAtAFailure(parts, i + 1, |parts|);
        return;
      }
      found := sets.value;
    }
    return Success(found);
  }

  /** A field of the expression stands for what its list of items does. */
  ghost predicate FieldStandsFor(i: nat, part: string, n: int)
    requires i < FIELD_COUNT
  {
    ListStandsFor(FieldAt(i), Split(part, ','), n)
  }

  ghost predicate IsSetOf(i: nat, part: string, bits: set<int>)
    requires i < FIELD_COUNT
  {
    forall n :: n in bits <==> FieldStandsFor(i, part, n)
  }

  /** Both 0 and 7 are Sunday. */
  ghost predicate IsWeekdaySetOf(part: string, bits: set<int>) {
    forall n :: n in bits <==> n < 7 && (FieldStandsFor(4, part, n) || (n == 0 && FieldStandsFor(4, part, 7)))
  }

  /** The schedule that an expression of five fields is written for. */
  ghost predicate IsScheduleOf(s: Schedule, parts: seq<string>)
    requires |parts| == FIELD_COUNT
  {
    && IsSetOf(0, parts[0], s.minutes) && IsSetOf(1, parts[1], s.hours) && IsSetOf(2, parts[2], s.days) && IsSetOf(3, parts[3], s.months)
    && IsWeekdaySetOf(parts[4], s.weekdays)
    && (s.anyDay <==> StartsWithStar(parts[2])) && (s.anyWeekday <==> StartsWithStar(parts[4]))
  }

  /** Why an expression is no schedule. */
  ghost predicate IsUnreadable(expr: string, e: Error) {
    var parts := Fields(expr);
    if |parts| != FIELD_COUNT then e == WrongFieldCount
    else
      || (exists i: nat :: i < FIELD_COUNT && ListIsRefused(FieldAt(i), Split(parts[i], ','), e))
      || (e == NeverFires && exists s :: IsScheduleOf(s, parts) && !Reachable(s))
  }

  lemma {:induction false} RefusedFieldIsWhy(parts: seq<string>, n: nat)
    requires n <= |parts| == FIELD_COUNT && SetsOf(parts, n).Failure?
    ensures exists i: nat :: i < n && ListIsRefused(FieldAt(i), Split(parts[i], ','), SetsOf(parts, n).error)
  {
    if SetsOf(parts, n - 1).Failure? {
      RefusedFieldIsWhy(parts, n - 1);
    } else {
      ListsMean(FieldAt(n - 1), Split(parts[n - 1], ','));
      assert ListIsRefused(FieldAt(n - 1), Split(parts[n - 1], ','), SetsOf(parts, n).error);
    }
  }

  lemma FieldMeans(parts: seq<string>, sets: seq<set<int>>, i: nat)
    requires i < FIELD_COUNT == |parts| && SetsOf(parts, FIELD_COUNT) == Success(sets)
    ensures IsSetOf(i, parts[i], sets[i])
  {
    SetsAre(parts, FIELD_COUNT, i);
    ListsMean(FieldAt(i), Split(parts[i], ','));
  }

  lemma SevenIsSunday(bits: set<int>, stands: int -> bool)
    requires forall n :: n in bits <==> stands(n)
    requires forall n :: n in bits ==> n <= 7
    ensures forall n :: n in (if 7 in bits then bits + {0} else bits) - {7} <==> n < 7 && (stands(n) || (n == 0 && stands(7)))
  {
  }

  lemma WeekdaysMean(bits: set<int>, part: string)
    requires IsSetOf(4, part, bits) && forall n :: n in bits ==> n <= 7
    ensures IsWeekdaySetOf(part, (if 7 in bits then bits + {0} else bits) - {7})
  {
    SevenIsSunday(bits, n => FieldStandsFor(4, part, n));
  }

  lemma NoWeekdayPastSeven(bits: set<int>, starred: bool)
    requires InRange(bits, FieldAt(4), starred)
    ensures forall n :: n in bits ==> n <= 7
  {
  }

  lemma AssembledMeans(parts: seq<string>, sets: seq<set<int>>)
    requires |parts| == |sets| == FIELD_COUNT && SetsOf(parts, FIELD_COUNT) == Success(sets)
    ensures IsScheduleOf(Assembled(parts, sets), parts)
  {
    FieldMeans(parts, sets, 0);
    FieldMeans(parts, sets, 1);
    FieldMeans(parts, sets, 2);
    FieldMeans(parts, sets, 3);
    FieldMeans(parts, sets, 4);
    SetInRange(parts, sets, 4);
    NoWeekdayPastSeven(sets[4], StartsWithStar(parts[4]));
    WeekdaysMean(sets[4], parts[4]);
  }

  /** A schedule is what its expression says, field by field, or there is a reason why it is none. */
  lemma SchedulesMean(expr: string)
    ensures var schedule := ScheduleOf(expr);
            if schedule.Success? then |Fields(expr)| == FIELD_COUNT && IsScheduleOf(schedule.value, Fields(expr))
            else IsUnreadable(expr, schedule.error)
  {
    var parts := Fields(expr);
    if |parts| == FIELD_COUNT {
      var sets := SetsOf(parts, FIELD_COUNT);
      if sets.Success? {
        AssembledMeans(parts, sets.value);
      } else {
        RefusedFieldIsWhy(parts, FIELD_COUNT);
      }
    }
  }

  /** A star stands for every value there is. */
  lemma StarsMean(n: int)
    ensures StandsFor(MINUTE, Item(Star, None), n) <==> 0 <= n <= 59
    ensures StandsFor(HOUR, Item(Star, None), n) <==> 0 <= n <= 23
    ensures StandsFor(DAY, Item(Star, None), n) <==> 1 <= n <= 31
    ensures StandsFor(MONTH, Item(Star, None), n) <==> 1 <= n <= 12
    ensures StandsFor(WEEKDAY, Item(Star, None), n) <==> 0 <= n <= 7
  {
    assert StepMeans(None, 1) && forall k :: StepMeans(None, k) ==> k == 1;
    StarMeans(MINUTE, n);
    StarMeans(HOUR, n);
    StarMeans(DAY, n);
    StarMeans(MONTH, n);
    StarMeans(WEEKDAY, n);
  }

  lemma StarMeans(f: Field, n: int)
    ensures StandsFor(f, Item(Star, None), n) <==> f.min <= n <= f.max
  {
    assert StepMeans(None, 1) && forall k :: StepMeans(None, k) ==> k == 1;
    assert Bounds(f, Item(Star, None), f.min, f.max);
  }

  method Parse(expr: string) returns (schedule: Result<Schedule, Error>)
    ensures if schedule.Success? then |Fields(expr)| == FIELD_COUNT && IsScheduleOf(schedule.value, Fields(expr))
            else IsUnreadable(expr, schedule.error)
    ensures schedule == ScheduleOf(expr)
    ensures schedule.Success? ==> Accepted(schedule.value)
  {
    SchedulesMean(expr);
    var parts := Fields(expr);
    if |parts| != FIELD_COUNT {
      return Failure(WrongFieldCount);
    }
    var sets := ParseFields(parts);
    if sets.Failure? {
      return Failure(sets.error);
    }
    var s := Assembled(parts, sets.value);
    var reachable := IsReachable(s);
    if !reachable {
      return Failure(NeverFires);
    }
    AssembledIsAccepted(parts, sets.value);
    return Success(s);
  }

  /** What the sets of five parsed fields satisfy, whatever text they were parsed from. */
  ghost predicate Parsed(s: Schedule) {
    && s.minutes != {} && (forall n :: n in s.minutes ==> 0 <= n <= 59)
    && s.hours != {} && (forall n :: n in s.hours ==> 0 <= n <= 23)
    && s.days != {} && (forall n :: n in s.days ==> 1 <= n <= 31)
    && s.months != {} && (forall n :: n in s.months ==> 1 <= n <= 12)
    && s.weekdays != {} && (forall n :: n in s.weekdays ==> 0 <= n <= 6)
    && (s.anyDay ==> 1 in s.days)
    && (s.anyWeekday ==> 0 in s.weekdays)
  }

  ghost predicate Accepted(s: Schedule) {
    Parsed(s) && Reachable(s)
  }

  lemma {:induction false} FieldSetInRange(f: Field, items: seq<string>)
    requires WellFormed(f) && FieldSet(f, items).Success?
    ensures forall n :: n in FieldSet(f, items).value ==> f.min <= n <= f.max
    ensures items != [] ==> FieldSet(f, items).value != {}
    ensures items != [] && StartsWithStar(items[0]) ==> f.min in FieldSet(f, items).value
  {
    if items != [] {
      FieldSetInRange(f, items[..|items| - 1]);
      var span := SpanOf(f, items[|items| - 1]).value;
      assert Covers(span, span.first);
      assert span.first in FieldSet(f, items).value;
    }
  }

  lemma {:induction false} SetsAre(parts: seq<string>, n: nat, i: nat)
    requires i < n <= |parts| == FIELD_COUNT && SetsOf(parts, n).Success?
    ensures FieldSet(FieldAt(i), Split(parts[i], ',')) == Success(SetsOf(parts, n).value[i])
  {
    assert SetsOf(parts, n).value == SetsOf(parts, n - 1).value + [SetsOf(parts, n).value[n - 1]];
    if i < n - 1 {
      SetsAre(parts, n - 1, i);
    }
  }

  ghost predicate InRange(bits: set<int>, f: Field, starred: bool) {
    bits != {} && (forall n :: n in bits ==> f.min <= n <= f.max) && (starred ==> f.min in bits)
  }

  lemma SetInRange(parts: seq<string>, sets: seq<set<int>>, i: nat)
    requires i < |parts| == FIELD_COUNT && SetsOf(parts, FIELD_COUNT) == Success(sets)
    ensures InRange(sets[i], FieldAt(i), StartsWithStar(parts[i]))
  {
    SetsAre(parts, FIELD_COUNT, i);
    FieldSetInRange(FieldAt(i), Split(parts[i], ','));
  }

  lemma AssembledIsAccepted(parts: seq<string>, sets: seq<set<int>>)
    requires |parts| == FIELD_COUNT && SetsOf(parts, FIELD_COUNT) == Success(sets) && Reachable(Assembled(parts, sets))
    ensures Accepted(Assembled(parts, sets))
  {
    forall i: nat | i < FIELD_COUNT ensures InRange(sets[i], FieldAt(i), StartsWithStar(parts[i])) {
      SetInRange(parts, sets, i);
    }
    RangesAreAccepted(parts, sets);
  }

  lemma RangesAreAccepted(parts: seq<string>, sets: seq<set<int>>)
    requires |parts| == |sets| == FIELD_COUNT && Reachable(Assembled(parts, sets))
    requires forall i: nat | i < FIELD_COUNT :: InRange(sets[i], FieldAt(i), StartsWithStar(parts[i]))
    ensures Accepted(Assembled(parts, sets))
  {
    assert InRange(sets[0], MINUTE, StartsWithStar(parts[0]));
    assert InRange(sets[1], HOUR, StartsWithStar(parts[1]));
    assert InRange(sets[2], DAY, StartsWithStar(parts[2]));
    assert InRange(sets[3], MONTH, StartsWithStar(parts[3]));
    assert InRange(sets[4], WEEKDAY, StartsWithStar(parts[4]));
    WeekdaysStayNamed(sets[4]);
  }

  lemma AMember<T>(bits: set<T>) returns (n: T)
    requires bits != {}
    ensures n in bits
  {
    n :| n in bits;
  }

  lemma WeekdaysStayNamed(bits: set<int>)
    requires bits != {}
    ensures (if 7 in bits then bits + {0} else bits) - {7} != {}
  {
    var weekday := AMember(bits);
    assert (if weekday == 7 then 0 else weekday) in (if 7 in bits then bits + {0} else bits) - {7};
  }

  /** `Schedule.Fields`: the values of one set, in ascending order. */
  method Members(bits: set<int>, min: int, max: int) returns (values: seq<int>)
    ensures forall n :: n in values <==> n in bits && min <= n <= max
    ensures forall i, j :: 0 <= i < j < |values| ==> values[i] < values[j]
  {
    values := [];
    var n := min;
    while n <= max
      invariant min <= n
      invariant forall v :: v in values <==> v in bits && min <= v < n && v <= max
      invariant forall i :: 0 <= i < |values| ==> values[i] < n
      invariant forall i, j :: 0 <= i < j < |values| ==> values[i] < values[j]
    {
      if n in bits {
        values := values + [n];
      }
      n := n + 1;
    }
  }
}
