/** `pkg/edge/ocelroutepattern.go`: sets of characters as lists of ranges. */
module RuneSets {
  const MAX_RUNE := 0x10FFFF

  datatype RuneRange = RuneRange(lo: int, hi: int)

  type RuneSet = seq<RuneRange>

  predicate IsRange(r: RuneRange) { 0 <= r.lo <= r.hi <= MAX_RUNE }

  predicate AreRanges(s: RuneSet) {
    forall i :: 0 <= i < |s| ==> IsRange(s[i])
  }

  predicate In(r: RuneRange, c: int) { r.lo <= c <= r.hi }

  /** The characters a list of ranges stands for. */
  predicate Has(s: RuneSet, c: int) {
    exists i :: 0 <= i < |s| && In(s[i], c)
  }

  predicate Gap(a: RuneRange, b: RuneRange) { a.hi + 1 < b.lo }

  /** In order, and with a gap between any two ranges. */
  predicate IsCanonical(s: RuneSet) {
    AreRanges(s) && forall i, j :: 0 <= i < j < |s| ==> Gap(s[i], s[j])
  }

  lemma HasBoth(a: RuneSet, b: RuneSet, c: int)
    ensures Has(a + b, c) <==> Has(a, c) || Has(b, c)
  {
    if Has(a, c) {
      var i :| 0 <= i < |a| && In(a[i], c);
      assert In((a + b)[i], c);
    } else if Has(b, c) {
      var i :| 0 <= i < |b| && In(b[i], c);
      assert In((a + b)[|a| + i], c);
    }
  }

  lemma HasOne(r: RuneRange, c: int)
    ensures Has([r], c) <==> In(r, c)
  {
    assert In(r, c) ==> In([r][0], c);
  }

  /** Two lists in canonical form that stand for the same characters are the same list. */
  lemma {:induction false} CanonicalFormIsUnique(a: RuneSet, b: RuneSet)
    requires IsCanonical(a) && IsCanonical(b) && forall c :: Has(a, c) <==> Has(b, c)
    ensures a == b
  {
    HasItsFirst(a);
    HasItsFirst(b);
    if a != [] && b != [] {
      FirstRangeIsBelow(a, b);
      FirstRangeIsBelow(b, a);
      forall c ensures Has(a[1..], c) <==> Has(b[1..], c) {
        WithoutTheFirst(a, c);
        WithoutTheFirst(b, c);
      }
      CanonicalFormIsUnique(a[1..], b[1..]);
    }
  }

  lemma HasItsFirst(s: RuneSet)
    requires AreRanges(s)
    ensures s != [] ==> Has(s, s[0].lo)
  {
    assert s != [] ==> In(s[0], s[0].lo);
  }

  lemma WithoutTheFirst(s: RuneSet, c: int)
    requires IsCanonical(s) && s != []
    ensures Has(s[1..], c) <==> Has(s, c) && c > s[0].hi
  {
    HasBoth(s[..1], s[1..], c);
    assert s[..1] + s[1..] == s;
    if Has(s[1..], c) {
      var i :| 0 <= i < |s[1..]| && In(s[1..][i], c);
      assert Gap(s[0], s[i + 1]);
    }
    if Has(s[..1], c) {
      assert In(s[0], c);
    }
  }

  lemma FirstRangeIsBelow(a: RuneSet, b: RuneSet)
    requires IsCanonical(a) && IsCanonical(b) && a != [] && b != [] && forall c :: Has(a, c) <==> Has(b, c)
    ensures b[0].lo <= a[0].lo && a[0].hi <= b[0].hi
  {
    assert In(a[0], a[0].lo) && Has(a, a[0].lo);
    assert In(b[0], b[0].lo) && Has(b, b[0].lo);
    var i :| 0 <= i < |b| && In(b[i], a[0].lo);
    var j :| 0 <= j < |a| && In(a[j], b[0].lo);
    assert i > 0 ==> Gap(b[0], b[i]);
    assert j > 0 ==> Gap(a[0], a[j]);
    assert i == 0;
    forall k | 0 < k < |b| ensures !In(b[k], b[0].hi + 1) {
      assert Gap(b[0], b[k]);
    }
    assert !Has(b, b[0].hi + 1);
    assert !In(a[0], b[0].hi + 1);
  }

  // The list in order of where each range starts.

  predicate IsInOrder(s: RuneSet) {
    forall i, j :: 0 <= i < j < |s| ==> s[i].lo <= s[j].lo
  }

  function Inserted(s: RuneSet, r: RuneRange): (sorted: RuneSet)
    requires IsInOrder(s)
    ensures IsInOrder(sorted) && forall x :: x in sorted <==> x in s || x == r
  {
    if s == [] then [r]
    else if r.lo < s[0].lo then [r] + s
    else
      var rest := Inserted(s[1..], r);
      assert forall x :: x in rest ==> s[0].lo <= x.lo by {
        assert forall x :: x in s[1..] ==> exists k :: 0 < k < |s| && s[k] == x;
      }
      assert forall j :: 0 <= j < |rest| ==> rest[j] in rest;
      [s[0]] + rest
  }

  /** What `slices.SortFunc` makes of a list of ranges. */
  function Sorted(s: RuneSet): (sorted: RuneSet)
    ensures IsInOrder(sorted) && forall x :: x in sorted <==> x in s
  {
    if s == [] then [] else Inserted(Sorted(s[1..]), s[0])
  }

  lemma SortedStandsForTheSame(s: RuneSet)
    ensures forall c :: Has(Sorted(s), c) <==> Has(s, c)
    ensures AreRanges(s) ==> AreRanges(Sorted(s))
  {
    forall c ensures Has(Sorted(s), c) <==> Has(s, c) {
      HasByMembers(s, c);
      HasByMembers(Sorted(s), c);
    }
    if AreRanges(s) {
      forall i | 0 <= i < |Sorted(s)| ensures IsRange(Sorted(s)[i]) {
        assert Sorted(s)[i] in s;
      }
    }
  }

  lemma HasByMembers(s: RuneSet, c: int)
    ensures Has(s, c) <==> exists r :: r in s && In(r, c)
  {
  }

  // The algebra.

  function Widened(merged: RuneSet, r: RuneRange): RuneSet
    requires merged != []
  {
    var last := |merged| - 1;
    merged[last := merged[last].(hi := if merged[last].hi >= r.hi then merged[last].hi else r.hi)]
  }

  lemma OneMoreJoined(merged: RuneSet, r: RuneRange)
    requires IsCanonical(merged) && IsRange(r) && merged != [] && merged[|merged| - 1].lo <= r.lo <= merged[|merged| - 1].hi + 1
    ensures IsCanonical(Widened(merged, r)) && forall c :: Has(Widened(merged, r), c) <==> Has(merged, c) || In(r, c)
  {
    var last, widened := |merged| - 1, Widened(merged, r);
    assert merged == merged[..last] + [merged[last]] && widened == merged[..last] + [widened[last]];
    forall c ensures Has(widened, c) <==> Has(merged, c) || In(r, c) {
      HasBoth(merged[..last], [merged[last]], c);
      HasBoth(merged[..last], [widened[last]], c);
      HasOne(merged[last], c);
      HasOne(widened[last], c);
    }
    forall i, j | 0 <= i < j < |widened| ensures Gap(widened[i], widened[j]) {
      assert Gap(merged[i], merged[j]);
    }
  }

  lemma OneMoreApart(s: RuneSet, r: RuneRange)
    requires IsCanonical(s) && IsRange(r) && (s != [] ==> Gap(s[|s| - 1], r))
    ensures IsCanonical(s + [r]) && forall c :: Has(s + [r], c) <==> Has(s, c) || In(r, c)
  {
    forall c ensures Has(s + [r], c) <==> Has(s, c) || In(r, c) {
      HasBoth(s, [r], c);
      HasOne(r, c);
    }
    forall i | 0 <= i < |s| ensures Gap(s[i], r) {
      assert i < |s| - 1 ==> Gap(s[i], s[|s| - 1]);
    }
  }

  method MergeRunes(ranges: RuneSet) returns (merged: RuneSet)
    requires AreRanges(ranges)
    ensures IsCanonical(merged) && forall c :: Has(merged, c) <==> Has(ranges, c)
  {
    var sorted := Sorted(ranges);
    SortedStandsForTheSame(ranges);
    merged := [];
    for n := 0 to |sorted|
      invariant IsCanonical(merged) && forall c :: Has(merged, c) <==> Has(sorted[..n], c)
      invariant merged != [] ==> forall i :: n <= i < |sorted| ==> merged[|merged| - 1].lo <= sorted[i].lo
    {
      var r, last := sorted[n], |merged| - 1;
      assert sorted[..n + 1] == sorted[..n] + [r];
      forall c ensures Has(sorted[..n + 1], c) <==> Has(sorted[..n], c) || In(r, c) {
        HasBoth(sorted[..n], [r], c);
        HasOne(r, c);
      }
      if last >= 0 && r.lo <= merged[last].hi + 1 {
        OneMoreJoined(merged, r);
        merged := merged[last := merged[last].(hi := if merged[last].hi >= r.hi then merged[last].hi else r.hi)];
      } else {
        OneMoreApart(merged, r);
        merged := merged + [r];
      }
    }
    assert sorted[..|sorted|] == sorted;
  }

  method UnionRunes(a: RuneSet, b: RuneSet) returns (union: RuneSet)
    requires AreRanges(a) && AreRanges(b)
    ensures IsCanonical(union) && forall c :: Has(union, c) <==> Has(a, c) || Has(b, c)
  {
    union := MergeRunes(a + b);
    forall c ensures Has(a + b, c) <==> Has(a, c) || Has(b, c) {
      HasBoth(a, b, c);
    }
  }

  /** The characters left out. */
  method InvertRunes(s: RuneSet) returns (inverted: RuneSet)
    requires AreRanges(s)
    ensures IsCanonical(inverted) && forall c :: Has(inverted, c) <==> 0 <= c <= MAX_RUNE && !Has(s, c)
  {
    var merged := MergeRunes(s);
    inverted := [];
    var next := 0;
    for n := 0 to |merged|
      invariant next == After(merged, n) && IsInverse(inverted, merged, next)
    {
      var r := merged[n];
      Between(merged, n);
      if r.lo > next {
        OneMoreApart(inverted, RuneRange(next, r.lo - 1));
        inverted := inverted + [RuneRange(next, r.lo - 1)];
      }
      next := r.hi + 1;
    }
    Between(merged, |merged|);
    if next <= MAX_RUNE {
      OneMoreApart(inverted, RuneRange(next, MAX_RUNE));
      inverted := inverted + [RuneRange(next, MAX_RUNE)];
    }
  }

  /** The first character past the first n ranges. */
  function After(s: RuneSet, n: nat): int
    requires n <= |s|
  {
    if n == 0 then 0 else s[n - 1].hi + 1
  }

  /** The list stands for the characters below `next` that the other leaves out. */
  ghost predicate IsInverse(inverted: RuneSet, s: RuneSet, next: int) {
    && IsCanonical(inverted) && (inverted != [] ==> inverted[|inverted| - 1].hi + 1 < next)
    && forall c :: Has(inverted, c) <==> 0 <= c < next && !Has(s, c)
  }

  /** A list in canonical form has nothing between one range and the next. */
  lemma Between(s: RuneSet, n: nat)
    requires IsCanonical(s) && n <= |s|
    ensures After(s, n) <= MAX_RUNE + 1 && (n < |s| ==> After(s, n) <= s[n].lo && (n > 0 ==> After(s, n) < s[n].lo))
    ensures forall c :: After(s, n) <= c && (n < |s| ==> c < s[n].lo) ==> !Has(s, c)
    ensures n < |s| ==> forall c :: s[n].lo <= c <= s[n].hi ==> Has(s, c)
  {
    forall c | After(s, n) <= c && (n < |s| ==> c < s[n].lo) ensures !Has(s, c) {
      forall i | 0 <= i < |s| ensures !In(s[i], c) {
        assert i < n - 1 ==> Gap(s[i], s[n - 1]);
        assert n < i ==> Gap(s[n], s[i]);
      }
    }
    if n < |s| {
      forall c | s[n].lo <= c <= s[n].hi ensures Has(s, c) {
        assert In(s[n], c);
      }
    }
  }

  /** The ranges two lists share. */
  method IntersectRunes(a: RuneSet, b: RuneSet) returns (shared: RuneSet)
    requires AreRanges(a) && AreRanges(b)
    ensures IsCanonical(shared) && forall c :: Has(shared, c) <==> Has(a, c) && Has(b, c)
  {
    var found: RuneSet := [];
    for i := 0 to |a|
      invariant AreRanges(found) && forall c :: Has(found, c) <==> Has(a[..i], c) && Has(b, c)
    {
      found := SharedWith(a[i], b, found);
      forall c ensures Has(a[..i + 1], c) <==> Has(a[..i], c) || In(a[i], c) {
        assert a[..i + 1] == a[..i] + [a[i]];
        HasBoth(a[..i], [a[i]], c);
        HasOne(a[i], c);
      }
    }
    assert a[..|a|] == a;
    shared := MergeRunes(found);
  }

  method SharedWith(x: RuneRange, b: RuneSet, found: RuneSet) returns (more: RuneSet)
    requires IsRange(x) && AreRanges(b) && AreRanges(found)
    ensures AreRanges(more) && forall c :: Has(more, c) <==> Has(found, c) || (In(x, c) && Has(b, c))
  {
    more := found;
    for j := 0 to |b|
      invariant AreRanges(more) && forall c :: Has(more, c) <==> Has(found, c) || (In(x, c) && Has(b[..j], c))
    {
      var y := b[j];
      var lo, hi := if x.lo >= y.lo then x.lo else y.lo, if x.hi <= y.hi then x.hi else y.hi;
      ghost var before := more;
      if lo <= hi {
        more := more + [RuneRange(lo, hi)];
      }
      forall c ensures Has(more, c) <==> Has(before, c) || (In(x, c) && In(y, c)) {
        HasBoth(before, [RuneRange(lo, hi)], c);
        HasOne(RuneRange(lo, hi), c);
      }
      forall c ensures Has(b[..j + 1], c) <==> Has(b[..j], c) || In(y, c) {
        assert b[..j + 1] == b[..j] + [y];
        HasBoth(b[..j], [y], c);
        HasOne(y, c);
      }
    }
    assert b[..|b|] == b;
  }

  /** So complement is its own inverse. */
  lemma ComplementIsItsOwnInverse(s: RuneSet, inverted: RuneSet, again: RuneSet)
    requires IsCanonical(s) && IsCanonical(again)
    requires forall c :: Has(inverted, c) <==> 0 <= c <= MAX_RUNE && !Has(s, c)
    requires forall c :: Has(again, c) <==> 0 <= c <= MAX_RUNE && !Has(inverted, c)
    ensures again == s
  {
    StaysInRange(s);
    CanonicalFormIsUnique(again, s);
  }

  lemma StaysInRange(s: RuneSet)
    requires AreRanges(s)
    ensures forall c :: Has(s, c) ==> 0 <= c <= MAX_RUNE
  {
  }
}
