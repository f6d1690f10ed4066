/** `pkg/edge/ocelroutepattern.go`: reading a route pattern into items, and refusing one whose repeats could match the
    same characters in many ways. */
module RoutePattern {
  import opened RuneSets
  import opened Wrappers

  datatype Item = Item(runes: RuneSet, mandatory: bool, unbounded: bool, zeroWidth: bool)

  predicate AreItems(items: seq<Item>) {
    forall i :: 0 <= i < |items| ==> IsCanonical(items[i].runes)
  }

  // The rule on its own terms.

  predicate Repeats(item: Item) { item.unbounded && !item.zeroWidth }

  predicate Share(x: RuneSet, y: RuneSet, c: int) { Has(x, c) && Has(y, c) }

  /** A required part that matches none of the characters both repeats match. */
  ghost predicate Separates(item: Item, x: RuneSet, y: RuneSet) {
    item.mandatory && !item.zeroWidth && forall c :: Share(x, y, c) ==> !Has(item.runes, c)
  }

  ghost predicate Overlap(items: seq<Item>, i: nat, j: nat) {
    && i < j < |items| && Repeats(items[i]) && Repeats(items[j])
    && (exists c :: Share(items[i].runes, items[j].runes, c))
    && !(exists k :: i < k < j && Separates(items[k], items[i].runes, items[j].runes))
  }

  method HasSeparator(between: seq<Item>, shared: RuneSet) returns (found: bool)
    requires AreItems(between) && IsCanonical(shared)
    ensures found <==> exists k :: 0 <= k < |between| && IsSeparator(between[k], shared)
  {
    for k := 0 to |between|
      invariant !(exists m :: 0 <= m < k && IsSeparator(between[m], shared))
    {
      if between[k].mandatory && !between[k].zeroWidth {
        var common := IntersectRunes(between[k].runes, shared);
        NoRangesNoRunes(common);
        if |common| == 0 {
          assert IsSeparator(between[k], shared);
          return true;
        }
      }
    }
    return false;
  }

  ghost predicate IsSeparator(item: Item, shared: RuneSet) {
    item.mandatory && !item.zeroWidth && forall c :: Has(shared, c) ==> !Has(item.runes, c)
  }

  lemma NoRangesNoRunes(s: RuneSet)
    requires IsCanonical(s)
    ensures s == [] <==> !exists c :: Has(s, c)
  {
    HasItsFirst(s);
  }

  method OverlapAt(items: seq<Item>, i: nat, j: nat) returns (overlap: bool)
    requires AreItems(items) && i < j < |items|
    ensures overlap <==> Overlap(items, i, j)
  {
    var x, w := items[i], items[j];
    if !Repeats(x) || !Repeats(w) {
      return false;
    }
    var shared := IntersectRunes(x.runes, w.runes);
    NoRangesNoRunes(shared);
    var between := items[i + 1..j];
    forall k | 0 <= k < |between| ensures IsSeparator(between[k], shared) <==> Separates(items[i + 1 + k], x.runes, w.runes) {
      assert between[k] == items[i + 1 + k];
    }
    forall k | i < k < j && Separates(items[k], x.runes, w.runes)
      ensures IsSeparator(between[k - i - 1], shared)
    {
      assert between[k - i - 1] == items[k];
    }
    assert (exists c :: Has(shared, c)) <==> exists c :: Share(x.runes, w.runes, c) by {
      assert forall c :: Has(shared, c) <==> Share(x.runes, w.runes, c);
    }
    overlap := false;
    if |shared| > 0 {
      var separated := HasSeparator(between, shared);
      overlap := !separated;
    }
  }

  /** Refuses a sequence exactly if some two of its repeats overlap. */
  method RefuseOverlappingItems(items: seq<Item>) returns (refused: bool)
    requires AreItems(items)
    ensures refused <==> exists i: nat, j: nat :: Overlap(items, i, j)
  {
    for i := 0 to |items|
      invariant forall a: nat, b: nat :: a < i ==> !Overlap(items, a, b)
    {
      for j := i + 1 to |items|
        invariant forall b: nat :: b < j ==> !Overlap(items, i, b)
      {
        var overlap := OverlapAt(items, i, j);
        if overlap {
          return true;
        }
      }
    }
    return false;
  }

  // What the rule is for: how many ways a text can be divided among two repeats and the part between them.

  /** The text divides at p: a repeat of x before it, k characters of m, and a repeat of y after them. */
  ghost predicate Splits(x: RuneSet, m: RuneSet, y: RuneSet, k: nat, text: seq<int>, p: nat) {
    && p + k <= |text|
    && (forall i :: 0 <= i < p ==> Has(x, text[i]))
    && (forall i :: p <= i < p + k ==> Has(m, text[i]))
    && (forall i :: p + k <= i < |text| ==> Has(y, text[i]))
  }

  ghost predicate AllSplit(x: RuneSet, m: RuneSet, y: RuneSet, k: nat, text: seq<int>, ps: set<nat>) {
    forall p :: p in ps ==> Splits(x, m, y, k, text, p)
  }

  /** No character is in both repeats and in the part between them; with nothing between, none is in both repeats. */
  ghost predicate Apart(x: RuneSet, m: RuneSet, y: RuneSet, k: nat) {
    forall c :: Share(x, y, c) ==> k > 0 && !Has(m, c)
  }

  /** Between the first place a text divides and the last there is no other, k characters on. */
  lemma NoSplitBetween(x: RuneSet, m: RuneSet, y: RuneSet, k: nat, text: seq<int>, p: nat, r: nat, q: nat)
    requires Apart(x, m, y, k) && p + k <= r < q
    requires Splits(x, m, y, k, text, p) && Splits(x, m, y, k, text, q)
    ensures !Splits(x, m, y, k, text, r)
  {
    assert Share(x, y, text[r]);
  }

  ghost function Span(p: nat, k: nat): (span: set<nat>)
    ensures |span| == k && forall i: nat :: i in span <==> p <= i < p + k
  {
    if k == 0 then {} else Span(p, k - 1) + {p + k - 1}
  }

  lemma {:induction false} Extremes(ps: set<nat>) returns (p: nat, q: nat)
    requires ps != {}
    ensures p in ps && q in ps && forall r :: r in ps ==> p <= r <= q
  {
    var some :| some in ps;
    if ps == {some} {
      p, q := some, some;
    } else {
      assert ps - {some} != {};
      p, q := Extremes(ps - {some});
      assert forall r :: r in ps ==> r == some || r in ps - {some};
      p, q := if some < p then some else p, if some > q then some else q;
    }
  }

  /** A text divides in at most k + 1 ways: two for a separator of one character, one for repeats side by side. */
  lemma FewSplits(x: RuneSet, m: RuneSet, y: RuneSet, k: nat, text: seq<int>, ps: set<nat>)
    requires Apart(x, m, y, k) && AllSplit(x, m, y, k, text, ps)
    ensures |ps| <= k + 1
  {
    if ps != {} {
      var p, q := Extremes(ps);
      forall r | r in ps - {q} ensures r in Span(p, k) {
        if p + k <= r {
          NoSplitBetween(x, m, y, k, text, p, r, q);
        }
      }
      SubsetSize(ps - {q}, Span(p, k));
      assert ps == ps - {q} + {q};
    }
  }

  lemma {:induction false} SubsetSize(a: set<nat>, b: set<nat>)
    requires a <= b
    ensures |a| <= |b|
  {
    if a != {} {
      var some :| some in a;
      SubsetSize(a - {some}, b - {some});
    }
  }

  /** A character all three match divides a text of it in as many ways as it is long. */
  lemma ManySplits(x: RuneSet, m: RuneSet, y: RuneSet, k: nat, c: int, ways: nat) returns (text: seq<int>, ps: set<nat>)
    requires Share(x, y, c) && (k > 0 ==> Has(m, c))
    ensures |ps| == ways && AllSplit(x, m, y, k, text, ps)
  {
    text, ps := seq(ways + k, _ => c), Span(0, ways);
  }

  /** So the rule is exact: the ways are bounded if and only if it holds. */
  lemma SplitsAreBoundedExactlyIfApart(x: RuneSet, m: RuneSet, y: RuneSet, k: nat)
    ensures Apart(x, m, y, k) <==>
              forall text, ps :: AllSplit(x, m, y, k, text, ps) ==> |ps| <= k + 1
  {
    if Apart(x, m, y, k) {
      forall text, ps | AllSplit(x, m, y, k, text, ps) ensures |ps| <= k + 1 {
        FewSplits(x, m, y, k, text, ps);
      }
    } else {
      var c :| Share(x, y, c) && !(k > 0 && !Has(m, c));
      var text, ps := ManySplits(x, m, y, k, c, k + 2);
    }
  }

  /** Two repeats of a sequence that was not refused, with one required part of k characters between them, or none. */
  lemma AcceptedRepeatsSplitInFewWays(items: seq<Item>, i: nat, j: nat, k: nat, text: seq<int>, ps: set<nat>)
    requires !(exists a: nat, b: nat :: Overlap(items, a, b)) && i < j < |items| && Repeats(items[i]) && Repeats(items[j])
    requires if k == 0 then j == i + 1 else j == i + 2
    requires AllSplit(items[i].runes, if k == 0 then [] else items[i + 1].runes, items[j].runes, k, text, ps)
    ensures |ps| <= k + 1
  {
    var m := if k == 0 then [] else items[i + 1].runes;
    assert !Overlap(items, i, j);
    FewSplits(items[i].runes, m, items[j].runes, k, text, ps);
  }
}
