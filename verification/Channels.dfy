/** `pkg/realtime/pattern.go` and `config.go`: patterns of channel names, and refusing channels whose patterns meet. */
module Channels {
  import opened Wrappers
  import opened Strings

  const MAX_SEGMENTS := 4
  const SLASH := '/'

  datatype Segment = Literal(text: string) | Parameter(name: string)

  type Pattern = seq<Segment>

  // What the two regular expressions match.

  predicate IsLetter(c: char) { 'A' <= c <= 'Z' || 'a' <= c <= 'z' }

  predicate IsAlphanumeric(c: char) { IsLetter(c) || IsDigit(c) }

  predicate IsChannelSegment(s: string) {
    && 1 <= |s| <= 50 && IsAlphanumeric(s[0]) && IsAlphanumeric(s[|s| - 1])
    && forall i :: 0 <= i < |s| ==> IsAlphanumeric(s[i]) || s[i] == '-'
  }

  predicate IsName(s: string) {
    && s != "" && (IsLetter(s[0]) || s[0] == '_')
    && forall i :: 0 <= i < |s| ==> IsAlphanumeric(s[i]) || s[i] == '_'
  }

  /** The letters and digits of ASCII, by their codes. */
  predicate IsAsciiLetter(code: int) { 65 <= code <= 90 || 97 <= code <= 122 }

  predicate IsAsciiDigit(code: int) { 48 <= code <= 57 }

  /** A segment of a channel is one letter or digit, or two with up to 48 letters, digits and hyphens between them; a parameter's
      name is a letter or an underscore with letters, digits and underscores after it. */
  lemma SegmentsAre(s: string)
    ensures IsChannelSegment(s) <==>
              && 0 < |s| <= 2 + 48
              && (forall i :: 0 <= i < |s| ==> IsAsciiLetter(s[i] as int) || IsAsciiDigit(s[i] as int) || (0 < i < |s| - 1 && s[i] == '-'))
    ensures IsName(s) <==>
              && 0 < |s|
              && (forall i :: 0 <= i < |s| ==> IsAsciiLetter(s[i] as int) || s[i] == '_' || (0 < i && IsAsciiDigit(s[i] as int)))
  {
  }

  predicate IsSegment(s: Segment) {
    match s
    case Literal(text) => IsChannelSegment(text)
    case Parameter(name) => IsName(name)
  }

  /** Up to four segments, no two of them the same parameter. */
  predicate IsPattern(p: Pattern) {
    && 1 <= |p| <= MAX_SEGMENTS && (forall i :: 0 <= i < |p| ==> IsSegment(p[i]))
    && forall i, j :: 0 <= i < j < |p| && p[i].Parameter? ==> p[i] != p[j]
  }

  function TextOf(s: Segment): string {
    match s
    case Literal(text) => text
    case Parameter(name) => ":" + name
  }

  function Joined(parts: seq<string>): string {
    if parts == [] then "" else if |parts| == 1 then parts[0] else parts[0] + [SLASH] + Joined(parts[1..])
  }

  function TextsOf(p: Pattern): (texts: seq<string>)
    ensures |texts| == |p| && forall i :: 0 <= i < |p| ==> texts[i] == TextOf(p[i])
  {
    seq(|p|, i requires 0 <= i < |p| => TextOf(p[i]))
  }

  function Written(p: Pattern): string { Joined(TextsOf(p)) }

  lemma {:induction false} SplitSkips(a: string, rest: string)
    requires SLASH !in a
    ensures Split(a + [SLASH] + rest, SLASH) == [a] + Split(rest, SLASH)
    ensures Split(a, SLASH) == [a]
  {
    if a != "" {
      SplitSkips(a[1..], rest);
      assert (a + [SLASH] + rest)[1..] == a[1..] + [SLASH] + rest;
      assert ([a[1..]] + Split(rest, SLASH))[1..] == Split(rest, SLASH);
      assert [a[0]] + a[1..] == a;
    } else {
      assert (a + [SLASH] + rest)[1..] == rest;
    }
  }

  lemma {:induction false} SplitUndoesJoin(parts: seq<string>)
    requires parts != [] && forall i :: 0 <= i < |parts| ==> SLASH !in parts[i]
    ensures Split(Joined(parts), SLASH) == parts
  {
    SplitSkips(parts[0], Joined(parts[1..]));
    if |parts| > 1 {
      SplitUndoesJoin(parts[1..]);
    }
  }

  lemma {:induction false} JoinUndoesSplit(text: string)
    ensures Joined(Split(text, SLASH)) == text
  {
    if text != "" {
      JoinUndoesSplit(text[1..]);
      var rest := Split(text[1..], SLASH);
      if text[0] != SLASH {
        assert Joined([[text[0]] + rest[0]] + rest[1..]) == [text[0]] + Joined(rest);
      }
    }
  }

  function SegmentOf(part: string): Option<Segment> {
    if part != "" && part[0] == ':' then if IsName(part[1..]) then Some(Parameter(part[1..])) else None
    else if IsChannelSegment(part) then Some(Literal(part)) else None
  }

  lemma SegmentsReadBack(s: Segment)
    requires IsSegment(s)
    ensures SegmentOf(TextOf(s)) == Some(s) && SLASH !in TextOf(s)
  {
  }

  /** The segments, one for each part of a text, of which no two are the same parameter. */
  predicate ReadsAs(parts: seq<string>, p: Pattern) {
    && |p| == |parts| && (forall i :: 0 <= i < |p| ==> SegmentOf(parts[i]) == Some(p[i]))
    && forall i, j :: 0 <= i < j < |p| && p[i].Parameter? ==> p[i] != p[j]
  }

  /** A text is a pattern's if and only if the parts of it read as the pattern. */
  lemma PatternsReadBack(written: string, p: Pattern)
    requires 1 <= |p| <= MAX_SEGMENTS
    ensures IsPattern(p) && Written(p) == written <==> ReadsAs(Split(written, SLASH), p)
  {
    if IsPattern(p) && Written(p) == written {
      PatternsReadAs(written, p);
    }
    if ReadsAs(Split(written, SLASH), p) {
      ReadingsAreWritten(written, p);
    }
  }

  lemma PatternsReadAs(written: string, p: Pattern)
    requires 1 <= |p| <= MAX_SEGMENTS && IsPattern(p) && Written(p) == written
    ensures ReadsAs(Split(written, SLASH), p)
  {
    var texts := TextsOf(p);
    forall i | 0 <= i < |p| ensures SegmentOf(texts[i]) == Some(p[i]) && SLASH !in texts[i] {
      SegmentsReadBack(p[i]);
    }
    SplitUndoesJoin(texts);
  }

  lemma ReadingIsWritten(part: string, s: Segment)
    requires SegmentOf(part) == Some(s)
    ensures TextOf(s) == part && IsSegment(s)
  {
    assert s.Parameter? ==> [':'] + part[1..] == part;
  }

  lemma ReadingsAreWritten(written: string, p: Pattern)
    requires 1 <= |p| <= MAX_SEGMENTS && ReadsAs(Split(written, SLASH), p)
    ensures IsPattern(p) && Written(p) == written
  {
    var parts, texts := Split(written, SLASH), TextsOf(p);
    JoinUndoesSplit(written);
    forall i | 0 <= i < |p| ensures texts[i] == parts[i] && IsSegment(p[i]) {
      ReadingIsWritten(parts[i], p[i]);
    }
    assert texts == parts;
  }

  method ReadSegments(parts: seq<string>) returns (pattern: Option<Pattern>)
    ensures match pattern case Some(p) => ReadsAs(parts, p) case None => forall p :: !ReadsAs(parts, p)
  {
    var p: Pattern, named: set<string> := [], {};
    for i := 0 to |parts|
      invariant ReadsAs(parts[..i], p)
      invariant forall n :: n in named <==> Parameter(n) in p
    {
      var segment := SegmentOf(parts[i]);
      if segment.None? {
        return None;
      }
      if segment.value.Parameter? {
        if segment.value.name in named {
          var j :| 0 <= j < i && p[j] == segment.value;
          assert SegmentOf(parts[..i][j]) == segment;
          return None;
        }
        named := named + {segment.value.name};
      }
      assert forall k :: 0 <= k < i ==> SegmentOf(parts[..i][k]) == SegmentOf(parts[k]);
      p := p + [segment.value];
    }
    assert parts[..|parts|] == parts;
    return Some(p);
  }

  /** Reads a pattern: exactly the texts of patterns are accepted, each as the pattern it is the text of. */
  method ParsePattern(written: string) returns (pattern: Option<Pattern>)
    ensures match pattern
            case Some(p) => IsPattern(p) && Written(p) == written
            case None => forall p :: IsPattern(p) ==> Written(p) != written
  {
    if written == "" {
      EmptyIsNoPattern();
      return None;
    }
    var parts := Split(written, SLASH);
    forall p | IsPattern(p) && Written(p) == written ensures ReadsAs(parts, p) {
      PatternsReadBack(written, p);
    }
    if |parts| > MAX_SEGMENTS {
      return None;
    }
    pattern := ReadSegments(parts);
    if pattern.Some? {
      PatternsReadBack(written, pattern.value);
    }
  }

  lemma EmptyIsNoPattern()
    ensures forall p :: IsPattern(p) ==> Written(p) != ""
  {
    forall p | IsPattern(p) ensures Written(p) != "" {
      SegmentsReadBack(p[0]);
    }
  }

  /** No text is two patterns'. */
  lemma TextsArePatternsOnce(p: Pattern, q: Pattern)
    requires IsPattern(p) && IsPattern(q) && Written(p) == Written(q)
    ensures p == q
  {
    PatternsReadBack(Written(p), p);
    PatternsReadBack(Written(q), q);
  }

  // Which channels a pattern has.

  type Channel = seq<string>

  predicate IsChannel(c: Channel) {
    forall name :: name in c ==> IsChannelSegment(name)
  }

  predicate Fits(s: Segment, name: string) { s.Literal? ==> s.text == name }

  /** The first n segments of a channel fit those of a pattern. */
  predicate FitsTo(p: Pattern, c: Channel, n: nat) {
    n <= |p| && n <= |c| && forall i :: 0 <= i < n ==> Fits(p[i], c[i])
  }

  predicate IsOf(p: Pattern, c: Channel) { IsChannel(c) && |c| == |p| && FitsTo(p, c, |p|) }

  /** A wildcard subscriber, who leaves off a parameter and all after it, receives every longer channel that fits what
      is left. */
  ghost predicate Reaches(p: Pattern, c: Channel) {
    IsChannel(c) && exists i :: 0 <= i < |p| && p[i].Parameter? && i < |c| && FitsTo(p, c, i)
  }

  method PrefixesOverlap(mine: Pattern, theirs: Pattern) returns (overlap: bool)
    requires |mine| <= |theirs|
    ensures overlap <==> forall i :: 0 <= i < |mine| ==> MayMeet(mine[i], theirs[i])
  {
    for i := 0 to |mine|
      invariant forall k :: 0 <= k < i ==> MayMeet(mine[k], theirs[k])
    {
      if mine[i].Literal? && theirs[i].Literal? && mine[i].text != theirs[i].text {
        return false;
      }
    }
    return true;
  }

  predicate MayMeet(a: Segment, b: Segment) { a.Literal? && b.Literal? ==> a.text == b.text }

  /** A name both segments fit, if there is one. */
  function Meeting(a: Segment, b: Segment): (name: string)
    requires IsSegment(a) && IsSegment(b)
    ensures IsChannelSegment(name) && (MayMeet(a, b) ==> Fits(a, name)) && Fits(b, name)
  {
    if b.Literal? then b.text else if a.Literal? then a.text else "a"
  }

  /** A channel of one pattern whose first n segments fit the other as well, if they may meet there. */
  lemma ACommonChannel(p: Pattern, q: Pattern, n: nat) returns (c: Channel)
    requires IsPattern(p) && IsPattern(q) && n <= |p| && n <= |q|
    requires forall i :: 0 <= i < n ==> MayMeet(p[i], q[i])
    ensures IsOf(q, c) && FitsTo(p, c, n)
  {
    c := seq(|q|, i requires 0 <= i < |q| => Meeting(if i < n then p[i] else q[i], q[i]));
  }

  /** Found exactly if some channel is of both patterns. */
  method Overlaps(p: Pattern, q: Pattern) returns (overlap: bool)
    requires IsPattern(p) && IsPattern(q)
    ensures overlap <==> exists c :: IsOf(p, c) && IsOf(q, c)
  {
    if |p| != |q| {
      return false;
    }
    overlap := PrefixesOverlap(p, q);
    if overlap {
      var c := ACommonChannel(p, q, |p|);
    } else {
      var i :| 0 <= i < |p| && !MayMeet(p[i], q[i]);
      forall c | IsOf(q, c) ensures !IsOf(p, c) {
        assert Fits(q[i], c[i]);
      }
    }
  }

  /** Found exactly if a wildcard subscriber to the one would receive a channel of the other. */
  method WildcardCovers(p: Pattern, q: Pattern) returns (covers: bool)
    requires IsPattern(p) && IsPattern(q)
    ensures covers <==> exists c :: Reaches(p, c) && IsOf(q, c)
  {
    for i := 0 to |p|
      invariant forall c, k :: 0 <= k < i && p[k].Parameter? && k < |c| && IsOf(q, c) ==> !FitsTo(p, c, k)
    {
      if p[i].Literal? || |q| <= i {
        continue;
      }
      var overlap := PrefixesOverlap(p[..i], q[..i]);
      if overlap {
        assert forall k :: 0 <= k < i ==> MayMeet(p[..i][k], q[..i][k]);
        var c := ACommonChannel(p, q, i);
        assert Reaches(p, c);
        return true;
      }
      forall c | IsOf(q, c) ensures !FitsTo(p, c, i) {
        var k :| 0 <= k < i && !MayMeet(p[..i][k], q[..i][k]);
        assert Fits(q[k], c[k]);
      }
    }
    return false;
  }

  // A configuration of channels.

  datatype Declared = Declared(pattern: string, wildcard: bool, subscribes: bool, publishes: bool)

  predicate HasParameters(p: Pattern) {
    exists i :: 0 <= i < |p| && p[i].Parameter?
  }

  /** What the check of a wildcard asks: that its subscriber receives some channel. */
  lemma WildcardsReachAChannel(p: Pattern)
    requires IsPattern(p)
    ensures HasParameters(p) <==> exists c :: Reaches(p, c)
  {
    if HasParameters(p) {
      var c := ACommonChannel(p, p, |p|);
      assert Reaches(p, c);
    }
  }

  /** The declaration stands by itself: its pattern reads as this one, its accesses are known, and a wildcard has a
      parameter to leave off. */
  predicate StandsAs(d: Declared, p: Pattern) {
    IsPattern(p) && Written(p) == d.pattern && Stands(d, p)
  }

  predicate Stands(d: Declared, p: Pattern) {
    (d.wildcard ==> HasParameters(p)) && d.subscribes && d.publishes
  }

  predicate AllStand(declared: seq<Declared>, parsed: seq<Pattern>) {
    |parsed| == |declared| && forall i :: 0 <= i < |declared| ==> StandsAs(declared[i], parsed[i])
  }

  /** No channel is of two patterns, and no wildcard subscriber receives another's. */
  ghost predicate AreApart(declared: seq<Declared>, parsed: seq<Pattern>)
    requires |parsed| == |declared|
  {
    && (forall i, j :: 0 <= i < j < |parsed| ==> ShareNone(parsed[i], parsed[j]))
    && (forall i, j :: 0 <= i < |parsed| && 0 <= j < |parsed| && i != j && declared[i].wildcard ==> ReachesNone(parsed[i], parsed[j]))
  }

  ghost predicate ShareNone(p: Pattern, q: Pattern) {
    forall c :: IsOf(p, c) ==> !IsOf(q, c)
  }

  ghost predicate ReachesNone(p: Pattern, q: Pattern) {
    forall c :: IsOf(q, c) ==> !Reaches(p, c)
  }

  method ParseEach(declared: seq<Declared>) returns (parsed: Option<seq<Pattern>>)
    ensures parsed.Some? ==> AllStand(declared, parsed.value)
    ensures parsed.None? ==> forall ps :: !AllStand(declared, ps)
  {
    var patterns: seq<Pattern> := [];
    for i := 0 to |declared|
      invariant |patterns| == i && forall k :: 0 <= k < i ==> StandsAs(declared[k], patterns[k])
    {
      var pattern := ParsePattern(declared[i].pattern);
      if pattern.None? {
        return None;
      }
      if !Stands(declared[i], pattern.value) {
        forall ps | AllStand(declared, ps) ensures StandsAs(declared[i], pattern.value) {
          TextsArePatternsOnce(ps[i], pattern.value);
        }
        return None;
      }
      patterns := patterns + [pattern.value];
    }
    return Some(patterns);
  }

  /** Refuses a configuration exactly if a declaration does not stand by itself, two share a channel, or a wildcard
      would let its subscribers receive another's. */
  method RefuseChannels(declared: seq<Declared>) returns (refused: bool)
    ensures !refused <==> exists parsed :: AllStand(declared, parsed) && AreApart(declared, parsed)
  {
    var read := ParseEach(declared);
    if read.None? {
      return true;
    }
    var parsed := read.value;
    OnlyParse(declared, parsed);
    var overlap := AnyOverlap(parsed);
    if overlap {
      return true;
    }
    refused := AnyCovers(declared, parsed);
  }

  /** Whether any two patterns share a channel. */
  method AnyOverlap(parsed: seq<Pattern>) returns (overlap: bool)
    requires forall i :: 0 <= i < |parsed| ==> IsPattern(parsed[i])
    ensures !overlap <==> forall i, j :: 0 <= i < j < |parsed| ==> ShareNone(parsed[i], parsed[j])
  {
    for i := 0 to |parsed|
      invariant forall k, j :: 0 <= k < j < i ==> ShareNone(parsed[k], parsed[j])
    {
      for k := 0 to i
        invariant forall j :: 0 <= j < k ==> ShareNone(parsed[j], parsed[i])
      {
        overlap := Overlaps(parsed[k], parsed[i]);
        if overlap {
          assert !ShareNone(parsed[k], parsed[i]);
          return;
        }
      }
    }
    return false;
  }

  /** Whether any wildcard reaches another's channel. */
  method AnyCovers(declared: seq<Declared>, parsed: seq<Pattern>) returns (covers: bool)
    requires |parsed| == |declared| && forall i :: 0 <= i < |parsed| ==> IsPattern(parsed[i])
    ensures !covers <==>
              forall i, j :: 0 <= i < |parsed| && 0 <= j < |parsed| && i != j && declared[i].wildcard ==> ReachesNone(parsed[i], parsed[j])
  {
    for i := 0 to |parsed|
      invariant forall k, j :: 0 <= k < i && 0 <= j < |parsed| && k != j && declared[k].wildcard ==> ReachesNone(parsed[k], parsed[j])
    {
      if !declared[i].wildcard {
        continue;
      }
      for j := 0 to |parsed|
        invariant forall m :: 0 <= m < j && m != i ==> ReachesNone(parsed[i], parsed[m])
      {
        if i != j {
          covers := WildcardCovers(parsed[i], parsed[j]);
          if covers {
            assert !ReachesNone(parsed[i], parsed[j]);
            return;
          }
        }
      }
    }
    return false;
  }

  lemma OnlyParse(declared: seq<Declared>, parsed: seq<Pattern>)
    requires AllStand(declared, parsed)
    ensures forall ps :: AllStand(declared, ps) ==> ps == parsed
  {
    forall ps | AllStand(declared, ps) ensures ps == parsed {
      forall i | 0 <= i < |declared| ensures ps[i] == parsed[i] {
        TextsArePatternsOnce(ps[i], parsed[i]);
      }
    }
  }
}
