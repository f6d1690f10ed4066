/** `pkg/records/records.go`: the text of a key, in which every segment is escaped so that no separator is ever part of
    one, and `pkg/variablestore/recordcache.go`: entries looked up by that text. */
module Keys {
  import opened Bytes
  import opened Wrappers

  const PERCENT: Byte := 37
  const COLON: Byte := 58
  const SLASH: Byte := 47
  const BAR: Byte := 124

  // Escaping one segment.

  predicate IsHex(b: Byte) { 48 <= b <= 57 || 65 <= b <= 70 }

  function HexDigit(n: nat): Byte
    requires n < 16
  {
    if n < 10 then 48 + n else 55 + n
  }

  function HexValue(b: Byte): (n: nat)
    requires IsHex(b)
    ensures n < 16 && HexDigit(n) == b
  {
    if b <= 57 then b - 48 else b - 55
  }

  function EscapedByte(b: Byte, isPlain: Byte -> bool): seq<Byte> {
    if b == PERCENT || !isPlain(b) then [PERCENT, HexDigit(b / 16), HexDigit(b % 16)] else [b]
  }

  function Escaped(s: seq<Byte>, isPlain: Byte -> bool): seq<Byte> {
    if s == [] then [] else Escaped(s[..|s| - 1], isPlain) + EscapedByte(s[|s| - 1], isPlain)
  }

  method EscapeSegment(segment: seq<Byte>, isPlain: Byte -> bool) returns (escaped: seq<Byte>)
    ensures escaped == Escaped(segment, isPlain)
  {
    escaped := [];
    for i := 0 to |segment|
      invariant escaped == Escaped(segment[..i], isPlain)
    {
      assert segment[..i + 1][..i] == segment[..i];
      if segment[i] == PERCENT || !isPlain(segment[i]) {
        escaped := escaped + [PERCENT, HexDigit(segment[i] / 16), HexDigit(segment[i] % 16)];
      } else {
        escaped := escaped + [segment[i]];
      }
    }
    assert segment[..|segment|] == segment;
  }

  /** The text a percent sign escapes at i, if two upper-case hex digits follow it. */
  predicate IsEscape(s: seq<Byte>, i: nat) {
    i + 2 < |s| && s[i] == PERCENT && IsHex(s[i + 1]) && IsHex(s[i + 2])
  }

  function UnescapedFrom(s: seq<Byte>, i: nat): Option<seq<Byte>>
    requires i <= |s|
    decreases |s| - i
  {
    if i == |s| then Some([])
    else if s[i] != PERCENT then Prepended([s[i]], UnescapedFrom(s, i + 1))
    else if IsEscape(s, i) then Prepended([HexValue(s[i + 1]) * 16 + HexValue(s[i + 2])], UnescapedFrom(s, i + 3))
    else None
  }

  function Prepended(first: seq<Byte>, rest: Option<seq<Byte>>): Option<seq<Byte>> {
    if rest.Some? then Some(first + rest.value) else None
  }

  lemma PrependedTwice(a: seq<Byte>, b: seq<Byte>, rest: Option<seq<Byte>>)
    ensures Prepended(a, Prepended(b, rest)) == Prepended(a + b, rest)
    ensures Prepended([], rest) == rest && Prepended(a, Some([])) == Some(a)
  {
    if rest.Some? {
      assert a + (b + rest.value) == a + b + rest.value && [] + rest.value == rest.value;
    }
    assert a + [] == a;
  }

  function Unescaped(s: seq<Byte>): Option<seq<Byte>> { UnescapedFrom(s, 0) }

  method UnescapeSegment(segment: seq<Byte>) returns (unescaped: Option<seq<Byte>>)
    ensures unescaped == Unescaped(segment)
  {
    var out: seq<Byte> := [];
    var i := 0;
    PrependedTwice([], [], Unescaped(segment));
    while i < |segment|
      invariant i <= |segment|
      invariant Unescaped(segment) == Prepended(out, UnescapedFrom(segment, i))
      decreases |segment| - i
    {
      if segment[i] != PERCENT {
        PrependedTwice(out, [segment[i]], UnescapedFrom(segment, i + 1));
        out, i := out + [segment[i]], i + 1;
        continue;
      }
      if i + 2 >= |segment| || !IsHex(segment[i + 1]) || !IsHex(segment[i + 2]) {
        return None;
      }
      var b := HexValue(segment[i + 1]) * 16 + HexValue(segment[i + 2]);
      PrependedTwice(out, [b], UnescapedFrom(segment, i + 3));
      out, i := out + [b], i + 3;
    }
    PrependedTwice(out, [], None);
    return Some(out);
  }

  /** Unescaping undoes escaping, whichever bytes are left plain. */
  lemma {:induction false} UnescapeUndoesEscape(s: seq<Byte>, isPlain: Byte -> bool)
    ensures Unescaped(Escaped(s, isPlain)) == Some(s)
  {
    if s != [] {
      var n := |s| - 1;
      UnescapeUndoesEscape(s[..n], isPlain);
      UnescapesOn(Escaped(s[..n], isPlain), EscapedByte(s[n], isPlain), 0);
      OneByte(s[n], isPlain);
      assert s == s[..n] + [s[n]];
    }
  }

  lemma OneByte(b: Byte, isPlain: Byte -> bool)
    ensures Unescaped(EscapedByte(b, isPlain)) == Some([b])
  {
    var e := EscapedByte(b, isPlain);
    PrependedTwice([b], [], None);
    if |e| == 3 {
      assert UnescapedFrom(e, 3) == Some([]);
      assert HexValue(e[1]) == b / 16 && HexValue(e[2]) == b % 16;
    } else {
      assert UnescapedFrom(e, 1) == Some([]);
    }
  }

  /** What can be unescaped can be unescaped with more behind it. */
  lemma {:induction false} UnescapesOn(s: seq<Byte>, more: seq<Byte>, i: nat)
    requires i <= |s| && UnescapedFrom(s, i).Some?
    ensures UnescapedFrom(s + more, i) ==
            Prepended(UnescapedFrom(s, i).value, Unescaped(more))
    decreases |s| - i
  {
    if i == |s| {
      ShiftedUnescape(s, more, 0);
      PrependedTwice([], [], Unescaped(more));
    } else if s[i] != PERCENT {
      UnescapesOn(s, more, i + 1);
      PrependedTwice([s[i]], UnescapedFrom(s, i + 1).value, Unescaped(more));
    } else {
      UnescapesOn(s, more, i + 3);
      PrependedTwice([HexValue(s[i + 1]) * 16 + HexValue(s[i + 2])], UnescapedFrom(s, i + 3).value, Unescaped(more));
    }
  }

  lemma {:induction false} ShiftedUnescape(s: seq<Byte>, more: seq<Byte>, i: nat)
    requires i <= |more|
    ensures UnescapedFrom(s + more, |s| + i) == UnescapedFrom(more, i)
    decreases |more| - i
  {
    if i < |more| {
      ShiftedUnescape(s, more, i + 1);
      if IsEscape(more, i) {
        ShiftedUnescape(s, more, i + 3);
      }
    }
  }

  // Joining segments, and splitting them again.

  function PlainBeside(separator: seq<Byte>, reserved: seq<Byte>): Byte -> bool {
    (c: Byte) => c !in separator && c !in reserved
  }

  /** What `strings.Join` makes of the parts. */
  function Concat(parts: seq<seq<Byte>>, separator: seq<Byte>): seq<Byte> {
    if parts == [] then [] else if |parts| == 1 then parts[0] else parts[0] + separator + Concat(parts[1..], separator)
  }

  function EscapedEach(segments: seq<seq<Byte>>, isPlain: Byte -> bool): seq<seq<Byte>> {
    seq(|segments|, i requires 0 <= i < |segments| => Escaped(segments[i], isPlain))
  }

  function Joined(segments: seq<seq<Byte>>, separator: seq<Byte>, reserved: seq<Byte>): seq<Byte> {
    Concat(EscapedEach(segments, PlainBeside(separator, reserved)), separator)
  }

  method JoinSegments(segments: seq<seq<Byte>>, separator: seq<Byte>, reserved: seq<Byte>) returns (joined: seq<Byte>)
    ensures joined == Joined(segments, separator, reserved)
  {
    var isPlain := PlainBeside(separator, reserved);
    var escaped: seq<seq<Byte>> := [];
    for i := 0 to |segments|
      invariant escaped == EscapedEach(segments[..i], isPlain)
    {
      var part := EscapeSegment(segments[i], isPlain);
      escaped := escaped + [part];
    }
    assert segments[..|segments|] == segments;
    joined := Concat(escaped, separator);
  }

  predicate IsAt(s: seq<Byte>, separator: seq<Byte>, i: nat) {
    i + |separator| <= |s| && s[i..i + |separator|] == separator
  }

  /** The first place the separator is found from i on; the length of the text if there is none. */
  function Find(s: seq<Byte>, separator: seq<Byte>, i: nat): (k: nat)
    requires i <= |s| && separator != []
    ensures i <= k <= |s| && (k < |s| ==> IsAt(s, separator, k))
    decreases |s| - i
  {
    if i == |s| then |s| else if IsAt(s, separator, i) then i else Find(s, separator, i + 1)
  }

  /** What `strings.Split` makes of a text. */
  function SplitOn(s: seq<Byte>, separator: seq<Byte>): (parts: seq<seq<Byte>>)
    requires separator != []
    ensures parts != []
    decreases |s|
  {
    var k := Find(s, separator, 0);
    if k == |s| then [s] else [s[..k]] + SplitOn(s[k + |separator|..], separator)
  }

  method SplitSegments(joined: seq<Byte>, separator: seq<Byte>) returns (segments: Option<seq<seq<Byte>>>)
    requires separator != []
    ensures segments == UnescapedEach(SplitOn(joined, separator))
  {
    var parts := SplitOn(joined, separator);
    var out: seq<seq<Byte>> := [];
    for i := 0 to |parts|
      invariant Some(out) == UnescapedEach(parts[..i])
    {
      var unescaped := UnescapeSegment(parts[i]);
      assert parts[..i + 1][..i] == parts[..i];
      if unescaped.None? {
        NoneForAll(parts, i + 1);
        return None;
      }
      out := out + [unescaped.value];
    }
    assert parts[..|parts|] == parts;
    return Some(out);
  }

  function UnescapedEach(parts: seq<seq<Byte>>): Option<seq<seq<Byte>>> {
    if parts == [] then Some([])
    else
      var n := |parts| - 1;
      var before, last := UnescapedEach(parts[..n]), Unescaped(parts[n]);
      if before.Some? && last.Some? then Some(before.value + [last.value]) else None
  }

  lemma {:induction false} NoneForAll(parts: seq<seq<Byte>>, n: nat)
    requires n <= |parts| && UnescapedEach(parts[..n]).None?
    ensures UnescapedEach(parts).None?
  {
    if n < |parts| {
      assert parts[..|parts| - 1][..n] == parts[..n];
      NoneForAll(parts[..|parts| - 1], n);
    } else {
      assert parts[..n] == parts;
    }
  }

  /** A separator none of whose bytes an escape can hold. */
  predicate IsSeparator(separator: seq<Byte>) {
    separator != [] && forall c :: c in separator ==> c != PERCENT && !IsHex(c)
  }

  predicate Avoids(s: seq<Byte>, separator: seq<Byte>) {
    forall c :: c in separator ==> c !in s
  }

  lemma {:induction false} EscapesAvoid(s: seq<Byte>, isPlain: Byte -> bool, c: Byte)
    requires c != PERCENT && !IsHex(c) && !isPlain(c)
    ensures c !in Escaped(s, isPlain)
  {
    if s != [] {
      EscapesAvoid(s[..|s| - 1], isPlain, c);
    }
  }

  lemma NotAt(s: seq<Byte>, separator: seq<Byte>, i: nat)
    requires separator != [] && i < |s| && s[i] !in separator
    ensures !IsAt(s, separator, i)
  {
    if i + |separator| <= |s| {
      assert s[i..i + |separator|][0] == s[i] && separator[0] in separator;
    }
  }

  lemma {:induction false} FoundAfter(a: seq<Byte>, separator: seq<Byte>, rest: seq<Byte>, i: nat)
    requires separator != [] && Avoids(a, separator) && i <= |a|
    ensures Find(a + separator + rest, separator, i) == |a|
    decreases |a| - i
  {
    var s := a + separator + rest;
    if i < |a| {
      assert s[i] == a[i] && a[i] in a;
      NotAt(s, separator, i);
      FoundAfter(a, separator, rest, i + 1);
    } else {
      assert s[i..i + |separator|] == separator;
    }
  }

  lemma {:induction false} NotFound(a: seq<Byte>, separator: seq<Byte>, i: nat)
    requires separator != [] && Avoids(a, separator) && i <= |a|
    ensures Find(a, separator, i) == |a|
    decreases |a| - i
  {
    if i < |a| {
      assert a[i] in a;
      NotAt(a, separator, i);
      NotFound(a, separator, i + 1);
    }
  }

  lemma {:induction false} SplitUndoesConcat(parts: seq<seq<Byte>>, separator: seq<Byte>)
    requires separator != [] && parts != [] && forall i :: 0 <= i < |parts| ==> Avoids(parts[i], separator)
    ensures SplitOn(Concat(parts, separator), separator) == parts
  {
    if |parts| == 1 {
      NotFound(parts[0], separator, 0);
    } else {
      var rest := Concat(parts[1..], separator);
      FoundAfter(parts[0], separator, rest, 0);
      assert (parts[0] + separator + rest)[|parts[0]| + |separator|..] == rest;
      assert (parts[0] + separator + rest)[..|parts[0]|] == parts[0];
      SplitUndoesConcat(parts[1..], separator);
    }
  }

  lemma {:induction false} UnescapeEachUndoesEscapeEach(segments: seq<seq<Byte>>, isPlain: Byte -> bool)
    ensures UnescapedEach(EscapedEach(segments, isPlain)) == Some(segments)
  {
    if segments != [] {
      var n := |segments| - 1;
      UnescapeEachUndoesEscapeEach(segments[..n], isPlain);
      UnescapeUndoesEscape(segments[n], isPlain);
      var escaped := EscapedEach(segments, isPlain);
      assert escaped[..n] == EscapedEach(segments[..n], isPlain) && escaped[n] == Escaped(segments[n], isPlain);
      assert segments == segments[..n] + [segments[n]];
    }
  }

  lemma JoinedPartsAvoid(segments: seq<seq<Byte>>, separator: seq<Byte>, reserved: seq<Byte>, avoided: seq<Byte>)
    requires IsSeparator(avoided) && forall c :: c in avoided ==> c in separator || c in reserved
    ensures forall i :: 0 <= i < |segments| ==> Avoids(EscapedEach(segments, PlainBeside(separator, reserved))[i], avoided)
  {
    var isPlain := PlainBeside(separator, reserved);
    forall i, c | 0 <= i < |segments| && c in avoided ensures c !in EscapedEach(segments, isPlain)[i] {
      EscapesAvoid(segments[i], isPlain, c);
    }
  }

  /** Splitting undoes joining, for any list of segments but an empty one. */
  lemma SplitUndoesJoin(segments: seq<seq<Byte>>, separator: seq<Byte>, reserved: seq<Byte>)
    requires segments != [] && IsSeparator(separator)
    ensures UnescapedEach(SplitOn(Joined(segments, separator, reserved), separator)) == Some(segments)
  {
    var isPlain := PlainBeside(separator, reserved);
    JoinedPartsAvoid(segments, separator, reserved, separator);
    SplitUndoesConcat(EscapedEach(segments, isPlain), separator);
    UnescapeEachUndoesEscapeEach(segments, isPlain);
  }

  /** An empty list and a list of one empty segment join to the same text. */
  lemma NoSegmentsJoinAsOneEmpty(separator: seq<Byte>, reserved: seq<Byte>)
    ensures Joined([], separator, reserved) == Joined([[]], separator, reserved)
  {
  }

  // The text of a key.

  const PRODUCTION: seq<Byte> := [112, 114, 111, 100, 117, 99, 116, 105, 111, 110]
  const PREVIEW: seq<Byte> := [112, 114, 101, 118, 105, 101, 119]

  datatype Partition = Partition(tier: seq<Byte>, root: seq<Byte>, path: seq<seq<Byte>>)

  datatype Key = Key(partition: Partition, path: seq<seq<Byte>>)

  /** What `RefuseMalformedKey` lets through. */
  predicate IsWellFormed(k: Key) {
    && (k.partition.tier == PRODUCTION || k.partition.tier == PREVIEW)
    && k.partition.root != [] && [] !in k.partition.path && k.path != [] && [] !in k.path
  }

  /** A key is let through exactly if its tier is one of the two, it names an entry, and none of its segments is empty. */
  method RefuseMalformedKey(k: Key) returns (accepted: bool)
    ensures accepted == IsWellFormed(k)
    ensures accepted <==>
              && k.partition.tier in {PRODUCTION, PREVIEW} && |k.partition.root| > 0 && |k.path| > 0
              && (forall i :: 0 <= i < |k.path| ==> |k.path[i]| > 0)
              && forall i :: 0 <= i < |k.partition.path| ==> |k.partition.path[i]| > 0
  {
    var partitioned := RefuseMalformedPartition(k.partition);
    return partitioned && |k.path| != 0 && [] !in k.path;
  }

  method RefuseMalformedPartition(p: Partition) returns (accepted: bool)
    ensures accepted <==>
              && p.tier in {PRODUCTION, PREVIEW} && |p.root| > 0 && forall i :: 0 <= i < |p.path| ==> |p.path[i]| > 0
  {
    if p.tier != PRODUCTION && p.tier != PREVIEW {
      return false;
    }
    return p.root != [] && [] !in p.path;
  }

  function PartitionText(p: Partition): seq<Byte> {
    p.tier + [COLON] + Joined([p.root] + p.path, [SLASH], [BAR])
  }

  function Text(k: Key): seq<Byte> {
    PartitionText(k.partition) + [BAR] + Joined(k.path, [SLASH], [BAR])
  }

  lemma {:induction false} ConcatAvoids(parts: seq<seq<Byte>>, separator: seq<Byte>, c: Byte)
    requires c !in separator && forall i :: 0 <= i < |parts| ==> c !in parts[i]
    ensures c !in Concat(parts, separator)
  {
    if |parts| > 1 {
      ConcatAvoids(parts[1..], separator, c);
    }
  }

  /** Two texts cut at the first of some byte agree on both sides of it. */
  lemma {:induction false} CutAt(a: seq<Byte>, rest: seq<Byte>, b: seq<Byte>, rest': seq<Byte>, c: Byte)
    requires c !in a && c !in b && a + [c] + rest == b + [c] + rest'
    ensures a == b && rest == rest'
  {
    var s, t := a + [c] + rest, b + [c] + rest';
    assert s[0] == (if a == [] then c else a[0]) && t[0] == (if b == [] then c else b[0]);
    if a != [] && b != [] {
      assert s[1..] == a[1..] + [c] + rest && t[1..] == b[1..] + [c] + rest';
      CutAt(a[1..], rest, b[1..], rest', c);
      assert a == [a[0]] + a[1..] && b == [b[0]] + b[1..];
    } else {
      assert s[1..] == rest && t[1..] == rest';
    }
  }

  lemma JoinIsInjective(a: seq<seq<Byte>>, b: seq<seq<Byte>>)
    requires a != [] && b != [] && Joined(a, [SLASH], [BAR]) == Joined(b, [SLASH], [BAR])
    ensures a == b
  {
    SplitUndoesJoin(a, [SLASH], [BAR]);
    SplitUndoesJoin(b, [SLASH], [BAR]);
  }

  lemma JoinedHoldsNoBar(segments: seq<seq<Byte>>)
    ensures BAR !in Joined(segments, [SLASH], [BAR])
  {
    JoinedPartsAvoid(segments, [SLASH], [BAR], [BAR]);
    ConcatAvoids(EscapedEach(segments, PlainBeside([SLASH], [BAR])), [SLASH], BAR);
  }

  lemma TiersHoldNoColon(tier: seq<Byte>)
    requires tier == PRODUCTION || tier == PREVIEW
    ensures COLON !in tier
  {
  }

  /** What follows the tier in the text of a key. */
  function Untiered(k: Key): seq<Byte> {
    Joined([k.partition.root] + k.partition.path, [SLASH], [BAR]) + [BAR] + Joined(k.path, [SLASH], [BAR])
  }

  lemma UntieredIsInjective(k: Key, l: Key)
    requires k.path != [] && l.path != [] && Untiered(k) == Untiered(l)
    ensures k.partition.root == l.partition.root && k.partition.path == l.partition.path && k.path == l.path
  {
    var p, q := [k.partition.root] + k.partition.path, [l.partition.root] + l.partition.path;
    JoinedHoldsNoBar(p);
    JoinedHoldsNoBar(q);
    CutAt(Joined(p, [SLASH], [BAR]), Joined(k.path, [SLASH], [BAR]), Joined(q, [SLASH], [BAR]), Joined(l.path, [SLASH], [BAR]), BAR);
    JoinIsInjective(p, q);
    JoinIsInjective(k.path, l.path);
    assert k.partition.path == p[1..] && l.partition.path == q[1..];
    assert k.partition.root == p[0] && l.partition.root == q[0];
  }

  /** Two well-formed keys have the same text only if they are the same key. */
  lemma KeysHaveTheirOwnText(k: Key, l: Key)
    requires IsWellFormed(k) && IsWellFormed(l) && Text(k) == Text(l)
    ensures k == l
  {
    assert Text(k) == k.partition.tier + [COLON] + Untiered(k);
    assert Text(l) == l.partition.tier + [COLON] + Untiered(l);
    TiersHoldNoColon(k.partition.tier);
    TiersHoldNoColon(l.partition.tier);
    CutAt(k.partition.tier, Untiered(k), l.partition.tier, Untiered(l), COLON);
    UntieredIsInjective(k, l);
  }
}
