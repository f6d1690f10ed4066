/** `pkg/edge/ocelroutepattern.go`: the reader that takes a route pattern apart by recursive descent. It succeeds exactly
    where a tree that keeps the rule is read, with the items that the tree means. */
module PatternReader {
  import opened Wrappers
  import opened RuneSets
  import opened RoutePattern
  import opened PatternParts
  import opened PatternTree

  datatype Error = OpenGroup | OpenClass | Disordered | EndsInClass | Overlapping

  /** `escapedRunes`. */
  method EscapedRunes(c: int) returns (runes: RuneSet)
    requires IsRune(c)
    ensures IsCanonical(runes) && forall r :: Has(runes, r) <==> Escapes(c, r)
    ensures match EndRune(Escaped(c)) case Some(r) => runes == [RuneRange(r, r)] case None => !IsSingle(runes)
  {
    var digits := [RuneRange('0' as int, '9' as int)];
    var word := [RuneRange('0' as int, '9' as int), RuneRange('A' as int, 'Z' as int), RuneRange('_' as int, '_' as int),
                 RuneRange('a' as int, 'z' as int)];
    runes := [RuneRange(c, c)];
    if c == 'd' as int {
      runes := digits;
    } else if c == 'D' as int {
      runes := InvertRunes(digits);
    } else if c == 'w' as int {
      runes := word;
    } else if c == 'W' as int {
      runes := InvertRunes(word);
    } else if c == 'n' as int {
      runes := [RuneRange(10, 10)];
    } else if c == 'r' as int {
      runes := [RuneRange(13, 13)];
    } else if c == 't' as int {
      runes := [RuneRange(9, 9)];
    }
    SingleRanges(digits);
    WordRanges(word);
    SingleRanges(runes);
    if EndRune(Escaped(c)).None? {
      var few := if c == 'W' as int then 32 else 48;
      TwoAreNotSingle(runes, if c == 'D' as int then 0 else few, if c == 'D' as int then 1 else few + 1);
    }
  }

  lemma SingleRanges(s: RuneSet)
    ensures |s| == 1 ==> forall r :: Has(s, r) <==> s[0].lo <= r <= s[0].hi
  {
    if |s| == 1 {
      forall r ensures Has(s, r) <==> s[0].lo <= r <= s[0].hi {
        assert s == [s[0]];
        HasOne(s[0], r);
      }
    }
  }

  lemma WordRanges(s: RuneSet)
    requires s == [RuneRange('0' as int, '9' as int), RuneRange('A' as int, 'Z' as int), RuneRange('_' as int, '_' as int),
                   RuneRange('a' as int, 'z' as int)]
    ensures forall r :: Has(s, r) <==> IsWordRune(r)
  {
    forall r ensures Has(s, r) <==> IsWordRune(r) {
      assert Has(s, r) <==> In(s[0], r) || In(s[1], r) || In(s[2], r) || In(s[3], r);
    }
  }

  lemma TwoAreNotSingle(s: RuneSet, a: int, b: int)
    requires Has(s, a) && Has(s, b) && a != b
    ensures !IsSingle(s)
  {
    SingleRanges(s);
  }

  predicate IsSingle(s: RuneSet) { |s| == 1 && s[0].lo == s[0].hi }

  /** Between two ends of one character each lie the characters from the one to the other. */
  lemma SinglesRange(lo: RuneSet, hi: RuneSet, loEnd: End, hiEnd: End)
    requires IsSingle(lo) && IsSingle(hi) && (forall c :: Has(lo, c) <==> Ends(loEnd, c)) && (forall c :: Has(hi, c) <==> Ends(hiEnd, c))
    ensures forall c :: InMember(Range(loEnd, hiEnd), c) <==> lo[0].lo <= c <= hi[0].lo
  {
    SingleRanges(lo);
    SingleRanges(hi);
    assert Ends(loEnd, lo[0].lo) <==> Has(lo, lo[0].lo);
    assert Ends(hiEnd, hi[0].lo) <==> Has(hi, hi[0].lo);
  }

  // Where nothing can be read.

  ghost predicate NoMember(src: seq<int>, from: nat) { forall m, to :: !MemberReads(src, from, to, m) }

  ghost predicate NoAtom(src: seq<int>, from: nat) { forall a, to: nat :: !AtomReads(src, from, to, a) }

  ghost predicate NoClass(src: seq<int>, from: nat) {
    forall ms, to :: MembersRead(src, from, to, ms) ==> !At(src, to, CLOSE_CLASS)
  }

  /** No part is read there that keeps the rule. */
  ghost predicate NoPiece(src: seq<int>, from: nat) {
    forall p, to :: PieceReads(src, from, to, p) ==> !PieceKeepsRule(p)
  }

  ghost predicate NoBranch(src: seq<int>, from: nat) {
    forall ps, to :: PiecesRead(src, from, to, ps) && Stops(src, to) ==> !BranchKeepsRule(Branch(ps))
  }

  ghost predicate NoBranches(src: seq<int>, from: nat) {
    forall bs, to :: BranchesRead(src, from, to, bs) && !At(src, to, BAR) ==> !BranchesKeepRule(bs)
  }

  /** A class that cannot be read on was not there. */
  lemma StuckInClass(src: seq<int>, from: nat, at: nat, ms: seq<Member>)
    requires MembersRead(src, from, at, ms) && !At(src, at, CLOSE_CLASS) && NoMember(src, at)
    ensures NoClass(src, from)
  {
    forall ns, to | MembersRead(src, from, to, ns) ensures !At(src, to, CLOSE_CLASS) {
      if At(src, to, CLOSE_CLASS) {
        OneMembers(src, from, ms, at, ns, to);
      }
    }
  }

  lemma StuckInBranch(src: seq<int>, from: nat, at: nat, ps: seq<Piece>)
    requires PiecesRead(src, from, at, ps) && !Stops(src, at) && NoPiece(src, at)
    ensures NoBranch(src, from)
  {
    forall qs, to | PiecesRead(src, from, to, qs) && Stops(src, to) ensures !BranchKeepsRule(Branch(qs)) {
      OnePieces(src, from, ps, at, qs, to);
      var mid: nat :| PieceReads(src, at, mid, qs[|ps|..][0]);
      assert !PieceKeepsRule(qs[|ps|]);
    }
  }

  lemma OnlyBranch(src: seq<int>, from: nat, to: nat, ps: seq<Piece>)
    requires PiecesRead(src, from, to, ps) && Stops(src, to) && !BranchKeepsRule(Branch(ps))
    ensures NoBranch(src, from)
  {
    forall qs, end | PiecesRead(src, from, end, qs) && Stops(src, end) ensures !BranchKeepsRule(Branch(qs)) {
      OneBranch(src, from, ps, to, qs, end);
    }
  }

  lemma NoFirstBranch(src: seq<int>, from: nat)
    requires NoBranch(src, from)
    ensures NoBranches(src, from)
  {
    forall bs, to | BranchesRead(src, from, to, bs) ensures !BranchesKeepRule(bs) {
      var bar := FirstBranch(src, from, to, bs);
      assert !BranchKeepsRule(bs[0]);
    }
  }

  lemma StuckAtBar(src: seq<int>, from: nat, bar: nat, bs: seq<Branch>)
    requires BranchesRead(src, from, bar, bs) && At(src, bar, BAR) && NoBranch(src, bar + 1)
    ensures NoBranches(src, from)
  {
    forall cs, to | BranchesRead(src, from, to, cs) && !At(src, to, BAR) ensures !BranchesKeepRule(cs) {
      SameBranches(src, from, bs, bar, cs, to);
      var next := FirstBranch(src, bar + 1, to, cs[|bs|..]);
      assert !BranchKeepsRule(cs[|bs|]);
    }
  }

  lemma NoGroup(src: seq<int>, from: nat, quiet: bool)
    requires At(src, from, OPEN) && quiet == (At(src, from + 1, QUESTION) && At(src, from + 2, COLON))
    requires forall bs, to :: BranchesRead(src, from + if quiet then 3 else 1, to, bs) && At(src, to, CLOSE) ==> !BranchesKeepRule(bs)
    ensures NoPiece(src, from)
  {
    forall p, to | PieceReads(src, from, to, p) ensures !PieceKeepsRule(p) {
      var mid := AtomEnd(src, from, p, to);
      assert p.atom.Group? && BranchesRead(src, from + if quiet then 3 else 1, mid - 1, p.atom.branches);
      assert !BranchesKeepRule(p.atom.branches);
    }
  }

  /** Brackets that do not close hold no group. */
  lemma OpenBranches(src: seq<int>, from: nat, to: nat, bs: seq<Branch>)
    requires BranchesRead(src, from, to, bs) && !At(src, to, BAR) && !At(src, to, CLOSE)
    ensures forall cs, end :: BranchesRead(src, from, end, cs) ==> !At(src, end, CLOSE)
  {
    forall cs, end | BranchesRead(src, from, end, cs) ensures !At(src, end, CLOSE) {
      if At(src, end, CLOSE) {
        OneReading(src, from, bs, to, cs, end);
      }
    }
  }

  /** The digits from one place are exactly those up to another. */
  predicate IsRun(src: seq<int>, from: nat, end: nat) {
    from <= end <= |src| && (end < |src| ==> !IsDigit(src[end])) && forall i :: from <= i < end ==> IsDigit(src[i])
  }

  lemma RunEnds(src: seq<int>, from: nat, end: nat, ds: seq<int>)
    requires IsRun(src, from, end) && DigitsRead(src, from, ds) && from + |ds| < |src| && !IsDigit(src[from + |ds|])
    ensures from + |ds| == end
  {
    forall i | from <= i < from + |ds| ensures IsDigit(src[i]) {
      assert src[i] == ds[i - from];
    }
  }

  lemma FirstBound(src: seq<int>, from: nat, end: nat)
    requires At(src, from, OPEN_BRACE) && IsRun(src, from + 1, end)
    ensures forall r, to :: RepeatIs(src, from, to, r) ==> r.Bounds? && from + 1 < end && BoundsEnd(src, end, to, r.most)
  {
    forall r, to | RepeatIs(src, from, to, r) ensures from + 1 < end && BoundsEnd(src, end, to, r.most) {
      RunEnds(src, from + 1, end, r.least);
    }
  }

  lemma SecondBound(src: seq<int>, from: nat, end: nat)
    requires At(src, from, COMMA) && IsRun(src, from + 1, end) && !At(src, end, CLOSE_BRACE)
    ensures forall most, to :: !BoundsEnd(src, from, to, most)
  {
    forall most: Option<seq<int>>, to | most.Some? ensures !BoundsEnd(src, from, to, most) {
      if BoundsEnd(src, from, to, most) {
        RunEnds(src, from + 1, end, most.value);
      }
    }
  }

  class Reader {
    const src: seq<int>
    var pos: nat

    constructor (src: seq<int>)
      requires forall i :: 0 <= i < |src| ==> IsRune(src[i])
      ensures Valid() && this.src == src && pos == 0
    {
      this.src, pos := src, 0;
    }

    ghost predicate Valid()
      reads this
    {
      pos <= |src| && forall i :: 0 <= i < |src| ==> IsRune(src[i])
    }

    predicate Sees(c: int)
      reads this
    {
      At(src, pos, c)
    }

    /** The bounds in braces at the reader's place, if they are such. */
    method ReadBounds() returns (bounds: Option<Repeat>)
      requires Valid() && Sees(OPEN_BRACE)
      modifies this`pos
      ensures Valid()
      ensures match bounds
              case Some(b) => RepeatIs(src, old(pos), pos, b)
              case None => pos == old(pos) && forall r, to :: !RepeatIs(src, pos, to, r)
    {
      var first := Digits(pos + 1);
      FirstBound(src, pos, first);
      if first == pos + 1 || first >= |src| {
        return None;
      }
      var least := src[pos + 1..first];
      if src[first] == CLOSE_BRACE {
        pos := first + 1;
        return Some(Bounds(least, None));
      } else if src[first] != COMMA {
        return None;
      }
      var second := Digits(first + 1);
      if second >= |src| || src[second] != CLOSE_BRACE {
        SecondBound(src, first, second);
        return None;
      }
      pos := second + 1;
      return Some(Bounds(least, Some(src[first + 1..second])));
    }

    /** Where the digits from a place on end. */
    method Digits(from: nat) returns (end: nat)
      requires from <= |src|
      ensures IsRun(src, from, end)
    {
      end := from;
      while end < |src| && IsDigit(src[end])
        invariant from <= end <= |src| && forall i :: from <= i < end ==> IsDigit(src[i])
      {
        end := end + 1;
      }
    }

    method ReadRepeat() returns (r: Repeat)
      requires Valid()
      modifies this`pos
      ensures Valid() && RepeatReads(src, old(pos), pos, r)
    {
      if pos >= |src| {
        return Once;
      } else if src[pos] == OPEN_BRACE {
        var bounds := ReadBounds();
        return if bounds.Some? then bounds.value else Once;
      }
      r := if src[pos] == STAR then Star else if src[pos] == PLUS then Plus else if src[pos] == QUESTION then Opt else Once;
      if r != Once {
        pos := pos + 1;
      }
    }

    method ReadQuantifier() returns (q: Quantifier)
      requires Valid()
      modifies this`pos
      ensures Valid() && pos >= old(pos) && QuantifierReads(src, old(pos), pos, q)
    {
      var repeat := ReadRepeat();
      q := Quantifier(repeat, false);
      if repeat != Once && Sees(QUESTION) {
        q, pos := Quantifier(repeat, true), pos + 1;
      }
    }

    /** One end of a class member: a character or an escape. */
    method ReadEnd() returns (runes: RuneSet, end: End)
      requires Valid() && pos < |src| && src[pos] != CLOSE_CLASS
      modifies this`pos
      ensures Valid() && pos > old(pos) && EndReads(src, old(pos), pos, end)
      ensures IsCanonical(runes) && forall c :: Has(runes, c) <==> Ends(end, c)
      ensures match EndRune(end) case Some(r) => runes == [RuneRange(r, r)] case None => !IsSingle(runes)
    {
      var c := src[pos];
      pos := pos + 1;
      if c == BACKSLASH && pos < |src| {
        end := Escaped(src[pos]);
        runes := EscapedRunes(src[pos]);
        pos := pos + 1;
      } else {
        end, runes := Plain(c), [RuneRange(c, c)];
        SingleRanges(runes);
      }
    }

    method ReadMember() returns (runes: Result<RuneSet, Error>, ghost member: Member)
      requires Valid() && pos < |src| && src[pos] != CLOSE_CLASS
      modifies this`pos
      ensures Valid() && pos > old(pos)
      ensures match runes
              case Success(all) =>
                && MemberReads(src, old(pos), pos, member)
                && IsCanonical(all) && forall c :: Has(all, c) <==> InMember(member, c)
              case Failure(_) => NoMember(src, old(pos))
    {
      var lo, loEnd := ReadEnd();
      member := One(loEnd);
      if !IsSingle(lo) || !(pos + 1 < |src| && src[pos] == HYPHEN && src[pos + 1] != CLOSE_CLASS) {
        return Success(lo), member;
      }
      pos := pos + 1;
      var hi, hiEnd := ReadEnd();
      if !IsSingle(hi) {
        return Failure(EndsInClass), member;
      } else if hi[0].lo < lo[0].lo {
        return Failure(Disordered), member;
      }
      member := Range(loEnd, hiEnd);
      var range := [RuneRange(lo[0].lo, hi[0].lo)];
      SinglesRange(lo, hi, loEnd, hiEnd);
      SingleRanges(range);
      return Success(range), member;
    }

    /** The members of a class, up to what closes it or the end of the pattern. */
    method ReadMembers() returns (runes: Result<RuneSet, Error>, ghost members: seq<Member>)
      requires Valid()
      modifies this`pos
      ensures Valid() && pos >= old(pos)
      ensures match runes
              case Success(all) =>
                && MembersRead(src, old(pos), pos, members) && (pos < |src| ==> src[pos] == CLOSE_CLASS)
                && IsCanonical(all) && forall c :: Has(all, c) <==> InMembers(members, c)
              case Failure(_) => NoClass(src, old(pos))
    {
      var all: RuneSet := [];
      members := [];
      while pos < |src| && src[pos] != CLOSE_CLASS
        invariant Valid() && pos >= old(pos) && MembersRead(src, old(pos), pos, members)
        invariant IsCanonical(all) && forall c :: Has(all, c) <==> InMembers(members, c)
        decreases |src| - pos
      {
        ghost var before := pos;
        var member, m := ReadMember();
        if member.Failure? {
          StuckInClass(src, old(pos), before, members);
          return Failure(member.error), members;
        }
        all := UnionRunes(all, member.value);
        OneMoreMember(members, m);
        MemberAdded(src, old(pos), before, pos, members, m);
        members := members + [m];
      }
      return Success(all), members;
    }

    method ReadClass() returns (runes: Result<RuneSet, Error>, ghost read: Atom)
      requires Valid() && pos > 0 && src[pos - 1] == OPEN_CLASS
      modifies this`pos
      ensures Valid() && pos >= old(pos)
      ensures match runes
              case Success(all) =>
                && read.Class? && AtomReads(src, old(pos) - 1, pos, read)
                && IsCanonical(all) && forall c :: Has(all, c) <==> c in ClassRunes(read.negated, read.members)
              case Failure(_) => NoAtom(src, old(pos) - 1)
    {
      var negated := Sees(CARET);
      if negated {
        pos := pos + 1;
      }
      ghost var first := pos;
      var members, ms := ReadMembers();
      read := Class(negated, ms);
      if members.Failure? {
        return members, read;
      } else if pos >= |src| {
        StuckInClass(src, first, pos, ms);
        return Failure(OpenClass), read;
      }
      pos := pos + 1;
      var all := Chosen(negated, members.value, ms);
      return Success(all), read;
    }

    method ReadQuantified(runes: RuneSet, ghost meant: iset<int>) returns (items: seq<Item>, ghost q: Quantifier)
      requires Valid() && IsCanonical(runes) && forall c :: Has(runes, c) <==> c in meant
      modifies this`pos
      ensures Valid() && pos >= old(pos) && QuantifierReads(src, old(pos), pos, q) && MeanAll(items, Alone(q, meant))
    {
      var quantifier := ReadQuantifier();
      q := quantifier;
      items := [Item(runes, IsMandatory(quantifier.repeat), IsUnbounded(quantifier.repeat), false)];
    }

    /** A part that is no group: what it matches, and how often. */
    method ReadSimple() returns (items: Result<seq<Item>, Error>, ghost piece: Piece)
      requires Valid() && !Stops(src, pos) && src[pos] != OPEN
      modifies this`pos
      ensures Valid() && pos > old(pos)
      ensures match items
              case Success(all) => PieceIsRead(src, old(pos), pos, all, piece)
              case Failure(_) => NoPiece(src, old(pos))
    {
      var c := src[pos];
      pos := pos + 1;
      var runes: RuneSet;
      ghost var atom, meant;
      piece := Piece(Any, ONCE);
      if c == OPEN_CLASS {
        var members, read := ReadClass();
        if members.Failure? {
          return Failure(members.error), piece;
        }
        runes, atom, meant := members.value, read, ClassRunes(read.negated, read.members);
      } else if c == DOT {
        runes, atom, meant := [RuneRange(0, MAX_RUNE)], Any, iset r | IsRune(r);
        SingleRanges(runes);
      } else if c == CARET || c == DOLLAR {
        return Success([Item([], false, false, true)]), Piece(Anchor(c), ONCE);
      } else if c == BACKSLASH && pos < |src| {
        var escaped := src[pos];
        pos := pos + 1;
        if escaped == 'b' as int || escaped == 'B' as int {
          return Success([Item([], false, false, true)]), Piece(Boundary(escaped), ONCE);
        }
        runes := EscapedRunes(escaped);
        atom, meant := Escape(escaped), iset r | Escapes(escaped, r);
      } else {
        runes, atom, meant := [RuneRange(c, c)], Literal(c), iset{c};
        SingleRanges(runes);
      }
      ghost var end := pos;
      assert AtomReads(src, old(pos), end, atom);
      var quantified, q := ReadQuantified(runes, meant);
      piece := Piece(atom, q);
      return Success(quantified), piece;
    }

    // The recursive descent. Each method reads one level of the tree.

    method ReadAtom() returns (items: Result<seq<Item>, Error>, ghost piece: Piece)
      requires Valid() && !Stops(src, pos)
      modifies this`pos
      ensures Valid() && pos > old(pos)
      ensures match items
              case Success(all) => PieceIsRead(src, old(pos), pos, all, piece)
              case Failure(_) => NoPiece(src, old(pos))
      decreases |src| - pos, 0
    {
      if src[pos] == OPEN {
        pos := pos + 1;
        items, piece := ReadGroup();
      } else {
        items, piece := ReadSimple();
      }
    }

    /** A group, its bracket read: its branches, what closes it and how often it repeats. */
    method ReadGroup() returns (items: Result<seq<Item>, Error>, ghost piece: Piece)
      requires Valid() && 0 < pos && src[pos - 1] == OPEN
      modifies this`pos
      ensures Valid() && pos >= old(pos)
      ensures match items
              case Success(all) => PieceIsRead(src, old(pos) - 1, pos, all, piece)
              case Failure(_) => NoPiece(src, old(pos) - 1)
      decreases |src| - pos, 6
    {
      piece := Piece(Any, ONCE);
      var quiet := pos + 1 < |src| && src[pos] == QUESTION && src[pos + 1] == COLON;
      if quiet {
        pos := pos + 2;
      }
      ghost var first := pos;
      var branches, bs := ReadAlternation();
      if branches.Failure? {
        NoGroup(src, old(pos) - 1, quiet);
        return Failure(branches.error), piece;
      } else if !Sees(CLOSE) {
        OpenBranches(src, first, pos, bs);
        NoGroup(src, old(pos) - 1, quiet);
        return Failure(OpenGroup), piece;
      }
      pos := pos + 1;
      ghost var end := pos;
      assert AtomReads(src, old(pos) - 1, end, Group(quiet, bs));
      var q := ReadQuantifier();
      piece := Piece(Group(quiet, bs), q);
      var all := Grouped(q, branches.value, EachMeaning(bs));
      return Success(all), piece;
    }

    method ReadSequence() returns (items: Result<seq<Item>, Error>, ghost pieces: seq<Piece>)
      requires Valid()
      modifies this`pos
      ensures Valid() && pos >= old(pos)
      ensures match items
              case Success(all) =>
                ArePiecesRead(src, old(pos), pos, all, pieces) && Stops(src, pos) && BranchKeepsRule(Branch(pieces))
              case Failure(_) => NoBranch(src, old(pos))
      decreases |src| - pos, 3
    {
      var all: seq<Item> := [];
      pieces := [];
      while pos < |src| && src[pos] != BAR && src[pos] != CLOSE
        invariant Valid() && pos >= old(pos) && ArePiecesRead(src, old(pos), pos, all, pieces)
        decreases |src| - pos
      {
        var atom, piece := ReadNext(all, pieces, old(pos));
        if atom.Failure? {
          return Failure(atom.error), pieces;
        }
        all, pieces := all + atom.value, pieces + [piece];
      }
      var refused := Judge(all, PiecesMeaning(pieces));
      if refused {
        OnlyBranch(src, old(pos), pos, pieces);
        return Failure(Overlapping), pieces;
      }
      return Success(all), pieces;
    }

    /** The next part of a sequence. */
    method ReadNext(ghost all: seq<Item>, ghost pieces: seq<Piece>, ghost start: nat)
      returns (items: Result<seq<Item>, Error>, ghost piece: Piece)
      requires Valid() && !Stops(src, pos) && ArePiecesRead(src, start, pos, all, pieces)
      modifies this`pos
      ensures Valid() && pos > old(pos)
      ensures match items
              case Success(more) => ArePiecesRead(src, start, pos, all + more, pieces + [piece])
              case Failure(_) => NoBranch(src, start)
      decreases |src| - pos, 1
    {
      items, piece := ReadAtom();
      if items.Failure? {
        StuckInBranch(src, start, old(pos), pieces);
      } else {
        OneMoreRead(src, start, old(pos), pos, all, pieces, items.value, piece);
      }
    }

    /** Branches up to what closes their group, or the end of the pattern. */
    method ReadAlternation() returns (branches: Result<seq<seq<Item>>, Error>, ghost bs: seq<Branch>)
      requires Valid()
      modifies this`pos
      ensures Valid() && pos >= old(pos)
      ensures match branches
              case Success(all) => AreRead(src, old(pos), pos, all, bs) && !Sees(BAR)
              case Failure(_) => NoBranches(src, old(pos))
      decreases |src| - pos, 5
    {
      var first, pieces := ReadSequence();
      bs := [Branch(pieces)];
      if first.Failure? {
        NoFirstBranch(src, old(pos));
        return Failure(first.error), bs;
      }
      var all: seq<seq<Item>> := [first.value];
      OneMoreBranch([], Branch(pieces));
      while Sees(BAR)
        invariant Valid() && pos >= old(pos) && AreRead(src, old(pos), pos, all, bs)
        decreases |src| - pos
      {
        ghost var bar := pos;
        pos := pos + 1;
        var next, more := ReadSequence();
        if next.Failure? {
          StuckAtBar(src, old(pos), bar, bs);
          return Failure(next.error), bs;
        }
        BranchAdded(src, old(pos), bar, pos, bs, Branch(more));
        OneMoreBranch(bs, Branch(more));
        all, bs := all + [next.value], bs + [Branch(more)];
      }
      return Success(all), bs;
    }
  }

  /** A part is read between two places, means what its items say, and keeps the rule inside it. */
  ghost predicate PieceIsRead(src: seq<int>, from: nat, to: nat, items: seq<Item>, p: Piece) {
    PieceReads(src, from, to, p) && MeanAll(items, PieceMeaning(p)) && PieceKeepsRule(p)
  }

  ghost predicate ArePiecesRead(src: seq<int>, from: nat, to: nat, items: seq<Item>, ps: seq<Piece>) {
    PiecesRead(src, from, to, ps) && MeanAll(items, PiecesMeaning(ps)) && PiecesKeepRule(ps)
  }

  lemma OneMoreRead(src: seq<int>, from: nat, mid: nat, to: nat, items: seq<Item>, ps: seq<Piece>, more: seq<Item>, p: Piece)
    requires ArePiecesRead(src, from, mid, items, ps) && PieceIsRead(src, mid, to, more, p)
    ensures ArePiecesRead(src, from, to, items + more, ps + [p])
  {
    PieceAdded(src, from, mid, to, ps, p);
    OneMorePiece(ps, p);
  }

  ghost predicate AreRead(src: seq<int>, from: nat, to: nat, branches: seq<seq<Item>>, bs: seq<Branch>) {
    BranchesRead(src, from, to, bs) && MeanEach(branches, EachMeaning(bs)) && BranchesKeepRule(bs)
  }

  ghost predicate MeanEach(branches: seq<seq<Item>>, ms: seq<seq<Meaning>>) {
    |branches| == |ms| && forall i :: 0 <= i < |ms| ==> MeanAll(branches[i], ms[i])
  }

  method Judge(items: seq<Item>, ghost ms: seq<Meaning>) returns (refused: bool)
    requires MeanAll(items, ms)
    ensures refused <==> !KeepsRule(ms)
  {
    SameOverlaps(items, ms);
    assert AreItems(items) by {
      forall i | 0 <= i < |items| ensures IsCanonical(items[i].runes) {
        assert Means(items[i], ms[i]);
      }
    }
    refused := RefuseOverlappingItems(items);
  }

  /** A group's items: its only branch's, or one for all of it. */
  method Grouped(q: Quantifier, branches: seq<seq<Item>>, ghost ms: seq<seq<Meaning>>) returns (items: seq<Item>)
    requires branches != [] && MeanEach(branches, ms)
    ensures MeanAll(items, GroupMeaning(q, ms))
  {
    if |branches| == 1 && !IsUnbounded(q.repeat) {
      items := branches[0];
      if !IsMandatory(q.repeat) {
        items := seq(|items|, i requires 0 <= i < |items| => items[i].(mandatory := false));
        forall i | 0 <= i < |items| ensures Means(items[i], Optional(ms[0])[i]) {
          assert Means(branches[0][i], ms[0][i]);
        }
      }
      return;
    }
    var whole := Whole(q, branches, ms);
    items := [whole];
  }

  /** A branch more adds to what a group may match, and takes from what it must. */
  method AddBranch(sofar: Item, branch: seq<Item>, ghost ms: seq<Meaning>) returns (item: Item)
    requires IsCanonical(sofar.runes) && MeanAll(branch, ms)
    ensures IsCanonical(item.runes) && forall c :: Has(item.runes, c) <==> Has(sofar.runes, c) || c in Runes(ms)
    ensures item.mandatory == (sofar.mandatory && HoldsMandatory(ms)) && item.unbounded == (sofar.unbounded || AnyUnbounded(ms))
    ensures item.zeroWidth == (sofar.zeroWidth && NoneHasWidth(ms))
  {
    var runes, unbounded, zeroWidth, holds := sofar.runes, sofar.unbounded, sofar.zeroWidth, false;
    for j := 0 to |branch|
      invariant IsCanonical(runes) && forall c :: Has(runes, c) <==> Has(sofar.runes, c) || c in Runes(ms[..j])
      invariant unbounded == (sofar.unbounded || AnyUnbounded(ms[..j])) && zeroWidth == (sofar.zeroWidth && NoneHasWidth(ms[..j]))
      invariant holds == HoldsMandatory(ms[..j])
    {
      assert Means(branch[j], ms[j]);
      OneMoreMeaning(ms, j);
      runes := UnionRunes(runes, branch[j].runes);
      unbounded, zeroWidth := unbounded || branch[j].unbounded, zeroWidth && branch[j].zeroWidth;
      holds := holds || (branch[j].mandatory && !branch[j].zeroWidth);
    }
    assert ms[..|branch|] == ms;
    item := Item(runes, sofar.mandatory && holds, unbounded, zeroWidth);
  }

  method Whole(q: Quantifier, branches: seq<seq<Item>>, ghost ms: seq<seq<Meaning>>) returns (item: Item)
    requires MeanEach(branches, ms)
    ensures Means(item, Opaque(q, ms))
  {
    item := Item([], IsMandatory(q.repeat), IsUnbounded(q.repeat), true);
    for i := 0 to |branches|
      invariant Means(item, Opaque(q, ms[..i]))
    {
      assert MeanAll(branches[i], ms[i]);
      item := AddBranch(item, branches[i], ms[i]);
      OneMoreOfAll(q, ms, i);
    }
    assert ms[..|branches|] == ms;
  }

  /** The characters of a class, of which only its members are known. */
  method Chosen(negated: bool, members: RuneSet, ghost ms: seq<Member>) returns (all: RuneSet)
    requires IsCanonical(members) && forall c :: Has(members, c) <==> InMembers(ms, c)
    ensures IsCanonical(all) && forall c :: Has(all, c) <==> c in ClassRunes(negated, ms)
  {
    if negated {
      all := InvertRunes(members);
    } else {
      all := MergeRunes(members);
    }
  }

  /** Accepts a pattern exactly if it, up to its end or to a bracket that nothing opened, reads as a tree in which every
      branch at every level keeps the rule. */
  method RefuseOverlappingRepeats(src: seq<int>) returns (error: Option<Error>)
    requires forall i :: 0 <= i < |src| ==> IsRune(src[i])
    ensures error.None? <==> exists bs, end :: BranchesRead(src, 0, end, bs) && !At(src, end, BAR) && BranchesKeepRule(bs)
    ensures error.None? ==>
              exists bs, end :: BranchesRead(src, 0, end, bs) && !At(src, end, BAR) && forall i :: 0 <= i < |bs| ==> BranchIsUnambiguous(bs[i])
  {
    var reader := new Reader(src);
    var branches, bs := reader.ReadAlternation();
    assert branches.Success? ==> BranchesRead(src, 0, reader.pos, bs) && !At(src, reader.pos, BAR);
    assert branches.Failure? ==> NoBranches(src, 0);
    if branches.Success? {
      RuleIsSound(src, 0, reader.pos, bs);
    }
    error := if branches.Failure? then Some(branches.error) else None;
  }
}
