/** The grammar of the route patterns that `pkg/edge/ocelroutepattern.go` reads: which trees are read where, that a place
    reads as one tree at most, what a tree means, and the rule that bounds its ambiguity. */
module PatternTree {
  import opened Wrappers
  import opened RuneSets
  import opened RoutePattern

  /** A repetition as written: none, one of the three signs, or bounds in braces, of which the second may be empty. */
  datatype Repeat = Once | Star | Plus | Opt | Bounds(least: seq<int>, most: Option<seq<int>>)

  datatype Quantifier = Quantifier(repeat: Repeat, lazy: bool)

  datatype End = Plain(c: int) | Escaped(c: int)

  datatype Member = One(end: End) | Range(lo: End, hi: End)

  datatype Atom =
    | Literal(c: int)
    | Any
    | Anchor(c: int)
    | Boundary(c: int)
    | Escape(c: int)
    | Class(negated: bool, members: seq<Member>)
    | Group(quiet: bool, branches: seq<Branch>)

  datatype Piece = Piece(atom: Atom, quantifier: Quantifier)

  datatype Branch = Branch(pieces: seq<Piece>)

  const ONCE := Quantifier(Once, false)

  const STAR := '*' as int
  const PLUS := '+' as int
  const QUESTION := '?' as int
  const OPEN_BRACE := '{' as int
  const CLOSE_BRACE := '}' as int
  const COMMA := ',' as int
  const OPEN := '(' as int
  const CLOSE := ')' as int
  const OPEN_CLASS := '[' as int
  const CLOSE_CLASS := ']' as int
  const BAR := '|' as int
  const DOT := '.' as int
  const CARET := '^' as int
  const DOLLAR := '$' as int
  const BACKSLASH := '\\' as int
  const HYPHEN := '-' as int
  const COLON := ':' as int

  // Which tree is read between two places. What follows a tree matters: nothing is left that would have been read as
  // more of it.

  predicate At(src: seq<int>, place: nat, c: int) { place < |src| && src[place] == c }

  predicate IsDigit(c: int) { '0' as int <= c <= '9' as int }

  predicate DigitsRead(src: seq<int>, from: nat, ds: seq<int>) {
    from + |ds| <= |src| && src[from..from + |ds|] == ds && forall i :: 0 <= i < |ds| ==> IsDigit(ds[i])
  }

  /** A repetition is written between two places. */
  predicate RepeatIs(src: seq<int>, from: nat, to: nat, r: Repeat) {
    match r
    case Once => false
    case Star => At(src, from, STAR) && to == from + 1
    case Plus => At(src, from, PLUS) && to == from + 1
    case Opt => At(src, from, QUESTION) && to == from + 1
    case Bounds(least, most) =>
      && At(src, from, OPEN_BRACE) && least != [] && DigitsRead(src, from + 1, least)
      && BoundsEnd(src, from + 1 + |least|, to, most)
  }

  predicate BoundsEnd(src: seq<int>, from: nat, to: nat, most: Option<seq<int>>) {
    match most
    case None => At(src, from, CLOSE_BRACE) && to == from + 1
    case Some(ds) =>
      At(src, from, COMMA) && DigitsRead(src, from + 1, ds) && At(src, from + 1 + |ds|, CLOSE_BRACE) && to == from + |ds| + 2
  }

  /** None is read only where none is written. */
  ghost predicate RepeatReads(src: seq<int>, from: nat, to: nat, r: Repeat) {
    if r == Once then to == from && forall other, end :: !RepeatIs(src, from, end, other) else RepeatIs(src, from, to, r)
  }

  ghost predicate QuantifierReads(src: seq<int>, from: nat, to: nat, q: Quantifier) {
    if q.lazy then from < to && RepeatIs(src, from, to - 1, q.repeat) && At(src, to - 1, QUESTION)
    else RepeatReads(src, from, to, q.repeat) && (q.repeat != Once ==> !At(src, to, QUESTION))
  }

  predicate EndReads(src: seq<int>, from: nat, to: nat, e: End) {
    match e
    case Plain(c) => At(src, from, c) && to == from + 1 && c != CLOSE_CLASS && (c == BACKSLASH ==> to == |src|)
    case Escaped(c) => At(src, from, BACKSLASH) && At(src, from + 1, c) && to == from + 2
  }

  predicate RangeFollows(src: seq<int>, place: nat) {
    At(src, place, HYPHEN) && place + 1 < |src| && src[place + 1] != CLOSE_CLASS
  }

  /** The one character an end stands for, unless it is an escape for a class of them. */
  function EndRune(e: End): Option<int> {
    match e
    case Plain(c) => Some(c)
    case Escaped(c) =>
      if c == 'd' as int || c == 'D' as int || c == 'w' as int || c == 'W' as int then None
      else if c == 'n' as int then Some(10)
      else if c == 'r' as int then Some(13)
      else if c == 't' as int then Some(9)
      else Some(c)
  }

  predicate IsOrdered(lo: End, hi: End) {
    EndRune(lo).Some? && EndRune(hi).Some? && EndRune(lo).value <= EndRune(hi).value
  }

  ghost predicate MemberReads(src: seq<int>, from: nat, to: nat, m: Member) {
    match m
    case One(e) => EndReads(src, from, to, e) && (EndRune(e).Some? ==> !RangeFollows(src, to))
    case Range(lo, hi) =>
      IsOrdered(lo, hi) && exists mid: nat :: EndReads(src, from, mid, lo) && RangeFollows(src, mid) && EndReads(src, mid + 1, to, hi)
  }

  ghost predicate MembersRead(src: seq<int>, from: nat, to: nat, ms: seq<Member>)
    decreases ms
  {
    if ms == [] then from == to else exists mid: nat :: MemberReads(src, from, mid, ms[0]) && MembersRead(src, mid, to, ms[1..])
  }

  predicate IsPlainLiteral(c: int) {
    c != OPEN && c != OPEN_CLASS && c != DOT && c != CARET && c != DOLLAR && c != BAR && c != CLOSE
  }

  predicate IsBoundary(c: int) { c == 'b' as int || c == 'B' as int }

  ghost predicate AtomReads(src: seq<int>, from: nat, to: nat, a: Atom)
    decreases a
  {
    match a
    case Literal(c) => At(src, from, c) && to == from + 1 && IsPlainLiteral(c) && (c == BACKSLASH ==> to == |src|)
    case Any => At(src, from, DOT) && to == from + 1
    case Anchor(c) => At(src, from, c) && to == from + 1 && (c == CARET || c == DOLLAR)
    case Boundary(c) => At(src, from, BACKSLASH) && At(src, from + 1, c) && to == from + 2 && IsBoundary(c)
    case Escape(c) => At(src, from, BACKSLASH) && At(src, from + 1, c) && to == from + 2 && !IsBoundary(c)
    case Class(negated, members) =>
      && At(src, from, OPEN_CLASS) && negated == At(src, from + 1, CARET)
      && 0 < to && At(src, to - 1, CLOSE_CLASS) && MembersRead(src, from + if negated then 2 else 1, to - 1, members)
    case Group(quiet, branches) =>
      && At(src, from, OPEN) && quiet == (At(src, from + 1, QUESTION) && At(src, from + 2, COLON))
      && 0 < to && At(src, to - 1, CLOSE) && BranchesRead(src, from + if quiet then 3 else 1, to - 1, branches)
  }

  /** No quantifier is read after an anchor or a boundary. */
  ghost predicate PieceReads(src: seq<int>, from: nat, to: nat, p: Piece)
    decreases p
  {
    if p.atom.Anchor? || p.atom.Boundary? then p.quantifier == ONCE && AtomReads(src, from, to, p.atom)
    else exists mid: nat :: AtomReads(src, from, mid, p.atom) && QuantifierReads(src, mid, to, p.quantifier)
  }

  ghost predicate PiecesRead(src: seq<int>, from: nat, to: nat, ps: seq<Piece>)
    decreases ps
  {
    if ps == [] then from == to else exists mid: nat :: PieceReads(src, from, mid, ps[0]) && PiecesRead(src, mid, to, ps[1..])
  }

  /** A branch ends here. */
  predicate Stops(src: seq<int>, place: nat) { place >= |src| || src[place] == BAR || src[place] == CLOSE }

  ghost predicate BranchesRead(src: seq<int>, from: nat, to: nat, bs: seq<Branch>)
    decreases bs
  {
    && bs != [] && Stops(src, to)
    && if |bs| == 1 then PiecesRead(src, from, to, bs[0].pieces)
       else exists bar: nat :: PiecesRead(src, from, bar, bs[0].pieces) && At(src, bar, BAR) && BranchesRead(src, bar + 1, to, bs[1..])
  }

  // A place reads as one tree at most.

  lemma OneRepeat(src: seq<int>, from: nat, r: Repeat, to: nat, s: Repeat, end: nat)
    requires RepeatIs(src, from, to, r) && RepeatIs(src, from, end, s)
    ensures r == s && to == end
  {
    if r.Bounds? {
      OneRun(src, from + 1, r.least, s.least);
      if r.most.Some? {
        OneRun(src, from + 2 + |r.least|, r.most.value, s.most.value);
      }
    }
  }

  /** Digits read up to something else are all the digits there. */
  lemma OneRun(src: seq<int>, from: nat, ds: seq<int>, es: seq<int>)
    requires DigitsRead(src, from, ds) && from + |ds| < |src| && !IsDigit(src[from + |ds|])
    requires DigitsRead(src, from, es) && from + |es| < |src| && !IsDigit(src[from + |es|])
    ensures ds == es
  {
    forall i | from <= i < from + |ds| ensures IsDigit(src[i]) {
      assert src[i] == ds[i - from];
    }
    forall i | from <= i < from + |es| ensures IsDigit(src[i]) {
      assert src[i] == es[i - from];
    }
  }

  lemma OneQuantifier(src: seq<int>, from: nat, q: Quantifier, to: nat, r: Quantifier, end: nat)
    requires QuantifierReads(src, from, to, q) && QuantifierReads(src, from, end, r)
    ensures q == r && to == end
  {
    if q.repeat != Once && r.repeat != Once {
      OneRepeat(src, from, q.repeat, if q.lazy then to - 1 else to, r.repeat, if r.lazy then end - 1 else end);
    }
  }

  lemma OneMember(src: seq<int>, from: nat, m: Member, to: nat, n: Member, end: nat)
    requires MemberReads(src, from, to, m) && MemberReads(src, from, end, n)
    ensures m == n && to == end
  {
  }

  /** Members read up to where a class may go on are the first of those read up to where it closes. */
  lemma {:induction false} OneMembers(src: seq<int>, from: nat, ms: seq<Member>, to: nat, ns: seq<Member>, end: nat)
    requires MembersRead(src, from, to, ms) && MembersRead(src, from, end, ns) && At(src, end, CLOSE_CLASS)
    ensures |ms| <= |ns| && ms == ns[..|ms|] && MembersRead(src, to, end, ns[|ms|..])
    decreases ms
  {
    if ms != [] {
      var mid: nat :| MemberReads(src, from, mid, ms[0]) && MembersRead(src, mid, to, ms[1..]);
      if ns != [] {
        var other: nat :| MemberReads(src, from, other, ns[0]) && MembersRead(src, other, end, ns[1..]);
        OneMember(src, from, ms[0], mid, ns[0], other);
        OneMembers(src, mid, ms[1..], to, ns[1..], end);
        assert ns[1..][|ms| - 1..] == ns[|ms|..];
        assert ms == [ms[0]] + ms[1..] && ns[..|ms|] == [ns[0]] + ns[1..][..|ms| - 1];
      }
    }
  }

  lemma {:induction false} OneAtom(src: seq<int>, from: nat, a: Atom, to: nat, b: Atom, end: nat)
    requires AtomReads(src, from, to, a) && AtomReads(src, from, end, b)
    ensures a == b && to == end
    decreases a
  {
    if a.Class? && b.Class? {
      OneClass(src, from + if a.negated then 2 else 1, a.members, to - 1, b.members, end - 1);
    } else if a.Group? && b.Group? {
      OneReading(src, from + if a.quiet then 3 else 1, a.branches, to - 1, b.branches, end - 1);
    }
  }

  lemma OneClass(src: seq<int>, from: nat, ms: seq<Member>, to: nat, ns: seq<Member>, end: nat)
    requires MembersRead(src, from, to, ms) && MembersRead(src, from, end, ns) && At(src, to, CLOSE_CLASS) && At(src, end, CLOSE_CLASS)
    ensures ms == ns && to == end
  {
    OneMembers(src, from, ms, to, ns, end);
    OneMembers(src, from, ns, end, ms, to);
  }

  lemma {:induction false} OnePiece(src: seq<int>, from: nat, p: Piece, to: nat, q: Piece, end: nat)
    requires PieceReads(src, from, to, p) && PieceReads(src, from, end, q)
    ensures p == q && to == end
    decreases p
  {
    var mid := AtomEnd(src, from, p, to);
    var other := AtomEnd(src, from, q, end);
    OneAtom(src, from, p.atom, mid, q.atom, other);
    if !p.atom.Anchor? && !p.atom.Boundary? {
      OneQuantifier(src, mid, p.quantifier, to, q.quantifier, end);
    }
  }

  lemma AtomEnd(src: seq<int>, from: nat, p: Piece, to: nat) returns (mid: nat)
    requires PieceReads(src, from, to, p)
    ensures AtomReads(src, from, mid, p.atom) && !Stops(src, from)
    ensures if p.atom.Anchor? || p.atom.Boundary? then mid == to else QuantifierReads(src, mid, to, p.quantifier)
  {
    if p.atom.Anchor? || p.atom.Boundary? {
      mid := to;
    } else {
      mid :| AtomReads(src, from, mid, p.atom) && QuantifierReads(src, mid, to, p.quantifier);
    }
  }

  /** Parts read so far are the first of those of the whole branch, the rest of which is read from there. */
  lemma {:induction false} OnePieces(src: seq<int>, from: nat, ps: seq<Piece>, to: nat, qs: seq<Piece>, end: nat)
    requires PiecesRead(src, from, to, ps) && PiecesRead(src, from, end, qs) && Stops(src, end)
    ensures |ps| <= |qs| && ps == qs[..|ps|] && PiecesRead(src, to, end, qs[|ps|..])
    decreases ps, 0
  {
    if ps == [] {
      assert qs[0..] == qs;
    } else {
      var mid: nat :| PieceReads(src, from, mid, ps[0]) && PiecesRead(src, mid, to, ps[1..]);
      var _ := AtomEnd(src, from, ps[0], mid);
      var other: nat :| PieceReads(src, from, other, qs[0]) && PiecesRead(src, other, end, qs[1..]);
      OnePiece(src, from, ps[0], mid, qs[0], other);
      OnePieces(src, mid, ps[1..], to, qs[1..], end);
      assert qs[1..][|ps| - 1..] == qs[|ps|..];
      assert ps == [ps[0]] + ps[1..] && qs[..|ps|] == [qs[0]] + qs[1..][..|ps| - 1];
    }
  }

  /** A branch is one branch. */
  lemma OneBranch(src: seq<int>, from: nat, ps: seq<Piece>, to: nat, qs: seq<Piece>, end: nat)
    requires PiecesRead(src, from, to, ps) && PiecesRead(src, from, end, qs) && Stops(src, to) && Stops(src, end)
    ensures ps == qs && to == end
    decreases ps, 1
  {
    OnePieces(src, from, ps, to, qs, end);
    if |ps| < |qs| {
      var mid: nat :| PieceReads(src, to, mid, qs[|ps|..][0]);
      var _ := AtomEnd(src, to, qs[|ps|], mid);
    }
  }

  /** The first of some branches, and what is read after it. */
  lemma FirstBranch(src: seq<int>, from: nat, to: nat, bs: seq<Branch>) returns (bar: nat)
    requires BranchesRead(src, from, to, bs)
    ensures PiecesRead(src, from, bar, bs[0].pieces) && Stops(src, bar)
    ensures if |bs| == 1 then bar == to else At(src, bar, BAR) && BranchesRead(src, bar + 1, to, bs[1..])
  {
    if |bs| == 1 {
      bar := to;
    } else {
      bar :| PiecesRead(src, from, bar, bs[0].pieces) && At(src, bar, BAR) && BranchesRead(src, bar + 1, to, bs[1..]);
    }
  }

  /** Branches read so far are the first of those up to a place with no more, the rest of which follow a bar. */
  lemma {:induction false} SameBranches(src: seq<int>, from: nat, bs: seq<Branch>, to: nat, cs: seq<Branch>, end: nat)
    requires BranchesRead(src, from, to, bs) && BranchesRead(src, from, end, cs) && !At(src, end, BAR)
    ensures |bs| <= |cs| && bs == cs[..|bs|]
    ensures if |bs| == |cs| then to == end else At(src, to, BAR) && BranchesRead(src, to + 1, end, cs[|bs|..])
    decreases bs, 0
  {
    var bar := FirstBranch(src, from, to, bs);
    var other := FirstBranch(src, from, end, cs);
    OneBranch(src, from, bs[0].pieces, bar, cs[0].pieces, other);
    assert bs[0] == cs[0];
    if |bs| > 1 {
      SameBranches(src, bar + 1, bs[1..], to, cs[1..], end);
      assert cs[1..][|bs| - 1..] == cs[|bs|..];
      assert bs == [bs[0]] + bs[1..] && cs[..|bs|] == [cs[0]] + cs[1..][..|bs| - 1];
    }
  }

  lemma OneReading(src: seq<int>, from: nat, bs: seq<Branch>, to: nat, cs: seq<Branch>, end: nat)
    requires BranchesRead(src, from, to, bs) && BranchesRead(src, from, end, cs) && !At(src, to, BAR) && !At(src, end, BAR)
    ensures bs == cs && to == end
    decreases bs, 1
  {
    SameBranches(src, from, bs, to, cs, end);
  }

  // Reading on.

  lemma {:induction false} MemberAdded(src: seq<int>, from: nat, mid: nat, to: nat, ms: seq<Member>, m: Member)
    requires MembersRead(src, from, mid, ms) && MemberReads(src, mid, to, m)
    ensures MembersRead(src, from, to, ms + [m])
    decreases ms
  {
    if ms == [] {
      assert ms + [m] == [m] && MembersRead(src, to, to, [m][1..]);
    } else {
      var next: nat :| MemberReads(src, from, next, ms[0]) && MembersRead(src, next, mid, ms[1..]);
      MemberAdded(src, next, mid, to, ms[1..], m);
      assert (ms + [m])[1..] == ms[1..] + [m];
    }
  }

  lemma {:induction false} PieceAdded(src: seq<int>, from: nat, mid: nat, to: nat, ps: seq<Piece>, p: Piece)
    requires PiecesRead(src, from, mid, ps) && PieceReads(src, mid, to, p)
    ensures PiecesRead(src, from, to, ps + [p])
    decreases ps
  {
    if ps == [] {
      assert ps + [p] == [p] && PiecesRead(src, to, to, [p][1..]);
    } else {
      var next: nat :| PieceReads(src, from, next, ps[0]) && PiecesRead(src, next, mid, ps[1..]);
      PieceAdded(src, next, mid, to, ps[1..], p);
      assert (ps + [p])[1..] == ps[1..] + [p];
    }
  }

  lemma {:induction false} BranchAdded(src: seq<int>, from: nat, bar: nat, to: nat, bs: seq<Branch>, b: Branch)
    requires BranchesRead(src, from, bar, bs) && At(src, bar, BAR) && PiecesRead(src, bar + 1, to, b.pieces) && Stops(src, to)
    ensures BranchesRead(src, from, to, bs + [b])
    decreases bs
  {
    var next := FirstBranch(src, from, bar, bs);
    assert (bs + [b])[1..] == bs[1..] + [b];
    if |bs| > 1 {
      BranchAdded(src, next + 1, bar, to, bs[1..], b);
    }
  }

  // What a pattern means: for each part in turn, the characters it may match and how often.

  /** An item, with the characters it stands for themselves. */
  datatype Meaning = Meaning(runes: iset<int>, mandatory: bool, unbounded: bool, zeroWidth: bool)

  ghost predicate Means(item: Item, m: Meaning) {
    && IsCanonical(item.runes) && (forall c :: Has(item.runes, c) <==> c in m.runes)
    && item.mandatory == m.mandatory && item.unbounded == m.unbounded && item.zeroWidth == m.zeroWidth
  }

  ghost predicate MeanAll(items: seq<Item>, ms: seq<Meaning>) {
    |items| == |ms| && forall i :: 0 <= i < |items| ==> Means(items[i], ms[i])
  }

  predicate IsMandatory(r: Repeat) {
    match r
    case Once => true
    case Plus => true
    case Bounds(least, _) => exists i :: 0 <= i < |least| && least[i] != '0' as int
    case _ => false
  }

  predicate IsUnbounded(r: Repeat) { r == Star || r == Plus || (r.Bounds? && r.most == Some([])) }

  // How often a part may be matched.

  /** The number that digits stand for. */
  function Value(ds: seq<int>): int {
    if ds == [] then 0 else Value(ds[..|ds| - 1]) * 10 + (ds[|ds| - 1] - '0' as int)
  }

  /** A part repeated so may be matched this many times. */
  predicate Allows(r: Repeat, n: nat) {
    match r
    case Once => n == 1
    case Star => true
    case Plus => n > 0
    case Opt => n < 2
    case Bounds(least, None) => n == Value(least)
    case Bounds(least, Some(most)) => Value(least) <= n && (most == [] || n <= Value(most))
  }

  /** It may not be matched more often than some number of times. */
  ghost predicate IsLimited(r: Repeat) { exists most: nat :: IsMost(r, most) }

  ghost predicate IsMost(r: Repeat, most: nat) { forall n: nat :: Allows(r, n) ==> n <= most }

  ghost predicate GoesPast(r: Repeat, n: nat) { exists m: nat :: m > n && Allows(r, m) }

  /** The digits of its bounds are digits. */
  predicate IsRepeat(r: Repeat) {
    r.Bounds? ==> AreDigits(r.least) && (r.most.Some? ==> AreDigits(r.most.value))
  }

  predicate AreDigits(ds: seq<int>) { forall i :: 0 <= i < |ds| ==> IsDigit(ds[i]) }

  lemma {:induction false} ZerosAreNothing(ds: seq<int>)
    requires AreDigits(ds)
    ensures Value(ds) >= 0 && (Value(ds) > 0 <==> exists i :: 0 <= i < |ds| && ds[i] != '0' as int)
  {
    if ds != [] {
      ZerosAreNothing(ds[..|ds| - 1]);
    }
  }

  /** Unbounded is what may be matched more often than any number of times, and mandatory what may not be left out. */
  lemma CountsOf(r: Repeat)
    requires IsRepeat(r)
    ensures IsUnbounded(r) <==> !IsLimited(r)
    ensures IsUnbounded(r) <==> forall n: nat :: GoesPast(r, n)
    ensures IsMandatory(r) <==> !Allows(r, 0)
  {
    if r.Bounds? {
      ZerosAreNothing(r.least);
      if r.most.Some? {
        ZerosAreNothing(r.most.value);
      }
    }
    if IsUnbounded(r) {
      var least := if r.Bounds? then Value(r.least) else 1;
      forall n: nat ensures GoesPast(r, n) && !IsMost(r, n) {
        assert n + 1 + least > n && Allows(r, n + 1 + least);
      }
    } else {
      var most := if !r.Bounds? then 1 else if r.most.None? then Value(r.least) else Value(r.most.value);
      assert IsMost(r, most) && !GoesPast(r, most);
    }
  }

  predicate IsRune(c: int) { 0 <= c <= MAX_RUNE }

  predicate IsWordRune(c: int) {
    '0' as int <= c <= '9' as int || 'A' as int <= c <= 'Z' as int || c == '_' as int || 'a' as int <= c <= 'z' as int
  }

  /** What an escape stands for. */
  predicate Escapes(escaped: int, c: int) {
    if escaped == 'd' as int then '0' as int <= c <= '9' as int
    else if escaped == 'D' as int then IsRune(c) && !('0' as int <= c <= '9' as int)
    else if escaped == 'w' as int then IsWordRune(c)
    else if escaped == 'W' as int then IsRune(c) && !IsWordRune(c)
    else if escaped == 'n' as int then c == 10
    else if escaped == 'r' as int then c == 13
    else if escaped == 't' as int then c == 9
    else c == escaped
  }

  predicate Ends(e: End, c: int) {
    match e
    case Plain(p) => c == p
    case Escaped(p) => Escapes(p, c)
  }

  /** A member is its end, or every character from its first end to its last. */
  ghost predicate InMember(m: Member, c: int) {
    match m
    case One(end) => Ends(end, c)
    case Range(lo, hi) => exists a, b :: Ends(lo, a) && Ends(hi, b) && a <= c <= b
  }

  ghost predicate InMembers(ms: seq<Member>, c: int) {
    exists i :: 0 <= i < |ms| && InMember(ms[i], c)
  }

  ghost function Alone(q: Quantifier, runes: iset<int>): seq<Meaning> {
    [Meaning(runes, IsMandatory(q.repeat), IsUnbounded(q.repeat), false)]
  }

  const NO_WIDTH := Meaning(iset{}, false, false, true)

  ghost function Optional(ms: seq<Meaning>): seq<Meaning> {
    seq(|ms|, i requires 0 <= i < |ms| => ms[i].(mandatory := false))
  }

  ghost predicate HoldsMandatory(ms: seq<Meaning>) {
    exists i :: 0 <= i < |ms| && ms[i].mandatory && !ms[i].zeroWidth
  }

  ghost predicate AnyUnbounded(ms: seq<Meaning>) {
    exists j :: 0 <= j < |ms| && ms[j].unbounded
  }

  ghost predicate NoneHasWidth(ms: seq<Meaning>) {
    forall j :: 0 <= j < |ms| ==> ms[j].zeroWidth
  }

  ghost function Runes(ms: seq<Meaning>): iset<int> { iset c, i | 0 <= i < |ms| && c in ms[i].runes :: c }

  /** A repeated or branching group is one item of all its characters, required if each branch requires one. */
  ghost function Opaque(q: Quantifier, branches: seq<seq<Meaning>>): Meaning {
    Meaning(iset c, i | 0 <= i < |branches| && c in Runes(branches[i]) :: c,
            IsMandatory(q.repeat) && forall i :: 0 <= i < |branches| ==> HoldsMandatory(branches[i]),
            IsUnbounded(q.repeat) || exists i :: 0 <= i < |branches| && AnyUnbounded(branches[i]),
            forall i :: 0 <= i < |branches| ==> NoneHasWidth(branches[i]))
  }

  ghost function PieceMeaning(p: Piece): seq<Meaning>
    decreases p
  {
    match p.atom
    case Literal(c) => Alone(p.quantifier, iset{c})
    case Any => Alone(p.quantifier, iset c | IsRune(c))
    case Anchor(_) => [NO_WIDTH]
    case Boundary(_) => [NO_WIDTH]
    case Escape(e) => Alone(p.quantifier, iset c | Escapes(e, c))
    case Class(negated, members) =>
      Alone(p.quantifier, ClassRunes(negated, members))
    case Group(_, branches) => GroupMeaning(p.quantifier, EachMeaning(branches))
  }

  ghost function GroupMeaning(q: Quantifier, branches: seq<seq<Meaning>>): seq<Meaning> {
    if |branches| == 1 && !IsUnbounded(q.repeat) then if IsMandatory(q.repeat) then branches[0] else Optional(branches[0])
    else [Opaque(q, branches)]
  }

  ghost function PiecesMeaning(ps: seq<Piece>): seq<Meaning>
    decreases ps
  {
    if ps == [] then [] else PiecesMeaning(ps[..|ps| - 1]) + PieceMeaning(ps[|ps| - 1])
  }

  ghost function EachMeaning(bs: seq<Branch>): (ms: seq<seq<Meaning>>)
    ensures |ms| == |bs|
    decreases bs
  {
    if bs == [] then [] else EachMeaning(bs[..|bs| - 1]) + [PiecesMeaning(bs[|bs| - 1].pieces)]
  }

  ghost function ClassRunes(negated: bool, members: seq<Member>): iset<int> {
    iset c | if negated then IsRune(c) && !InMembers(members, c) else InMembers(members, c)
  }

  // The rule, at every level of the tree.

  ghost predicate MeaningsOverlap(ms: seq<Meaning>, i: nat, j: nat) {
    && i < j < |ms| && ms[i].unbounded && !ms[i].zeroWidth && ms[j].unbounded && !ms[j].zeroWidth
    && ms[i].runes * ms[j].runes != iset{}
    && !(exists k :: i < k < j && ms[k].mandatory && !ms[k].zeroWidth && ms[k].runes * (ms[i].runes * ms[j].runes) == iset{})
  }

  ghost predicate KeepsRule(ms: seq<Meaning>) {
    forall i: nat, j: nat :: !MeaningsOverlap(ms, i, j)
  }

  ghost predicate BranchesKeepRule(bs: seq<Branch>)
    decreases bs
  {
    forall i :: 0 <= i < |bs| ==> BranchKeepsRule(bs[i])
  }

  ghost predicate BranchKeepsRule(b: Branch)
    decreases b
  {
    PiecesKeepRule(b.pieces) && KeepsRule(PiecesMeaning(b.pieces))
  }

  ghost predicate PiecesKeepRule(ps: seq<Piece>)
    decreases ps
  {
    forall i :: 0 <= i < |ps| ==> PieceKeepsRule(ps[i])
  }

  ghost predicate PieceKeepsRule(p: Piece)
    decreases p
  {
    p.atom.Group? ==> BranchesKeepRule(p.atom.branches)
  }

  lemma SameOverlaps(items: seq<Item>, ms: seq<Meaning>)
    requires MeanAll(items, ms)
    ensures (exists i: nat, j: nat :: Overlap(items, i, j)) <==> !KeepsRule(ms)
  {
    forall i: nat, j: nat ensures Overlap(items, i, j) <==> MeaningsOverlap(ms, i, j) {
      if i < j < |items| {
        SameOverlap(items, ms, i, j);
      }
    }
  }

  lemma SameOverlap(items: seq<Item>, ms: seq<Meaning>, i: nat, j: nat)
    requires MeanAll(items, ms) && i < j < |items|
    ensures Overlap(items, i, j) <==> MeaningsOverlap(ms, i, j)
  {
    var x, y := items[i].runes, items[j].runes;
    var both := ms[i].runes * ms[j].runes;
    assert Means(items[i], ms[i]) && Means(items[j], ms[j]);
    assert forall c :: Share(x, y, c) <==> c in both;
    assert (exists c :: Share(x, y, c)) <==> both != iset{} by {
      if forall c :: c !in both {
        assert both == iset{};
      }
    }
    forall k | i < k < j
      ensures Separates(items[k], x, y) <==> ms[k].mandatory && !ms[k].zeroWidth && ms[k].runes * both == iset{}
    {
      assert Means(items[k], ms[k]);
      if Separates(items[k], x, y) {
        assert forall c :: c in both ==> c !in ms[k].runes;
      } else if items[k].mandatory && !items[k].zeroWidth {
        var c :| Share(x, y, c) && Has(items[k].runes, c);
        assert c in ms[k].runes * both;
      }
    }
  }

  // One part, or one branch, more.

  lemma OneMorePiece(ps: seq<Piece>, p: Piece)
    ensures PiecesMeaning(ps + [p]) == PiecesMeaning(ps) + PieceMeaning(p)
  {
    assert (ps + [p])[..|ps|] == ps;
  }

  lemma OneMoreBranch(bs: seq<Branch>, b: Branch)
    ensures EachMeaning(bs + [b]) == EachMeaning(bs) + [PiecesMeaning(b.pieces)]
  {
    assert (bs + [b])[..|bs|] == bs;
  }

  lemma OneMoreMember(ms: seq<Member>, m: Member)
    ensures forall c :: InMembers(ms + [m], c) <==> InMembers(ms, c) || InMember(m, c)
  {
    var more := ms + [m];
    forall c ensures InMembers(more, c) <==> InMembers(ms, c) || InMember(m, c) {
      if InMembers(ms, c) {
        var i :| 0 <= i < |ms| && InMember(ms[i], c);
        assert more[i] == ms[i];
      }
      if InMember(m, c) {
        assert more[|ms|] == m;
      }
    }
  }

  lemma OneMoreMeaning(ms: seq<Meaning>, j: nat)
    requires j < |ms|
    ensures forall c :: c in Runes(ms[..j + 1]) <==> c in Runes(ms[..j]) || c in ms[j].runes
    ensures AnyUnbounded(ms[..j + 1]) <==> AnyUnbounded(ms[..j]) || ms[j].unbounded
    ensures NoneHasWidth(ms[..j + 1]) <==> NoneHasWidth(ms[..j]) && ms[j].zeroWidth
    ensures HoldsMandatory(ms[..j + 1]) <==> HoldsMandatory(ms[..j]) || (ms[j].mandatory && !ms[j].zeroWidth)
  {
    var less, more := ms[..j], ms[..j + 1];
    assert more[j] == ms[j] && forall i :: 0 <= i < j ==> less[i] == more[i];
    forall c ensures c in Runes(more) <==> c in Runes(less) || c in ms[j].runes {
      if c in Runes(less) {
        var i :| 0 <= i < j && c in less[i].runes;
        assert c in more[i].runes;
      }
      if c in ms[j].runes {
        assert c in more[j].runes;
      }
    }
    if AnyUnbounded(less) {
      var i :| 0 <= i < j && less[i].unbounded;
      assert more[i].unbounded;
    }
    if HoldsMandatory(less) {
      var i :| 0 <= i < j && less[i].mandatory && !less[i].zeroWidth;
      assert more[i].mandatory;
    }
  }

  lemma OneMoreOfAll(q: Quantifier, ms: seq<seq<Meaning>>, i: nat)
    requires i < |ms|
    ensures var less, more := Opaque(q, ms[..i]), Opaque(q, ms[..i + 1]);
            && (forall c :: c in more.runes <==> c in less.runes || c in Runes(ms[i]))
            && more.mandatory == (less.mandatory && HoldsMandatory(ms[i]))
            && more.unbounded == (less.unbounded || AnyUnbounded(ms[i]))
            && more.zeroWidth == (less.zeroWidth && NoneHasWidth(ms[i]))
  {
    var less, more := ms[..i], ms[..i + 1];
    assert more[i] == ms[i] && forall k :: 0 <= k < i ==> less[k] == more[k];
    var a, b := Opaque(q, less), Opaque(q, more);
    forall c ensures c in b.runes <==> c in a.runes || c in Runes(ms[i]) {
      if c in a.runes {
        var k :| 0 <= k < i && c in Runes(less[k]);
        assert c in Runes(more[k]);
      }
      if c in Runes(ms[i]) {
        assert c in Runes(more[i]);
      }
    }
    assert forall k :: 0 <= k < i ==> HoldsMandatory(less[k]) == HoldsMandatory(more[k]);
    assert HoldsMandatory(more[i]) == HoldsMandatory(ms[i]);
    assert forall k :: 0 <= k < i ==> AnyUnbounded(less[k]) == AnyUnbounded(more[k]);
    assert AnyUnbounded(more[i]) == AnyUnbounded(ms[i]);
  }
}
