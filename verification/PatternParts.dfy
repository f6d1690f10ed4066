/** What the rule of `pkg/edge/ocelroutepattern.go` means for the parts of a pattern: how often each may be matched, which
    characters it may match, and whether it may be left out. */
module PatternParts {
  import opened Wrappers
  import opened RuneSets
  import opened RoutePattern
  import opened PatternTree

  predicate IsPlace(a: Atom) { a.Anchor? || a.Boundary? }

  /** The characters that a piece may match. */
  ghost predicate MayMatch(p: Piece, c: int)
    decreases p
  {
    match p.atom
    case Literal(literal) => c == literal
    case Any => IsRune(c)
    case Anchor(_) => false
    case Boundary(_) => false
    case Escape(e) => Escapes(e, c)
    case Class(negated, members) => if negated then IsRune(c) && !InMembers(members, c) else InMembers(members, c)
    case Group(_, branches) => exists i, k :: 0 <= i < |branches| && 0 <= k < |branches[i].pieces| && MayMatch(branches[i].pieces[k], c)
  }

  /** Some match of the piece has a character, as far as its pieces tell. */
  ghost predicate HasWidth(p: Piece)
    decreases p
  {
    if p.atom.Group?
    then exists i, k :: 0 <= i < |p.atom.branches| && 0 <= k < |p.atom.branches[i].pieces| && HasWidth(p.atom.branches[i].pieces[k])
    else !IsPlace(p.atom)
  }

  /** The piece, or one inside it, may be matched any number of times. */
  ghost predicate GoesOn(p: Piece)
    decreases p
  {
    && !IsPlace(p.atom)
    && (!IsLimited(p.quantifier.repeat)
        || (p.atom.Group?
            && exists i, k :: 0 <= i < |p.atom.branches| && 0 <= k < |p.atom.branches[i].pieces| && GoesOn(p.atom.branches[i].pieces[k])))
  }

  /** Every match of the piece has a character. */
  ghost predicate IsNeeded(p: Piece)
    decreases p
  {
    && !IsPlace(p.atom) && !Allows(p.quantifier.repeat, 0)
    && (p.atom.Group? ==> forall i :: 0 <= i < |p.atom.branches| ==> HoldsNeeded(p.atom.branches[i]))
  }

  ghost predicate HoldsNeeded(b: Branch)
    decreases b
  {
    exists k :: 0 <= k < |b.pieces| && IsNeeded(b.pieces[k])
  }

  /** The parts of a sequence, in turn. A group of one branch whose count is limited is no part of its own: its pieces are, and
      may be left out if it may. */
  datatype Part = Part(piece: Piece, optional: bool)

  ghost predicate IsTransparent(p: Piece) { p.atom.Group? && |p.atom.branches| == 1 && IsLimited(p.quantifier.repeat) }

  ghost function PartsOf(p: Piece): seq<Part>
    decreases p
  {
    if IsTransparent(p) then Loosened(AllParts(p.atom.branches[0].pieces), Allows(p.quantifier.repeat, 0)) else [Part(p, false)]
  }

  ghost function AllParts(ps: seq<Piece>): seq<Part>
    decreases ps
  {
    if ps == [] then [] else AllParts(ps[..|ps| - 1]) + PartsOf(ps[|ps| - 1])
  }

  ghost function Loosened(parts: seq<Part>, optional: bool): (loosened: seq<Part>)
    ensures |loosened| == |parts|
  {
    seq(|parts|, i requires 0 <= i < |parts| => parts[i].(optional := parts[i].optional || optional))
  }

  /** Both parts may be matched any number of times, and match a character in common. */
  ghost predicate Compete(a: Part, b: Part) {
    GoesOn(a.piece) && HasWidth(a.piece) && GoesOn(b.piece) && HasWidth(b.piece) && exists c :: BothMatch(a, b, c)
  }

  ghost predicate BothMatch(a: Part, b: Part, c: int) { MayMatch(a.piece, c) && MayMatch(b.piece, c) }

  /** A part that may not be left out, and matches no character that both of these do. */
  ghost predicate Parts(part: Part, a: Part, b: Part) {
    !part.optional && IsNeeded(part.piece) && forall c :: BothMatch(a, b, c) ==> !MayMatch(part.piece, c)
  }

  ghost predicate AreParted(parts: seq<Part>, i: nat, j: nat)
    requires i < j < |parts|
  {
    Compete(parts[i], parts[j]) ==> exists k :: i < k < j && Parts(parts[k], parts[i], parts[j])
  }

  ghost predicate AllParted(parts: seq<Part>) {
    forall i, j :: 0 <= i < j < |parts| ==> AreParted(parts, i, j)
  }

  /** In every sequence of the tree, parts that compete are parted. */
  ghost predicate BranchIsUnambiguous(b: Branch)
    decreases b
  {
    AllParted(AllParts(b.pieces)) && forall i :: 0 <= i < |b.pieces| ==> PieceIsUnambiguous(b.pieces[i])
  }

  ghost predicate PieceIsUnambiguous(p: Piece)
    decreases p
  {
    p.atom.Group? ==> forall i :: 0 <= i < |p.atom.branches| ==> BranchIsUnambiguous(p.atom.branches[i])
  }

  // The parts have the meanings that the rule is checked on.

  /** The digits of every bound in it are digits. */
  ghost predicate HasDigits(p: Piece)
    decreases p
  {
    && IsRepeat(p.quantifier.repeat)
    && (p.atom.Group? ==> p.atom.branches != [] && forall i :: 0 <= i < |p.atom.branches| ==> BranchHasDigits(p.atom.branches[i]))
  }

  ghost predicate BranchHasDigits(b: Branch)
    decreases b
  {
    forall k :: 0 <= k < |b.pieces| ==> HasDigits(b.pieces[k])
  }

  /** What a part means covers what it is: it matches what the part does, goes on if the part does, and is required only if the part
      is needed. */
  ghost predicate Covers(m: Meaning, part: Part) {
    && (forall c :: c in m.runes <==> MayMatch(part.piece, c))
    && (GoesOn(part.piece) ==> m.unbounded) && (HasWidth(part.piece) ==> !m.zeroWidth)
    && (m.mandatory && !m.zeroWidth ==> !part.optional && IsNeeded(part.piece))
  }

  ghost predicate CoverAll(ms: seq<Meaning>, parts: seq<Part>) {
    |ms| == |parts| && forall i {:trigger Covers(ms[i], parts[i])} :: 0 <= i < |ms| ==> Covers(ms[i], parts[i])
  }

  /** What the meanings of a piece say of it as a whole. */
  ghost predicate Sums(ms: seq<Meaning>, p: Piece) {
    && (forall c :: c in Runes(ms) <==> MayMatch(p, c))
    && (GoesOn(p) ==> AnyUnbounded(ms)) && (HasWidth(p) ==> !NoneHasWidth(ms)) && (HoldsMandatory(ms) ==> IsNeeded(p))
  }

  ghost predicate SumsAll(ms: seq<Meaning>, b: Branch) {
    && (forall c :: c in Runes(ms) <==> exists k :: 0 <= k < |b.pieces| && MayMatch(b.pieces[k], c))
    && ((exists k :: 0 <= k < |b.pieces| && GoesOn(b.pieces[k])) ==> AnyUnbounded(ms))
    && ((exists k :: 0 <= k < |b.pieces| && HasWidth(b.pieces[k])) ==> !NoneHasWidth(ms))
    && (HoldsMandatory(ms) ==> HoldsNeeded(b))
  }

  lemma Joined(ms: seq<Meaning>, ns: seq<Meaning>)
    ensures forall c :: c in Runes(ms + ns) <==> c in Runes(ms) || c in Runes(ns)
    ensures AnyUnbounded(ms + ns) <==> AnyUnbounded(ms) || AnyUnbounded(ns)
    ensures NoneHasWidth(ms + ns) <==> NoneHasWidth(ms) && NoneHasWidth(ns)
    ensures HoldsMandatory(ms + ns) <==> HoldsMandatory(ms) || HoldsMandatory(ns)
  {
    var all := ms + ns;
    assert forall i :: 0 <= i < |ms| ==> all[i] == ms[i];
    assert forall i :: 0 <= i < |ns| ==> all[|ms| + i] == ns[i];
    forall c ensures c in Runes(all) <==> c in Runes(ms) || c in Runes(ns) {
      if c in Runes(ms) {
        var i :| 0 <= i < |ms| && c in ms[i].runes;
        assert c in all[i].runes;
      }
      if c in Runes(ns) {
        var i :| 0 <= i < |ns| && c in ns[i].runes;
        assert c in all[|ms| + i].runes;
      }
    }
    if AnyUnbounded(ms) {
      var i :| 0 <= i < |ms| && ms[i].unbounded;
      assert all[i].unbounded;
    }
    if AnyUnbounded(ns) {
      var i :| 0 <= i < |ns| && ns[i].unbounded;
      assert all[|ms| + i].unbounded;
    }
    if HoldsMandatory(ms) {
      var i :| 0 <= i < |ms| && ms[i].mandatory && !ms[i].zeroWidth;
      assert all[i].mandatory;
    }
    if HoldsMandatory(ns) {
      var i :| 0 <= i < |ns| && ns[i].mandatory && !ns[i].zeroWidth;
      assert all[|ms| + i].mandatory;
    }
  }

  lemma {:induction false} MeaningsOf(bs: seq<Branch>, i: nat)
    requires i < |bs|
    ensures EachMeaning(bs)[i] == PiecesMeaning(bs[i].pieces)
  {
    if i < |bs| - 1 {
      MeaningsOf(bs[..|bs| - 1], i);
    }
  }

  lemma {:induction false} BranchSums(b: Branch)
    requires BranchHasDigits(b)
    ensures SumsAll(PiecesMeaning(b.pieces), b)
    decreases b, 0
  {
    PiecesSum(b.pieces);
    assert b == Branch(b.pieces);
  }

  lemma {:induction false} PiecesSum(ps: seq<Piece>)
    requires forall k :: 0 <= k < |ps| ==> HasDigits(ps[k])
    ensures SumsAll(PiecesMeaning(ps), Branch(ps))
    decreases ps, 1
  {
    if ps != [] {
      var n := |ps| - 1;
      PiecesSum(ps[..n]);
      PieceSums(ps[n]);
      OneMoreSums(ps[..n], ps[n]);
      assert ps == ps[..n] + [ps[n]];
    }
  }

  lemma OneMoreMatches(ps: seq<Piece>, p: Piece, c: int)
    ensures (exists k :: 0 <= k < |ps + [p]| && MayMatch((ps + [p])[k], c)) <==>
            (exists k :: 0 <= k < |ps| && MayMatch(ps[k], c)) || MayMatch(p, c)
  {
    var all := ps + [p];
    assert all[|ps|] == p;
    if k :| 0 <= k < |ps| && MayMatch(ps[k], c) {
      assert MayMatch(all[k], c);
    }
  }

  lemma OneMoreGoesOn(ps: seq<Piece>, p: Piece)
    ensures (exists k :: 0 <= k < |ps + [p]| && GoesOn((ps + [p])[k])) <==> (exists k :: 0 <= k < |ps| && GoesOn(ps[k])) || GoesOn(p)
    ensures (exists k :: 0 <= k < |ps + [p]| && HasWidth((ps + [p])[k])) <==> (exists k :: 0 <= k < |ps| && HasWidth(ps[k])) || HasWidth(p)
  {
    var all := ps + [p];
    assert all[|ps|] == p;
    if k :| 0 <= k < |ps| && GoesOn(ps[k]) {
      assert GoesOn(all[k]);
    }
    if k :| 0 <= k < |ps| && HasWidth(ps[k]) {
      assert HasWidth(all[k]);
    }
  }

  lemma OneMoreIsNeeded(ps: seq<Piece>, p: Piece)
    ensures HoldsNeeded(Branch(ps)) || IsNeeded(p) ==> HoldsNeeded(Branch(ps + [p]))
  {
    var all := ps + [p];
    assert all[|ps|] == p;
    if HoldsNeeded(Branch(ps)) {
      var k :| 0 <= k < |ps| && IsNeeded(Branch(ps).pieces[k]);
      assert IsNeeded(all[k]);
    }
  }

  lemma OneMoreRunes(ps: seq<Piece>, p: Piece)
    requires forall c :: c in Runes(PiecesMeaning(ps)) <==> exists k :: 0 <= k < |ps| && MayMatch(ps[k], c)
    requires forall c :: c in Runes(PieceMeaning(p)) <==> MayMatch(p, c)
    ensures forall c :: c in Runes(PiecesMeaning(ps + [p])) <==> exists k :: 0 <= k < |ps + [p]| && MayMatch((ps + [p])[k], c)
  {
    OneMorePiece(ps, p);
    Joined(PiecesMeaning(ps), PieceMeaning(p));
    forall c ensures c in Runes(PiecesMeaning(ps + [p])) <==> exists k :: 0 <= k < |ps + [p]| && MayMatch((ps + [p])[k], c) {
      OneMoreMatches(ps, p, c);
    }
  }

  lemma OneMoreSums(ps: seq<Piece>, p: Piece)
    requires SumsAll(PiecesMeaning(ps), Branch(ps)) && Sums(PieceMeaning(p), p)
    ensures SumsAll(PiecesMeaning(ps + [p]), Branch(ps + [p]))
  {
    OneMorePiece(ps, p);
    Joined(PiecesMeaning(ps), PieceMeaning(p));
    assert Branch(ps).pieces == ps;
    OneMoreRunes(ps, p);
    OneMoreGoesOn(ps, p);
    OneMoreIsNeeded(ps, p);
  }

  lemma {:induction false} PieceSums(p: Piece)
    requires HasDigits(p)
    ensures Sums(PieceMeaning(p), p)
    decreases p, 2
  {
    CountsOf(p.quantifier.repeat);
    if p.atom.Group? {
      var bs := p.atom.branches;
      forall i | 0 <= i < |bs| ensures SumsAll(EachMeaning(bs)[i], bs[i]) {
        MeaningsOf(bs, i);
        BranchSums(bs[i]);
      }
      GroupSums(p, EachMeaning(bs));
    } else {
      LeafSums(p);
    }
  }

  lemma LeafSums(p: Piece)
    requires !p.atom.Group? && IsRepeat(p.quantifier.repeat)
    ensures Sums(PieceMeaning(p), p)
  {
    CountsOf(p.quantifier.repeat);
    var m := PieceMeaning(p)[0];
    assert PieceMeaning(p) == [m];
    forall c ensures c in Runes([m]) <==> c in m.runes {
      assert [m][0] == m;
    }
  }

  lemma GroupSums(p: Piece, ms: seq<seq<Meaning>>)
    requires p.atom.Group? && IsRepeat(p.quantifier.repeat) && |ms| == |p.atom.branches| > 0
    requires forall i :: 0 <= i < |ms| ==> SumsAll(ms[i], p.atom.branches[i])
    ensures Sums(GroupMeaning(p.quantifier, ms), p)
  {
    CountsOf(p.quantifier.repeat);
    var bs := p.atom.branches;
    if IsTransparent(p) {
      LooseSums(p, ms[0]);
    } else {
      OpaqueSums(p, ms);
    }
  }

  lemma LooseSums(p: Piece, ms: seq<Meaning>)
    requires IsTransparent(p) && SumsAll(ms, p.atom.branches[0])
    ensures Sums(ms, p) || Allows(p.quantifier.repeat, 0)
    ensures Sums(Optional(ms), p)
  {
    var b, loose := p.atom.branches[0], Optional(ms);
    assert forall c :: MayMatch(p, c) <==> exists k :: 0 <= k < |b.pieces| && MayMatch(b.pieces[k], c);
    assert HasWidth(p) <==> exists k :: 0 <= k < |b.pieces| && HasWidth(b.pieces[k]);
    assert GoesOn(p) <==> exists k :: 0 <= k < |b.pieces| && GoesOn(b.pieces[k]);
    forall c ensures c in Runes(loose) <==> c in Runes(ms) {
      if c in Runes(ms) {
        var i :| 0 <= i < |ms| && c in ms[i].runes;
        assert c in loose[i].runes;
      }
    }
    if AnyUnbounded(ms) {
      var i :| 0 <= i < |ms| && ms[i].unbounded;
      assert loose[i].unbounded;
    }
    if !NoneHasWidth(ms) {
      var i :| 0 <= i < |ms| && !ms[i].zeroWidth;
      assert !loose[i].zeroWidth;
    }
  }

  lemma OpaqueMatches(p: Piece, ms: seq<seq<Meaning>>, c: int)
    requires p.atom.Group? && |ms| == |p.atom.branches|
    requires forall i :: 0 <= i < |ms| ==> SumsAll(ms[i], p.atom.branches[i])
    ensures c in Opaque(p.quantifier, ms).runes <==> MayMatch(p, c)
  {
    var m, bs := Opaque(p.quantifier, ms), p.atom.branches;
    if c in m.runes {
      var i :| 0 <= i < |ms| && c in Runes(ms[i]);
      assert SumsAll(ms[i], bs[i]);
    }
    if MayMatch(p, c) {
      var i, k :| 0 <= i < |bs| && 0 <= k < |bs[i].pieces| && MayMatch(bs[i].pieces[k], c);
      assert SumsAll(ms[i], bs[i]) && c in Runes(ms[i]);
    }
  }

  lemma OpaqueSums(p: Piece, ms: seq<seq<Meaning>>)
    requires p.atom.Group? && IsRepeat(p.quantifier.repeat) && |ms| == |p.atom.branches| > 0
    requires forall i :: 0 <= i < |ms| ==> SumsAll(ms[i], p.atom.branches[i])
    ensures Sums([Opaque(p.quantifier, ms)], p) && Covers(Opaque(p.quantifier, ms), Part(p, false))
  {
    CountsOf(p.quantifier.repeat);
    var m, bs := Opaque(p.quantifier, ms), p.atom.branches;
    assert [m][0] == m;
    forall c ensures c in m.runes <==> MayMatch(p, c) {
      OpaqueMatches(p, ms, c);
    }
    if GoesOn(p) && IsLimited(p.quantifier.repeat) {
      var i, k :| 0 <= i < |bs| && 0 <= k < |bs[i].pieces| && GoesOn(bs[i].pieces[k]);
      assert SumsAll(ms[i], bs[i]) && AnyUnbounded(ms[i]);
    }
    if HasWidth(p) {
      var i, k :| 0 <= i < |bs| && 0 <= k < |bs[i].pieces| && HasWidth(bs[i].pieces[k]);
      assert SumsAll(ms[i], bs[i]) && !NoneHasWidth(ms[i]);
    }
    if m.mandatory {
      forall i | 0 <= i < |bs| ensures HoldsNeeded(bs[i]) {
        assert SumsAll(ms[i], bs[i]) && HoldsMandatory(ms[i]);
      }
    }
  }

  lemma {:induction false} PieceIsCovered(p: Piece)
    requires HasDigits(p)
    ensures CoverAll(PieceMeaning(p), PartsOf(p))
    decreases p, 0
  {
    CountsOf(p.quantifier.repeat);
    if !p.atom.Group? {
      LeafIsCovered(p);
    } else if IsTransparent(p) {
      MeaningsOf(p.atom.branches, 0);
      assert BranchHasDigits(p.atom.branches[0]);
      PiecesAreCovered(p.atom.branches[0].pieces);
      LooseIsCovered(PiecesMeaning(p.atom.branches[0].pieces), AllParts(p.atom.branches[0].pieces), p.quantifier.repeat);
    } else {
      var bs := p.atom.branches;
      forall i | 0 <= i < |bs| ensures SumsAll(EachMeaning(bs)[i], bs[i]) {
        MeaningsOf(bs, i);
        BranchSums(bs[i]);
      }
      OpaqueSums(p, EachMeaning(bs));
    }
  }

  lemma LeafIsCovered(p: Piece)
    requires !p.atom.Group? && IsRepeat(p.quantifier.repeat)
    ensures CoverAll(PieceMeaning(p), PartsOf(p))
  {
    CountsOf(p.quantifier.repeat);
    assert Covers(PieceMeaning(p)[0], Part(p, false));
  }

  lemma LooseIsCovered(ms: seq<Meaning>, parts: seq<Part>, r: Repeat)
    requires CoverAll(ms, parts) && IsRepeat(r)
    ensures CoverAll(if IsMandatory(r) then ms else Optional(ms), Loosened(parts, Allows(r, 0)))
  {
    CountsOf(r);
    var loose, loosened := if IsMandatory(r) then ms else Optional(ms), Loosened(parts, Allows(r, 0));
    forall i | 0 <= i < |loose| ensures Covers(loose[i], loosened[i]) {
      assert Covers(ms[i], parts[i]);
    }
  }

  lemma {:induction false} PiecesAreCovered(ps: seq<Piece>)
    requires forall k :: 0 <= k < |ps| ==> HasDigits(ps[k])
    ensures CoverAll(PiecesMeaning(ps), AllParts(ps))
    decreases ps, 1
  {
    if ps != [] {
      var n := |ps| - 1;
      PiecesAreCovered(ps[..n]);
      PieceIsCovered(ps[n]);
    }
  }

  // What is read has digits for its bounds.

  lemma {:induction false} PieceReadHasDigits(src: seq<int>, from: nat, to: nat, p: Piece)
    requires PieceReads(src, from, to, p)
    ensures HasDigits(p)
    decreases p, 0
  {
    var mid := AtomEnd(src, from, p, to);
    if p.atom.Group? {
      BranchesReadHaveDigits(src, from + if p.atom.quiet then 3 else 1, mid - 1, p.atom.branches);
    }
  }

  lemma {:induction false} PiecesReadHaveDigits(src: seq<int>, from: nat, to: nat, ps: seq<Piece>)
    requires PiecesRead(src, from, to, ps)
    ensures forall k :: 0 <= k < |ps| ==> HasDigits(ps[k])
    decreases ps, 1
  {
    if ps != [] {
      var mid: nat :| PieceReads(src, from, mid, ps[0]) && PiecesRead(src, mid, to, ps[1..]);
      PieceReadHasDigits(src, from, mid, ps[0]);
      PiecesReadHaveDigits(src, mid, to, ps[1..]);
      forall k | 0 < k < |ps| ensures HasDigits(ps[k]) {
        assert ps[k] == ps[1..][k - 1];
      }
    }
  }

  lemma {:induction false} BranchesReadHaveDigits(src: seq<int>, from: nat, to: nat, bs: seq<Branch>)
    requires BranchesRead(src, from, to, bs)
    ensures bs != [] && forall i :: 0 <= i < |bs| ==> BranchHasDigits(bs[i])
    decreases bs, 2
  {
    var bar := FirstBranch(src, from, to, bs);
    PiecesReadHaveDigits(src, from, bar, bs[0].pieces);
    if |bs| > 1 {
      BranchesReadHaveDigits(src, bar + 1, to, bs[1..]);
      forall i | 0 < i < |bs| ensures BranchHasDigits(bs[i]) {
        assert bs[i] == bs[1..][i - 1];
      }
    }
  }

  /** A pattern that keeps the rule has no two parts that compete unparted, in any of its sequences. */
  lemma RuleIsSound(src: seq<int>, from: nat, to: nat, bs: seq<Branch>)
    requires BranchesRead(src, from, to, bs) && BranchesKeepRule(bs)
    ensures forall i :: 0 <= i < |bs| ==> BranchIsUnambiguous(bs[i])
  {
    BranchesReadHaveDigits(src, from, to, bs);
    forall i | 0 <= i < |bs| ensures BranchIsUnambiguous(bs[i]) {
      RuleMakesUnambiguous(bs[i]);
    }
  }

  // So a tree that keeps the rule is unambiguous.

  lemma CoveredAreParted(ms: seq<Meaning>, parts: seq<Part>)
    requires CoverAll(ms, parts) && KeepsRule(ms)
    ensures AllParted(parts)
  {
    forall i, j | 0 <= i < j < |parts| ensures AreParted(parts, i, j) {
      CoveredArePartedAt(ms, parts, i, j);
    }
  }

  lemma CoveredArePartedAt(ms: seq<Meaning>, parts: seq<Part>, i: nat, j: nat)
    requires CoverAll(ms, parts) && KeepsRule(ms) && i < j < |parts|
    ensures AreParted(parts, i, j)
  {
    if Compete(parts[i], parts[j]) {
      var c :| BothMatch(parts[i], parts[j], c);
      assert Covers(ms[i], parts[i]) && Covers(ms[j], parts[j]) && !MeaningsOverlap(ms, i, j);
      assert c in ms[i].runes * ms[j].runes;
      var k :| i < k < j && ms[k].mandatory && !ms[k].zeroWidth && ms[k].runes * (ms[i].runes * ms[j].runes) == iset{};
      assert Covers(ms[k], parts[k]);
      forall d | BothMatch(parts[i], parts[j], d) ensures !MayMatch(parts[k].piece, d) {
        assert d !in ms[k].runes * (ms[i].runes * ms[j].runes);
      }
      assert Parts(parts[k], parts[i], parts[j]);
    }
  }

  lemma {:induction false} RuleMakesUnambiguous(b: Branch)
    requires BranchKeepsRule(b) && BranchHasDigits(b)
    ensures BranchIsUnambiguous(b)
    decreases b
  {
    PiecesAreCovered(b.pieces);
    CoveredAreParted(PiecesMeaning(b.pieces), AllParts(b.pieces));
    forall i | 0 <= i < |b.pieces| ensures PieceIsUnambiguous(b.pieces[i]) {
      assert PieceKeepsRule(b.pieces[i]) && HasDigits(b.pieces[i]);
      if b.pieces[i].atom.Group? {
        var bs := b.pieces[i].atom.branches;
        assert BranchesKeepRule(bs);
        forall k | 0 <= k < |bs| ensures BranchIsUnambiguous(bs[k]) {
          assert BranchKeepsRule(bs[k]) && BranchHasDigits(bs[k]);
          RuleMakesUnambiguous(bs[k]);
        }
      }
    }
  }
}
