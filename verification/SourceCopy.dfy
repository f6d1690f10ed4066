/** `pkg/envsource/copy.go` and the writes of `pkg/variablestore` it makes: values of an env source copied into variables,
    so that copies converge and never go back a version. */
module SourceCopy {
  import opened Wrappers
  import opened Strings

  const MAX_VALUE_BYTES := 4096

  datatype At = At(folder: string, key: string)

  /** Where a value came from: an env source, in some version read at some time, or a publisher. */
  datatype Provenance = Provenance(envSource: string, version: string, readAt: int, publisher: string)

  /** A variable of the whole tier, with the revision it was stored under. A deleted one keeps its version and where its
      deletion came from. */
  datatype Cell = Cell(version: nat, value: string, deleted: bool, reference: bool, from: Provenance, revision: nat)

  const NOTHING := Cell(0, "", false, false, Provenance("", "", 0, ""), 0)

  type Cells = map<At, Cell>

  function CellAt(cells: Cells, at: At): Cell { if at in cells then cells[at] else NOTHING }

  function Live(cell: Cell): nat { if cell.deleted then 0 else cell.version }

  // Which of two versions is newer.

  datatype Numbered = Numbered(id: string, number: int)

  /** A version with a number: an id, the number after `@`, and a digest after `#` that is not looked at. */
  function NumberedVersion(version: string): Option<Numbered> {
    var split := Cut(version, '@');
    if !split.found then None
    else
      match Atoi(Cut(split.after, '#').before)
      case None => None
      case Some(number) => Some(Numbered(split.before, number))
  }

  /** Both are numbered, under one id, and apart. */
  predicate AreOrdered(a: string, b: string) {
    && NumberedVersion(a).Some? && NumberedVersion(b).Some?
    && NumberedVersion(a).value.id == NumberedVersion(b).value.id
    && NumberedVersion(a).value.number != NumberedVersion(b).value.number
  }

  predicate IsNewer(read: string, stored: string) {
    if read == stored then false
    else if AreOrdered(read, stored) then NumberedVersion(read).value.number > NumberedVersion(stored).value.number
    else true
  }

  /** Two different versions are each newer than the other, unless they are ordered, when exactly one is. */
  lemma NewerOneWay(a: string, b: string)
    requires a != b
    ensures IsNewer(a, b) || IsNewer(b, a)
    ensures IsNewer(a, b) && IsNewer(b, a) <==> !AreOrdered(a, b)
  {
  }

  /** Ordered versions never come round. */
  lemma NewerGoesOn(a: string, b: string, c: string)
    requires AreOrdered(a, b) && AreOrdered(b, c) && IsNewer(b, a) && IsNewer(c, b)
    ensures AreOrdered(a, c) && IsNewer(c, a) && !IsNewer(a, c)
  {
  }

  // What the store makes of a write or a deletion, as one step.

  datatype Answer = Kept(cell: Cell) | Stale | TooLarge | IsReference | IsPublished

  predicate IsOlder(from: Provenance, stored: Provenance) {
    from.envSource != "" && from.envSource == stored.envSource && from.readAt < stored.readAt
  }

  predicate IsOthers(current: Cell, from: Provenance) {
    Live(current) > 0 && current.from.publisher != "" && current.from.publisher != from.publisher
  }

  function WriteOf(current: Cell, value: string, from: Provenance, expected: nat): Answer {
    if |value| > MAX_VALUE_BYTES then TooLarge
    else if Live(current) > 0 && current.reference then IsReference
    else if IsOthers(current, from) then IsPublished
    else if IsOlder(from, current.from) || expected != Live(current) then Stale
    else Kept(Cell(current.version + 1, value, false, false, from, current.revision))
  }

  function DropOf(current: Cell, from: Provenance, expected: nat): Answer {
    if expected != Live(current) || IsOlder(from, current.from) then Stale
    else if Live(current) == 0 then Kept(current)
    else if IsOthers(current, from) then IsPublished
    else Kept(Cell(current.version, "", true, false, from, current.revision))
  }

  /** Whoever writes, what is stored of a source is never replaced by an older reading of it. */
  lemma NeverAnOlderReading(current: Cell, value: string, from: Provenance, expected: nat)
    requires from.envSource != "" && current.from.envSource == from.envSource
    ensures WriteOf(current, value, from, expected).Kept? ==> current.from.readAt <= from.readAt
    ensures DropOf(current, from, expected).Kept? && Live(current) > 0 ==> current.from.readAt <= from.readAt
  {
  }

  // A copy, on its own terms.

  datatype Value = Value(plaintext: string, version: string)

  /** What is copied: the values read of a source, into which folders, and which cells to keep out of it. */
  datatype Copy = Copy(source: string, readAt: int, read: map<At, Value>, folders: seq<string>, keep: seq<At>, digest: string -> string)

  function VersionOf(c: Copy, next: Value): string {
    if next.version == "" then c.digest(next.plaintext) else next.version + "#" + c.digest(next.plaintext)
  }

  predicate IsCopied(c: Copy, at: At) { at.folder in c.folders && at !in c.keep }

  function FromRead(c: Copy, next: Value): Provenance { Provenance(c.source, VersionOf(c, next), c.readAt, "") }

  function FromNone(c: Copy): Provenance { Provenance(c.source, "", c.readAt, "") }

  /** What is stored is of this source and no older. */
  predicate IsUpToDate(c: Copy, current: Cell, next: Value) {
    Live(current) > 0 && current.from.envSource == c.source && !IsNewer(VersionOf(c, next), current.from.version)
  }

  function CellOf(answer: Answer, current: Cell): Cell { if answer.Kept? then answer.cell else current }

  /** What a copy makes of one cell, undisturbed. */
  function CopiedCell(c: Copy, at: At, current: Cell): Cell {
    if !IsCopied(c, at) then current
    else if at in c.read then
      if IsUpToDate(c, current, c.read[at]) then current
      else CellOf(WriteOf(current, c.read[at].plaintext, FromRead(c, c.read[at]), Live(current)), current)
    else if Live(current) == 0 || current.reference || current.from.publisher != "" then current
    else CellOf(DropOf(current, FromNone(c), Live(current)), current)
  }

  /** The source's value may not be stored there, or the store has a later reading of it. */
  predicate IsRefused(c: Copy, current: Cell, next: Value) {
    || |next.plaintext| > MAX_VALUE_BYTES
    || (Live(current) > 0 && (current.reference || current.from.publisher != ""))
    || IsOlder(FromRead(c, next), current.from)
  }

  /** A copy brings in exactly what the source has: each value read is stored unless it is refused or a newer version is
      there, and what the source has no more is gone unless it is another's or was read later. */
  lemma CopiedCellIsCurrent(c: Copy, at: At, current: Cell)
    requires IsCopied(c, at) && c.source != ""
    ensures var after := CopiedCell(c, at, current);
            if at in c.read then
              if IsRefused(c, current, c.read[at]) && !IsUpToDate(c, current, c.read[at]) then after == current
              else IsUpToDate(c, after, c.read[at]) && (after == current || after.value == c.read[at].plaintext)
            else Live(after) > 0 ==>
                   after == current && (current.reference || current.from.publisher != "" || IsOlder(FromNone(c), current.from))
  {
  }

  /** A copy of an older reading leaves alone what a later one brought in or removed. */
  lemma OlderCopiesChangeNothing(earlier: Copy, later: Copy, at: At, current: Cell)
    requires earlier.source == later.source != "" && earlier.readAt < later.readAt && CopiedCell(later, at, current) != current
    ensures CopiedCell(earlier, at, CopiedCell(later, at, current)) == CopiedCell(later, at, current)
  {
  }

  // The copy as it runs, while others write the same variables.

  /** What another does to a cell, storing or forgetting it, and a write of the copy's own. */
  datatype Act = Others(at: At, cell: Option<Cell>) | Own(at: At, after: Cell)

  /** `log` holds every step, in order. */
  datatype World = World(cells: Cells, next: nat, log: seq<Act>)

  const BLANK := World(map[], 1, [])

  function Apply(w: World, act: Act): World {
    var acted := w.(log := w.log + [act]);
    match act
    case Others(at, None) => acted.(cells := w.cells - {at})
    case Others(at, Some(cell)) => Revised(acted, at, cell)
    case Own(at, cell) => Revised(acted, at, cell)
  }

  /** A cell is stored under a revision of its own. */
  function Revised(w: World, at: At, cell: Cell): World {
    w.(cells := w.cells[at := cell.(revision := w.next)], next := w.next + 1)
  }

  predicate AreRevised(cells: Cells, next: nat) {
    next > 0 && forall at :: at in cells ==> 0 < cells[at].revision < next
  }

  ghost predicate Behaviour(trace: seq<World>) {
    trace != [] && trace[0] == BLANK && forall k: nat :: k + 1 < |trace| ==> StepsOn(trace, k)
  }

  ghost predicate StepsOn(trace: seq<World>, k: nat)
    requires k + 1 < |trace|
  {
    exists act :: trace[k + 1] == Apply(trace[k], act)
  }

  lemma Extended(trace: seq<World>, act: Act) returns (longer: seq<World>)
    requires Behaviour(trace)
    ensures Behaviour(longer) && longer == trace + [Apply(trace[|trace| - 1], act)] && trace <= longer
  {
    longer := trace + [Apply(trace[|trace| - 1], act)];
    forall k: nat | k + 1 < |longer| ensures StepsOn(longer, k) {
      if k + 1 < |trace| {
        assert StepsOn(trace, k);
        var before :| trace[k + 1] == Apply(trace[k], before);
        assert longer[k + 1] == Apply(longer[k], before);
      } else {
        assert longer[k + 1] == Apply(longer[k], act);
      }
    }
  }

  /** The step after state k is the copy's, and stores this. */
  predicate DidAt(trace: seq<World>, k: nat, at: At, after: Cell) {
    k + 1 < |trace| && trace[k + 1].log == trace[k].log + [Own(at, after)]
  }

  ghost predicate DidNothing(trace: seq<World>, from: int) {
    forall k: nat, at, after {:trigger DidAt(trace, k, at, after)} :: from <= k ==> !DidAt(trace, k, at, after)
  }

  lemma NothingStill(shorter: seq<World>, trace: seq<World>, from: int)
    requires shorter != [] && shorter <= trace && from < |shorter| && DidNothing(shorter, from) && DidNothing(trace, |shorter| - 1)
    ensures DidNothing(trace, from)
  {
    forall k: nat, at, after | from <= k ensures !DidAt(trace, k, at, after) {
      assert k + 1 < |shorter| ==> !DidAt(shorter, k, at, after);
    }
  }

  /** A write of the copy's own. */
  datatype Edit = Edit(at: At, before: Cell, after: Cell)

  class Values {
    var cells: Cells
    var next: nat
    /** What others do before each access of this one's. */
    var rivals: seq<seq<Act>>
    ghost var trace: seq<World>

    constructor (rivals: seq<seq<Act>>)
      ensures Valid() && cells == map[] && this.rivals == rivals
    {
      cells, next, this.rivals := map[], 1, rivals;
      trace := [BLANK];
    }

    ghost predicate Valid()
      reads this
    {
      && AreRevised(cells, next) && Behaviour(trace)
      && trace[|trace| - 1].cells == cells && trace[|trace| - 1].next == next
    }

    twostate predicate Advanced()
      reads this
    {
      Valid() && old(trace) <= trace && old(next) <= next
    }

    twostate predicate OnlyLooked()
      reads this
    {
      DidNothing(trace, |old(trace)| - 1)
    }

    method Take(act: Act)
      requires Valid()
      modifies this`cells, this`next, this`trace
      ensures Advanced() && |trace| == |old(trace)| + 1 && trace[|trace| - 1] == Apply(old(trace[|trace| - 1]), act)
      ensures act.Others? ==> OnlyLooked()
      ensures forall k: nat, at, after {:trigger DidAt(trace, k, at, after)} ::
                |old(trace)| - 1 <= k && DidAt(trace, k, at, after) ==> act == Own(at, after) && k == |old(trace)| - 1
    {
      ghost var longer := Extended(trace, act);
      match act {
        case Others(at, None) => cells := cells - {at};
        case Others(at, Some(cell)) => cells, next := cells[at := cell.(revision := next)], next + 1;
        case Own(at, cell) => cells, next := cells[at := cell.(revision := next)], next + 1;
      }
      trace := longer;
      forall k: nat, at, after | |old(trace)| - 1 <= k && DidAt(trace, k, at, after) ensures act == Own(at, after) {
        assert trace[k + 1].log[|trace[k].log|] == act;
      }
    }

    method Interfere()
      requires Valid()
      modifies this`cells, this`next, this`rivals, this`trace
      ensures Advanced() && OnlyLooked()
      ensures forall at :: CellAt(cells, at) != CellAt(old(cells), at) ==> at !in cells || cells[at].revision >= old(next)
      ensures old(rivals) == [] ==> rivals == [] && cells == old(cells) && next == old(next)
    {
      if rivals == [] {
        return;
      }
      var acts := rivals[0];
      rivals := rivals[1..];
      for i := 0 to |acts|
        invariant Advanced() && OnlyLooked()
        invariant forall at :: CellAt(cells, at) != CellAt(old(cells), at) ==> at !in cells || cells[at].revision >= old(next)
      {
        if acts[i].Others? {
          ghost var before := trace;
          Take(acts[i]);
          NothingStill(before, trace, |old(trace)| - 1);
        }
      }
    }

    /** Stores over what was read, unless that changed since. */
    method Store(at: At, current: Cell, answer: Answer) returns (result: Answer)
      requires Valid() && answer.Kept? && current.revision < next && (current.revision == 0 ==> current == NOTHING)
      requires current.revision > 0 && at in cells && cells[at].revision == current.revision ==> cells[at] == current
      modifies this
      ensures Advanced() && (result == answer || result == Stale)
      ensures IsOnly(trace, |old(trace)| - 1, Edit(at, current, answer.cell))
      ensures if result.Kept? then HasDone(trace, |old(trace)| - 1, at, answer.cell) else OnlyLooked()
      ensures old(rivals) == [] ==>
                && rivals == []
                && if CellAt(old(cells), at) == current
                   then result == answer && cells == old(cells)[at := answer.cell.(revision := old(next))]
                   else cells == old(cells)
    {
      Interfere();
      if CellAt(cells, at).revision != current.revision {
        return Stale;
      }
      ghost var before := trace;
      Take(Own(at, answer.cell));
      OnlyLastIs(before, trace, |old(trace)| - 1, Edit(at, current, answer.cell));
      return answer;
    }

    /** `SetFromEnvSource`. */
    method Write(at: At, value: string, from: Provenance, expected: nat) returns (answer: Answer)
      requires Valid()
      modifies this
      ensures Advanced() && IsWritten(trace, |old(trace)| - 1, at, value, from, expected)
      ensures if answer.Kept? then HasDone(trace, |old(trace)| - 1, at, answer.cell) && !answer.cell.deleted else OnlyLooked()
      ensures old(rivals) == [] ==>
                && rivals == [] && answer == WriteOf(CellAt(old(cells), at), value, from, expected)
                && cells == Stored(old(cells), at, answer, old(next))
    {
      Interfere();
      var current := CellAt(cells, at);
      answer := WriteOf(current, value, from, expected);
      if answer.Kept? {
        ghost var before := trace;
        answer := Store(at, current, answer);
        WrittenStill(before, trace, |old(trace)| - 1, Edit(at, current, WriteOf(current, value, from, expected).cell), value, from, expected);
      }
    }

    /** `DeleteFromEnvSource`. */
    method Drop(at: At, from: Provenance, expected: nat) returns (answer: Answer)
      requires Valid()
      modifies this
      ensures Advanced() && IsDropped(trace, |old(trace)| - 1, at, from, expected)
      ensures !answer.Kept? ==> OnlyLooked()
      ensures old(rivals) == [] ==>
                && rivals == [] && answer == DropOf(CellAt(old(cells), at), from, expected)
                && cells == if Live(CellAt(old(cells), at)) == 0 then old(cells) else Stored(old(cells), at, answer, old(next))
    {
      Interfere();
      var current := CellAt(cells, at);
      answer := DropOf(current, from, expected);
      if answer.Kept? && Live(current) > 0 {
        ghost var before := trace;
        answer := Store(at, current, answer);
        DroppedStill(before, trace, |old(trace)| - 1, Edit(at, current, DropOf(current, from, expected).cell), from, expected);
      }
    }
  }

  /** Every write of the copy's own since is this one. */
  ghost predicate IsOnly(trace: seq<World>, from: int, e: Edit) {
    forall k: nat, at, after {:trigger DidAt(trace, k, at, after)} ::
      from <= k && DidAt(trace, k, at, after) ==> e == Edit(at, CellAt(trace[k].cells, at), after)
  }

  ghost predicate HasDone(trace: seq<World>, from: int, at: At, after: Cell) {
    exists k: nat :: from <= k && DidAt(trace, k, at, after)
  }

  lemma OnlyLastIs(shorter: seq<World>, trace: seq<World>, from: int, e: Edit)
    requires shorter != [] && shorter <= trace && |trace| == |shorter| + 1 && from < |shorter| && DidNothing(shorter, from)
    requires CellAt(shorter[|shorter| - 1].cells, e.at) == e.before && trace[|shorter|] == Apply(trace[|shorter| - 1], Own(e.at, e.after))
    ensures IsOnly(trace, from, e) && HasDone(trace, from, e.at, e.after)
  {
    assert DidAt(trace, |shorter| - 1, e.at, e.after);
    forall k: nat, at, after | from <= k && DidAt(trace, k, at, after) ensures e == Edit(at, CellAt(trace[k].cells, at), after) {
      assert k + 1 < |shorter| ==> DidAt(shorter, k, at, after);
      assert trace[k + 1].log[|trace[k].log|] == Own(at, after);
    }
  }

  /** Each of these was stored by a write of the copy's own. */
  ghost predicate AreStored(ats: seq<At>, trace: seq<World>, from: int) {
    forall i {:trigger HasStored(trace, from, ats[i])} :: 0 <= i < |ats| ==> HasStored(trace, from, ats[i])
  }

  ghost predicate HasStored(trace: seq<World>, from: int, at: At) {
    exists after :: HasDone(trace, from, at, after) && !after.deleted
  }

  lemma StoredStill(shorter: seq<World>, trace: seq<World>, from: int, ats: seq<At>)
    requires shorter <= trace && AreStored(ats, shorter, from)
    ensures AreStored(ats, trace, from)
  {
    forall i | 0 <= i < |ats| ensures HasStored(trace, from, ats[i]) {
      assert HasStored(shorter, from, ats[i]);
      var after :| HasDone(shorter, from, ats[i], after) && !after.deleted;
      DoneStill(shorter, trace, from, from, ats[i], after);
    }
  }

  lemma OneMoreStored(shorter: seq<World>, trace: seq<World>, from: int, ats: seq<At>, more: seq<At>, at: At)
    requires shorter != [] && shorter <= trace && from < |shorter| && AreStored(ats, shorter, from)
    requires more == ats || (more == ats + [at] && HasStored(trace, |shorter| - 1, at))
    ensures AreStored(more, trace, from)
  {
    StoredStill(shorter, trace, from, ats);
    if more != ats {
      var after :| HasDone(trace, |shorter| - 1, at, after) && !after.deleted;
      DoneStill(trace, trace, from, |shorter| - 1, at, after);
      forall i | 0 <= i < |more| ensures HasStored(trace, from, more[i]) {
        assert i < |ats| ==> HasStored(trace, from, ats[i]);
      }
    }
  }

  lemma DoneStill(shorter: seq<World>, trace: seq<World>, from: int, later: int, at: At, after: Cell)
    requires shorter <= trace && from <= later && HasDone(shorter, later, at, after)
    ensures HasDone(trace, from, at, after)
  {
    var k: nat :| later <= k && DidAt(shorter, k, at, after);
    assert DidAt(trace, k, at, after);
  }

  function Stored(cells: Cells, at: At, answer: Answer, revision: nat): Cells {
    if answer.Kept? then cells[at := answer.cell.(revision := revision)] else cells
  }

  /** Every write of the copy's own since stores this value over the version expected. */
  ghost predicate IsWritten(trace: seq<World>, since: int, at: At, value: string, from: Provenance, expected: nat) {
    forall k: nat, other, after {:trigger DidAt(trace, k, other, after)} ::
      since <= k && DidAt(trace, k, other, after) ==>
        other == at && WriteOf(CellAt(trace[k].cells, at), value, from, expected) == Kept(after)
  }

  ghost predicate IsDropped(trace: seq<World>, since: int, at: At, from: Provenance, expected: nat) {
    forall k: nat, other, after {:trigger DidAt(trace, k, other, after)} ::
      since <= k && DidAt(trace, k, other, after) ==>
        other == at && Live(CellAt(trace[k].cells, at)) > 0 && DropOf(CellAt(trace[k].cells, at), from, expected) == Kept(after)
  }

  lemma WrittenStill(shorter: seq<World>, trace: seq<World>, since: int, e: Edit, value: string, from: Provenance, expected: nat)
    requires shorter != [] && shorter <= trace && since < |shorter| && DidNothing(shorter, since) && IsOnly(trace, |shorter| - 1, e)
    requires WriteOf(e.before, value, from, expected) == Kept(e.after)
    ensures IsWritten(trace, since, e.at, value, from, expected)
    ensures HasDone(trace, |shorter| - 1, e.at, e.after) ==> HasDone(trace, since, e.at, e.after)
    ensures DidNothing(trace, |shorter| - 1) ==> DidNothing(trace, since)
  {
    OnlyStill(shorter, trace, since, e);
  }

  lemma DroppedStill(shorter: seq<World>, trace: seq<World>, since: int, e: Edit, from: Provenance, expected: nat)
    requires shorter != [] && shorter <= trace && since < |shorter| && DidNothing(shorter, since) && IsOnly(trace, |shorter| - 1, e)
    requires Live(e.before) > 0 && DropOf(e.before, from, expected) == Kept(e.after)
    ensures IsDropped(trace, since, e.at, from, expected)
    ensures DidNothing(trace, |shorter| - 1) ==> DidNothing(trace, since)
  {
    OnlyStill(shorter, trace, since, e);
  }

  lemma OnlyStill(shorter: seq<World>, trace: seq<World>, since: int, e: Edit)
    requires shorter != [] && shorter <= trace && since < |shorter| && DidNothing(shorter, since) && IsOnly(trace, |shorter| - 1, e)
    ensures IsOnly(trace, since, e)
    ensures HasDone(trace, |shorter| - 1, e.at, e.after) ==> HasDone(trace, since, e.at, e.after)
    ensures DidNothing(trace, |shorter| - 1) ==> DidNothing(trace, since)
  {
    forall k: nat, at, after | since <= k && DidAt(trace, k, at, after) ensures e == Edit(at, CellAt(trace[k].cells, at), after) {
      assert k + 1 < |shorter| ==> DidAt(shorter, k, at, after);
    }
    if HasDone(trace, |shorter| - 1, e.at, e.after) {
      DoneStill(trace, trace, since, |shorter| - 1, e.at, e.after);
    }
    if DidNothing(trace, |shorter| - 1) {
      NothingStill(shorter, trace, since);
    }
  }

  /** A cell as it was listed before the copy began. */
  datatype Listed = Listed(at: At, environment: string, version: nat, reference: bool, from: Provenance)

  /** The cells of the whole tier, by what they are of. */
  function ByCell(listed: seq<Listed>): map<At, Listed> {
    if listed == [] then map[]
    else
      var last := listed[|listed| - 1];
      var before := ByCell(listed[..|listed| - 1]);
      if last.environment == "" then before[last.at := last] else before
  }

  function ExpectedAt(stored: map<At, Listed>, at: At): nat { if at in stored then stored[at].version else 0 }

  /** As far as the listing says, what is stored is of this source and no older. */
  predicate WasUpToDate(c: Copy, stored: map<At, Listed>, at: At)
    requires at in c.read
  {
    at in stored && stored[at].from.envSource == c.source && !IsNewer(VersionOf(c, c.read[at]), stored[at].from.version)
  }

  /** What every write of a copy is, whatever others do meanwhile: in a folder that is copied, over the version that was
      listed and over no later reading, a newer value of the source's or the removal of one that it has no more. */
  ghost predicate IsOwnEdit(c: Copy, stored: map<At, Listed>, e: Edit) {
    && IsCopied(c, e.at) && !IsOlder(e.after.from, e.before.from) && !IsOthers(e.before, e.after.from)
    && Live(e.before) == ExpectedAt(stored, e.at)
    && if e.at in c.read then
         && !WasUpToDate(c, stored, e.at) && !(Live(e.before) > 0 && e.before.reference)
         && Live(e.after) == e.before.version + 1 && e.after.value == c.read[e.at].plaintext && e.after.from == FromRead(c, c.read[e.at])
       else
         Live(e.after) == 0 && e.after.from == FromNone(c)
  }

  ghost predicate AreOwnEdits(c: Copy, stored: map<At, Listed>, trace: seq<World>, from: int) {
    forall k: nat, at, after {:trigger DidAt(trace, k, at, after)} ::
      from <= k && DidAt(trace, k, at, after) ==> IsOwnEdit(c, stored, Edit(at, CellAt(trace[k].cells, at), after))
  }

  // Why a copy never goes back.

  /** Storing a cell raises its version, and deleting it keeps the version: all that those do who know of versions. */
  predicate Bumps(before: Cell, after: Cell) {
    after == before || before.version < after.version || (after.version == before.version && after.deleted)
  }

  ghost predicate IsBumped(trace: seq<World>, i: nat, j: nat, at: At) {
    j < |trace| && forall k: nat :: i <= k < j ==> Bumps(CellAt(trace[k].cells, at), CellAt(trace[k + 1].cells, at))
  }

  /** A cell that is live under a version it had before is the very same. */
  lemma {:induction false} SameVersionSameCell(trace: seq<World>, i: nat, j: nat, at: At)
    requires i <= j && IsBumped(trace, i, j, at)
    ensures CellAt(trace[i].cells, at).version <= CellAt(trace[j].cells, at).version
    ensures CellAt(trace[j].cells, at).version == CellAt(trace[i].cells, at).version ==>
              CellAt(trace[j].cells, at) == CellAt(trace[i].cells, at) || CellAt(trace[j].cells, at).deleted
    decreases j - i
  {
    if i < j {
      SameVersionSameCell(trace, i, j - 1, at);
      assert Bumps(CellAt(trace[j - 1].cells, at), CellAt(trace[j].cells, at));
    }
  }

  /** Whatever is done to the cell bumps its version or forgets the cell. */
  ghost predicate IsBumpedOrForgotten(trace: seq<World>, i: nat, k: nat, at: At) {
    k < |trace| && forall j: nat :: i <= j < k ==> at !in trace[j + 1].cells || Bumps(CellAt(trace[j].cells, at), CellAt(trace[j + 1].cells, at))
  }

  /** Nobody forgets the cell. */
  ghost predicate IsKept(trace: seq<World>, i: nat, k: nat, at: At) {
    k < |trace| && forall j: nat :: i <= j <= k ==> at in trace[j].cells
  }

  lemma {:induction false} BehavioursAreRevised(trace: seq<World>, k: nat)
    requires Behaviour(trace) && k < |trace|
    ensures AreRevised(trace[k].cells, trace[k].next)
  {
    if k > 0 {
      BehavioursAreRevised(trace, k - 1);
      assert StepsOn(trace, k - 1);
    }
  }

  /** A cell that was not there has a revision of its own once it is. */
  lemma {:induction false} StoredSince(trace: seq<World>, j: nat, k: nat, at: At)
    requires Behaviour(trace) && j <= k < |trace| && at !in trace[j].cells
    ensures trace[j].next <= trace[k].next && (at in trace[k].cells ==> trace[j].next <= trace[k].cells[at].revision)
    decreases k - j
  {
    if j < k {
      StoredSince(trace, j, k - 1, at);
      assert StepsOn(trace, k - 1);
    }
  }

  lemma {:induction false} RevisionsGoOn(trace: seq<World>, i: nat, j: nat)
    requires Behaviour(trace) && i <= j < |trace|
    ensures trace[i].next <= trace[j].next
    decreases j - i
  {
    if i < j {
      RevisionsGoOn(trace, i, j - 1);
      assert StepsOn(trace, j - 1);
    }
  }

  /** A cell that is live twice under one version is the very same exactly if nobody forgot it in between. */
  lemma SameCellIffKept(trace: seq<World>, i: nat, k: nat, at: At)
    requires Behaviour(trace) && i <= k && IsBumpedOrForgotten(trace, i, k, at)
    requires Live(CellAt(trace[k].cells, at)) == Live(CellAt(trace[i].cells, at)) > 0
    ensures CellAt(trace[k].cells, at) == CellAt(trace[i].cells, at) <==> IsKept(trace, i, k, at)
  {
    if IsKept(trace, i, k, at) {
      assert IsBumped(trace, i, k, at);
      SameVersionSameCell(trace, i, k, at);
    } else {
      var j: nat :| i <= j <= k && at !in trace[j].cells;
      BehavioursAreRevised(trace, i);
      RevisionsGoOn(trace, i, j);
      StoredSince(trace, j, k, at);
    }
  }

  /** What a copy replaces is what was listed exactly if nobody forgot the cell since, provided that others raise the versions
      of what they store. */
  lemma ReplacesTheListedIffKept(c: Copy, stored: map<At, Listed>, trace: seq<World>, i: nat, k: nat, at: At, after: Cell)
    requires Behaviour(trace) && DidAt(trace, k, at, after) && i <= k && IsBumpedOrForgotten(trace, i, k, at)
    requires IsKnown(stored, at, CellAt(trace[i].cells, at)) && AreOwnEdits(c, stored, trace, i) && at in stored
    ensures CellAt(trace[k].cells, at) == CellAt(trace[i].cells, at) <==> IsKept(trace, i, k, at)
  {
    assert IsOwnEdit(c, stored, Edit(at, CellAt(trace[k].cells, at), after));
    SameCellIffKept(trace, i, k, at);
  }

  /** So a copy never stores a value over a newer one of its own source: what it replaces is what was listed, and the copy's is
      newer than that. */
  lemma CopiesNeverGoBack(c: Copy, stored: map<At, Listed>, trace: seq<World>, i: nat, k: nat, at: At, after: Cell)
    requires Behaviour(trace) && DidAt(trace, k, at, after) && at in c.read && i <= k
    requires IsBumpedOrForgotten(trace, i, k, at) && (at in stored ==> IsKept(trace, i, k, at))
    requires IsKnown(stored, at, CellAt(trace[i].cells, at)) && AreOwnEdits(c, stored, trace, i)
    ensures var before := CellAt(trace[k].cells, at);
            Live(before) > 0 && before.from.envSource == c.source ==>
              IsNewer(after.from.version, before.from.version) && !GoesBack(before, after)
  {
    assert IsOwnEdit(c, stored, Edit(at, CellAt(trace[k].cells, at), after));
    if at in stored {
      ReplacesTheListedIffKept(c, stored, trace, i, k, at, after);
    }
  }

  /** A numbered version of a source is replaced by one of a lower number. */
  predicate GoesBack(before: Cell, after: Cell) {
    && before.from.envSource == after.from.envSource && AreOrdered(after.from.version, before.from.version)
    && NumberedVersion(after.from.version).value.number < NumberedVersion(before.from.version).value.number
  }

  /** Two readings of one source come in order: the later does not have the lower number, and those of one time agree. */
  predicate AreReadInOrder(earlier: Provenance, later: Provenance) {
    && earlier.readAt <= later.readAt
    && (AreOrdered(earlier.version, later.version) ==>
          NumberedVersion(earlier.version).value.number < NumberedVersion(later.version).value.number)
  }

  /** Whatever others do, forget or make of versions, the store lets a copy go back only if its source was read out of order:
      exactly if the readings it stores and replaces are. */
  lemma GoesBackIffReadOutOfOrder(c: Copy, stored: map<At, Listed>, trace: seq<World>, from: nat, k: nat, at: At, after: Cell)
    requires DidAt(trace, k, at, after) && from <= k && AreOwnEdits(c, stored, trace, from)
    requires c.source != "" && CellAt(trace[k].cells, at).from.envSource == c.source
    ensures GoesBack(CellAt(trace[k].cells, at), after) <==> !AreReadInOrder(CellAt(trace[k].cells, at).from, after.from)
  {
    assert IsOwnEdit(c, stored, Edit(at, CellAt(trace[k].cells, at), after));
  }

  /** Some cell of this history was stored from this reading of the source. */
  ghost predicate IsReading(trace: seq<World>, source: string, p: Provenance) {
    p.envSource == source && exists k: nat, at :: k < |trace| && IsStoredFrom(trace[k].cells, at, p)
  }

  predicate IsStoredFrom(cells: Cells, at: At, p: Provenance) { at in cells && cells[at].from == p }

  ghost predicate IsReadInOrder(trace: seq<World>, source: string) {
    forall p, q :: IsReading(trace, source, p) && IsReading(trace, source, q) && p.readAt <= q.readAt ==> AreReadInOrder(p, q)
  }

  /** While a source is read in order, no copy of it ever goes back. */
  lemma InOrderNoneGoesBack(c: Copy, stored: map<At, Listed>, trace: seq<World>, from: nat)
    requires Behaviour(trace) && AreOwnEdits(c, stored, trace, from) && c.source != "" && IsReadInOrder(trace, c.source)
    ensures forall k: nat, at, after {:trigger DidAt(trace, k, at, after)} ::
              from <= k && DidAt(trace, k, at, after) ==> !GoesBack(CellAt(trace[k].cells, at), after)
  {
    forall k: nat, at, after | from <= k && DidAt(trace, k, at, after) ensures !GoesBack(CellAt(trace[k].cells, at), after) {
      var before := CellAt(trace[k].cells, at);
      assert IsOwnEdit(c, stored, Edit(at, before, after));
      if GoesBack(before, after) {
        OwnIsStored(trace, k, at, after);
        assert IsStoredFrom(trace[k].cells, at, before.from) && IsStoredFrom(trace[k + 1].cells, at, after.from);
        assert IsReading(trace, c.source, before.from) && IsReading(trace, c.source, after.from);
        GoesBackIffReadOutOfOrder(c, stored, trace, from, k, at, after);
      }
    }
  }

  lemma OwnIsStored(trace: seq<World>, k: nat, at: At, after: Cell)
    requires Behaviour(trace) && DidAt(trace, k, at, after)
    ensures IsStoredFrom(trace[k + 1].cells, at, after.from)
  {
    assert StepsOn(trace, k);
    var act :| trace[k + 1] == Apply(trace[k], act);
    assert trace[k + 1].log[|trace[k].log|] == act;
  }

  lemma NumberOf(id: char, digit: char)
    requires id != '@' && IsDigit(digit)
    ensures NumberedVersion([id, '@', digit, '#']) == Some(Numbered([id], (digit - '0') as int))
  {
    var text := [id, '@', digit, '#'];
    assert text[1..] == ['@', digit, '#'] && text[1..][1..] == [digit, '#'];
    assert Cut(text[1..], '@') == Halves("", [digit, '#'], true);
    assert [id] + "" == [id] && [digit] + "" == [digit];
    assert Cut(text, '@') == Halves([id], [digit, '#'], true);
    assert [digit, '#'][1..] == ['#'] && Cut(['#'], '#').before == "";
    assert Cut([digit, '#'], '#').before == [digit];
    assert Digits([digit]) == Some((digit - '0') as nat) && Atoi([digit]) == Some((digit - '0') as int);
  }

  function Third(): Cell { Cell(1, "three", false, false, Provenance("s", ['p', '@', '3', '#'], 0, ""), 0) }

  function SecondCopy(at: At): Copy { Copy("s", 0, map[at := Value("two", "p@2")], [at.folder], [], _ => "") }

  lemma SecondIsOlder(at: At)
    ensures var c := SecondCopy(at);
            && VersionOf(c, c.read[at]) == ['p', '@', '2', '#'] && IsNewer(VersionOf(c, c.read[at]), "")
            && AreOrdered(VersionOf(c, c.read[at]), Third().from.version)
            && NumberedVersion(VersionOf(c, c.read[at])) == Some(Numbered("p", 2))
            && NumberedVersion(Third().from.version) == Some(Numbered("p", 3))
  {
    NumberOf('p', '2');
    NumberOf('p', '3');
    var c := SecondCopy(at);
    assert VersionOf(c, c.read[at]) == ['p', '@', '2', '#'];
  }

  /** If another forgets the cell and stores it anew, its versions count from one again, and a copy may go back if its source
      was read out of order too. */
  lemma ForgottenCellsMayGoBack(at: At) returns (stored: map<At, Listed>, trace: seq<World>, after: Cell)
    ensures var c := SecondCopy(at);
            && Behaviour(trace) && |trace| == 5 && DidAt(trace, 3, at, after)
            && IsKnown(stored, at, CellAt(trace[1].cells, at)) && AreOwnEdits(c, stored, trace, 1)
            && Live(CellAt(trace[3].cells, at)) > 0 && GoesBack(CellAt(trace[3].cells, at), after)
  {
    var first := Cell(1, "one", false, false, Provenance("s", "", 0, ""), 0);
    stored := map[at := Listed(at, "", 1, false, first.from)];
    after := Cell(2, "two", false, false, FromRead(SecondCopy(at), Value("two", "p@2")), 0);
    trace := StoredAnew(at, first, Third(), after);
    SecondGoesBack(at, stored, after);
  }

  lemma SecondGoesBack(at: At, stored: map<At, Listed>, after: Cell)
    requires stored == map[at := Listed(at, "", 1, false, Provenance("s", "", 0, ""))]
    requires after == Cell(2, "two", false, false, FromRead(SecondCopy(at), Value("two", "p@2")), 0)
    ensures GoesBack(Third().(revision := 2), after) && IsOwnEdit(SecondCopy(at), stored, Edit(at, Third().(revision := 2), after))
  {
    SecondIsOlder(at);
  }

  /** One stores a cell, forgets it and stores it anew, and the copy stores over that. */
  lemma StoredAnew(at: At, first: Cell, third: Cell, own: Cell) returns (trace: seq<World>)
    ensures Behaviour(trace) && |trace| == 5 && DidAt(trace, 3, at, own)
    ensures CellAt(trace[1].cells, at) == first.(revision := 1) && CellAt(trace[3].cells, at) == third.(revision := 2)
    ensures forall k: nat, other, cell {:trigger DidAt(trace, k, other, cell)} ::
              DidAt(trace, k, other, cell) ==> k == 3 && other == at && cell == own
  {
    trace := Extended([BLANK], Others(at, Some(first)));
    trace := Extended(trace, Others(at, None));
    trace := Extended(trace, Others(at, Some(third)));
    trace := Extended(trace, Own(at, own));
    forall k: nat, other, cell | DidAt(trace, k, other, cell) ensures k == 3 && other == at && cell == own {
      assert trace[k + 1].log[|trace[k].log|] == Own(other, cell);
    }
  }

  datatype CopyResult = CopyResult(present: seq<At>, written: seq<At>, upToDate: seq<At>, refused: seq<At>, removed: seq<At>)

  /** Copying brings a value in. */
  predicate Brings(c: Copy, at: At, current: Cell) {
    && IsCopied(c, at) && at in c.read && !IsUpToDate(c, current, c.read[at])
    && WriteOf(current, c.read[at].plaintext, FromRead(c, c.read[at]), Live(current)).Kept?
  }

  /** Copying removes a value. */
  predicate Removes(c: Copy, at: At, current: Cell) {
    && IsCopied(c, at) && at !in c.read && Live(current) > 0 && !current.reference && current.from.publisher == ""
    && DropOf(current, FromNone(c), Live(current)).Kept?
  }

  /** A listing has one entry for each cell. */
  predicate AreApart(listed: seq<Listed>) {
    forall i, j :: 0 <= i < j < |listed| && listed[i].environment == "" && listed[j].environment == "" ==> listed[i].at != listed[j].at
  }

  lemma {:induction false} FoundByCell(listed: seq<Listed>)
    requires AreApart(listed)
    ensures forall i :: 0 <= i < |listed| && listed[i].environment == "" ==> listed[i].at in ByCell(listed) && ByCell(listed)[listed[i].at] == listed[i]
    ensures forall at :: at in ByCell(listed) ==> exists i :: 0 <= i < |listed| && listed[i].environment == "" && listed[i].at == at
  {
    if listed != [] {
      var n := |listed| - 1;
      FoundByCell(listed[..n]);
      forall at | at in ByCell(listed) ensures exists i :: 0 <= i < |listed| && listed[i].environment == "" && listed[i].at == at {
        if at in ByCell(listed[..n]) {
          var i :| 0 <= i < n && listed[..n][i].environment == "" && listed[..n][i].at == at;
          assert listed[i].at == at;
        } else {
          assert listed[n].at == at;
        }
      }
    }
  }

  /** The listing is of these cells. */
  ghost predicate IsListing(listed: seq<Listed>, cells: Cells) {
    forall at :: IsKnown(ByCell(listed), at, CellAt(cells, at))
  }

  predicate IsListedAs(l: Listed, cell: Cell) {
    Live(cell) > 0 && l.version == Live(cell) && l.reference == cell.reference && l.from == cell.from
  }

  function SameButRevision(cell: Cell): Cell { cell.(revision := 0) }

  /** Copies one value read, unless it is there already. */
  method CopyOne(store: Values, c: Copy, stored: map<At, Listed>, at: At, result: CopyResult) returns (more: CopyResult)
    requires store.Valid() && at in c.read && IsCopied(c, at)
    modifies store
    ensures store.Advanced() && AreOwnEdits(c, stored, store.trace, |old(store.trace)| - 1)
    ensures more.present == result.present + [at] && more.removed == result.removed
    ensures more.written == result.written
            || (more.written == result.written + [at] && HasStored(store.trace, |old(store.trace)| - 1, at))
    ensures old(store.rivals) == [] && IsKnown(stored, at, CellAt(old(store.cells), at)) ==>
              && store.rivals == [] && IsCopiedTo(c, at, old(store.cells), store.cells)
              && more.written == result.written + (if Brings(c, at, CellAt(old(store.cells), at)) then [at] else [])
  {
    var next := c.read[at];
    more := result.(present := result.present + [at]);
    if WasUpToDate(c, stored, at) {
      return more.(upToDate := more.upToDate + [at]);
    }
    var answer := store.Write(at, next.plaintext, FromRead(c, next), ExpectedAt(stored, at));
    match answer
    case Kept(_) => more := more.(written := more.written + [at]);
    case Stale =>
    case _ => more := more.(refused := more.refused + [at]);
  }

  /** The listing is right about a cell. */
  predicate IsKnown(stored: map<At, Listed>, at: At, cell: Cell) {
    if at in stored then IsListedAs(stored[at], cell) else Live(cell) == 0
  }

  /** One cell has become what a copy makes of it, and the others are as they were. */
  ghost predicate IsCopiedTo(c: Copy, at: At, before: Cells, after: Cells) {
    && SameButRevision(CellAt(after, at)) == SameButRevision(CopiedCell(c, at, CellAt(before, at)))
    && forall other :: other != at ==> CellAt(after, other) == CellAt(before, other)
  }

  /** Removes one value that the source has no more. */
  method DropOne(store: Values, c: Copy, ghost stored: map<At, Listed>, l: Listed, result: CopyResult) returns (more: CopyResult)
    requires store.Valid() && l.at !in c.read && IsCopied(c, l.at) && !l.reference && l.from.publisher == ""
    requires l.at in stored && stored[l.at] == l
    modifies store
    ensures store.Advanced() && AreOwnEdits(c, stored, store.trace, |old(store.trace)| - 1)
    ensures more.present == result.present && more.written == result.written
    ensures old(store.rivals) == [] && IsListedAs(l, CellAt(old(store.cells), l.at)) ==>
              && store.rivals == [] && IsCopiedTo(c, l.at, old(store.cells), store.cells)
              && more.removed == result.removed + (if Removes(c, l.at, CellAt(old(store.cells), l.at)) then [l.at] else [])
  {
    var answer := store.Drop(l.at, FromNone(c), l.version);
    more := if answer.Kept? then result.(removed := result.removed + [l.at]) else result;
  }

  // The two loops.

  /** The order in which the values read are copied. */
  ghost predicate IsOrder(order: seq<At>, read: map<At, Value>) {
    (forall i, j :: 0 <= i < j < |order| ==> order[i] != order[j]) && forall at :: at in order <==> at in read
  }

  /** Some cells have become what a copy makes of them, and the others are as they were. */
  ghost predicate AreCopiedTo(c: Copy, done: set<At>, before: Cells, after: Cells) {
    forall at ::
      SameButRevision(CellAt(after, at)) ==
      SameButRevision(if at in done then CopiedCell(c, at, CellAt(before, at)) else CellAt(before, at))
      && (at !in done ==> CellAt(after, at) == CellAt(before, at))
  }

  lemma OneMoreCopied(c: Copy, done: set<At>, at: At, before: Cells, middle: Cells, after: Cells)
    requires AreCopiedTo(c, done, before, middle) && at !in done
    requires if IsCopied(c, at) then IsCopiedTo(c, at, middle, after) else CellAt(after, at) == CellAt(middle, at)
    requires forall other :: other != at ==> CellAt(after, other) == CellAt(middle, other)
    ensures AreCopiedTo(c, done + {at}, before, after)
  {
  }

  lemma EditsOn(c: Copy, stored: map<At, Listed>, shorter: seq<World>, trace: seq<World>, from: int)
    requires shorter != [] && shorter <= trace && from < |shorter|
    requires AreOwnEdits(c, stored, shorter, from) && AreOwnEdits(c, stored, trace, |shorter| - 1)
    ensures AreOwnEdits(c, stored, trace, from)
  {
    forall k: nat, at, after | from <= k && DidAt(trace, k, at, after)
      ensures IsOwnEdit(c, stored, Edit(at, CellAt(trace[k].cells, at), after))
    {
      assert k + 1 < |shorter| ==> DidAt(shorter, k, at, after);
    }
  }

  function SetOf(ats: seq<At>): set<At> { set at | at in ats }

  /** What is copied of these cells, in turn. */
  function BroughtOf(c: Copy, order: seq<At>, cells: Cells): seq<At> {
    if order == [] then []
    else
      var n := |order| - 1;
      BroughtOf(c, order[..n], cells) + if Brings(c, order[n], CellAt(cells, order[n])) then [order[n]] else []
  }

  function PresentOf(c: Copy, order: seq<At>): seq<At> {
    if order == [] then []
    else PresentOf(c, order[..|order| - 1]) + if IsCopied(c, order[|order| - 1]) then [order[|order| - 1]] else []
  }

  /** One turn of the copying. */
  method CopyNext(store: Values, c: Copy, stored: map<At, Listed>, order: seq<At>, i: nat, result: CopyResult, ghost before: Cells, ghost first: nat)
    returns (more: CopyResult)
    requires store.Valid() && IsOrder(order, c.read) && i < |order| && first < |store.trace|
    requires AreOwnEdits(c, stored, store.trace, first) && AreStored(result.written, store.trace, first)
    requires result.present == PresentOf(c, order[..i])
    modifies store
    ensures store.Advanced() && AreOwnEdits(c, stored, store.trace, first) && AreStored(more.written, store.trace, first)
    ensures more.present == PresentOf(c, order[..i + 1]) && more.removed == result.removed
    ensures old(store.rivals) == [] && IsKnown(stored, order[i], CellAt(before, order[i]))
            && AreCopiedTo(c, SetOf(order[..i]), before, old(store.cells)) && result.written == BroughtOf(c, order[..i], before) ==>
              && store.rivals == [] && AreCopiedTo(c, SetOf(order[..i + 1]), before, store.cells)
              && more.written == BroughtOf(c, order[..i + 1], before)
  {
    var at := order[i];
    more := result;
    assert order[..i + 1][..i] == order[..i] && SetOf(order[..i + 1]) == SetOf(order[..i]) + {at};
    assert at !in SetOf(order[..i]);
    ghost var calm := store.rivals == [] && AreCopiedTo(c, SetOf(order[..i]), before, store.cells)
                      && IsKnown(stored, at, CellAt(before, at));
    if IsCopied(c, at) {
      more := CopyOne(store, c, stored, at, result);
      OneMoreStored(old(store.trace), store.trace, first, result.written, more.written, at);
      EditsOn(c, stored, old(store.trace), store.trace, first);
    }
    if calm {
      OneMoreCopied(c, SetOf(order[..i]), at, before, old(store.cells), store.cells);
    }
  }

  method CopyEach(store: Values, c: Copy, listed: seq<Listed>, stored: map<At, Listed>, order: seq<At>) returns (result: CopyResult)
    requires store.Valid() && stored == ByCell(listed) && IsOrder(order, c.read)
    modifies store
    ensures store.Advanced() && AreOwnEdits(c, stored, store.trace, |old(store.trace)| - 1)
    ensures result.present == PresentOf(c, order) && result.removed == []
    ensures AreStored(result.written, store.trace, |old(store.trace)| - 1)
    ensures old(store.rivals) == [] && IsListing(listed, old(store.cells)) ==>
              && store.rivals == [] && AreCopiedTo(c, SetOf(order), old(store.cells), store.cells)
              && result.written == BroughtOf(c, order, old(store.cells))
  {
    result := CopyResult([], [], [], [], []);
    for i := 0 to |order|
      invariant store.Advanced() && AreOwnEdits(c, stored, store.trace, |old(store.trace)| - 1)
      invariant result.present == PresentOf(c, order[..i]) && result.removed == []
      invariant AreStored(result.written, store.trace, |old(store.trace)| - 1)
      invariant old(store.rivals) == [] && IsListing(listed, old(store.cells)) ==>
                  && store.rivals == [] && AreCopiedTo(c, SetOf(order[..i]), old(store.cells), store.cells)
                  && result.written == BroughtOf(c, order[..i], old(store.cells))
    {
      result := CopyNext(store, c, stored, order, i, result, old(store.cells), |old(store.trace)| - 1);
    }
    assert order[..|order|] == order;
  }

  /** What is removed of these cells, in turn. */
  function RemovedOf(c: Copy, listed: seq<Listed>, cells: Cells): seq<At> {
    if listed == [] then []
    else
      var n := |listed| - 1;
      RemovedOf(c, listed[..n], cells) +
      if listed[n].environment == "" && Removes(c, listed[n].at, CellAt(cells, listed[n].at)) then [listed[n].at] else []
  }

  /** The cells listed that the source has none of. */
  function Unread(c: Copy, listed: seq<Listed>): set<At> {
    set l | l in listed && l.environment == "" && l.at !in c.read :: l.at
  }

  predicate IsSpared(c: Copy, l: Listed) {
    l.environment != "" || l.reference || l.from.publisher != "" || !IsCopied(c, l.at) || l.at in c.read
  }

  /** The listing is right about the cells that the source has none of. */
  ghost predicate IsListingOfUnread(c: Copy, listed: seq<Listed>, cells: Cells) {
    forall at :: at !in c.read ==> IsKnown(ByCell(listed), at, CellAt(cells, at))
  }

  lemma SparedStays(c: Copy, listed: seq<Listed>, i: nat, cells: Cells)
    requires AreApart(listed) && i < |listed| && listed[i].environment == "" && listed[i].at !in c.read && IsSpared(c, listed[i])
    requires IsListingOfUnread(c, listed, cells)
    ensures CopiedCell(c, listed[i].at, CellAt(cells, listed[i].at)) == CellAt(cells, listed[i].at)
    ensures !Removes(c, listed[i].at, CellAt(cells, listed[i].at))
  {
    FoundByCell(listed);
  }

  lemma OneMoreUnread(c: Copy, listed: seq<Listed>, i: nat)
    requires i < |listed| && AreApart(listed)
    ensures var l := listed[i];
            && Unread(c, listed[..i + 1]) == Unread(c, listed[..i]) + (if l.environment == "" && l.at !in c.read then {l.at} else {})
            && (l.environment == "" ==> l.at !in Unread(c, listed[..i]))
  {
    assert listed[..i + 1] == listed[..i] + [listed[i]];
  }

  method DropEach(store: Values, c: Copy, listed: seq<Listed>, result: CopyResult) returns (more: CopyResult)
    requires store.Valid() && AreApart(listed) && result.removed == []
    modifies store
    ensures store.Advanced() && AreOwnEdits(c, ByCell(listed), store.trace, |old(store.trace)| - 1)
    ensures more.present == result.present && more.written == result.written
    ensures old(store.rivals) == [] && IsListingOfUnread(c, listed, old(store.cells)) ==>
              && store.rivals == [] && AreCopiedTo(c, Unread(c, listed), old(store.cells), store.cells)
              && more.removed == RemovedOf(c, listed, old(store.cells))
  {
    more := result;
    FoundByCell(listed);
    for i := 0 to |listed|
      invariant store.Advanced() && AreOwnEdits(c, ByCell(listed), store.trace, |old(store.trace)| - 1)
      invariant more.present == result.present && more.written == result.written
      invariant old(store.rivals) == [] && IsListingOfUnread(c, listed, old(store.cells)) ==>
                  && store.rivals == [] && AreCopiedTo(c, Unread(c, listed[..i]), old(store.cells), store.cells)
                  && more.removed == RemovedOf(c, listed[..i], old(store.cells))
    {
      more := DropNext(store, c, listed, i, more, old(store.cells), |old(store.trace)| - 1);
    }
    assert listed[..|listed|] == listed;
  }

  /** One turn of the removals. */
  method DropNext(store: Values, c: Copy, listed: seq<Listed>, i: nat, result: CopyResult, ghost before: Cells, ghost first: nat)
    returns (more: CopyResult)
    requires store.Valid() && AreApart(listed) && i < |listed| && first < |store.trace| && AreOwnEdits(c, ByCell(listed), store.trace, first)
    modifies store
    ensures store.Advanced() && AreOwnEdits(c, ByCell(listed), store.trace, first)
    ensures more.present == result.present && more.written == result.written
    ensures old(store.rivals) == [] && IsListingOfUnread(c, listed, before)
            && AreCopiedTo(c, Unread(c, listed[..i]), before, old(store.cells)) && result.removed == RemovedOf(c, listed[..i], before) ==>
              && store.rivals == [] && AreCopiedTo(c, Unread(c, listed[..i + 1]), before, store.cells)
              && more.removed == RemovedOf(c, listed[..i + 1], before)
  {
    var l := listed[i];
    more := result;
    FoundByCell(listed);
    OneMoreUnread(c, listed, i);
    assert listed[..i + 1][..i] == listed[..i];
    ghost var calm := store.rivals == [] && IsListingOfUnread(c, listed, before)
                      && AreCopiedTo(c, Unread(c, listed[..i]), before, store.cells);
    if calm && l.environment == "" && l.at !in c.read {
      assert CellAt(store.cells, l.at) == CellAt(before, l.at);
      if IsSpared(c, l) {
        SparedStays(c, listed, i, before);
      }
    }
    if !IsSpared(c, l) {
      more := DropOne(store, c, ByCell(listed), l, result);
      EditsOn(c, ByCell(listed), old(store.trace), store.trace, first);
      if calm {
        OneMoreCopied(c, Unread(c, listed[..i]), l.at, before, old(store.cells), store.cells);
      }
    }
  }

  /** Copies what was read of a source into the variables listed. Whatever others write meanwhile, every write of its own
      is over what was listed and over no later reading; undisturbed, each cell becomes what a copy makes of it. */
  method CopyValues(store: Values, c: Copy, listed: seq<Listed>, order: seq<At>) returns (result: CopyResult)
    requires store.Valid() && AreApart(listed) && IsOrder(order, c.read)
    modifies store
    ensures store.Advanced() && AreOwnEdits(c, ByCell(listed), store.trace, |old(store.trace)| - 1)
    ensures result.present == PresentOf(c, order) && AreStored(result.written, store.trace, |old(store.trace)| - 1)
    ensures old(store.rivals) == [] && IsListing(listed, old(store.cells)) ==>
              && IsCopyOf(c, old(store.cells), store.cells)
              && result.written == BroughtOf(c, order, old(store.cells)) && result.removed == RemovedOf(c, listed, old(store.cells))
  {
    var stored := ByCell(listed);
    result := CopyEach(store, c, listed, stored, order);
    ghost var middle, shorter := store.cells, store.trace;
    result := DropEach(store, c, listed, result);
    StoredStill(shorter, store.trace, |old(store.trace)| - 1, result.written);
    EditsOn(c, stored, shorter, store.trace, |old(store.trace)| - 1);
    if old(store.rivals) == [] && IsListing(listed, old(store.cells)) {
      BothLoopsCopy(c, listed, order, old(store.cells), middle, store.cells);
    }
  }

  /** Every cell has become what a copy makes of it. */
  ghost predicate IsCopyOf(c: Copy, before: Cells, after: Cells) {
    forall at :: SameButRevision(CellAt(after, at)) == SameButRevision(CopiedCell(c, at, CellAt(before, at)))
  }

  lemma BothLoopsCopy(c: Copy, listed: seq<Listed>, order: seq<At>, before: Cells, middle: Cells, after: Cells)
    requires AreApart(listed) && IsOrder(order, c.read) && IsListing(listed, before)
    requires AreCopiedTo(c, SetOf(order), before, middle)
    requires IsListingOfUnread(c, listed, middle) ==> AreCopiedTo(c, Unread(c, listed), middle, after)
    ensures IsCopyOf(c, before, after) && RemovedOf(c, listed, middle) == RemovedOf(c, listed, before)
  {
    forall at | at !in c.read ensures CellAt(middle, at) == CellAt(before, at) {
      assert at !in SetOf(order);
    }
    FoundByCell(listed);
    forall at ensures SameButRevision(CellAt(after, at)) == SameButRevision(CopiedCell(c, at, CellAt(before, at))) {
      if at in c.read {
        assert at in SetOf(order) && at !in Unread(c, listed);
      } else if at !in Unread(c, listed) {
        assert at !in ByCell(listed) && IsKnown(ByCell(listed), at, CellAt(before, at));
      }
    }
    SameRemoved(c, listed, before, middle);
  }

  lemma {:induction false} SameRemoved(c: Copy, listed: seq<Listed>, before: Cells, middle: Cells)
    requires forall at :: at !in c.read ==> CellAt(middle, at) == CellAt(before, at)
    ensures RemovedOf(c, listed, middle) == RemovedOf(c, listed, before)
  {
    if listed != [] {
      SameRemoved(c, listed[..|listed| - 1], before, middle);
    }
  }

  /** Copies converge: with no later reading in the store, copying once more what was read, then or later, brings in and
      removes nothing. */
  lemma CopiesConverge(c: Copy, again: Copy, before: Cells, after: Cells, listed: seq<Listed>, order: seq<At>)
    requires again == c.(readAt := again.readAt) && c.readAt <= again.readAt && c.source != "" && IsCopyOf(c, before, after)
    requires forall at :: !IsOlder(FromNone(c), CellAt(before, at).from)
    ensures BroughtOf(again, order, after) == [] && RemovedOf(again, listed, after) == []
  {
    forall at ensures !Brings(again, at, CellAt(after, at)) && !Removes(again, at, CellAt(after, at)) {
      var cell := CellAt(before, at);
      assert SameButRevision(CellAt(after, at)) == SameButRevision(CopiedCell(c, at, cell));
      assert !Brings(again, at, CopiedCell(c, at, cell)) && !Removes(again, at, CopiedCell(c, at, cell));
    }
    NothingBrought(again, order, after);
    NothingRemoved(again, listed, after);
  }

  lemma {:induction false} NothingBrought(c: Copy, order: seq<At>, cells: Cells)
    requires forall at :: !Brings(c, at, CellAt(cells, at))
    ensures BroughtOf(c, order, cells) == []
  {
    if order != [] {
      NothingBrought(c, order[..|order| - 1], cells);
    }
  }

  lemma {:induction false} NothingRemoved(c: Copy, listed: seq<Listed>, cells: Cells)
    requires forall at :: !Removes(c, at, CellAt(cells, at))
    ensures RemovedOf(c, listed, cells) == []
  {
    if listed != [] {
      NothingRemoved(c, listed[..|listed| - 1], cells);
    }
  }
}
