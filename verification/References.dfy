/** `pkg/variablestore/store.go` and `references.go`: variables, which hold a value or refer to one that does, the
    history of their versions, and the index of what refers to each. */
module References {
  import opened Wrappers

  const HISTORY_WINDOW := 50
  const MAX_VALUE_BYTES := 4096
  const TIER_WIDE := "*"
  const ROOT_FOLDER := "/"

  /** Where a variable is kept. The empty folder and the empty environment are other names of the root folder and of
      the whole tier. */
  datatype At = At(project: string, folder: string, key: string, environment: string)

  datatype Target = Target(project: string, folder: string, key: string)

  function Canonical(at: At): At {
    at.(folder := if at.folder == "" then ROOT_FOLDER else at.folder,
        environment := if at.environment == "" then TIER_WIDE else at.environment)
  }

  /** A reference names a variable of the whole tier. */
  function AddressOf(target: Target): At { Canonical(At(target.project, target.folder, target.key, "")) }

  predicate IsSameName(a: string, b: string, default: string) { a == b || (a in {"", default} && b in {"", default}) }

  predicate IsSameVariable(a: At, b: At) {
    a.project == b.project && a.key == b.key && IsSameName(a.folder, b.folder, "/") && IsSameName(a.environment, b.environment, "*")
  }

  /** Two addresses are kept as one exactly if they are of one variable, by whatever names, and what they are kept as is one of
      these names. */
  lemma CanonicalNamesOneVariable(a: At, b: At)
    ensures Canonical(a) == Canonical(b) <==> IsSameVariable(a, b)
    ensures IsSameVariable(Canonical(a), a) && Canonical(a).folder != "" && Canonical(a).environment != ""
  {
  }

  lemma TargetsAreTierWide(target: Target)
    ensures IsSameVariable(AddressOf(target), At(target.project, target.folder, target.key, "*"))
    ensures Canonical(AddressOf(target)) == AddressOf(target)
  {
  }

  datatype Cell = Cell(version: nat, sealed: string, deleted: bool, target: Option<Target>)

  const NOTHING := Cell(0, "", false, None)

  type Cells = map<At, Cell>

  function CellAt(cells: Cells, at: At): Cell {
    if Canonical(at) in cells then cells[Canonical(at)] else NOTHING
  }

  function Live(cell: Cell): nat { if cell.deleted then 0 else cell.version }

  predicate RefersTo(cells: Cells, at: At, to: At) {
    at in cells && cells[at].target.Some? && AddressOf(cells[at].target.value) == to
  }

  predicate IsReference(cells: Cells, at: At) { at in cells && cells[at].target.Some? }

  /** No reference refers to a reference. */
  predicate OneHop(cells: Cells) {
    forall at :: at in cells && cells[at].target.Some? ==> !IsReference(cells, AddressOf(cells[at].target.value))
  }

  /** Cells are kept under canonical names and hold a version; a deleted one holds nothing else. */
  predicate AreCells(cells: Cells) {
    forall at :: at in cells ==>
      Canonical(at) == at && cells[at].version > 0 && (cells[at].deleted || cells[at].target.Some? ==> cells[at].sealed == "")
      && (cells[at].deleted ==> cells[at].target.None?)
  }

  // What may be checked before a reference is set, and what two checked at once come to.

  /** What `SetReference` checks: the target is another variable and no reference, and nothing refers to the one set. */
  predicate MayRefer(cells: Cells, at: At, target: Target) {
    && target.project != "" && AddressOf(target) != Canonical(at) && !IsReference(cells, AddressOf(target))
    && forall other :: other in cells ==> !RefersTo(cells, other, Canonical(at))
  }

  function Referring(cells: Cells, at: At, target: Target): Cells {
    cells[Canonical(at) := Cell(CellAt(cells, at).version + 1, "", false, Some(target))]
  }

  lemma ReferringKeepsOneHop(cells: Cells, at: At, target: Target)
    requires OneHop(cells) && MayRefer(cells, at, target)
    ensures OneHop(Referring(cells, at, target))
  {
  }

  /** Two references, each checked before either was written, keep one hop if and only if neither refers to the other:
      checking and writing are not one step. */
  lemma TwoCheckedAtOnce(cells: Cells, a: At, t: Target, b: At, u: Target)
    requires OneHop(cells) && MayRefer(cells, a, t) && MayRefer(cells, b, u) && Canonical(a) != Canonical(b)
    ensures OneHop(Referring(Referring(cells, a, t), b, u)) <==> AddressOf(t) != Canonical(b) && AddressOf(u) != Canonical(a)
  {
    var after := Referring(Referring(cells, a, t), b, u);
    assert after[Canonical(a)].target == Some(t) && after[Canonical(b)].target == Some(u);
    if AddressOf(t) != Canonical(b) && AddressOf(u) != Canonical(a) {
      forall at | at in after && after[at].target.Some? ensures !IsReference(after, AddressOf(after[at].target.value)) {
        if at != Canonical(a) && at != Canonical(b) {
          assert !RefersTo(cells, at, Canonical(a)) && !RefersTo(cells, at, Canonical(b));
        }
      }
    }
  }

  // The store, used by one caller at a time.

  datatype Outcome = Done(version: nat) | TooLarge | IsAReference | StaleVersion | WouldDeepen | NoProject

  datatype Read = Value(sealed: string, source: At) | NotFound | Dangling | Deepened

  /** The history kept of a variable at this version: the last fifty versions. */
  ghost predicate IsWindow(kept: set<nat>, version: nat) {
    forall v: nat :: v in kept <==> 1 <= v <= version < v + HISTORY_WINDOW
  }

  ghost predicate AreHistories(cells: Cells, history: map<At, set<nat>>) {
    forall at :: IsWindow(HistoryAt(history, at), if at in cells then cells[at].version else 0)
  }

  /** Which pair of the index a variable's own reference is. */
  function PairOf(cells: Cells, at: At): set<(At, At)> {
    if IsReference(cells, at) then {(AddressOf(cells[at].target.value), at)} else {}
  }

  lemma IndexFollows(cells: Cells, refs: set<(At, At)>, at: At, target: Target)
    requires IsIndex(cells, refs)
    ensures IsIndex(Referring(cells, at, target), refs - PairOf(cells, Canonical(at)) + {(AddressOf(target), Canonical(at))})
  {
    var after := Referring(cells, at, target);
    forall to, a ensures (to, a) in refs - PairOf(cells, Canonical(at)) + {(AddressOf(target), Canonical(at))} <==> RefersTo(after, a, to) {
      if a == Canonical(at) {
        assert (to, a) in refs ==> (to, a) in PairOf(cells, a);
      }
    }
  }

  lemma IndexForgets(cells: Cells, refs: set<(At, At)>, at: At, cell: Cell)
    requires IsIndex(cells, refs) && cell.target.None?
    ensures IsIndex(cells[at := cell], refs - PairOf(cells, at))
  {
    forall to, a ensures (to, a) in refs - PairOf(cells, at) <==> RefersTo(cells[at := cell], a, to) {
      if a == at {
        assert (to, a) in refs ==> (to, a) in PairOf(cells, a);
      }
    }
  }

  class Store {
    var cells: Cells
    /** What the index holds: pairs of a variable and one that refers to it. */
    var refs: set<(At, At)>
    var history: map<At, set<nat>>

    constructor ()
      ensures Valid() && cells == map[] && refs == {} && history == map[]
    {
      cells, refs, history := map[], {}, map[];
    }

    /** References go one hop, the index is exactly theirs, and every history is the last fifty versions. */
    ghost predicate Valid()
      reads this
    {
      AreCells(cells) && OneHop(cells) && IsIndex(cells, refs) && AreHistories(cells, history)
    }

    /** `commit`, once nothing refuses it. */
    method Commit(at: At, next: Cell)
      requires AreHistories(cells, history)
      modifies this`cells, this`history
      ensures cells == old(cells)[Canonical(at) := next.(version := CellAt(old(cells), at).version + 1)]
      ensures AreHistories(cells, history)
    {
      var version := CellAt(cells, at).version + 1;
      cells := cells[Canonical(at) := next.(version := version)];
      Remember(Canonical(at), version);
    }

    /** `remember`: the version is added, and the one fifty before it dropped. */
    method Remember(at: At, version: nat)
      requires version > 0
      modifies this`history
      ensures IsWindow(HistoryAt(old(history), at), version - 1) ==> IsWindow(HistoryAt(history, at), version)
      ensures forall a :: a != at ==> HistoryAt(history, a) == HistoryAt(old(history), a)
    {
      var kept := HistoryAt(history, at) + {version};
      if version > HISTORY_WINDOW {
        kept := kept - {version - HISTORY_WINDOW};
      }
      history := history[at := kept];
    }

    /** Stores a value, unless the variable is a reference, whose value is edited where it is kept. */
    method Set(at: At, plaintext: string, expected: Option<nat>) returns (outcome: Outcome)
      requires Valid()
      modifies this
      ensures Valid()
      ensures outcome.Done? <==>
                && |plaintext| <= MAX_VALUE_BYTES && !IsReference(old(cells), Canonical(at))
                && (expected.Some? ==> expected.value == Live(CellAt(old(cells), at)))
      ensures !outcome.Done? ==> cells == old(cells) && refs == old(refs)
      ensures outcome.Done? ==>
                && outcome.version == CellAt(old(cells), at).version + 1 && refs == old(refs)
                && cells == old(cells)[Canonical(at) := Cell(outcome.version, plaintext, false, None)]
    {
      var current := CellAt(cells, at);
      if |plaintext| > MAX_VALUE_BYTES {
        return TooLarge;
      } else if current.target.Some? {
        return IsAReference;
      } else if expected.Some? && expected.value != Live(current) {
        return StaleVersion;
      }
      Commit(at, Cell(0, plaintext, false, None));
      return Done(CellAt(cells, at).version);
    }

    /** What refers to a variable, as the index says. Only a variable of the whole tier is ever referred to. */
    method References(at: At) returns (consumers: set<At>)
      requires Valid()
      ensures forall a :: a in consumers <==> RefersTo(cells, a, Canonical(at))
    {
      if at.environment != "" && at.environment != TIER_WIDE {
        return {};
      }
      consumers := set pair | pair in refs && pair.0 == Canonical(at) :: pair.1;
    }

    /** Sets a reference exactly if that leaves every reference one hop from a value. */
    method SetReference(at: At, target: Target) returns (outcome: Outcome)
      requires Valid()
      modifies this
      ensures Valid()
      ensures outcome.Done? <==> MayRefer(old(cells), at, target)
      ensures outcome.Done? ==> cells == Referring(old(cells), at, target) && outcome.version == CellAt(old(cells), at).version + 1
      ensures !outcome.Done? ==> cells == old(cells) && refs == old(refs)
    {
      if target.project == "" {
        return NoProject;
      } else if Canonical(at) == AddressOf(target) || CellAt(cells, AddressOf(target)).target.Some? {
        return WouldDeepen;
      }
      var consumers := References(at);
      if |consumers| > 0 {
        var other :| other in consumers;
        assert RefersTo(cells, other, Canonical(at));
        return WouldDeepen;
      }
      Refer(at, target);
      return Done(CellAt(cells, at).version);
    }

    /** A reference leaves the index. */
    method Unlink(at: At)
      requires AreCells(cells)
      modifies this`refs
      ensures refs == old(refs) - PairOf(cells, Canonical(at))
    {
      var current := CellAt(cells, at);
      if current.target.Some? {
        refs := refs - {(AddressOf(current.target.value), Canonical(at))};
      }
    }

    /** The writes of `SetReference`: the old reference leaves the index, the cell is written, and the new one enters it. */
    method Refer(at: At, target: Target)
      requires Valid() && MayRefer(cells, at, target)
      modifies this
      ensures Valid() && cells == Referring(old(cells), at, target)
    {
      ReferringKeepsOneHop(cells, at, target);
      IndexFollows(cells, refs, at, target);
      Unlink(at);
      Commit(at, Cell(0, "", false, Some(target)));
      refs := refs + {(AddressOf(target), Canonical(at))};
    }

    /** Deletes a variable, leaving its version behind so that the next write counts on from it. */
    method Delete(at: At, expected: Option<nat>) returns (deleted: bool, stale: bool)
      requires Valid()
      modifies this
      ensures Valid()
      ensures stale <==> expected.Some? && expected.value != Live(CellAt(old(cells), at))
      ensures deleted <==> !stale && Live(CellAt(old(cells), at)) > 0
      ensures !deleted ==> cells == old(cells) && refs == old(refs)
      ensures deleted ==> cells == old(cells)[Canonical(at) := Cell(CellAt(old(cells), at).version, "", true, None)]
    {
      var current := CellAt(cells, at);
      if expected.Some? && expected.value != Live(current) {
        return false, true;
      } else if Live(current) == 0 {
        return false, false;
      }
      IndexForgets(cells, refs, Canonical(at), Cell(current.version, "", true, None));
      Unlink(at);
      cells := cells[Canonical(at) := Cell(current.version, "", true, None)];
      return true, false;
    }

    /** Reads a variable through its reference, if it is one. It never finds a reference behind it. */
    method Get(at: At) returns (read: Read)
      requires Valid()
      ensures read != Deepened
      ensures read == NotFound <==> Live(CellAt(cells, at)) == 0
      ensures read == Dangling <==> IsReference(cells, Canonical(at)) && Live(CellAt(cells, AddressOf(CellAt(cells, at).target.value))) == 0
      ensures read.Value? ==>
                && read.source == (if IsReference(cells, Canonical(at)) then AddressOf(CellAt(cells, at).target.value) else Canonical(at))
                && read.source in cells && !cells[read.source].deleted && cells[read.source].target.None?
                && read.sealed == cells[read.source].sealed
    {
      var cell := CellAt(cells, at);
      if Live(cell) == 0 {
        return NotFound;
      } else if cell.target.None? {
        return Value(cell.sealed, Canonical(at));
      }
      var sourceAt := AddressOf(cell.target.value);
      var source := CellAt(cells, sourceAt);
      return if Live(source) == 0 then Dangling else if source.target.Some? then Deepened else Value(source.sealed, sourceAt);
    }
  }

  function HistoryAt(history: map<At, set<nat>>, at: At): set<nat> { if at in history then history[at] else {} }

  /** The index has a pair for each reference, and no other. */
  ghost predicate IsIndex(cells: Cells, refs: set<(At, At)>) {
    forall to, at :: (to, at) in refs <==> RefersTo(cells, at, to)
  }
}
