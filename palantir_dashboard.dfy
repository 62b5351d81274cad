/**
  A palantir dashboard directory (palantir/palantir.py): the structure
  document `data/structure.json` and one cell document `data/{row}-{col}.json`
  per key, with the `create`, `update` and `cell` operations and the
  read-modify-write discipline of `update_json`.
 */
module Palantir {
  import opened Wrappers
  import opened Text
  import opened PalantirStructure
  import opened PalantirCell
  import opened Ident

  /** A JSON document on disk: readable, or truncated to nothing by a failed update. */
  datatype Doc<T> = Valid(value: T) | Emptied

  /**
    The end of `update_json`: the callback's result is written back only when
    it differs from the loaded document; otherwise the file, already
    truncated, stays empty and the call fails.
   */
  function Commit<T(==)>(loaded: T, out: Result<T, Failure>): (Doc<T>, Result<T, Failure>) {
    match out
    case Err(e) => (Emptied, Err(e))
    case Ok(v) => if v != loaded then (Valid(v), Ok(v)) else (Emptied, Err(NotCompleted))
  }

  /** A commit writes iff the callback succeeded with a change, and then writes exactly that result. */
  lemma CommitWritesOnlyChanges<T>(loaded: T, out: Result<T, Failure>)
    ensures Commit(loaded, out).0.Valid? <==> out.Ok? && out.value != loaded
    ensures Commit(loaded, out).0.Valid? ==> Commit(loaded, out).0.value == out.value
    ensures Commit(loaded, out).1.Ok? <==> Commit(loaded, out).0.Valid?
    ensures Commit(loaded, out).1.Err? ==> Commit(loaded, out).0 == Emptied
  {
  }

  /** The default cells written for `keys`. */
  function Defaults(keys: set<string>): map<string, Doc<Cell>> {
    map k | k in keys :: Valid(DefaultCell(k))
  }

  /** The cell files after an accepted update: the deleted keys unlinked, then the created keys written. */
  function CellEffects(cells: map<string, Doc<Cell>>, s: Structure, e: Edit): map<string, Doc<Cell>> {
    (cells - DeletedKeys(s, e)) + Defaults(CreatedKeys(s, e))
  }

  /**
    The design's invariant, where the keys are unambiguous: if every pair of
    the input structure has a cell, every pair of the updated structure has
    one after the update. It needs row ids without `-`, and ids unique on
    each axis.
   */
  lemma {:induction false} UpdateKeepsCellPerPair(cells: map<string, Doc<Cell>>, s: Structure,
      addCols: seq<string>, rmCols: seq<string>, addRows: seq<string>, rmRows: seq<string>)
    requires UniqueIds(s.rows) && UniqueIds(s.cols)
    requires DashFree(IdSet(s.rows)) && DashFree(IdifyAll(addRows))
    requires Keys(IdSet(s.rows), IdSet(s.cols)) <= cells.Keys
    ensures var e := Plan(s, addCols, rmCols, addRows, rmRows);
      Keys(IdSet(e.working.rows), IdSet(e.working.cols)) <= CellEffects(cells, s, e).Keys
  {
    var e := Plan(s, addCols, rmCols, addRows, rmRows);
    var rows, cols := s.rows + e.addedRows, s.cols + e.addedCols;
    AddedIds(s.rows, addRows);
    AddedIds(s.cols, addCols);
    IdSetConcat(s.rows, e.addedRows);
    IdSetConcat(s.cols, e.addedCols);
    RemovedIdsExactly(rows, rmRows);
    RemovedIdsExactly(cols, rmCols);
    assert DashFree(IdSet(rows));
    forall k | k in Keys(IdSet(e.working.rows), IdSet(e.working.cols)) ensures k in CellEffects(cells, s, e).Keys {
      var r, c :| r in IdSet(e.working.rows) && c in IdSet(e.working.cols) && k == CellId(r, c);
      SurvivorKept(s.rows, e.addedRows, rmRows, r);
      SurvivorKept(s.cols, e.addedCols, rmCols, c);
      var finalRows := FinalIds(s.rows, e.removedRows, e.addedRows);
      var finalCols := FinalIds(s.cols, e.removedCols, e.addedCols);
      if r in IdSet(e.addedRows) {
        assert k in Keys(IdSet(e.addedRows), finalCols);
      } else if c in IdSet(e.addedCols) {
        assert k in Keys(finalRows, IdSet(e.addedCols));
      } else {
        assert k in cells;
        forall r2, c2 | r2 in IdSet(s.rows) && c2 in e.removedCols ensures CellId(r2, c2) != k {
          if CellId(r2, c2) == k {
            CellIdInjective(r2, c2, r, c);
          }
        }
        forall r2, c2 | r2 in e.removedRows && c2 in IdSet(s.cols) ensures CellId(r2, c2) != k {
          if CellId(r2, c2) == k {
            CellIdInjective(r2, c2, r, c);
          }
        }
        assert k !in DeletedKeys(s, e);
      }
    }
  }

  /**
    Without that, the invariant fails: with rows `a`, `a-b` and columns `c`,
    `b-c`, every id unique and every pair with its cell, removing the column
    `b-c` unlinks `a-b-c`, which is also the cell of the surviving pair
    (`a-b`, `c`).
   */
  lemma RemovingColumnUnlinksOtherPair(cells: map<string, Doc<Cell>>)
    requires cells == Defaults(Keys({"a", "a-b"}, {"c", "b-c"}))
    ensures var s := Structure("d", [Entry("a", "a"), Entry("a-b", "a-b")], [Entry("c", "c"), Entry("b-c", "b-c")]);
      var e := Plan(s, [], ["b-c"], [], []);
      && UniqueIds(s.rows) && UniqueIds(s.cols)
      && Keys(IdSet(s.rows), IdSet(s.cols)) <= cells.Keys
      && Accepted(e)
      && "a-b" in IdSet(e.working.rows) && "c" in IdSet(e.working.cols)
      && CellId("a-b", "c") !in CellEffects(cells, s, e).Keys
  {
    var s := Structure("d", [Entry("a", "a"), Entry("a-b", "a-b")], [Entry("c", "c"), Entry("b-c", "b-c")]);
    var e := Plan(s, [], ["b-c"], [], []);
    ExampleIds(s);
    ExamplePlan(s, e);
    ExampleLost(cells, s, e);
  }

  lemma ExampleIds(s: Structure)
    requires s == Structure("d", [Entry("a", "a"), Entry("a-b", "a-b")], [Entry("c", "c"), Entry("b-c", "b-c")])
    ensures IdSet(s.rows) == {"a", "a-b"} && IdSet(s.cols) == {"c", "b-c"}
    ensures UniqueIds(s.rows) && UniqueIds(s.cols)
  {
    IdSetCons(s.rows);
    IdSetCons(s.cols);
  }

  /** The example's surviving pair (`a-b`, `c`) loses its cell. */
  lemma ExampleLost(cells: map<string, Doc<Cell>>, s: Structure, e: Edit)
    requires IdSet(s.rows) == {"a", "a-b"} && IdSet(s.cols) == {"c", "b-c"}
    requires e.addedRows == [] && e.addedCols == [] && e.removedCols == {"b-c"}
    ensures CellId("a-b", "c") !in CellEffects(cells, s, e).Keys
  {
    assert CellId("a", "b-c") in DeletedKeys(s, e);
    assert CellId("a", "b-c") == CellId("a-b", "c");
    assert CreatedKeys(s, e) == {} by {
      assert IdSet(e.addedRows) == {} && IdSet(e.addedCols) == {};
    }
  }

  /** What the plan of the example does: drop the column `b-c`, nothing else. */
  lemma ExamplePlan(s: Structure, e: Edit)
    requires s == Structure("d", [Entry("a", "a"), Entry("a-b", "a-b")], [Entry("c", "c"), Entry("b-c", "b-c")])
    requires e == Plan(s, [], ["b-c"], [], [])
    ensures e.addedRows == [] && e.addedCols == []
    ensures e.working.rows == s.rows && e.working.cols == [Entry("c", "c")]
    ensures e.removedRows == {} && e.removedCols == {"b-c"}
  {
    assert s.cols + [] == s.cols && s.rows + [] == s.rows;
    ExampleColumnRemoved(s.cols);
  }

  lemma ExampleColumnRemoved(cols: seq<Entry>)
    requires cols == [Entry("c", "c"), Entry("b-c", "b-c")]
    ensures RemoveNames(cols, ["b-c"]) == [Entry("c", "c")]
    ensures RemovedIds(cols, ["b-c"]) == {"b-c"}
  {
    IdifyOfId("b-c");
    assert IdifyAll(["b-c"]) == {"b-c"};
    RemoveNamesUnique(cols, ["b-c"]);
    RemovedIdsExactly(cols, ["b-c"]);
    assert IdSet(cols) == {"c", "b-c"} by {
      IdSetCons(cols);
    }
  }

  /** The entries an add list appends (palantir/palantir.py:110-121). */
  method AppendNew(existing: seq<Entry>, names: seq<string>) returns (added: seq<Entry>)
    ensures added == AddEntries(existing, names)
  {
    added := [];
    for k := 0 to |names|
      invariant added == AddEntries(existing, names[..k])
    {
      var id := Ident.Idify(names[k]);
      if id !in IdSet(existing) {
        added := added + [Entry(id, names[k])];
      }
      assert names[..k + 1][..k] == names[..k];
    }
    assert names[..|names|] == names;
  }

  /**
    A remove list applied to `w0` (palantir/palantir.py:122-135): for each
    name whose id is present, Python's loop over the list it shrinks,
    recording the id once per entry it removes.
   */
  method RemoveLoop(w0: seq<Entry>, names: seq<string>) returns (w: seq<Entry>, removed: seq<string>)
    ensures w == RemoveNames(w0, names)
    ensures ToSet(removed) == RemovedIds(w0, names)
  {
    w := w0;
    removed := [];
    for k := 0 to |names|
      invariant w == RemoveNames(w0, names[..k])
      invariant ToSet(removed) == RemovedIds(w0, names[..k])
    {
      assert names[..k + 1][..k] == names[..k];
      var id := Ident.Idify(names[k]);
      if id in IdSet(w) {
        var start, before := w, removed;
        var i: nat := 0;
        while i < |w|
          invariant ScanRemove(w, i, id) == ScanRemove(start, 0, id)
          invariant |w| <= |start|
          invariant ToSet(removed) == ToSet(before) + (if |w| < |start| then {id} else {})
          decreases |w| - i
        {
          if w[i].id == id {
            w := RemoveFirst(w, w[i]);
            removed := removed + [id];
          }
          i := i + 1;
        }
        var e :| e in start && e.id == id;
        var j :| 0 <= j < |start| && start[j] == e;
        ScanRemoveShrinks(start, 0, id, j);
      }
    }
    assert names[..|names|] == names;
  }

  /** `{0}-{1}` keys of every row in `rs` and column in `cs`, gathered as a set. */
  method CollectKeys(rs: set<string>, cs: set<string>) returns (ks: set<string>)
    ensures ks == Keys(rs, cs)
  {
    ks := {};
    var todo := cs;
    while todo != {}
      invariant todo <= cs
      invariant ks == Keys(rs, cs - todo)
      decreases |todo|
    {
      var c :| c in todo;
      var inner := rs;
      while inner != {}
        invariant inner <= rs
        invariant ks == Keys(rs, cs - todo) + Keys(rs - inner, {c})
        decreases |inner|
      {
        var r :| r in inner;
        KeysUnionRows(rs - inner, {r}, {c});
        KeysSingle(r, c);
        assert rs - (inner - {r}) == (rs - inner) + {r};
        ks := ks + {CellId(r, c)};
        inner := inner - {r};
      }
      KeysUnionCols(rs, cs - todo, {c});
      assert cs - (todo - {c}) == (cs - todo) + {c};
      todo := todo - {c};
    }
  }

  class Dashboard {
    var structure: Doc<Structure>
    var cells: map<string, Doc<Cell>>

    /** `create` (palantir/palantir.py:226-244): a named, empty structure and no cells. */
    constructor (name: string)
      ensures structure == Valid(Structure(name, [], []))
      ensures cells == map[]
    {
      structure := Valid(Structure(name, [], []));
      cells := map[];
    }

    /** Unlink the cell files named by `keys`; a missing file is ignored. */
    method DeleteCells(keys: seq<string>)
      modifies this`cells
      ensures cells == old(cells) - ToSet(keys)
    {
      for i := 0 to |keys|
        invariant cells == old(cells) - ToSet(keys[..i])
      {
        assert ToSet(keys[..i + 1]) == ToSet(keys[..i]) + {keys[i]} by {
          assert keys[..i + 1] == keys[..i] + [keys[i]];
        }
        cells := cells - {keys[i]};
      }
      assert keys[..|keys|] == keys;
    }

    /** Unlink the cells of every original row in each removed column (palantir/palantir.py:137-142). */
    method UnlinkColumns(rows: seq<Entry>, removedCols: seq<string>)
      modifies this`cells
      ensures cells == old(cells) - Keys(IdSet(rows), ToSet(removedCols))
    {
      for j := 0 to |removedCols|
        invariant cells == old(cells) - Keys(IdSet(rows), ToSet(removedCols[..j]))
      {
        assert ToSet(removedCols[..j + 1]) == ToSet(removedCols[..j]) + {removedCols[j]} by {
          assert removedCols[..j + 1] == removedCols[..j] + [removedCols[j]];
        }
        KeysUnionCols(IdSet(rows), ToSet(removedCols[..j]), {removedCols[j]});
        DeleteCells(ColumnKeys(rows, removedCols[j]));
      }
      assert removedCols[..|removedCols|] == removedCols;
    }

    /** Unlink the cells of every original column in each removed row (palantir/palantir.py:143-148). */
    method UnlinkRows(removedRows: seq<string>, cols: seq<Entry>)
      modifies this`cells
      ensures cells == old(cells) - Keys(ToSet(removedRows), IdSet(cols))
    {
      for j := 0 to |removedRows|
        invariant cells == old(cells) - Keys(ToSet(removedRows[..j]), IdSet(cols))
      {
        assert ToSet(removedRows[..j + 1]) == ToSet(removedRows[..j]) + {removedRows[j]} by {
          assert removedRows[..j + 1] == removedRows[..j] + [removedRows[j]];
        }
        KeysUnionRows(ToSet(removedRows[..j]), {removedRows[j]}, IdSet(cols));
        DeleteCells(RowKeys(removedRows[j], cols));
      }
      assert removedRows[..|removedRows|] == removedRows;
    }

    /** Write a default cell for every key. */
    method WriteDefaults(keys: set<string>)
      modifies this`cells
      ensures cells == old(cells) + Defaults(keys)
    {
      var todo := keys;
      while todo != {}
        invariant todo <= keys
        invariant cells == old(cells) + Defaults(keys - todo)
        decreases |todo|
      {
        var k :| k in todo;
        assert Defaults(keys - (todo - {k})) == Defaults(keys - todo)[k := Valid(DefaultCell(k))];
        cells := cells[k := Valid(DefaultCell(k))];
        todo := todo - {k};
      }
    }

    /**
      `structure_updater` (palantir/palantir.py:104-187): computes the new
      structure; when both axes keep an entry, unlinks the cells of removed
      rows and columns and writes default cells for new pairs.
     */
    method StructureUpdater(s: Structure, addCols: seq<string>, rmCols: seq<string>,
                            addRows: seq<string>, rmRows: seq<string>) returns (r: Result<Structure, Failure>)
      modifies this`cells
      ensures var e := Plan(s, addCols, rmCols, addRows, rmRows);
        if Accepted(e) then r == Ok(e.working) && cells == CellEffects(old(cells), s, e)
        else r == Err(Rejected) && cells == old(cells)
    {
      var addedCols := AppendNew(s.cols, addCols);
      var addedRows := AppendNew(s.rows, addRows);
      var cols, removedCols := RemoveLoop(s.cols + addedCols, rmCols);
      var rows, removedRows := RemoveLoop(s.rows + addedRows, rmRows);
      if !(|rows| >= 1 && |cols| >= 1) {
        return Err(Rejected);
      }
      ghost var e := Plan(s, addCols, rmCols, addRows, rmRows);
      UnlinkColumns(s.rows, removedCols);
      UnlinkRows(removedRows, s.cols);
      assert cells == old(cells) - DeletedKeys(s, e);
      var finalRows := IdSet(s.rows) - ToSet(removedRows) + IdSet(addedRows);
      var finalCols := IdSet(s.cols) - ToSet(removedCols) + IdSet(addedCols);
      var created := CollectKeys(IdSet(addedRows), finalCols);
      var more := CollectKeys(finalRows, IdSet(addedCols));
      created := created + more;
      WriteDefaults(created);
      r := Ok(Structure(s.name, rows, cols));
    }

    /**
      `update` (palantir/palantir.py:246-259) through `update_json`
      (palantir/palantir.py:51-62): load, truncate, run the updater, and
      write back only a changed result.
     */
    method Update(addCols: seq<string>, rmCols: seq<string>, addRows: seq<string>, rmRows: seq<string>)
      returns (r: Result<Structure, Failure>)
      modifies this
      ensures old(structure).Emptied? ==>
        r == Err(Unreadable) && structure == old(structure) && cells == old(cells)
      ensures old(structure).Valid? ==>
        var s := old(structure).value;
        var e := Plan(s, addCols, rmCols, addRows, rmRows);
        if Accepted(e) then cells == CellEffects(old(cells), s, e) && (structure, r) == Commit(s, Ok(e.working))
        else cells == old(cells) && structure == Emptied && r == Err(Rejected)
    {
      if structure.Emptied? {
        return Err(Unreadable);
      }
      var loaded := structure.value;
      structure := Emptied;
      var out := StructureUpdater(loaded, addCols, rmCols, addRows, rmRows);
      if out.Ok? && out.value != loaded {
        structure := Valid(out.value);
        r := out;
      } else if out.Ok? {
        r := Err(NotCompleted);
      } else {
        r := out;
      }
    }

    /**
      `cell` (palantir/palantir.py:261-282) through `update_json`: the cell
      document `{row}-{col}` is loaded, truncated, merged and written back
      only when it changed.
     */
    method UpdateCell(row: string, col: string, a: CellArgs, fx: Effects) returns (r: Result<Cell, Failure>)
      modifies this`cells
      ensures var key := CellId(row, col);
        if key !in old(cells) then r == Err(MissingFile) && cells == old(cells)
        else if old(cells)[key].Emptied? then r == Err(Unreadable) && cells == old(cells)
        else
          var c := old(cells)[key].value;
          var (doc, res) := Commit(c, MergeCell(c, a, fx));
          r == res && cells == old(cells)[key := doc]
    {
      var key := CellId(row, col);
      if key !in cells {
        return Err(MissingFile);
      }
      if cells[key].Emptied? {
        return Err(Unreadable);
      }
      var loaded := cells[key].value;
      cells := cells[key := Emptied];
      var out := CellUpdater(loaded, a, fx);
      if out.Ok? && out.value != loaded {
        cells := cells[key := Valid(out.value)];
        r := out;
      } else if out.Ok? {
        r := Err(NotCompleted);
      } else {
        r := out;
      }
    }
  }
}
