/**
  `Project.create_monitor` (setupfreesurfer.py:354-361): a fresh dashboard
  named "FreeSurfer" with one row, "Project", and one column per script of
  the catalog, whose Project cell is marked "N/A" for every script that does
  not run at project level. The dashboard is the palantir model.
 */
module FreeSurferMonitor {
  import opened Wrappers
  import opened Text
  import opened Ident
  import opened PalantirText
  import opened PalantirStructure
  import opened PalantirCell
  import opened Palantir
  import opened FreeSurferCatalog

  const ProjectRow: string := "Project"
  const MonitorName: string := "FreeSurfer"

  /** The options of the `dash.cell` call for a script that does not run at project level. */
  const NotApplicable: CellArgs :=
    CellArgs(Some(PyStr("N/A")), Some(PyStr("#d2d2d2")), Some(PyStr("#f0f0f0")), Some(PyStr("False")),
             None, None, None, None)

  /** A default cell after that call. */
  function NotApplicableCell(key: string): Cell {
    DefaultCell(key).(text := "N/A", bgcolor := "#d2d2d2", color := "#f0f0f0", boolean := FlagFalse)
  }

  /** The columns an update appends to an empty structure: one per name, in order, id sanitised. */
  function Columns(names: seq<string>): seq<Entry> {
    seq(|names|, i requires 0 <= i < |names| => Entry(Idify(names[i]), names[i]))
  }

  /** The structure `create_monitor` leaves behind. */
  function MonitorStructure(scripts: seq<Script>): Structure {
    Structure(MonitorName, [Entry(ProjectRow, ProjectRow)], Columns(Names(scripts)))
  }

  /** The key of a script's cell in the Project row. */
  function ProjectKey(s: Script): string { CellId(ProjectRow, s.name) }

  /** The keys of the cells the loop marks: those of the scripts not at project level. */
  function MarkedKeys(scripts: seq<Script>): set<string> {
    set i | 0 <= i < |scripts| && scripts[i].level != ProjectLevel :: ProjectKey(scripts[i])
  }

  /** The cells after the marking loop has handled `scripts`, one `dash.cell` call at a time. */
  function MarkCells(cells: map<string, Doc<Cell>>, scripts: seq<Script>): map<string, Doc<Cell>> {
    if scripts == [] then cells
    else
      var before := MarkCells(cells, scripts[..|scripts| - 1]);
      var s := scripts[|scripts| - 1];
      if s.level != ProjectLevel then before[ProjectKey(s) := Valid(NotApplicableCell(ProjectKey(s)))] else before
  }

  /** Every cell of the Project row, by default. */
  function ProjectCells(scripts: seq<Script>): set<string> {
    Keys({ProjectRow}, ToSet(Names(scripts)))
  }

  /** The cells `create_monitor` leaves behind. */
  function MonitorCells(scripts: seq<Script>): map<string, Doc<Cell>> {
    MarkCells(Defaults(ProjectCells(scripts)), scripts)
  }

  /** Script names that are identifiers and pairwise different, as the catalog's are. */
  predicate WellNamed(scripts: seq<Script>) {
    && Distinct(Names(scripts))
    && forall i :: 0 <= i < |scripts| ==> IsId(scripts[i].name)
  }

  // ---------------------------------------------------------- the operation

  /** `create_monitor`: create, add the row and the columns, then mark the cells of non-project scripts. */
  method CreateMonitor(c: Config, fx: Effects) returns (d: Dashboard)
    ensures fresh(d)
    ensures d.structure == Valid(MonitorStructure(Catalog(c)))
    ensures d.cells == MonitorCells(Catalog(c))
  {
    CatalogWellNamed(c);
    CatalogSize(c);
    d := BuildMonitor(Catalog(c), fx);
  }

  /** The calls of `create_monitor` for a list of scripts with distinct identifier names. */
  method BuildMonitor(scripts: seq<Script>, fx: Effects) returns (d: Dashboard)
    requires |scripts| >= 1 && WellNamed(scripts)
    ensures fresh(d)
    ensures d.structure == Valid(MonitorStructure(scripts))
    ensures d.cells == MonitorCells(scripts)
  {
    d := new Dashboard(MonitorName);
    MonitorPlan(scripts);
    MonitorPlanCells(scripts);
    var r := d.Update(Names(scripts), [], [ProjectRow], []);
    MarkNotApplicable(d, scripts, fx);
  }

  /** The loop of `create_monitor`: one `dash.cell` call per script below project level. */
  method MarkNotApplicable(d: Dashboard, scripts: seq<Script>, fx: Effects)
    requires WellNamed(scripts)
    requires d.cells == Defaults(ProjectCells(scripts))
    modifies d`cells
    ensures d.cells == MonitorCells(scripts)
  {
    for k := 0 to |scripts|
      invariant d.cells == MarkCells(Defaults(ProjectCells(scripts)), scripts[..k])
    {
      assert scripts[..k + 1][..k] == scripts[..k];
      if scripts[k].level != ProjectLevel {
        var key := ProjectKey(scripts[k]);
        UnmarkedBeforeOwnTurn(scripts, k);
        MarkCellsOverlay(Defaults(ProjectCells(scripts)), scripts[..k]);
        InProjectRow(scripts, k);
        MergeNotApplicable(key, fx);
        var r := d.UpdateCell(ProjectRow, scripts[k].name, NotApplicable, fx);
      }
    }
    assert scripts[..|scripts|] == scripts;
  }

  // ---------------------------------------------------------- properties

  /** The Python names each cell call targets are the catalog's, so they are ids and distinct. */
  lemma CatalogWellNamed(c: Config)
    ensures WellNamed(Catalog(c))
  {
    CatalogNamesDistinct(c);
    forall i | 0 <= i < |Catalog(c)| ensures IsId(Catalog(c)[i].name) {
      var s := Catalog(c)[i];
      assert s.name == Names(Catalog(c))[i];
      CatalogNamesInOrder(c);
      CatalogNamesIds(c.isLongitudinal);
    }
  }

  lemma CatalogNamesIds(long: bool)
    ensures forall i :: 0 <= i < |CatalogNames(long)| ==> IsId(CatalogNames(long)[i])
  {
    CrossIds();
    BaseIds();
    LongIds();
    assert IsId(ExtractName);
    AllArrange(long, CrossProcessNames, BaseProcessNames, LongProcessNames, ExtractName,
      CrossViewNames, BaseViewNames, LongViewNames, IsId);
  }

  /** Adding names to an empty axis appends one column per name, in order. */
  lemma {:induction false} AddToEmpty(names: seq<string>)
    ensures AddEntries([], names) == Columns(names)
  {
    if names != [] {
      var front := names[..|names| - 1];
      AddToEmpty(front);
      assert AddOne([], names[|names| - 1]) == [Entry(Idify(names[|names| - 1]), names[|names| - 1])];
      assert Columns(names) == Columns(front) + [Entry(Idify(names[|names| - 1]), names[|names| - 1])];
    }
  }

  lemma ColumnIds(names: seq<string>)
    requires forall i :: 0 <= i < |names| ==> IsId(names[i])
    ensures IdSet(Columns(names)) == ToSet(names)
  {
    IdNamesKept(names);
    forall n | n in ToSet(names) ensures n in IdSet(Columns(names)) {
      var i :| 0 <= i < |names| && names[i] == n;
      assert Columns(names)[i].id == n;
    }
  }

  /** The row update appends the single row "Project". */
  lemma ProjectRowAdded()
    ensures AddEntries([], [ProjectRow]) == [Entry(ProjectRow, ProjectRow)]
    ensures IdSet([Entry(ProjectRow, ProjectRow)]) == {ProjectRow}
  {
    assert IsId(ProjectRow);
    IdifyOfId(ProjectRow);
    assert [ProjectRow][..0] == [];
    assert AddEntries([], [ProjectRow]) == AddEntries([], []) + AddOne([], ProjectRow);
  }

  /** An update of an empty structure that removes nothing appends the added entries and removes no id. */
  lemma PlanOnEmpty(name: string, addCols: seq<string>, addRows: seq<string>)
    ensures var e := Plan(Structure(name, [], []), addCols, [], addRows, []);
      && e.addedRows == AddEntries([], addRows) && e.addedCols == AddEntries([], addCols)
      && e.working == Structure(name, e.addedRows, e.addedCols)
      && e.removedRows == {} && e.removedCols == {}
  {
    assert [] + AddEntries([], addRows) == AddEntries([], addRows);
    assert [] + AddEntries([], addCols) == AddEntries([], addCols);
  }

  lemma NamesAreIds(scripts: seq<Script>)
    requires WellNamed(scripts)
    ensures forall i :: 0 <= i < |Names(scripts)| ==> IsId(Names(scripts)[i])
  {
    forall i | 0 <= i < |Names(scripts)| ensures IsId(Names(scripts)[i]) {
      assert Names(scripts)[i] == scripts[i].name;
    }
  }

  /**
    The update `create_monitor` makes to the empty structure is accepted when
    there is a script, and gives the monitor structure.
   */
  lemma MonitorPlan(scripts: seq<Script>)
    requires |scripts| >= 1 && WellNamed(scripts)
    ensures var s := Structure(MonitorName, [], []);
      var e := Plan(s, Names(scripts), [], [ProjectRow], []);
      && Accepted(e)
      && e.working == MonitorStructure(scripts)
      && e.working != s
  {
    PlanOnEmpty(MonitorName, Names(scripts), [ProjectRow]);
    ProjectRowAdded();
    AddToEmpty(Names(scripts));
  }

  /** That update unlinks nothing and writes a default cell for every script in the Project row. */
  lemma MonitorPlanCells(scripts: seq<Script>)
    requires WellNamed(scripts)
    ensures var s := Structure(MonitorName, [], []);
      CellEffects(map[], s, Plan(s, Names(scripts), [], [ProjectRow], [])) == Defaults(ProjectCells(scripts))
  {
    var names := Names(scripts);
    var s := Structure(MonitorName, [], []);
    var e := Plan(s, names, [], [ProjectRow], []);
    PlanOnEmpty(MonitorName, names, [ProjectRow]);
    ProjectRowAdded();
    AddToEmpty(names);
    NamesAreIds(scripts);
    ColumnIds(names);
    EffectsOnEmpty(s, e);
  }

  /** On an empty structure, an update that removes nothing writes a default cell for each added pair, and only those. */
  lemma EffectsOnEmpty(s: Structure, e: Edit)
    requires s.rows == [] && s.cols == [] && e.removedRows == {} && e.removedCols == {}
    ensures CellEffects(map[], s, e) == Defaults(Keys(IdSet(e.addedRows), IdSet(e.addedCols)))
  {
    assert IdSet(s.rows) == {} && IdSet(s.cols) == {};
    assert DeletedKeys(s, e) == {};
  }

  lemma NotApplicableColors(bg: string, fg: string)
    requires bg == "#d2d2d2" && fg == "#f0f0f0"
    ensures NewColor("#F0F0F0", Some(PyStr(bg))) == Ok(bg)
    ensures NewColor("#969696", Some(PyStr(fg))) == Ok(fg)
  {
    SixHexDigits("d2d2d2");
    SixHexDigits("f0f0f0");
  }

  /** The `dash.cell` call turns a default cell into the N/A cell, which is a change, so it is written. */
  lemma MergeNotApplicable(key: string, fx: Effects)
    ensures MergeCell(DefaultCell(key), NotApplicable, fx) == Ok(NotApplicableCell(key))
    ensures NotApplicableCell(key) != DefaultCell(key)
  {
    NotApplicableColors("#d2d2d2", "#f0f0f0");
    assert Spelling(PyStr("False")) == Some(FlagFalse);
    assert NotApplicableCell(key).text != DefaultCell(key).text;
  }

  /** Two scripts with the same Project key have the same name. */
  lemma ProjectKeyInjective(a: Script, b: Script)
    ensures ProjectKey(a) == ProjectKey(b) ==> a.name == b.name
  {
    var p := ProjectRow + "-";
    if ProjectKey(a) == ProjectKey(b) {
      assert ProjectKey(a) == p + a.name && ProjectKey(b) == p + b.name;
      assert a.name == ProjectKey(a)[|p|..];
      assert b.name == ProjectKey(b)[|p|..];
    }
  }

  /** The loop overlays the N/A cell on each marked key and leaves every other key as it found it. */
  lemma {:induction false} MarkCellsOverlay(cells: map<string, Doc<Cell>>, scripts: seq<Script>)
    ensures MarkCells(cells, scripts).Keys == cells.Keys + MarkedKeys(scripts)
    ensures forall k :: k in MarkedKeys(scripts) ==> MarkCells(cells, scripts)[k] == Valid(NotApplicableCell(k))
    ensures forall k :: k in cells && k !in MarkedKeys(scripts) ==> MarkCells(cells, scripts)[k] == cells[k]
  {
    if scripts != [] {
      var front := scripts[..|scripts| - 1];
      var s := scripts[|scripts| - 1];
      MarkCellsOverlay(cells, front);
      MarkedKeysStep(scripts);
      var before := MarkCells(cells, front);
      if s.level != ProjectLevel {
        assert MarkCells(cells, scripts) == before[ProjectKey(s) := Valid(NotApplicableCell(ProjectKey(s)))];
      } else {
        assert MarkCells(cells, scripts) == before;
      }
    }
  }

  /** The marked keys of a list are those of its front plus the last script's key, unless it is a Project script. */
  lemma MarkedKeysStep(scripts: seq<Script>)
    requires scripts != []
    ensures var s := scripts[|scripts| - 1];
      MarkedKeys(scripts) == MarkedKeys(scripts[..|scripts| - 1]) + (if s.level != ProjectLevel then {ProjectKey(s)} else {})
  {
    var front := scripts[..|scripts| - 1];
    var s := scripts[|scripts| - 1];
    forall k | k in MarkedKeys(scripts) ensures k in MarkedKeys(front) + (if s.level != ProjectLevel then {ProjectKey(s)} else {}) {
      var i :| 0 <= i < |scripts| && scripts[i].level != ProjectLevel && k == ProjectKey(scripts[i]);
      if i < |front| {
        assert scripts[i] == front[i];
      }
    }
    forall k | k in MarkedKeys(front) ensures k in MarkedKeys(scripts) {
      var i :| 0 <= i < |front| && front[i].level != ProjectLevel && k == ProjectKey(front[i]);
      assert front[i] == scripts[i];
    }
  }

  /** With distinct names, a script's key is not yet marked when the loop reaches it. */
  lemma UnmarkedBeforeOwnTurn(scripts: seq<Script>, k: nat)
    requires WellNamed(scripts) && k < |scripts|
    ensures ProjectKey(scripts[k]) !in MarkedKeys(scripts[..k])
  {
    forall i | 0 <= i < k ensures ProjectKey(scripts[..k][i]) != ProjectKey(scripts[k]) {
      KeyApart(scripts, i, k);
    }
  }

  /** Different scripts of a well-named list have different Project keys. */
  lemma KeyApart(scripts: seq<Script>, i: nat, k: nat)
    requires WellNamed(scripts) && i < |scripts| && k < |scripts| && i != k
    ensures ProjectKey(scripts[i]) != ProjectKey(scripts[k])
  {
    assert Names(scripts)[i] == scripts[i].name && Names(scripts)[k] == scripts[k].name;
    ProjectKeyInjective(scripts[i], scripts[k]);
  }

  lemma InProjectRow(scripts: seq<Script>, k: nat)
    requires k < |scripts|
    ensures ProjectKey(scripts[k]) in ProjectCells(scripts)
  {
    assert Names(scripts)[k] == scripts[k].name;
    assert scripts[k].name in ToSet(Names(scripts));
  }

  /**
    The Project row ends up with one cell per script: "N/A" on grey for every
    script below project level, and the untouched default cell for the
    project-level ones; there are no other cells.
   */
  lemma MonitorCellsAt(scripts: seq<Script>, k: nat)
    requires WellNamed(scripts) && k < |scripts|
    ensures MonitorCells(scripts).Keys == ProjectCells(scripts)
    ensures var key := ProjectKey(scripts[k]);
      && key in MonitorCells(scripts)
      && MonitorCells(scripts)[key] ==
           Valid(if scripts[k].level == ProjectLevel then DefaultCell(key) else NotApplicableCell(key))
  {
    var key := ProjectKey(scripts[k]);
    MarkCellsOverlay(Defaults(ProjectCells(scripts)), scripts);
    forall m | m in MarkedKeys(scripts) ensures m in ProjectCells(scripts) {
      var i :| 0 <= i < |scripts| && scripts[i].level != ProjectLevel && m == ProjectKey(scripts[i]);
      InProjectRow(scripts, i);
    }
    InProjectRow(scripts, k);
    if scripts[k].level == ProjectLevel {
      forall i | 0 <= i < |scripts| && scripts[i].level != ProjectLevel ensures ProjectKey(scripts[i]) != key {
        KeyApart(scripts, i, k);
      }
    }
  }

  /** The monitor has exactly the row "Project" and a column per script, named by the script, in catalog order. */
  lemma MonitorColumns(c: Config)
    ensures var m := MonitorStructure(Catalog(c));
      && m.rows == [Entry(ProjectRow, ProjectRow)]
      && |m.cols| == |Catalog(c)|
      && forall i :: 0 <= i < |m.cols| ==> m.cols[i] == Entry(Catalog(c)[i].name, Catalog(c)[i].name)
  {
    CatalogWellNamed(c);
    var names := Names(Catalog(c));
    forall i | 0 <= i < |names| ensures Idify(names[i]) == names[i] {
      assert names[i] == Catalog(c)[i].name;
      IdifyOfId(names[i]);
    }
  }
}
