/**
  The structure document of a palantir dashboard and the specification of
  `structure_updater` (palantir/palantir.py:104-187): what the add and
  remove lists do to the row and column lists, and which cell keys the
  update deletes and creates.
 */
module PalantirStructure {
  import opened Ident
  import opened Text

  /** One row or column: `{"id": ..., "text": ...}`. */
  datatype Entry = Entry(id: string, text: string)

  /** `{"name": ..., "rows": [...], "cols": [...]}`. */
  datatype Structure = Structure(name: string, rows: seq<Entry>, cols: seq<Entry>)

  function IdSet(es: seq<Entry>): set<string> {
    set e | e in es :: e.id
  }

  /** The key (and file name) of the cell at row `r`, column `c`: `"{r}-{c}"`. */
  function CellId(r: string, c: string): string {
    r + "-" + c
  }

  /** No id holds a `-`, so the cell keys of these rows name their row and column. */
  predicate DashFree(ids: set<string>) {
    forall x :: x in ids ==> '-' !in x
  }

  /** The keys of every cell whose row is in `rs` and whose column is in `cs`. */
  function Keys(rs: set<string>, cs: set<string>): set<string> {
    set r, c | r in rs && c in cs :: CellId(r, c)
  }

  lemma KeysUnionCols(rs: set<string>, a: set<string>, b: set<string>)
    ensures Keys(rs, a + b) == Keys(rs, a) + Keys(rs, b)
  {
  }

  lemma KeysUnionRows(a: set<string>, b: set<string>, cs: set<string>)
    ensures Keys(a + b, cs) == Keys(a, cs) + Keys(b, cs)
  {
  }

  lemma KeysSingle(r: string, c: string)
    ensures Keys({r}, {c}) == {CellId(r, c)}
  {
    assert CellId(r, c) in Keys({r}, {c});
  }

  /**
    A key names its row and column only when the row id holds no `-`:
    `idify` keeps `-`, so `"a-b" + "-" + "c"` and `"a" + "-" + "b-c"` coincide.
   */
  lemma CellIdInjective(r1: string, c1: string, r2: string, c2: string)
    requires '-' !in r1 && '-' !in r2 && CellId(r1, c1) == CellId(r2, c2)
    ensures r1 == r2 && c1 == c2
  {
    var k := CellId(r1, c1);
    FirstDash(r1, c1);
    FirstDash(r2, c2);
    if |r1| < |r2| {
      assert false;
    } else if |r2| < |r1| {
      assert false;
    }
    assert r1 == k[..|r1|] && r2 == k[..|r2|];
    assert c1 == k[|r1| + 1..] && c2 == k[|r2| + 1..];
  }

  /** The first `-` of a key whose row id has none is the separator. */
  lemma FirstDash(r: string, c: string)
    requires '-' !in r
    ensures CellId(r, c)[|r|] == '-'
    ensures forall i :: 0 <= i < |r| ==> CellId(r, c)[i] != '-'
  {
    forall i | 0 <= i < |r| ensures CellId(r, c)[i] != '-' {
      assert CellId(r, c)[i] == r[i];
    }
  }

  /** The keys `["{0}-{1}".format(row["id"], c) for row in rows]`, in row order. */
  function ColumnKeys(rows: seq<Entry>, c: string): (ks: seq<string>)
    ensures ToSet(ks) == Keys(IdSet(rows), {c})
  {
    var ks := seq(|rows|, i requires 0 <= i < |rows| => CellId(rows[i].id, c));
    assert forall k :: k in Keys(IdSet(rows), {c}) ==> k in ks by {
      forall k | k in Keys(IdSet(rows), {c}) ensures k in ks {
        var r :| r in IdSet(rows) && k == CellId(r, c);
        var e :| e in rows && e.id == r;
        var i :| 0 <= i < |rows| && rows[i] == e;
        assert ks[i] == k;
      }
    }
    ks
  }

  /** The keys `["{0}-{1}".format(r, col["id"]) for col in cols]`, in column order. */
  function RowKeys(r: string, cols: seq<Entry>): (ks: seq<string>)
    ensures ToSet(ks) == Keys({r}, IdSet(cols))
  {
    var ks := seq(|cols|, i requires 0 <= i < |cols| => CellId(r, cols[i].id));
    assert forall k :: k in Keys({r}, IdSet(cols)) ==> k in ks by {
      forall k | k in Keys({r}, IdSet(cols)) ensures k in ks {
        var c :| c in IdSet(cols) && k == CellId(r, c);
        var e :| e in cols && e.id == c;
        var i :| 0 <= i < |cols| && cols[i] == e;
        assert ks[i] == k;
      }
    }
    ks
  }

  // ---------------------------------------------------------------- adding

  /** What one name of an add list appends, given the ids of the input structure. */
  function AddOne(existing: seq<Entry>, name: string): seq<Entry> {
    if Idify(name) in IdSet(existing) then [] else [Entry(Idify(name), name)]
  }

  /**
    The entries an add list appends, in list order. Each name is checked
    only against the ids of the input structure, not against what the same
    list has already appended.
   */
  function AddEntries(existing: seq<Entry>, names: seq<string>): seq<Entry>
    decreases |names|
  {
    if names == [] then []
    else AddEntries(existing, names[..|names| - 1]) + AddOne(existing, names[|names| - 1])
  }

  /** An entry is appended iff it is `{id: idify(n), text: n}` for a listed name `n` whose id the input lacks. */
  lemma {:induction false} AddEntriesMembers(existing: seq<Entry>, names: seq<string>, e: Entry)
    ensures e in AddEntries(existing, names) <==>
      e.text in names && e.id == Idify(e.text) && e.id !in IdSet(existing)
    decreases |names|
  {
    if names != [] {
      var p := names[..|names| - 1];
      AddEntriesMembers(existing, p, e);
      assert names == p + [names[|names| - 1]];
    }
  }

  /** Adding two lists in turn appends what each would append, in order. */
  lemma {:induction false} AddEntriesConcat(existing: seq<Entry>, a: seq<string>, b: seq<string>)
    ensures AddEntries(existing, a + b) == AddEntries(existing, a) + AddEntries(existing, b)
    decreases |b|
  {
    if b == [] {
      assert a + b == a;
    } else {
      var q := b[..|b| - 1];
      assert (a + b)[..|a + b| - 1] == a + q;
      assert (a + b)[|a + b| - 1] == b[|b| - 1];
      AddEntriesConcat(existing, a, q);
    }
  }

  /** The same new name twice in one add list is appended twice. */
  lemma AddEntriesKeepsRepeats(existing: seq<Entry>, n: string)
    requires Idify(n) !in IdSet(existing)
    ensures AddEntries(existing, [n, n]) == [Entry(Idify(n), n), Entry(Idify(n), n)]
  {
    assert [n, n][..1] == [n];
    assert [n][..0] == [];
    assert AddEntries(existing, [n]) == [] + AddOne(existing, n);
  }

  // -------------------------------------------------------------- removing

  /**
    The loop `for e in w: if e.id == id: w.remove(e)` as Python runs it: the
    loop walks an index over the list it shrinks, so the element after a
    removed one is skipped.
   */
  function ScanRemove(w: seq<Entry>, i: nat, id: string): (r: seq<Entry>)
    ensures |r| <= |w|
    decreases |w| - i
  {
    if i >= |w| then w
    else if w[i].id == id then ScanRemove(RemoveFirst(w, w[i]), i + 1, id)
    else ScanRemove(w, i + 1, id)
  }

  /** The entries of `w` whose id is not in `ids`, in order. */
  function Drop(w: seq<Entry>, ids: set<string>): (r: seq<Entry>)
    ensures |r| <= |w|
  {
    if w == [] then [] else (if w[0].id in ids then [] else [w[0]]) + Drop(w[1..], ids)
  }

  /** How many entries of `w` carry `id`. */
  function Count(w: seq<Entry>, id: string): nat {
    if w == [] then 0 else (if w[0].id == id then 1 else 0) + Count(w[1..], id)
  }

  predicate UniqueIds(w: seq<Entry>) {
    w == [] || (w[0].id !in IdSet(w[1..]) && UniqueIds(w[1..]))
  }

  /** One name of a remove list: acts only if its id is present in the working list. */
  function RemoveOne(w: seq<Entry>, name: string): seq<Entry> {
    if Idify(name) in IdSet(w) then ScanRemove(w, 0, Idify(name)) else w
  }

  /** A whole remove list, name by name. */
  function RemoveNames(w: seq<Entry>, names: seq<string>): seq<Entry>
    decreases |names|
  {
    if names == [] then w else RemoveOne(RemoveNames(w, names[..|names| - 1]), names[|names| - 1])
  }

  /** The ids the remove list actually removed something for (`removed_rows` / `removed_columns` as a set). */
  function RemovedIds(w: seq<Entry>, names: seq<string>): set<string>
    decreases |names|
  {
    if names == [] then {}
    else
      var p := names[..|names| - 1];
      var n := names[|names| - 1];
      RemovedIds(w, p) + (if Idify(n) in IdSet(RemoveNames(w, p)) then {Idify(n)} else {})
  }

  function IdifyAll(names: seq<string>): set<string> {
    set n | n in names :: Idify(n)
  }

  lemma {:induction false} IdSetCons(w: seq<Entry>)
    requires w != []
    ensures IdSet(w) == {w[0].id} + IdSet(w[1..])
  {
    assert w == [w[0]] + w[1..];
    forall x | x in IdSet(w) ensures x in {w[0].id} + IdSet(w[1..]) {
      var e :| e in w && e.id == x;
      if e != w[0] {
        assert e in w[1..];
      }
    }
  }

  lemma {:induction false} DropMembers(w: seq<Entry>, ids: set<string>, x: string)
    ensures x in IdSet(Drop(w, ids)) <==> x in IdSet(w) && x !in ids
  {
    if w != [] {
      DropMembers(w[1..], ids, x);
      IdSetCons(w);
      var r := Drop(w, ids);
      if w[0].id !in ids {
        IdSetCons(r);
        assert r[1..] == Drop(w[1..], ids);
      } else {
        assert r == Drop(w[1..], ids);
      }
    }
  }

  lemma {:induction false} DropNothing(w: seq<Entry>, ids: set<string>)
    requires forall e :: e in w ==> e.id !in ids
    ensures Drop(w, ids) == w
  {
    if w != [] {
      DropNothing(w[1..], ids);
    }
  }

  lemma {:induction false} DropTwice(w: seq<Entry>, a: set<string>, b: set<string>)
    ensures Drop(Drop(w, a), b) == Drop(w, a + b)
  {
    if w != [] {
      DropTwice(w[1..], a, b);
      if w[0].id !in a {
        assert Drop(w, a) == [w[0]] + Drop(w[1..], a);
        assert Drop(w, a)[1..] == Drop(w[1..], a);
      } else {
        assert Drop(w, a) == Drop(w[1..], a);
        assert Drop(w, a + b) == Drop(w[1..], a + b);
      }
    }
  }

  lemma {:induction false} DropLength(w: seq<Entry>, id: string)
    ensures |Drop(w, {id})| == |w| - Count(w, id)
  {
    if w != [] {
      DropLength(w[1..], id);
    }
  }

  lemma {:induction false} DropFull(w: seq<Entry>, ids: set<string>)
    requires |Drop(w, ids)| == |w|
    ensures Drop(w, ids) == w
  {
    if w != [] {
      assert |Drop(w[1..], ids)| <= |w[1..]|;
      DropFull(w[1..], ids);
    }
  }

  lemma {:induction false} RemoveFirstDrop(w: seq<Entry>, x: Entry, ids: set<string>)
    requires x in w && x.id in ids
    ensures Drop(RemoveFirst(w, x), ids) == Drop(w, ids)
  {
    if w[0] != x {
      RemoveFirstDrop(w[1..], x, ids);
      assert RemoveFirst(w, x)[1..] == RemoveFirst(w[1..], x);
    }
  }

  lemma {:induction false} RemoveFirstIds(w: seq<Entry>, x: Entry)
    requires x in w
    ensures IdSet(RemoveFirst(w, x)) <= IdSet(w)
  {
    IdSetCons(w);
    if w[0] != x {
      RemoveFirstIds(w[1..], x);
      IdSetCons(RemoveFirst(w, x));
      assert RemoveFirst(w, x)[1..] == RemoveFirst(w[1..], x);
    } else {
      assert RemoveFirst(w, x) == w[1..];
    }
  }

  /** The scan touches only entries carrying `id`: every other entry stays, in order. */
  lemma {:induction false} ScanRemoveKeepsOthers(w: seq<Entry>, i: nat, id: string, ids: set<string>)
    requires id in ids
    ensures Drop(ScanRemove(w, i, id), ids) == Drop(w, ids)
    decreases |w| - i
  {
    if i < |w| {
      if w[i].id == id {
        RemoveFirstDrop(w, w[i], ids);
        ScanRemoveKeepsOthers(RemoveFirst(w, w[i]), i + 1, id, ids);
      } else {
        ScanRemoveKeepsOthers(w, i + 1, id, ids);
      }
    }
  }

  lemma {:induction false} ScanRemoveIds(w: seq<Entry>, i: nat, id: string)
    ensures IdSet(ScanRemove(w, i, id)) <= IdSet(w)
    decreases |w| - i
  {
    if i < |w| {
      if w[i].id == id {
        RemoveFirstIds(w, w[i]);
        ScanRemoveIds(RemoveFirst(w, w[i]), i + 1, id);
      } else {
        ScanRemoveIds(w, i + 1, id);
      }
    }
  }

  /** With nothing to match from position `i` on, the scan changes nothing. */
  lemma {:induction false} ScanRemoveNoMatch(w: seq<Entry>, i: nat, id: string)
    requires forall j :: i <= j < |w| ==> w[j].id != id
    ensures ScanRemove(w, i, id) == w
    decreases |w| - i
  {
    if i < |w| {
      ScanRemoveNoMatch(w, i + 1, id);
    }
  }

  /** A match at or after position `i` removes at least one entry. */
  lemma {:induction false} ScanRemoveShrinks(w: seq<Entry>, i: nat, id: string, j: nat)
    requires i <= j < |w| && w[j].id == id
    ensures |ScanRemove(w, i, id)| < |w|
    decreases |w| - i
  {
    if w[i].id != id {
      ScanRemoveShrinks(w, i + 1, id, j);
    }
  }

  lemma {:induction false} CountZero(w: seq<Entry>, id: string, j: nat)
    requires Count(w, id) == 0 && j < |w|
    ensures w[j].id != id
  {
    if j > 0 {
      CountZero(w[1..], id, j - 1);
    }
  }

  lemma {:induction false} CountPositive(w: seq<Entry>, id: string) returns (j: nat)
    requires Count(w, id) > 0
    ensures j < |w| && w[j].id == id
  {
    if w[0].id != id {
      j := CountPositive(w[1..], id);
      j := j + 1;
    } else {
      j := 0;
    }
  }

  /** When at most one entry carries `id`, the scan removes exactly the entries with that id. */
  lemma ScanRemoveSingle(w: seq<Entry>, id: string)
    requires Count(w, id) <= 1
    ensures ScanRemove(w, 0, id) == Drop(w, {id})
  {
    var r := ScanRemove(w, 0, id);
    ScanRemoveKeepsOthers(w, 0, id, {id});
    DropLength(w, id);
    if Count(w, id) == 0 {
      forall j | 0 <= j < |w| ensures w[j].id != id {
        CountZero(w, id, j);
      }
      ScanRemoveNoMatch(w, 0, id);
      DropFull(w, {id});
    } else {
      var j := CountPositive(w, id);
      ScanRemoveShrinks(w, 0, id, j);
      assert |Drop(r, {id})| == |r|;
      DropFull(r, {id});
    }
  }

  lemma {:induction false} UniqueCount(w: seq<Entry>, id: string)
    requires UniqueIds(w)
    ensures Count(w, id) <= 1
    ensures id !in IdSet(w) ==> Count(w, id) == 0
  {
    if w != [] {
      IdSetCons(w);
      UniqueCount(w[1..], id);
      if w[0].id == id {
        UniqueCount(w[1..], id);
      }
    }
  }

  lemma {:induction false} CountAbsent(w: seq<Entry>, id: string)
    requires id !in IdSet(w)
    ensures Count(w, id) == 0
  {
    if w != [] {
      IdSetCons(w);
      CountAbsent(w[1..], id);
    }
  }

  lemma {:induction false} CountConcat(a: seq<Entry>, b: seq<Entry>, id: string)
    ensures Count(a + b, id) == Count(a, id) + Count(b, id)
  {
    if a != [] {
      assert (a + b)[1..] == a[1..] + b;
      CountConcat(a[1..], b, id);
    } else {
      assert a + b == b;
    }
  }

  /** Dropping one id leaves the count of every other id alone. */
  lemma {:induction false} CountDropOther(w: seq<Entry>, x: string, id: string)
    requires x != id
    ensures Count(Drop(w, {x}), id) == Count(w, id)
  {
    if w != [] {
      CountDropOther(w[1..], x, id);
      if w[0].id != x {
        assert Drop(w, {x})[1..] == Drop(w[1..], {x});
      } else {
        assert Drop(w, {x}) == Drop(w[1..], {x});
      }
    }
  }

  lemma IdSetConcat(a: seq<Entry>, b: seq<Entry>)
    ensures IdSet(a + b) == IdSet(a) + IdSet(b)
  {
    assert forall e :: e in a + b <==> e in a || e in b;
  }

  /**
    An id carried by at most one entry stays so under a remove list, and is
    gone once a listed name sanitises to it.
   */
  lemma {:induction false} RemoveNamesOnce(w: seq<Entry>, names: seq<string>, id: string)
    requires Count(w, id) <= 1
    ensures Count(RemoveNames(w, names), id) <= 1
    ensures id in IdifyAll(names) ==> id !in IdSet(RemoveNames(w, names))
    decreases |names|
  {
    if names != [] {
      var p := names[..|names| - 1];
      var n := names[|names| - 1];
      assert names == p + [n];
      assert IdifyAll(names) == IdifyAll(p) + {Idify(n)};
      RemoveNamesOnce(w, p, id);
      var w1 := RemoveNames(w, p);
      if Idify(n) in IdSet(w1) {
        var w2 := ScanRemove(w1, 0, Idify(n));
        if id == Idify(n) {
          ScanRemoveSingle(w1, id);
          DropMembers(w1, {id}, id);
          CountAbsent(w2, id);
        } else {
          ScanRemoveKeepsOthers(w1, 0, Idify(n), {Idify(n)});
          CountDropOther(w1, Idify(n), id);
          CountDropOther(w2, Idify(n), id);
          ScanRemoveIds(w1, 0, Idify(n));
        }
      }
    }
  }

  lemma {:induction false} DropUnique(w: seq<Entry>, ids: set<string>)
    requires UniqueIds(w)
    ensures UniqueIds(Drop(w, ids))
  {
    if w != [] {
      DropUnique(w[1..], ids);
      IdSetCons(w);
      var r := Drop(w, ids);
      if w[0].id !in ids {
        assert r == [w[0]] + Drop(w[1..], ids);
        assert r[0] == w[0];
        assert r[1..] == Drop(w[1..], ids);
        DropMembers(w[1..], ids, w[0].id);
      } else {
        assert r == Drop(w[1..], ids);
      }
    }
  }

  /** Names whose id is not present are silent no-ops. */
  lemma {:induction false} RemoveNamesNoMatch(w: seq<Entry>, names: seq<string>)
    requires forall n :: n in names ==> Idify(n) !in IdSet(w)
    ensures RemoveNames(w, names) == w
    ensures RemovedIds(w, names) == {}
    decreases |names|
  {
    if names != [] {
      RemoveNamesNoMatch(w, names[..|names| - 1]);
    }
  }

  /** A remove list never touches an entry whose id it does not name. */
  lemma {:induction false} RemoveNamesKeepsOthers(w: seq<Entry>, names: seq<string>, ids: set<string>)
    requires IdifyAll(names) <= ids
    ensures Drop(RemoveNames(w, names), ids) == Drop(w, ids)
    ensures IdSet(RemoveNames(w, names)) <= IdSet(w)
    decreases |names|
  {
    if names != [] {
      var p := names[..|names| - 1];
      var n := names[|names| - 1];
      assert IdifyAll(p) <= IdifyAll(names);
      RemoveNamesKeepsOthers(w, p, ids);
      if Idify(n) in IdSet(RemoveNames(w, p)) {
        ScanRemoveKeepsOthers(RemoveNames(w, p), 0, Idify(n), ids);
        ScanRemoveIds(RemoveNames(w, p), 0, Idify(n));
      }
    }
  }

  /** With unique ids, a remove list drops exactly the entries it names. */
  lemma {:induction false} RemoveNamesUnique(w: seq<Entry>, names: seq<string>)
    requires UniqueIds(w)
    ensures RemoveNames(w, names) == Drop(w, IdifyAll(names))
    decreases |names|
  {
    if names == [] {
      assert IdifyAll(names) == {};
      DropNothing(w, {});
    } else {
      var p := names[..|names| - 1];
      var n := names[|names| - 1];
      RemoveNamesUnique(w, p);
      var d := Drop(w, IdifyAll(p));
      DropUnique(w, IdifyAll(p));
      UniqueCount(d, Idify(n));
      DropTwice(w, IdifyAll(p), {Idify(n)});
      assert IdifyAll(names) == IdifyAll(p) + {Idify(n)} by {
        assert names == p + [n];
      }
      if Idify(n) in IdSet(d) {
        ScanRemoveSingle(d, Idify(n));
      } else {
        forall e | e in d ensures e.id !in {Idify(n)} {
        }
        DropNothing(d, {Idify(n)});
      }
    }
  }

  /** An id is removed iff some name of the list sanitises to it and it was present beforehand. */
  lemma {:induction false} RemovedIdsExactly(w: seq<Entry>, names: seq<string>)
    ensures RemovedIds(w, names) == IdifyAll(names) * IdSet(w)
    decreases |names|
  {
    if names != [] {
      var p := names[..|names| - 1];
      var n := names[|names| - 1];
      RemovedIdsExactly(w, p);
      assert names == p + [n];
      assert IdifyAll(names) == IdifyAll(p) + {Idify(n)};
      RemoveNamesKeepsOthers(w, p, IdifyAll(p));
      if Idify(n) !in IdifyAll(p) {
        DropMembers(RemoveNames(w, p), IdifyAll(p), Idify(n));
        DropMembers(w, IdifyAll(p), Idify(n));
      }
    }
  }

  // ------------------------------------------------------ the whole update

  /**
    What `structure_updater` computes before it touches any cell: the
    working structure and the added entries and removed ids of both axes.
   */
  datatype Edit = Edit(
    working: Structure,
    addedRows: seq<Entry>, addedCols: seq<Entry>,
    removedRows: set<string>, removedCols: set<string>)

  function Plan(s: Structure, addCols: seq<string>, rmCols: seq<string>,
                addRows: seq<string>, rmRows: seq<string>): Edit
  {
    var addedCols := AddEntries(s.cols, addCols);
    var addedRows := AddEntries(s.rows, addRows);
    var cols := s.cols + addedCols;
    var rows := s.rows + addedRows;
    Edit(Structure(s.name, RemoveNames(rows, rmRows), RemoveNames(cols, rmCols)),
         addedRows, addedCols, RemovedIds(rows, rmRows), RemovedIds(cols, rmCols))
  }

  /** The guard at palantir/palantir.py:136: both axes must keep at least one entry. */
  predicate Accepted(e: Edit) {
    |e.working.rows| >= 1 && |e.working.cols| >= 1
  }

  /** `structure_row_set` after `difference_update(removed)` and `update(added)`. */
  function FinalIds(original: seq<Entry>, removed: set<string>, added: seq<Entry>): set<string> {
    IdSet(original) - removed + IdSet(added)
  }

  /** Cells unlinked: original rows x removed columns, and removed rows x original columns. */
  function DeletedKeys(s: Structure, e: Edit): set<string> {
    Keys(IdSet(s.rows), e.removedCols) + Keys(e.removedRows, IdSet(s.cols))
  }

  /** Cells written with defaults: added rows x final columns, and final rows x added columns. */
  function CreatedKeys(s: Structure, e: Edit): set<string> {
    Keys(IdSet(e.addedRows), FinalIds(s.cols, e.removedCols, e.addedCols))
    + Keys(FinalIds(s.rows, e.removedRows, e.addedRows), IdSet(e.addedCols))
  }

  /** A fresh dashboard whose first update adds rows only is rejected: it has no column. */
  lemma FirstUpdateNeedsBothAxes(name: string, addRows: seq<string>, rmRows: seq<string>)
    ensures !Accepted(Plan(Structure(name, [], []), [], [], addRows, rmRows))
  {
  }

  /** Re-adding rows and columns that are all present leaves the structure as it was. */
  lemma {:induction false} ReAddingChangesNothing(s: Structure, addCols: seq<string>, addRows: seq<string>)
    requires forall n :: n in addCols ==> Idify(n) in IdSet(s.cols)
    requires forall n :: n in addRows ==> Idify(n) in IdSet(s.rows)
    ensures Plan(s, addCols, [], addRows, []).working == s
    ensures CreatedKeys(s, Plan(s, addCols, [], addRows, [])) == {}
    ensures DeletedKeys(s, Plan(s, addCols, [], addRows, [])) == {}
  {
    NothingAdded(s.cols, addCols);
    NothingAdded(s.rows, addRows);
    assert s.cols + [] == s.cols && s.rows + [] == s.rows;
  }

  lemma {:induction false} NothingAdded(existing: seq<Entry>, names: seq<string>)
    requires forall n :: n in names ==> Idify(n) in IdSet(existing)
    ensures AddEntries(existing, names) == []
    decreases |names|
  {
    if names != [] {
      NothingAdded(existing, names[..|names| - 1]);
    }
  }

  /**
    Adding and removing the same new column in one call leaves the structure
    unchanged, yet the column still counts as added, so cells are written for it.
   */
  lemma AddThenRemoveSameColumn(s: Structure, n: string)
    requires UniqueIds(s.cols) && Idify(n) !in IdSet(s.cols)
    ensures Plan(s, [n], [n], [], []).working == s
    ensures Idify(n) in FinalIds(s.cols, Plan(s, [n], [n], [], []).removedCols, Plan(s, [n], [n], [], []).addedCols)
  {
    var e := Plan(s, [n], [n], [], []);
    var x := Entry(Idify(n), n);
    assert [n][..0] == [];
    assert AddEntries(s.cols, [n]) == [] + AddOne(s.cols, n);
    assert e.addedCols == [x];
    assert IdSet([x]) == {Idify(n)};
    assert Idify(n) in IdSet(s.cols + [x]);
    assert RemoveNames(s.cols + [x], [n]) == ScanRemove(s.cols + [x], 0, Idify(n));
    ScanRemoveKeepsOthers(s.cols + [x], 0, Idify(n), {Idify(n)});
    // exactly one entry carries the new id
    CountAppendFresh(s.cols, x);
    ScanRemoveSingle(s.cols + [x], Idify(n));
    DropAppend(s.cols, x);
    NothingAdded(s.rows, []);
    assert s.rows + [] == s.rows;
  }

  lemma {:induction false} CountAppendFresh(w: seq<Entry>, x: Entry)
    requires UniqueIds(w) && x.id !in IdSet(w)
    ensures Count(w + [x], x.id) == 1
  {
    if w == [] {
    } else {
      IdSetCons(w);
      assert (w + [x])[1..] == w[1..] + [x];
      CountAppendFresh(w[1..], x);
    }
  }

  lemma {:induction false} DropAppend(w: seq<Entry>, x: Entry)
    requires x.id !in IdSet(w)
    ensures Drop(w + [x], {x.id}) == w
  {
    if w == [] {
    } else {
      IdSetCons(w);
      assert (w + [x])[1..] == w[1..] + [x];
      DropAppend(w[1..], x);
    }
  }

  /** The appended entries carry ids of listed names, none of them already present. */
  lemma AddedIds(existing: seq<Entry>, names: seq<string>)
    ensures IdSet(AddEntries(existing, names)) <= IdifyAll(names)
    ensures IdSet(AddEntries(existing, names)) !! IdSet(existing)
  {
    forall e | e in AddEntries(existing, names) ensures e.id in IdifyAll(names) && e.id !in IdSet(existing) {
      AddEntriesMembers(existing, names, e);
    }
  }

  /**
    An id still present after a remove list was either appended by this
    update or is an original id that the list did not remove.
   */
  lemma SurvivorKept(w: seq<Entry>, added: seq<Entry>, names: seq<string>, id: string)
    requires UniqueIds(w) && IdSet(added) !! IdSet(w)
    requires id in IdSet(RemoveNames(w + added, names))
    ensures id in IdSet(added) || (id in IdSet(w) && id !in RemovedIds(w + added, names))
  {
    IdSetConcat(w, added);
    RemoveNamesKeepsOthers(w + added, names, IdifyAll(names));
    if id in IdSet(w) {
      UniqueCount(w, id);
      CountAbsent(added, id);
      CountConcat(w, added, id);
      RemoveNamesOnce(w + added, names, id);
      RemovedIdsExactly(w + added, names);
    }
  }
}
