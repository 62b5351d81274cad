/**
  A dashboard cell and `cell_updater` (palantir/palantir.py:189-224): a
  guarded, field-by-field merge of the caller's options into a copy of the
  cell.
 */
module PalantirCell {
  import opened Wrappers
  import opened Text
  import opened PalantirText

  /** The Python values a caller can pass for a cell option. */
  datatype PyValue = PyStr(s: string) | PyInt(i: int) | PyBool(b: bool)

  /** The `boolean` field: JSON true, false or null, or the string "none" that default cells start with. */
  datatype Flag = FlagTrue | FlagFalse | FlagNull | FlagNoneText

  datatype Note = Note(timestamp: string, text: string)

  datatype Cell = Cell(id: string, text: string, bgcolor: string, color: string,
                       animation: string, boolean: Flag, images: seq<string>, notes: seq<Note>)

  /** Why a dashboard operation gave up. */
  datatype Failure =
    | MissingFile   // open() of a document that does not exist
    | Unreadable    // json.load of a document left empty by an earlier failure
    | Rejected      // structure_updater: an axis would be left empty
    | NotCompleted  // update_json: the callback changed nothing
    | NotAString    // is_hex_color on a colour that is not a str (TypeError)
    | NotAnInteger  // int() of an image index that is not a number (ValueError)

  /** The options of `cell`; `None` is an option left out. */
  datatype CellArgs = CellArgs(
    text: Option<PyValue>, bgcolor: Option<PyValue>, color: Option<PyValue>,
    boolean: Option<PyValue>, animation: Option<PyValue>, addImage: Option<PyValue>,
    removeImage: Option<PyValue>, addNote: Option<PyValue>)

  /** What the clock and the file system do during one call. */
  datatype Effects = Effects(now: string, unlinkOk: bool, copyOk: bool)

  /** The cell `structure_updater` writes for a new row/column pair. */
  function DefaultCell(id: string): Cell {
    Cell(id, "", "#F0F0F0", "#969696", "none", FlagNoneText, [], [])
  }

  const Animations: seq<string> := ["none", "wave", "toggle", "bars"]

  /** Largest value of a Python 2 `int` on a 64-bit build; anything beyond is a `long`. */
  const MaxInt: int := 0x7FFF_FFFF_FFFF_FFFF

  predicate IsMachineInt(n: int) {
    -MaxInt - 1 <= n <= MaxInt
  }

  function NewText(prev: string, v: Option<PyValue>): string {
    if v.Some? && v.value.PyStr? then v.value.s else prev
  }

  /** A colour option: a matching str is taken, any other str ignored, and a non-str raises. */
  function NewColor(prev: string, v: Option<PyValue>): Result<string, Failure> {
    match v
    case None => Ok(prev)
    case Some(PyStr(s)) => Ok(if IsHexColor(s) then s else prev)
    case Some(_) => Err(NotAString)
  }

  /** The spellings the boolean option accepts; Python's `1 == True` lets the ints 1 and 0 through too. */
  function Spelling(v: PyValue): Option<Flag> {
    match v
    case PyBool(b) => Some(if b then FlagTrue else FlagFalse)
    case PyInt(i) => if i == 1 then Some(FlagTrue) else if i == 0 then Some(FlagFalse) else None
    case PyStr(s) =>
      if s == "True" || s == "true" then Some(FlagTrue)
      else if s == "False" || s == "false" then Some(FlagFalse)
      else if s == "None" || s == "none" then Some(FlagNull)
      else None
  }

  function NewFlag(prev: Flag, v: Option<PyValue>): Flag {
    if v.Some? && Spelling(v.value).Some? then Spelling(v.value).value else prev
  }

  function NewAnimation(prev: string, v: Option<PyValue>): string {
    if v.Some? && v.value.PyStr? && v.value.s in Animations then v.value.s else prev
  }

  function NewNotes(prev: seq<Note>, v: Option<PyValue>, now: string): seq<Note> {
    if v.Some? && v.value.PyStr? then [Note(now, v.value.s)] + prev else prev
  }

  /**
    `int(remove_image)` and the type test beside it: Err when the value is
    not a number; None when the number needs a `long`, which the test skips.
   */
  function ImageIndex(v: PyValue): Result<Option<int>, Failure> {
    match v
    case PyBool(b) => Ok(Some(if b then 1 else 0))
    case PyInt(i) => Ok(if IsMachineInt(i) then Some(i) else None)
    case PyStr(s) =>
      match ParseInt(s)
      case None => Err(NotAnInteger)
      case Some(i) => Ok(if IsMachineInt(i) then Some(i) else None)
  }

  /** The position a Python index selects, when it is in range (negative counts from the end). */
  function Position(n: nat, index: int): Option<nat> {
    if 0 <= index < n then Some(index as nat)
    else if -(n as int) <= index < 0 then Some((index + n) as nat)
    else None
  }

  /**
    Unlink the image at `index` and drop it from the list with
    `list.remove`; an index out of range or a failed unlink is swallowed.
   */
  function RemoveImageAt(images: seq<string>, index: int, unlinkOk: bool): seq<string> {
    match Position(|images|, index)
    case Some(k) => if unlinkOk then RemoveFirst(images, images[k]) else images
    case None => images
  }

  /** Where a copied image is recorded: `images/` and the file name of the cleaned path. */
  function ImageName(path: string): string {
    "images/" + Basename(CleanedPath(path))
  }

  function AddImageTo(images: seq<string>, v: Option<PyValue>, copyOk: bool): seq<string> {
    if v.Some? && v.value.PyStr? && copyOk then images + [ImageName(v.value.s)] else images
  }

  /** The field assignments of `cell_updater` (text, colours, boolean, animation, note). */
  function MergeFields(c: Cell, a: CellArgs, now: string): Result<Cell, Failure> {
    var bg := NewColor(c.bgcolor, a.bgcolor);
    var fg := NewColor(c.color, a.color);
    if bg.Err? then Err(bg.error)
    else if fg.Err? then Err(fg.error)
    else Ok(c.(text := NewText(c.text, a.text), bgcolor := bg.value, color := fg.value,
               boolean := NewFlag(c.boolean, a.boolean), animation := NewAnimation(c.animation, a.animation),
               notes := NewNotes(c.notes, a.addNote, now)))
  }

  /** The image edits of `cell_updater`: remove by index first, then add. */
  function MergeImages(images: seq<string>, a: CellArgs, fx: Effects): Result<seq<string>, Failure> {
    var index := if a.removeImage.Some? then ImageIndex(a.removeImage.value) else Ok(None);
    if index.Err? then Err(index.error)
    else
      var kept := if index.value.Some? then RemoveImageAt(images, index.value.value, fx.unlinkOk) else images;
      Ok(AddImageTo(kept, a.addImage, fx.copyOk))
  }

  /** What `cell_updater` returns, or the exception it raises. */
  function MergeCell(c: Cell, a: CellArgs, fx: Effects): Result<Cell, Failure> {
    match MergeFields(c, a, fx.now)
    case Err(e) => Err(e)
    case Ok(d) =>
      match MergeImages(d.images, a, fx)
      case Err(e) => Err(e)
      case Ok(images) => Ok(d.(images := images))
  }

  /** `cell_updater`: assigns the fields of a working copy one option at a time. */
  method CellUpdater(c: Cell, a: CellArgs, fx: Effects) returns (r: Result<Cell, Failure>)
    ensures r == MergeCell(c, a, fx)
  {
    var fields := UpdateFields(c, a, fx.now);
    if fields.Err? {
      return Err(fields.error);
    }
    var images := UpdateImages(fields.value.images, a, fx);
    if images.Err? {
      return Err(images.error);
    }
    r := Ok(fields.value.(images := images.value));
  }

  method UpdateFields(c: Cell, a: CellArgs, now: string) returns (r: Result<Cell, Failure>)
    ensures r == MergeFields(c, a, now)
  {
    var working := c;
    if a.text.Some? && a.text.value.PyStr? {
      working := working.(text := a.text.value.s);
    }
    if a.bgcolor.Some? {
      if !a.bgcolor.value.PyStr? {
        return Err(NotAString);
      }
      if IsHexColor(a.bgcolor.value.s) {
        working := working.(bgcolor := a.bgcolor.value.s);
      }
    }
    if a.color.Some? {
      if !a.color.value.PyStr? {
        return Err(NotAString);
      }
      if IsHexColor(a.color.value.s) {
        working := working.(color := a.color.value.s);
      }
    }
    if a.boolean.Some? {
      var flag := Spelling(a.boolean.value);
      if flag.Some? {
        working := working.(boolean := flag.value);
      }
    }
    if a.animation.Some? && a.animation.value.PyStr? && a.animation.value.s in Animations {
      working := working.(animation := a.animation.value.s);
    }
    if a.addNote.Some? && a.addNote.value.PyStr? {
      working := working.(notes := [Note(now, a.addNote.value.s)] + working.notes);
    }
    r := Ok(working);
  }

  method UpdateImages(images: seq<string>, a: CellArgs, fx: Effects) returns (r: Result<seq<string>, Failure>)
    ensures r == MergeImages(images, a, fx)
  {
    var working := images;
    if a.removeImage.Some? {
      var index := ImageIndex(a.removeImage.value);
      if index.Err? {
        return Err(index.error);
      }
      if index.value.Some? {
        var k := Position(|working|, index.value.value);
        if k.Some? && fx.unlinkOk {
          working := RemoveFirst(working, working[k.value]);
        }
      }
    }
    if a.addImage.Some? && a.addImage.value.PyStr? && fx.copyOk {
      working := working + [ImageName(a.addImage.value.s)];
    }
    r := Ok(working);
  }

  /** The merge fails exactly on a non-str colour or an image index that is not a number. */
  lemma MergeCellFailsIff(c: Cell, a: CellArgs, fx: Effects)
    ensures MergeCell(c, a, fx).Err? <==>
      (a.bgcolor.Some? && !a.bgcolor.value.PyStr?) ||
      (a.color.Some? && !a.color.value.PyStr?) ||
      (a.removeImage.Some? && a.removeImage.value.PyStr? && ParseInt(a.removeImage.value.s).None?)
  {
  }

  /** A field changes only on valid input, and the cell keeps its id. */
  lemma MergeCellChangesOnlyOnValidInput(c: Cell, a: CellArgs, fx: Effects)
    requires MergeCell(c, a, fx).Ok?
    ensures var d := MergeCell(c, a, fx).value;
      && d.id == c.id
      && (d.text != c.text ==> a.text == Some(PyStr(d.text)))
      && (d.bgcolor != c.bgcolor ==> IsHexColor(d.bgcolor) && a.bgcolor == Some(PyStr(d.bgcolor)))
      && (d.color != c.color ==> IsHexColor(d.color) && a.color == Some(PyStr(d.color)))
      && (d.boolean != c.boolean ==> a.boolean.Some? && Spelling(a.boolean.value) == Some(d.boolean))
      && (d.animation != c.animation ==> d.animation in Animations && a.animation == Some(PyStr(d.animation)))
      && (d.notes != c.notes ==> a.addNote.Some? && a.addNote.value.PyStr?)
      && (d.images != c.images ==> a.removeImage.Some? || a.addImage.Some?)
  {
  }

  /** Valid input is taken: each field ends up holding what the caller asked for. */
  lemma MergeCellTakesValidInput(c: Cell, a: CellArgs, fx: Effects)
    requires MergeCell(c, a, fx).Ok?
    ensures var d := MergeCell(c, a, fx).value;
      && (forall t :: a.text == Some(PyStr(t)) ==> d.text == t)
      && (forall s :: a.bgcolor == Some(PyStr(s)) && IsHexColor(s) ==> d.bgcolor == s)
      && (forall s :: a.color == Some(PyStr(s)) && IsHexColor(s) ==> d.color == s)
      && (a.boolean.Some? && Spelling(a.boolean.value).Some? ==> d.boolean == Spelling(a.boolean.value).value)
      && (forall s :: a.animation == Some(PyStr(s)) && s in Animations ==> d.animation == s)
      && (forall t :: a.addNote == Some(PyStr(t)) ==> d.notes == [Note(fx.now, t)] + c.notes)
  {
  }

  /** Removing an in-range image whose file was unlinked takes away one copy of it and nothing else. */
  lemma {:induction false} RemoveImageAtDropsOne(images: seq<string>, index: int, unlinkOk: bool)
    ensures Position(|images|, index).Some? && unlinkOk ==>
      var k := Position(|images|, index).value;
      k < |images| && multiset(RemoveImageAt(images, index, unlinkOk)) == multiset(images) - multiset{images[k]}
    ensures Position(|images|, index).None? || !unlinkOk ==> RemoveImageAt(images, index, unlinkOk) == images
  {
    match Position(|images|, index)
    case Some(k) =>
      if unlinkOk {
        RemoveFirstOneCopy(images, images[k]);
      }
    case None =>
  }

  /** A Python index selects a position iff it lies in `[-n, n)`, counting negatives from the end. */
  lemma PositionIff(n: nat, index: int)
    ensures Position(n, index).Some? <==> -(n as int) <= index < n
    ensures Position(n, index).Some? ==>
      Position(n, index).value < n && Position(n, index).value as int == (if index < 0 then index + n else index)
  {
  }

  /** The options with the note and image edits left out. */
  function FieldsOnly(a: CellArgs): CellArgs {
    a.(addImage := None, removeImage := None, addNote := None)
  }

  /** Setting the same fields a second time changes nothing. */
  lemma MergeCellIdempotent(c: Cell, a: CellArgs, fx: Effects)
    requires MergeCell(c, FieldsOnly(a), fx).Ok?
    ensures MergeCell(MergeCell(c, FieldsOnly(a), fx).value, FieldsOnly(a), fx) == MergeCell(c, FieldsOnly(a), fx)
  {
  }

  /** `--setbool none` on a fresh cell stores null in place of the string "none": a change. */
  lemma SetBoolNoneChangesDefault(id: string, fx: Effects)
    ensures var a := CellArgs(None, None, None, Some(PyStr("none")), None, None, None, None);
      MergeCell(DefaultCell(id), a, fx) == Ok(DefaultCell(id).(boolean := FlagNull)) &&
      MergeCell(DefaultCell(id), a, fx) != Ok(DefaultCell(id))
  {
  }
}
