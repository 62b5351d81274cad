/**
  The two writers of FSSETUP.py: `writeScript` (FSSETUP.py:322-354), which
  wraps every command of a script in status updates for the chosen monitor,
  and `writeSubmit` (FSSETUP.py:361-422), which queues one job for the whole
  project, one per input row, or one per distinct subject. Each returns the
  text it would write; the file itself is written by `run`.
 */
module FsSetupWriter {
  import opened Wrappers
  import opened Text
  import opened FsSetupScripts

  /** A lookup in `arguments` that raised `KeyError`. */
  datatype Failure = KeyError(key: string)

  // --------------------------------------------------------- writeScript

  /** Whose row a status update marks: the project, every timepoint in `$inputlist`, or the script's own row. */
  datatype Target = ProjectTarget | EachInput | SubjectTime | SubjectOnly

  /** The `if`/`elif` chain choosing the update's row (FSSETUP.py:330-337, 340-347). */
  function TargetOf(long: bool, name: string): Target {
    if name == ExtractName then ProjectTarget
    else if Contains(name, "Base") then EachInput
    else if long then SubjectTime
    else SubjectOnly
  }

  /** The row argument, or the loop around the update for `EachInput`. */
  function Aimed(t: Target, command: string, rest: string): string {
    match t
    case ProjectTarget => command + " Project " + rest
    case EachInput => "for i in $inputlist ; do " + command + " ${i} " + rest + " ; done"
    case SubjectTime => command + " ${subid}_${time} " + rest
    case SubjectOnly => command + " ${subid} " + rest
  }

  /** A monitor whose place is known; with "None" the writer looks up a `MonitorDir` that is not there. */
  predicate Monitored(a: Setup) { !a.monitor.NoMonitor? }

  /**
    The update that sets the script's cell to `status`: `statusupdate.py` in
    the monitor directory, or the spreadsheet writer with the script's index
    and a time stamp.
   */
  function Update(a: Setup, name: string, index: nat, status: string): string
    requires Monitored(a)
  {
    var t := TargetOf(a.isLongitudinal, name);
    match a.monitor
    case Google(key) =>
      Aimed(t, a.thisDir + "/lib/writeToSpreadsheet.py", NatToString(index) + " " + status + "-${CURRENTTIME} " + key)
    case JobMonitor(dir) =>
      Aimed(t, dir + "/statusupdate.py", name + " " + status)
  }

  const Now: string := "CURRENTTIME=$(date +%FT%R:%S)"

  /** `wrappedsteps`: the command between a Running update and its Finished or Error update. */
  function Wrap(a: Setup, name: string, index: nat, step: string): seq<string>
    requires Monitored(a)
  {
    var u := status => Update(a, name, index, status);
    if a.monitor.Google? then
      [u("Running"), "if " + step + "; then", Now, u("Finished"), "else", Now, u("Error"), "exit", "fi"]
    else
      [u("Running"), "if " + step + "; then", u("Finished"), "else", u("Error"), "exit", "fi"]
  }

  function BlockSize(a: Setup): nat { if a.monitor.Google? then 9 else 7 }

  /** The wrapped commands of `steps`, in order. */
  function Blocks(a: Setup, name: string, index: nat, steps: seq<string>): seq<string>
    requires Monitored(a) || steps == []
  {
    if steps == [] then []
    else Blocks(a, name, index, steps[..|steps| - 1]) + Wrap(a, name, index, steps[|steps| - 1])
  }

  function Opening(header: string, s: FsScript): seq<string> {
    [header] + s.inputLines + ["STARTTIME=$(date +%s)", Now]
  }

  function Closing(name: string): seq<string> {
    ["ENDTIME=$(date +%s)", "TOTALSEC=$((ENDTIME - STARTTIME))", "echo " + name + " took $TOTALSEC seconds"]
  }

  /** `scriptlist` as `writeScript` leaves it, or the `KeyError` a "None" monitor meets at the first command. */
  function ScriptLines(a: Setup, header: string, s: FsScript, index: nat): Result<seq<string>, Failure> {
    if !Monitored(a) && s.steps != [] then Err(KeyError("MonitorDir"))
    else Ok(Opening(header, s) + Blocks(a, s.name, index, s.steps) + Closing(s.name))
  }

  /** The contents of `{FreeSurferDir}/scripts/{Name}.sh`. */
  function ScriptText(a: Setup, header: string, s: FsScript, index: nat): Result<string, Failure> {
    match ScriptLines(a, header, s, index)
    case Ok(lines) => Ok(Join(lines, "\n"))
    case Err(e) => Err(e)
  }

  /** `writeScript`, short of the file write: assembles the script's lines and joins them. */
  method WriteScript(a: Setup, header: string, s: FsScript, index: nat) returns (r: Result<string, Failure>)
    ensures r == ScriptText(a, header, s, index)
  {
    var lines := [header] + s.inputLines + ["STARTTIME=$(date +%s)", Now];
    for k := 0 to |s.steps|
      invariant Monitored(a) || k == 0
      invariant lines == Opening(header, s) + Blocks(a, s.name, index, s.steps[..k])
    {
      if !Monitored(a) {
        return Err(KeyError("MonitorDir"));
      }
      BlocksStep(a, s.name, index, s.steps, k, Opening(header, s));
      lines := lines + Wrap(a, s.name, index, s.steps[k]);
    }
    assert s.steps[..|s.steps|] == s.steps;
    lines := lines + Closing(s.name);
    r := Ok(Join(lines, "\n"));
  }

  // --------------------------------------------- writeScript, properties

  /** One more command wrapped: its block follows those of the commands before it. */
  lemma BlocksStep(a: Setup, name: string, index: nat, steps: seq<string>, k: nat, opening: seq<string>)
    requires Monitored(a) && k < |steps|
    ensures opening + Blocks(a, name, index, steps[..k + 1])
         == (opening + Blocks(a, name, index, steps[..k])) + Wrap(a, name, index, steps[k])
  {
    assert steps[..k + 1][..k] == steps[..k];
    Assoc(opening, Blocks(a, name, index, steps[..k]), Wrap(a, name, index, steps[k]));
  }

  lemma Assoc<T>(x: seq<T>, y: seq<T>, z: seq<T>)
    ensures x + (y + z) == (x + y) + z
  {
  }

  /** With the "None" monitor type every script that runs a command fails before anything is written. */
  lemma NoMonitorFails(a: Setup, header: string, s: FsScript, index: nat)
    requires a.monitor.NoMonitor? && s.steps != []
    ensures ScriptText(a, header, s, index) == Err(KeyError("MonitorDir"))
  {
  }

  lemma WrapSize(a: Setup, name: string, index: nat, step: string)
    requires Monitored(a)
    ensures |Wrap(a, name, index, step)| == BlockSize(a)
  {
  }

  lemma {:induction false} BlocksSize(a: Setup, name: string, index: nat, steps: seq<string>)
    requires Monitored(a)
    ensures |Blocks(a, name, index, steps)| == |steps| * BlockSize(a)
  {
    if steps != [] {
      BlocksSize(a, name, index, steps[..|steps| - 1]);
      WrapSize(a, name, index, steps[|steps| - 1]);
    }
  }

  /** Line `j` of the `k`-th block is line `j` of the wrapped `k`-th command: the commands keep their order. */
  lemma {:induction false} BlocksAt(a: Setup, name: string, index: nat, steps: seq<string>, k: nat, j: nat)
    requires Monitored(a) && k < |steps| && j < BlockSize(a)
    ensures k * BlockSize(a) + j < |Blocks(a, name, index, steps)|
    ensures Blocks(a, name, index, steps)[k * BlockSize(a) + j] == Wrap(a, name, index, steps[k])[j]
  {
    var b := BlockSize(a);
    var front := steps[..|steps| - 1];
    BlocksSize(a, name, index, steps);
    BlocksSize(a, name, index, front);
    WrapSize(a, name, index, steps[|steps| - 1]);
    if k < |front| {
      assert k * b + b <= |front| * b by { MulMonotone(k + 1, |front|, b); }
      BlocksAt(a, name, index, front, k, j);
      assert front[k] == steps[k];
    } else {
      assert k == |front|;
    }
  }

  /**
    The layout of a written script: the header line, the input lines, the
    two time lines, one block of `BlockSize` lines per command in command
    order, and the three timing lines ending in the echo of the name.
   */
  lemma ScriptLayout(a: Setup, header: string, s: FsScript, index: nat)
    requires Monitored(a)
    ensures ScriptLines(a, header, s, index).Ok?
    ensures var lines := ScriptLines(a, header, s, index).value;
      && |lines| == 3 + |s.inputLines| + BlockSize(a) * |s.steps| + 3
      && lines[0] == header
      && lines[1 .. 1 + |s.inputLines|] == s.inputLines
      && lines[|lines| - 1] == "echo " + s.name + " took $TOTALSEC seconds"
  {
    BlocksSize(a, s.name, index, s.steps);
    var lines := ScriptLines(a, header, s, index).value;
    assert lines[1 .. 1 + |s.inputLines|] == Opening(header, s)[1 .. 1 + |s.inputLines|];
  }

  /**
    The `k`-th command runs inside its own block: a Running update, then
    `if <command>; then`, and at the end the Error update, `exit` and `fi`.
   */
  lemma StepWrapped(a: Setup, header: string, s: FsScript, index: nat, k: nat)
    requires Monitored(a) && k < |s.steps|
    ensures ScriptLines(a, header, s, index).Ok?
    ensures var lines := ScriptLines(a, header, s, index).value;
      var p := 3 + |s.inputLines| + k * BlockSize(a);
      var b := BlockSize(a);
      && p + b <= |lines|
      && lines[p] == Update(a, s.name, index, "Running")
      && lines[p + 1] == "if " + s.steps[k] + "; then"
      && lines[p + b - 3] == Update(a, s.name, index, "Error")
      && lines[p + b - 2] == "exit"
      && lines[p + b - 1] == "fi"
  {
    var b := BlockSize(a);
    var o, m, c := Opening(header, s), Blocks(a, s.name, index, s.steps), Closing(s.name);
    assert ScriptLines(a, header, s, index) == Ok(o + m + c);
    assert |o| == 3 + |s.inputLines|;
    WrapShape(a, s.name, index, s.steps[k]);
    LineOfBlock(a, o, m, c, s.name, index, s.steps, k, 0);
    LineOfBlock(a, o, m, c, s.name, index, s.steps, k, 1);
    LineOfBlock(a, o, m, c, s.name, index, s.steps, k, b - 3);
    LineOfBlock(a, o, m, c, s.name, index, s.steps, k, b - 2);
    LineOfBlock(a, o, m, c, s.name, index, s.steps, k, b - 1);
  }

  /** A line of a wrapped command, found in the whole script. */
  lemma LineOfBlock(a: Setup, o: seq<string>, m: seq<string>, c: seq<string>, name: string, index: nat, steps: seq<string>, k: nat, j: nat)
    requires Monitored(a) && m == Blocks(a, name, index, steps) && k < |steps| && j < BlockSize(a)
    ensures |o| + k * BlockSize(a) + j < |o + m + c|
    ensures (o + m + c)[|o| + k * BlockSize(a) + j] == Wrap(a, name, index, steps[k])[j]
  {
    BlocksAt(a, name, index, steps, k, j);
    IndexMiddle(o, m, c, k * BlockSize(a) + j);
  }

  /** A wrapped command: Running update, the `if`, and at the end the Error update, `exit` and `fi`. */
  lemma WrapShape(a: Setup, name: string, index: nat, step: string)
    requires Monitored(a)
    ensures var w, b := Wrap(a, name, index, step), BlockSize(a);
      && |w| == b
      && w[0] == Update(a, name, index, "Running")
      && w[1] == "if " + step + "; then"
      && w[b - 3] == Update(a, name, index, "Error")
      && w[b - 2] == "exit"
      && w[b - 1] == "fi"
  {
  }

  /** The command, the monitor-specific words before the status, and those after it. */
  function UpdateCommand(a: Setup): string
    requires Monitored(a)
  {
    if a.monitor.Google? then a.thisDir + "/lib/writeToSpreadsheet.py" else a.monitor.monitorDir + "/statusupdate.py"
  }

  function UpdateFront(a: Setup, name: string, index: nat): string
    requires Monitored(a)
  {
    if a.monitor.Google? then NatToString(index) + " " else name + " "
  }

  function UpdateBack(a: Setup): string
    requires Monitored(a)
  {
    if a.monitor.Google? then "-${CURRENTTIME} " + a.monitor.spreadsheetKey else ""
  }

  /** What an aimed command has before its last argument's middle part, and after it. */
  function AimedPre(t: Target, command: string, front: string): string {
    match t
    case ProjectTarget => command + " Project " + front
    case EachInput => "for i in $inputlist ; do " + command + " ${i} " + front
    case SubjectTime => command + " ${subid}_${time} " + front
    case SubjectOnly => command + " ${subid} " + front
  }

  function AimedPost(t: Target, back: string): string {
    if t == EachInput then back + " ; done" else back
  }

  lemma AimedSplits(t: Target, command: string, front: string, status: string, back: string)
    ensures Aimed(t, command, front + status + back) == AimedPre(t, command, front) + status + AimedPost(t, back)
  {
    match t
    case ProjectTarget => Regroup(command + " Project ", front, status, back);
    case EachInput => RegroupAround("for i in $inputlist ; do " + command + " ${i} ", front, status, back, " ; done");
    case SubjectTime => Regroup(command + " ${subid}_${time} ", front, status, back);
    case SubjectOnly => Regroup(command + " ${subid} ", front, status, back);
  }

  lemma Regroup(p: string, f: string, s: string, b: string)
    ensures p + (f + s + b) == (p + f) + s + b
  {
  }

  lemma RegroupAround(p: string, f: string, s: string, b: string, q: string)
    ensures p + (f + s + b) + q == (p + f) + s + (b + q)
  {
  }

  /** The Running, Finished and Error updates of a script differ only in the status word. */
  lemma UpdateSplits(a: Setup, name: string, index: nat, status: string)
    requires Monitored(a)
    ensures var t := TargetOf(a.isLongitudinal, name);
      Update(a, name, index, status)
        == AimedPre(t, UpdateCommand(a), UpdateFront(a, name, index)) + status + AimedPost(t, UpdateBack(a))
  {
    var t := TargetOf(a.isLongitudinal, name);
    UpdateIsAimed(a, name, index, status);
    AimedSplits(t, UpdateCommand(a), UpdateFront(a, name, index), status, UpdateBack(a));
  }

  lemma UpdateIsAimed(a: Setup, name: string, index: nat, status: string)
    requires Monitored(a)
    ensures Update(a, name, index, status)
         == Aimed(TargetOf(a.isLongitudinal, name), UpdateCommand(a), UpdateFront(a, name, index) + status + UpdateBack(a))
  {
    var rest := UpdateFront(a, name, index) + status + UpdateBack(a);
    if a.monitor.Google? {
      assert rest == NatToString(index) + " " + status + "-${CURRENTTIME} " + a.monitor.spreadsheetKey;
    } else {
      assert rest == name + " " + status;
    }
  }

  // -------------------------------------------------------- writeSubmit

  /** `standardheader`, which ends in a newline of its own. */
  function SubmitHeader(fd: string, name: string): string {
    var logs := fd + "/scripts/condorlogs/" + name;
    "Universe=vanilla\ngetenv=True\nrequest_memory=3072\ninitialdir=" + fd + "/subjects\nExecutable="
    + fd + "/scripts/" + name + ".sh\nLog=" + logs + "_$(target)_log.txt\nOutput=" + logs
    + "_$(target)_out.txt\nError=" + logs + "_$(target)_err.txt\nNotification=Error\n"
  }

  /** One job of the queue: its target and its quoted arguments. */
  function QueueBlock(target: string, arguments: string): string {
    "\ntarget=" + target + "\narguments=\"" + arguments + "\"\nQueue\n"
  }

  /** A row's run: `{subject}_{timepoint}` when longitudinal, the subject otherwise. */
  function RowId(long: bool, row: Row): string {
    if long then row.subject + "_" + row.timepoint else row.subject
  }

  function RowIds(long: bool, rows: seq<Row>): seq<string> {
    seq(|rows|, i requires 0 <= i < |rows| => RowId(long, rows[i]))
  }

  /** `subjexistingfiles`: the file values that are not `None`, in column order. */
  function Existing(files: seq<Option<string>>): seq<string> {
    if files == [] then []
    else Existing(files[..|files| - 1]) + (if files[|files| - 1].Some? then [files[|files| - 1].value] else [])
  }

  /** `subjarguments` of Orig: the subject, its timepoint when longitudinal, then its files. */
  function OrigArguments(long: bool, row: Row): seq<string> {
    [row.subject] + (if long then [row.timepoint] else []) + Existing(row.files)
  }

  function OrigBlock(long: bool, row: Row): string {
    QueueBlock(RowId(long, row), Join(OrigArguments(long, row), " "))
  }

  function RowBlock(long: bool, row: Row): string {
    QueueBlock(RowId(long, row), if long then row.subject + " " + row.timepoint else row.subject)
  }

  /** The subject's timepoints in row order: the rows `InputFile.index == subject` selects. */
  function TimepointsOf(rows: seq<Row>, subject: string): seq<string> {
    if rows == [] then []
    else
      var last := rows[|rows| - 1];
      TimepointsOf(rows[..|rows| - 1], subject) + (if last.subject == subject then [last.timepoint] else [])
  }

  function SubjectBlock(rows: seq<Row>, subject: string): string {
    QueueBlock(subject, Join([subject] + TimepointsOf(rows, subject), " "))
  }

  /** `set(InputFile.index)`. */
  function Subjects(rows: seq<Row>): set<string> {
    set i | 0 <= i < |rows| :: rows[i].subject
  }

  /** The scripts queued once per input row (the list at FSSETUP.py:402). */
  const PerRowNames: seq<string> := ["Restart", "Cross_talEdit", "Cross_maskEdit", "Cross_cpEdit", "Cross_wmEdit", "Cross_gmEdit",
                                     "Long", "Long_talEdit", "Long_maskEdit", "Long_cpEdit", "Long_wmEdit", "Long_gmEdit"]

  /** Which of the four queue constructions a script gets, by its name. */
  datatype QueueKind = ProjectQueue | OrigQueue | RowQueue | SubjectQueue

  function KindOf(name: string): QueueKind {
    if name == ExtractName then ProjectQueue
    else if name == "Orig" then OrigQueue
    else if name in PerRowNames then RowQueue
    else SubjectQueue
  }

  /**
    `queuelist`. The subject queue visits the subjects in `order`, the
    iteration order of the Python set; without a `Timepoint` column (not
    longitudinal) its first lookup raises.
   */
  function Queue(a: Setup, s: FsScript, order: seq<string>): Result<seq<string>, Failure> {
    var long, rows := a.isLongitudinal, a.rows;
    match KindOf(s.name)
    case ProjectQueue => Ok([QueueBlock("Project", Join(RowIds(long, rows), " "))])
    case OrigQueue => Ok(seq(|rows|, i requires 0 <= i < |rows| => OrigBlock(long, rows[i])))
    case RowQueue => Ok(seq(|rows|, i requires 0 <= i < |rows| => RowBlock(long, rows[i])))
    case SubjectQueue =>
      if !long && order != [] then Err(KeyError("Timepoint"))
      else Ok(seq(|order|, i requires 0 <= i < |order| => SubjectBlock(rows, order[i])))
  }

  /** The contents of `{FreeSurferDir}/scripts/condorsubmit/cs_{Name}.txt`. */
  function SubmitText(a: Setup, s: FsScript, order: seq<string>): Result<string, Failure> {
    match Queue(a, s, order)
    case Ok(queue) => Ok(Join([SubmitHeader(a.freeSurferDir, s.name)] + queue, "\n"))
    case Err(e) => Err(e)
  }

  /** `order` lists each subject of the input file once: an iteration order of `set(InputFile.index)`. */
  predicate Enumerates(order: seq<string>, rows: seq<Row>) {
    Distinct(order) && ToSet(order) == Subjects(rows)
  }

  /** The timepoints of `subject` among `rows`, gathered one row at a time. */
  method GatherTimepoints(rows: seq<Row>, subject: string) returns (tps: seq<string>)
    ensures tps == TimepointsOf(rows, subject)
  {
    tps := [];
    for k := 0 to |rows|
      invariant tps == TimepointsOf(rows[..k], subject)
    {
      assert rows[..k + 1][..k] == rows[..k];
      if rows[k].subject == subject {
        tps := tps + [rows[k].timepoint];
      }
    }
    assert rows[..|rows|] == rows;
  }

  /** `queuelist`, grown one job at a time. */
  method BuildQueue(a: Setup, s: FsScript, order: seq<string>) returns (r: Result<seq<string>, Failure>)
    ensures r == Queue(a, s, order)
  {
    var long, rows := a.isLongitudinal, a.rows;
    var queue: seq<string> := [];
    var kind := KindOf(s.name);
    if kind == ProjectQueue {
      var subjects: seq<string> := [];
      for k := 0 to |rows|
        invariant subjects == RowIds(long, rows[..k])
      {
        subjects := subjects + [RowId(long, rows[k])];
      }
      assert rows[..|rows|] == rows;
      queue := [QueueBlock("Project", Join(subjects, " "))];
    } else if kind == OrigQueue {
      for k := 0 to |rows|
        invariant queue == seq(k, i requires 0 <= i < k => OrigBlock(long, rows[i]))
      {
        queue := queue + [OrigBlock(long, rows[k])];
      }
    } else if kind == RowQueue {
      for k := 0 to |rows|
        invariant queue == seq(k, i requires 0 <= i < k => RowBlock(long, rows[i]))
      {
        queue := queue + [RowBlock(long, rows[k])];
      }
    } else {
      for k := 0 to |order|
        invariant long || k == 0
        invariant queue == seq(k, i requires 0 <= i < k => SubjectBlock(rows, order[i]))
      {
        if !long {
          return Err(KeyError("Timepoint"));
        }
        var tps := GatherTimepoints(rows, order[k]);
        queue := queue + [QueueBlock(order[k], Join([order[k]] + tps, " "))];
      }
    }
    r := Ok(queue);
  }

  /** `writeSubmit`, short of the file write: the header, then the queue, joined by newlines. */
  method WriteSubmit(a: Setup, s: FsScript, order: seq<string>) returns (r: Result<string, Failure>)
    requires Enumerates(order, a.rows)
    ensures r == SubmitText(a, s, order)
  {
    var queue := BuildQueue(a, s, order);
    if queue.Err? {
      return Err(queue.error);
    }
    r := Ok(Join([SubmitHeader(a.freeSurferDir, s.name)] + queue.value, "\n"));
  }

  // --------------------------------------------- writeSubmit, properties

  /** `Existing` keeps exactly the values that are present, each in its column order. */
  lemma {:induction false} ExistingKeeps(files: seq<Option<string>>)
    ensures forall x :: x in Existing(files) <==> Some(x) in files
    ensures |Existing(files)| <= |files|
  {
    if files != [] {
      var front := files[..|files| - 1];
      ExistingKeeps(front);
      assert files == front + [files[|files| - 1]];
      forall x ensures Some(x) in files <==> Some(x) in front || Some(x) == files[|files| - 1] {
      }
    }
  }

  /** A row's timepoints are exactly those of its rows with that subject. */
  lemma {:induction false} TimepointsOfKeeps(rows: seq<Row>, subject: string)
    ensures forall t :: t in TimepointsOf(rows, subject) <==> exists i :: 0 <= i < |rows| && rows[i].subject == subject && rows[i].timepoint == t
  {
    if rows != [] {
      var front := rows[..|rows| - 1];
      TimepointsOfKeeps(front, subject);
      forall t ensures t in TimepointsOf(rows, subject) <==> exists i :: 0 <= i < |rows| && rows[i].subject == subject && rows[i].timepoint == t {
        if t in TimepointsOf(rows, subject) && t !in TimepointsOf(front, subject) {
          var i := |rows| - 1;
          assert rows[i].subject == subject && rows[i].timepoint == t;
        }
        if exists i :: 0 <= i < |rows| && rows[i].subject == subject && rows[i].timepoint == t {
          var i :| 0 <= i < |rows| && rows[i].subject == subject && rows[i].timepoint == t;
          if i < |front| {
            assert front[i] == rows[i];
          }
        }
      }
    }
  }

  /**
    The project-wide script queues a single job for the whole project;
    Orig and the per-row scripts queue one job per input row, in row order,
    for that row's run.
   */
  lemma QueueSizes(a: Setup, s: FsScript, order: seq<string>)
    ensures KindOf(s.name) == ProjectQueue ==> Queue(a, s, order) == Ok([QueueBlock("Project", Join(RowIds(a.isLongitudinal, a.rows), " "))])
    ensures KindOf(s.name) in {OrigQueue, RowQueue} ==>
      && Queue(a, s, order).Ok?
      && |Queue(a, s, order).value| == |a.rows|
      && forall k :: 0 <= k < |a.rows| ==> Queue(a, s, order).value[k] == QueueBlock(RowId(a.isLongitudinal, a.rows[k]),
           if KindOf(s.name) == OrigQueue then Join(OrigArguments(a.isLongitudinal, a.rows[k]), " ")
           else if a.isLongitudinal then a.rows[k].subject + " " + a.rows[k].timepoint else a.rows[k].subject)
  {
  }

  /**
    The subject queue holds one job per distinct subject, whichever order
    the set yields them in: the jobs, as a set, are fixed by the rows alone.
   */
  lemma {:induction false} SubjectQueueOrderFree(a: Setup, s: FsScript, order: seq<string>)
    requires Enumerates(order, a.rows) && KindOf(s.name) == SubjectQueue && a.isLongitudinal
    ensures Queue(a, s, order).Ok?
    ensures |Queue(a, s, order).value| == |Subjects(a.rows)|
    ensures ToSet(Queue(a, s, order).value) == set subject | subject in Subjects(a.rows) :: SubjectBlock(a.rows, subject)
  {
    var q := Queue(a, s, order).value;
    DistinctSize(order);
    forall b | b in ToSet(q) ensures b in set subject | subject in Subjects(a.rows) :: SubjectBlock(a.rows, subject) {
      var i :| 0 <= i < |q| && q[i] == b;
      assert order[i] in ToSet(order);
    }
    forall b | b in set subject | subject in Subjects(a.rows) :: SubjectBlock(a.rows, subject) ensures b in ToSet(q) {
      var subject :| subject in Subjects(a.rows) && b == SubjectBlock(a.rows, subject);
      assert subject in ToSet(order);
      var i :| 0 <= i < |order| && order[i] == subject;
      assert q[i] == b;
    }
  }

  /** A list without repeats has as many elements as its set. */
  lemma {:induction false} DistinctSize<T>(s: seq<T>)
    requires Distinct(s)
    ensures |ToSet(s)| == |s|
  {
    if s != [] {
      var front := s[..|s| - 1];
      assert Distinct(front);
      DistinctSize(front);
      assert ToSet(s) == ToSet(front) + {s[|s| - 1]};
      assert s[|s| - 1] !in ToSet(front);
    }
  }

  /** A subject job's arguments start with the subject and list its timepoints after it. */
  lemma SubjectBlockArguments(rows: seq<Row>, subject: string)
    ensures SubjectBlock(rows, subject) == QueueBlock(subject, Join([subject] + TimepointsOf(rows, subject), " "))
    ensures forall t :: t in TimepointsOf(rows, subject) <==> exists i :: 0 <= i < |rows| && rows[i].subject == subject && rows[i].timepoint == t
  {
    TimepointsOfKeeps(rows, subject);
  }
}
