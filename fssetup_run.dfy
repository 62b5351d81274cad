/**
  `run` of FSSETUP.py (FSSETUP.py:428-477): every script of `ScriptList` is
  written to `scripts/{Name}.sh`, every script but the viewers also gets
  `scripts/condorsubmit/cs_{Name}.txt`, and with the JobMonitor the job
  monitor is set up with one job per input row and one event per script.
  The files are modelled as a map from path to contents.
 */
module FsSetupRun {
  import opened Wrappers
  import opened Text
  import opened FsSetupScripts
  import opened FsSetupWriter

  function ScriptPath(a: Setup, s: FsScript): string { a.freeSurferDir + "/scripts/" + s.name + ".sh" }
  function SubmitPath(a: Setup, s: FsScript): string { a.freeSurferDir + "/scripts/condorsubmit/cs_" + s.name + ".txt" }

  /** `"View" in script["Name"]`: viewers get no submit file. */
  predicate IsViewer(s: FsScript) { Contains(s.name, "View") }

  /**
    One turn of the loop, as `writeScript` and `writeSubmit` see it: where
    the script goes and its text (or the error that stops the loop), whether
    it is a viewer, and where its submit description goes and its text.
   */
  datatype Turn = Turn(scriptPath: string, script: Result<string, Failure>,
                       viewer: bool, submitPath: string, submit: Result<string, Failure>)

  function TurnOf(a: Setup, header: string, s: FsScript, index: nat, order: seq<string>): Turn {
    Turn(ScriptPath(a, s), ScriptText(a, header, s, index), IsViewer(s), SubmitPath(a, s), SubmitText(a, s, order))
  }

  /** The turns of `enumerate(ScriptList)`: script `i` is written with status index `i`. */
  function Turns(a: Setup, header: string, scripts: seq<FsScript>, order: seq<string>): seq<Turn> {
    seq(|scripts|, i requires 0 <= i < |scripts| => TurnOf(a, header, scripts[i], i, order))
  }

  /** The files so far, and the error that stopped the loop, if any. */
  datatype Written = Written(files: map<string, string>, failure: Option<Failure>)

  /** One turn: the script, then (unless a viewer) its submit description; an error stops before its file. */
  function Apply(t: Turn, files: map<string, string>): Written {
    match t.script
    case Err(e) => Written(files, Some(e))
    case Ok(text) =>
      var withScript := files[t.scriptPath := text];
      if t.viewer then Written(withScript, None)
      else
        match t.submit
        case Err(e) => Written(withScript, Some(e))
        case Ok(submit) => Written(withScript[t.submitPath := submit], None)
  }

  /** The turns in order, stopped by the first error. */
  function ApplyAll(turns: seq<Turn>, disk: map<string, string>): Written {
    if turns == [] then Written(disk, None)
    else
      var before := ApplyAll(turns[..|turns| - 1], disk);
      if before.failure.Some? then before else Apply(turns[|turns| - 1], before.files)
  }

  /** The loop over `enumerate(ScriptList)`, starting from the files already on `disk`. */
  function WriteAll(a: Setup, header: string, scripts: seq<FsScript>, order: seq<string>, disk: map<string, string>): Written {
    ApplyAll(Turns(a, header, scripts, order), disk)
  }

  /** `{"ID": ..., "NAME": ...}` of a job (a row of the monitor) and of an event (a column). */
  datatype Job = Job(id: string, name: string)
  datatype Event = Event(id: string, name: string)

  /** The argument of `SetupJobMonitor.create`. */
  datatype JobMonitorSetup = JobMonitorSetup(processName: string, monitorDir: string, jobs: seq<Job>, events: seq<Event>)

  /** `jobsObj`: the Project row, then one row per input row. */
  function Jobs(a: Setup): seq<Job> {
    [Job("Project", "Project")]
    + seq(|a.rows|, i requires 0 <= i < |a.rows| => Job(RowId(a.isLongitudinal, a.rows[i]), RowId(a.isLongitudinal, a.rows[i])))
  }

  function EventsOf(scripts: seq<FsScript>): seq<Event> {
    seq(|scripts|, i requires 0 <= i < |scripts| => Event(scripts[i].name, scripts[i].name))
  }

  /** Each element once, where it first occurs. */
  function Dedup<T(==)>(s: seq<T>): seq<T> {
    if s == [] then []
    else
      var d := Dedup(s[..|s| - 1]);
      if s[|s| - 1] in d then d else d + [s[|s| - 1]]
  }

  /** What `run` passes to the job monitor: only the JobMonitor type sets one up. */
  function MonitorOutcome(a: Setup, scripts: seq<FsScript>): Option<JobMonitorSetup> {
    match a.monitor
    case JobMonitor(dir) => Some(JobMonitorSetup("FreeSurfer | Live Updates", dir, Jobs(a), Dedup(EventsOf(scripts))))
    case _ => None
  }

  method BuildJobs(a: Setup) returns (jobs: seq<Job>)
    ensures jobs == Jobs(a)
  {
    jobs := [Job("Project", "Project")];
    for k := 0 to |a.rows|
      invariant jobs == [Job("Project", "Project")]
        + seq(k, i requires 0 <= i < k => Job(RowId(a.isLongitudinal, a.rows[i]), RowId(a.isLongitudinal, a.rows[i])))
    {
      var id := RowId(a.isLongitudinal, a.rows[k]);
      jobs := jobs + [Job(id, id)];
    }
  }

  /** `eventsObj`: a script's event is appended unless an equal one is already there. */
  method BuildEvents(scripts: seq<FsScript>) returns (events: seq<Event>)
    ensures events == Dedup(EventsOf(scripts))
  {
    events := [];
    for k := 0 to |scripts|
      invariant events == Dedup(EventsOf(scripts[..k]))
    {
      var e := Event(scripts[k].name, scripts[k].name);
      assert EventsOf(scripts[..k + 1]) == EventsOf(scripts[..k]) + [e];
      assert EventsOf(scripts[..k + 1])[..k] == EventsOf(scripts[..k]);
      if e !in events {
        events := events + [e];
      }
    }
    assert scripts[..|scripts|] == scripts;
  }

  /** A stopped loop stays stopped: nothing after the failing turn is written. */
  lemma {:induction false} FailureSticks(turns: seq<Turn>, disk: map<string, string>, k: nat)
    requires k <= |turns| && ApplyAll(turns[..k], disk).failure.Some?
    ensures ApplyAll(turns, disk) == ApplyAll(turns[..k], disk)
    decreases |turns| - k
  {
    if k < |turns| {
      assert turns[..k + 1][..k] == turns[..k];
      FailureSticks(turns, disk, k + 1);
    } else {
      assert turns[..k] == turns;
    }
  }

  lemma ApplyAllNext(turns: seq<Turn>, disk: map<string, string>, k: nat, files: map<string, string>)
    requires k < |turns| && ApplyAll(turns[..k], disk) == Written(files, None)
    ensures ApplyAll(turns[..k + 1], disk) == Apply(turns[k], files)
  {
    assert turns[..k + 1][..k] == turns[..k];
  }

  /** The loop of `run` over `enumerate(ScriptList)`. */
  method WriteFiles(a: Setup, header: string, scripts: seq<FsScript>, order: seq<string>, disk: map<string, string>)
    returns (files: map<string, string>, failure: Option<Failure>)
    requires Enumerates(order, a.rows)
    ensures Written(files, failure) == WriteAll(a, header, scripts, order, disk)
  {
    ghost var turns := Turns(a, header, scripts, order);
    files := disk;
    for k := 0 to |scripts|
      invariant ApplyAll(turns[..k], disk) == Written(files, None)
    {
      ghost var t, before := turns[k], files;
      assert t == TurnOf(a, header, scripts[k], k, order);
      ApplyAllNext(turns, disk, k, files);
      var text := WriteScript(a, header, scripts[k], k);
      if text.Err? {
        FailureSticks(turns, disk, k + 1);
        return files, Some(text.error);
      }
      files := files[ScriptPath(a, scripts[k]) := text.value];
      if !IsViewer(scripts[k]) {
        var submit := WriteSubmit(a, scripts[k], order);
        if submit.Err? {
          FailureSticks(turns, disk, k + 1);
          return files, Some(submit.error);
        }
        files := files[SubmitPath(a, scripts[k]) := submit.value];
      }
      assert Apply(t, before) == Written(files, None);
    }
    assert turns[..|scripts|] == turns;
    failure := None;
  }

  /**
    `run`, short of the directories it creates and the monitor it hands the
    setup to: writes the files of `ScriptList` in order, stops at the first
    error, and returns what it would pass to `SetupJobMonitor.create`.
   */
  method Run(a: Setup, order: seq<string>, disk: map<string, string>) returns (files: map<string, string>, r: Result<Option<JobMonitorSetup>, Failure>)
    requires Enumerates(order, a.rows)
    ensures var defined := DefineScripts(a.freeSurferDir, a.isLongitudinal);
      var w := WriteAll(a, defined.0, defined.1, order, disk);
      && files == w.files
      && r == if w.failure.Some? then Err(w.failure.value) else Ok(MonitorOutcome(a, defined.1))
  {
    var defined := DefineScripts(a.freeSurferDir, a.isLongitudinal);
    var failure;
    files, failure := WriteFiles(a, defined.0, defined.1, order, disk);
    if failure.Some? {
      return files, Err(failure.value);
    }
    if a.monitor.JobMonitor? {
      var jobs := BuildJobs(a);
      var events := BuildEvents(defined.1);
      r := Ok(Some(JobMonitorSetup("FreeSurfer | Live Updates", a.monitor.monitorDir, jobs, events)));
    } else {
      r := Ok(None);
    }
  }

  // ------------------------------------------------------ events and jobs

  /** The events hold each script name once, and only script names. */
  lemma {:induction false} DedupKeeps<T>(s: seq<T>)
    ensures Distinct(Dedup(s))
    ensures ToSet(Dedup(s)) == ToSet(s)
  {
    if s != [] {
      var front := s[..|s| - 1];
      DedupKeeps(front);
      assert s == front + [s[|s| - 1]];
      assert ToSet(s) == ToSet(front) + {s[|s| - 1]};
      var d := Dedup(front);
      if s[|s| - 1] !in d {
        assert ToSet(d + [s[|s| - 1]]) == ToSet(d) + {s[|s| - 1]};
      }
    }
  }

  /** An element joins the de-duplicated list exactly when it did not occur before. */
  lemma DedupAppend<T>(s: seq<T>, x: T)
    ensures Dedup(s + [x]) == Dedup(s) + (if x in s then [] else [x])
  {
    assert (s + [x])[..|s|] == s;
    DedupKeeps(s);
    assert x in Dedup(s) <==> x in ToSet(Dedup(s));
  }

  /** A list without repeats is its own de-duplication. */
  lemma {:induction false} DedupOfDistinct<T>(s: seq<T>)
    requires Distinct(s)
    ensures Dedup(s) == s
  {
    if s != [] {
      var front := s[..|s| - 1];
      assert Distinct(front);
      DedupOfDistinct(front);
      assert s[|s| - 1] !in front;
    }
  }

  /** The monitor's events are the scripts of `ScriptList`, each once, in list order. */
  lemma CatalogEvents(fd: string, long: bool)
    ensures var scripts := DefineScripts(fd, long).1;
      Dedup(EventsOf(scripts)) == EventsOf(scripts) && |EventsOf(scripts)| == if long then 35 else 13
  {
    var scripts := DefineScripts(fd, long).1;
    DefineScriptsDistinct(fd, long);
    DefineScriptsSize(fd, long);
    var names := Names(scripts);
    forall i, j | 0 <= i < j < |scripts| ensures EventsOf(scripts)[i] != EventsOf(scripts)[j] {
      assert names[i] != names[j];
    }
    DedupOfDistinct(EventsOf(scripts));
  }

  lemma QueueBlockTarget(target: string, arguments: string)
    ensures "\ntarget=" + target + "\n" <= QueueBlock(target, arguments)
  {
    assert QueueBlock(target, arguments) == ("\ntarget=" + target + "\n") + ("arguments=\"" + arguments + "\"\nQueue\n");
  }

  /**
    The project, Orig and per-row jobs the submit descriptions queue are rows
    of the monitor: the project job targets the Project row, the `k`-th
    per-row job the row after it. Subject-queue jobs target a bare subject,
    which is not a row.
   */
  lemma JobsMatchQueue(a: Setup, s: FsScript, order: seq<string>)
    ensures |Jobs(a)| == |a.rows| + 1
    ensures KindOf(s.name) == ProjectQueue ==> "\ntarget=" + Jobs(a)[0].id + "\n" <= Queue(a, s, order).value[0]
    ensures KindOf(s.name) in {OrigQueue, RowQueue} ==>
      && |Queue(a, s, order).value| == |a.rows|
      && forall k :: 0 <= k < |a.rows| ==> "\ntarget=" + Jobs(a)[k + 1].id + "\n" <= Queue(a, s, order).value[k]
  {
    QueueSizes(a, s, order);
    if KindOf(s.name) == ProjectQueue {
      QueueBlockTarget("Project", Join(RowIds(a.isLongitudinal, a.rows), " "));
    }
    if KindOf(s.name) in {OrigQueue, RowQueue} {
      forall k | 0 <= k < |a.rows|
        ensures "\ntarget=" + Jobs(a)[k + 1].id + "\n" <= Queue(a, s, order).value[k]
      {
        var long, row := a.isLongitudinal, a.rows[k];
        assert Jobs(a)[k + 1].id == RowId(long, row);
        QueueBlockTarget(RowId(long, row),
          if KindOf(s.name) == OrigQueue then Join(OrigArguments(long, row), " ")
          else if long then row.subject + " " + row.timepoint else row.subject);
      }
    }
  }

  // ---------------------------------------------------------- the files

  /** Scripts and submit descriptions never share a path; different names never share one either. */
  lemma PathsApart(a: Setup, s: FsScript, t: FsScript)
    ensures ScriptPath(a, s) != SubmitPath(a, t)
    ensures s.name != t.name ==> ScriptPath(a, s) != ScriptPath(a, t) && SubmitPath(a, s) != SubmitPath(a, t)
  {
    var p, q := ScriptPath(a, s), SubmitPath(a, t);
    assert p[|p| - 1] == 'h' && q[|q| - 1] == 't';
    PrefixCancels(a.freeSurferDir + "/scripts/", s.name + ".sh", t.name + ".sh");
    SuffixCancels(s.name, t.name, ".sh");
    PrefixCancels(a.freeSurferDir + "/scripts/condorsubmit/cs_", s.name + ".txt", t.name + ".txt");
    SuffixCancels(s.name, t.name, ".txt");
    assert ScriptPath(a, s) == (a.freeSurferDir + "/scripts/") + (s.name + ".sh");
    assert ScriptPath(a, t) == (a.freeSurferDir + "/scripts/") + (t.name + ".sh");
    assert SubmitPath(a, s) == (a.freeSurferDir + "/scripts/condorsubmit/cs_") + (s.name + ".txt");
    assert SubmitPath(a, t) == (a.freeSurferDir + "/scripts/condorsubmit/cs_") + (t.name + ".txt");
  }

  /** No two turns write the same file: scripts and submit descriptions apart, and one name per turn. */
  predicate Separate(turns: seq<Turn>) {
    forall i, j :: 0 <= i < |turns| && 0 <= j < |turns| ==>
      && turns[i].scriptPath != turns[j].submitPath
      && (i != j ==> turns[i].scriptPath != turns[j].scriptPath && turns[i].submitPath != turns[j].submitPath)
  }

  /** Scripts with distinct names are written to distinct files. */
  lemma TurnsSeparate(a: Setup, header: string, scripts: seq<FsScript>, order: seq<string>)
    requires Distinct(Names(scripts))
    ensures Separate(Turns(a, header, scripts, order))
  {
    var turns := Turns(a, header, scripts, order);
    forall i, j | 0 <= i < |turns| && 0 <= j < |turns|
      ensures turns[i].scriptPath != turns[j].submitPath
      ensures i != j ==> turns[i].scriptPath != turns[j].scriptPath && turns[i].submitPath != turns[j].submitPath
    {
      assert Names(scripts)[i] == scripts[i].name && Names(scripts)[j] == scripts[j].name;
      PathsApart(a, scripts[i], scripts[j]);
    }
  }

  /** Path `p` holds in `files` what it held on `disk`, or is absent from both. */
  predicate Kept(disk: map<string, string>, files: map<string, string>, p: string) {
    (p in files <==> p in disk) && (p in disk ==> files[p] == disk[p])
  }

  /**
    What the loop leaves behind for turn `t`: the script's text at its
    path; the submit description at its path, unless a viewer; and, for a
    viewer, the submit path as the disk had it.
   */
  predicate Placed(t: Turn, disk: map<string, string>, files: map<string, string>) {
    && t.script.Ok? && t.scriptPath in files && files[t.scriptPath] == t.script.value
    && if t.viewer then Kept(disk, files, t.submitPath)
       else t.submit.Ok? && t.submitPath in files && files[t.submitPath] == t.submit.value
  }

  /** With every script and every non-viewer's submit description buildable, the loop goes through. */
  lemma {:induction false} ApplyAllSucceeds(turns: seq<Turn>, disk: map<string, string>)
    requires forall i :: 0 <= i < |turns| ==> turns[i].script.Ok? && (turns[i].viewer || turns[i].submit.Ok?)
    ensures ApplyAll(turns, disk).failure.None?
  {
    if turns != [] {
      var front := turns[..|turns| - 1];
      assert forall i :: 0 <= i < |front| ==> front[i] == turns[i];
      ApplyAllSucceeds(front, disk);
    }
  }

  /** A turn that goes through places its own files, given its submit path was untouched. */
  lemma PlacedByApply(t: Turn, disk: map<string, string>, before: map<string, string>)
    requires Apply(t, before).failure.None? && Kept(disk, before, t.submitPath) && t.scriptPath != t.submitPath
    ensures Placed(t, disk, Apply(t, before).files)
  {
  }

  /** A turn writing other files leaves a placed turn in place. */
  lemma PlacedKept(s: Turn, disk: map<string, string>, files: map<string, string>, t: Turn)
    requires Placed(s, disk, files)
    requires t.scriptPath != s.scriptPath && t.scriptPath != s.submitPath
    requires t.submitPath != s.scriptPath && t.submitPath != s.submitPath
    ensures Placed(s, disk, Apply(t, files).files)
  {
  }

  /** A path no turn writes keeps what the disk had. */
  lemma {:induction false} ApplyAllUntouched(turns: seq<Turn>, disk: map<string, string>, p: string)
    requires forall j :: 0 <= j < |turns| ==> p != turns[j].scriptPath && (p == turns[j].submitPath ==> turns[j].viewer)
    ensures Kept(disk, ApplyAll(turns, disk).files, p)
  {
    if turns != [] {
      var front := turns[..|turns| - 1];
      assert forall j :: 0 <= j < |front| ==> front[j] == turns[j];
      ApplyAllUntouched(front, disk, p);
    }
  }

  /** After a loop that went through, every turn is placed. */
  lemma {:induction false} ApplyAllAt(turns: seq<Turn>, disk: map<string, string>, k: nat)
    requires Separate(turns) && k < |turns|
    requires ApplyAll(turns, disk).failure.None?
    ensures Placed(turns[k], disk, ApplyAll(turns, disk).files)
    decreases |turns|
  {
    var n := |turns| - 1;
    var front := turns[..n];
    assert forall i :: 0 <= i < n ==> front[i] == turns[i];
    var before := ApplyAll(front, disk);
    assert before.failure.None?;
    if k < n {
      ApplyAllAt(front, disk, k);
      PlacedKept(turns[k], disk, before.files, turns[n]);
    } else {
      ApplyAllUntouched(front, disk, turns[k].submitPath);
      PlacedByApply(turns[k], disk, before.files);
    }
  }

  // ------------------------------------------------ the whole of ScriptList

  lemma EndsInView(n: string)
    requires |n| >= 4 && n[|n| - 4..] == "View"
    ensures Contains(n, "View")
  {
    ContainsAt(n, "View", 0, |n| - 4);
  }

  /** A submit description `run` can build: a viewer has none, and only the subject queue can fail. */
  predicate SubmitBuildable(long: bool, name: string) {
    long || Contains(name, "View") || KindOf(name) != SubjectQueue
  }

  lemma CrossNamesBuildable(long: bool)
    ensures forall i :: 0 <= i < |CrossEditNames| ==> SubmitBuildable(long, CrossEditNames[i])
    ensures forall i :: 0 <= i < |CrossViewNames| ==> SubmitBuildable(long, CrossViewNames[i])
  {
    forall i | 0 <= i < |CrossEditNames| ensures CrossEditNames[i] in PerRowNames {
      assert PerRowNames[i + 1] == CrossEditNames[i];
    }
    forall i | 0 <= i < |CrossViewNames| ensures Contains(CrossViewNames[i], "View") {
      var n := CrossViewNames[i];
      assert n[|n| - 4..] == "View";
      EndsInView(n);
    }
  }

  /**
    Without a longitudinal layout there is no subject-queued script but the
    viewers, so no submit description of `ScriptList` fails.
   */
  lemma {:induction false} CatalogSubmitsBuildable(fd: string, long: bool)
    ensures forall i :: 0 <= i < |DefineScripts(fd, long).1| ==> SubmitBuildable(long, DefineScripts(fd, long).1[i].name)
  {
    var scripts := DefineScripts(fd, long).1;
    DefineScriptsNames(fd, long);
    CrossNamesBuildable(long);
    assert KindOf("Restart") == RowQueue by { assert PerRowNames[0] == "Restart"; }
    AllArrange(long, "Orig", "Restart", "Base", "Long", CrossEditNames, BaseEditNames, LongEditNames, ExtractName,
      CrossViewNames, BaseViewNames, LongViewNames, n => SubmitBuildable(long, n));
    forall i | 0 <= i < |scripts| ensures SubmitBuildable(long, scripts[i].name) {
      assert Names(scripts)[i] == scripts[i].name;
    }
  }

  /** A non-viewer of a buildable kind gets its submit description. */
  lemma SubmitWritable(a: Setup, s: FsScript, order: seq<string>)
    requires Enumerates(order, a.rows) && SubmitBuildable(a.isLongitudinal, s.name) && !IsViewer(s)
    ensures SubmitText(a, s, order).Ok?
  {
    QueueSizes(a, s, order);
    if KindOf(s.name) == SubjectQueue {
      SubjectQueueOrderFree(a, s, order);
    }
  }

  /**
    A list of scripts with distinct names, each buildable, is written
    through with a monitor: every turn is placed.
   */
  lemma WriteAllThrough(a: Setup, header: string, scripts: seq<FsScript>, order: seq<string>, disk: map<string, string>)
    requires Monitored(a) && Enumerates(order, a.rows) && Distinct(Names(scripts))
    requires forall i :: 0 <= i < |scripts| ==> SubmitBuildable(a.isLongitudinal, scripts[i].name)
    ensures WriteAll(a, header, scripts, order, disk).failure.None?
    ensures forall k :: 0 <= k < |scripts| ==> Placed(TurnOf(a, header, scripts[k], k, order), disk, WriteAll(a, header, scripts, order, disk).files)
  {
    var turns := Turns(a, header, scripts, order);
    forall i | 0 <= i < |turns| ensures turns[i].script.Ok? && (turns[i].viewer || turns[i].submit.Ok?) {
      assert turns[i] == TurnOf(a, header, scripts[i], i, order);
      ScriptLayout(a, header, scripts[i], i);
      if !IsViewer(scripts[i]) {
        SubmitWritable(a, scripts[i], order);
      }
    }
    ApplyAllSucceeds(turns, disk);
    TurnsSeparate(a, header, scripts, order);
    forall k | 0 <= k < |scripts| ensures Placed(TurnOf(a, header, scripts[k], k, order), disk, ApplyAll(turns, disk).files) {
      ApplyAllAt(turns, disk, k);
    }
  }

  /** A first script that cannot be built stops the loop before any file is written. */
  lemma WriteAllStops(a: Setup, header: string, scripts: seq<FsScript>, order: seq<string>, disk: map<string, string>)
    requires scripts != [] && ScriptText(a, header, scripts[0], 0).Err?
    ensures WriteAll(a, header, scripts, order, disk) == Written(disk, Some(ScriptText(a, header, scripts[0], 0).error))
  {
    var turns := Turns(a, header, scripts, order);
    assert turns[0] == TurnOf(a, header, scripts[0], 0, order);
    assert turns[..1][..0] == [];
    FailureSticks(turns, disk, 1);
  }

  /**
    With a monitor, `run` goes through all of `ScriptList`: every script and
    every non-viewer's submit description is written with its contents.
   */
  lemma RunWithMonitor(a: Setup, order: seq<string>, disk: map<string, string>)
    requires Monitored(a) && Enumerates(order, a.rows)
    ensures var defined := DefineScripts(a.freeSurferDir, a.isLongitudinal);
      var w := WriteAll(a, defined.0, defined.1, order, disk);
      && w.failure.None?
      && forall k :: 0 <= k < |defined.1| ==> Placed(TurnOf(a, defined.0, defined.1[k], k, order), disk, w.files)
  {
    var defined := DefineScripts(a.freeSurferDir, a.isLongitudinal);
    CatalogSubmitsBuildable(a.freeSurferDir, a.isLongitudinal);
    DefineScriptsDistinct(a.freeSurferDir, a.isLongitudinal);
    WriteAllThrough(a, defined.0, defined.1, order, disk);
  }

  /**
    With the monitor type "None", the first script's status update looks up
    `MonitorDir`, which is not set: `run` stops before writing any file.
   */
  lemma RunWithoutMonitor(a: Setup, order: seq<string>, disk: map<string, string>)
    requires a.monitor.NoMonitor?
    ensures var defined := DefineScripts(a.freeSurferDir, a.isLongitudinal);
      WriteAll(a, defined.0, defined.1, order, disk) == Written(disk, Some(KeyError("MonitorDir")))
  {
    var defined := DefineScripts(a.freeSurferDir, a.isLongitudinal);
    DefineScriptsArguments(a.freeSurferDir, a.isLongitudinal);
    DefineScriptsSize(a.freeSurferDir, a.isLongitudinal);
    assert ReadsArguments(a.isLongitudinal, defined.1[0]);
    NoMonitorFails(a, defined.0, defined.1[0], 0);
    WriteAllStops(a, defined.0, defined.1, order, disk);
  }
}
