/**
  `Template.render_script` and `Template.render_submit` (setupfreesurfer.py:67-214):
  the shell script and the HTCondor submit description generated for one
  script of the catalog, as the list of lines joined with "\n".
 */
module FreeSurferTemplate {
  import opened Wrappers
  import opened Text
  import opened FreeSurferCatalog

  // ---------------------------------------------------------- dashboard calls

  /** The dashboard command that updates the cell of row `row`, column `name`. */
  function CellCall(c: Config, row: string, name: string, flags: string): string {
    DashPath(c) + " cell " + MonitorDir(c) + " -r " + row + " -c " + name + flags
  }

  const RunningFlags: string := " --settext \"Running\" --setanimate \"bars\" --setbgcolor \"#efd252\" --settxtcolor \"#ec6527\" --addnote \"Started running\""
  const HostErrorFlags: string := " --settext \"Host Error\" --setanimate \"toggle\" --setbgcolor \"#cb3448\" --settxtcolor \"#791f2b\""
  const ErrorFlags: string := " --settext \"Error\" --setanimate \"toggle\" --setbgcolor \"#cb3448\" --settxtcolor \"#791f2b\" --addnote \"Error\""
  const FinishedFlags: string := " --settext \"Finished\" --setanimate \"none\" --setbgcolor \"#009933\" --settxtcolor \"#004c19\" --addnote \"Successfully finished\""
  /** The viewer's closing update: its note's quote is never closed. */
  const InactiveFlags: string := " --settext \"Inactive\" --setanimate \"none\" --setbgcolor \"#F0F0F0\" --settxtcolor \"#969696\" --addnote \"Finished"

  function RunningLine(c: Config, s: Script): string { CellCall(c, "$targetvar", s.name, RunningFlags) }

  function HostCheckLine(host: string): string { "if [ $HOSTNAME != " + host + " ] ; then" }

  function ErrorLine(c: Config, s: Script, row: string): string { CellCall(c, row, s.name, ErrorFlags) }

  function ClosingLine(c: Config, s: Script): string {
    "  " + CellCall(c, "${targetvar}", s.name, if s.isProcess then FinishedFlags else InactiveFlags)
  }

  // ---------------------------------------------------------- the script, piece by piece

  function Header(c: Config, s: Script): seq<string> {
    ["#!/bin/sh",
     "# " + s.name,
     "export FREESURFER_HOME=" + c.freesurferHome,
     "source $FREESURFER_HOME/SetUpFreeSurfer.sh",
     "export SUBJECTS_DIR=" + SubjectsDir(c),
     "",
     "starttime=$(date +%s)",
     "curtime=$(date +%FT%R:%S)",
     "",
     "# Accept Arguments"]
  }

  /** A script takes a subject and a timepoint: cross-sectional in a longitudinal project, or longitudinal. */
  predicate TakesTimepoint(level: Level, longitudinal: bool) {
    (level == Cross && longitudinal) || level == Long
  }

  /** How the script binds its command-line arguments. */
  function Binding(level: Level, longitudinal: bool): seq<string> {
    if TakesTimepoint(level, longitudinal) then
      ["idvar=$1", "timevar=$2", "othervars=${@:3}", "targetvar=${idvar}_${timevar}"]
    else if level == Cross then
      ["idvar=$1", "othervars=${@:2}", "targetvar=${idvar}"]
    else if level == Base then
      ["idvar=$1", "othervars=${@:2}", "targetvar=${idvar}_base"]
    else
      ["vars=$@", "targetvar=Project"]
  }

  /** The two initialising scripts turn the remaining arguments into input flags. */
  function InputLoop(name: string): seq<string> {
    if name == "Cross_Initialize" then
      ["for i in $othervars ; do", "  inputstring=\"${inputstring} -i ${i}\"", "done"]
    else if name == "Base_Initialize" then
      ["for i in $othervars ; do", "  inputstring=\"${inputstring} -tp ${i}\"", "done"]
    else []
  }

  /** Only Cross_Initialize adds the subject's row to the dashboard. */
  function AddRow(c: Config, s: Script): seq<string> {
    if s.name == "Cross_Initialize" then [DashPath(c) + " update " + MonitorDir(c) + " --addrow $targetvar"] else []
  }

  function HostBlock(c: Config, s: Script): seq<string>
    requires s.requiresHost ==> c.host.Some?
  {
    if s.requiresHost then
      [HostCheckLine(c.host.value),
       "echo \"ERROR: NOT ON CORRECT HOST FOR RUNNING FREESURFER\"",
       "echo \"ABORTING PROCESS\"",
       CellCall(c, "$targetvar", s.name, HostErrorFlags),
       "exit 1",
       "fi"]
    else []
  }

  /** What follows the binding: input loop, error code, row added, Running update, host check. */
  function Preamble(c: Config, s: Script): seq<string>
    requires s.requiresHost ==> c.host.Some?
  {
    InputLoop(s.name) + ["", "errorcode=0", ""] + AddRow(c, s) + [RunningLine(c, s), ""] + HostBlock(c, s)
  }

  /** Everything before the first step: header, binding and preamble. */
  function Opening(c: Config, s: Script): seq<string>
    requires s.requiresHost ==> c.host.Some?
  {
    Header(c, s) + Binding(s.level, c.isLongitudinal) + Preamble(c, s)
  }

  /** What a failing step reports: per timepoint of the subject for a Base script, else for the target. */
  function ErrorReport(c: Config, s: Script): seq<string> {
    if s.level == Base then
      ["  for t in $othervars ; do", "    " + ErrorLine(c, s, "${idvar}_${t}"), "  done"]
    else
      ["  " + ErrorLine(c, s, "${targetvar}")]
  }

  function StepBlock(c: Config, s: Script, step: string): seq<string> {
    ["if " + step + " ; then", "  errorcode=$((errorcode + 0))", "else"]
    + ErrorReport(c, s)
    + ["  exit 1", "fi", ""]
  }

  /** The blocks of `steps`, one after the other. */
  function StepBlocks(c: Config, s: Script, steps: seq<string>): seq<string> {
    if steps == [] then []
    else StepBlocks(c, s, steps[..|steps| - 1]) + StepBlock(c, s, steps[|steps| - 1])
  }

  function Trailer(c: Config, s: Script): seq<string> {
    ["endtime=$(date +%s)",
     "totaltime=$((endtime - starttime))",
     "",
     "if [[ ${errorcode} == 0 ]] ; then",
     ClosingLine(c, s),
     "fi",
     "",
     "echo \"" + s.name + " took $totaltime seconds\"",
     "exit 0"]
  }

  /** The lines of `render_script`; a script that requires the host needs one to compare against. */
  function ScriptLines(c: Config, s: Script): seq<string>
    requires s.requiresHost ==> c.host.Some?
  {
    Opening(c, s) + StepBlocks(c, s, s.steps) + Trailer(c, s)
  }

  /** The loop of `render_script` over the script's steps. */
  method RenderSteps(c: Config, s: Script) returns (lines: seq<string>)
    ensures lines == StepBlocks(c, s, s.steps)
  {
    lines := [];
    var k := 0;
    while k < |s.steps|
      invariant 0 <= k <= |s.steps|
      invariant lines == StepBlocks(c, s, s.steps[..k])
    {
      assert s.steps[..k + 1][..k] == s.steps[..k];
      lines := lines + StepBlock(c, s, s.steps[k]);
      k := k + 1;
    }
    assert s.steps[..k] == s.steps;
  }

  /** The text `render_script` returns. */
  function ScriptText(c: Config, s: Script): string
    requires s.requiresHost ==> c.host.Some?
  {
    Join(ScriptLines(c, s), "\n")
  }

  /** `render_script`: the opening, one block per step, the trailer, joined by newlines. */
  method RenderScript(c: Config, s: Script) returns (text: string)
    requires s.requiresHost ==> c.host.Some?
    ensures text == ScriptText(c, s)
  {
    var lines := Header(c, s) + Binding(s.level, c.isLongitudinal);
    var preamble := [];
    if s.name == "Cross_Initialize" || s.name == "Base_Initialize" {
      preamble := InputLoop(s.name);
    }
    preamble := preamble + ["", "errorcode=0", ""];
    if s.name == "Cross_Initialize" {
      preamble := preamble + [DashPath(c) + " update " + MonitorDir(c) + " --addrow $targetvar"];
    }
    preamble := preamble + [RunningLine(c, s), ""];
    if s.requiresHost {
      preamble := preamble + HostBlock(c, s);
    }
    assert preamble == Preamble(c, s);
    lines := lines + preamble;
    var blocks := RenderSteps(c, s);
    lines := lines + blocks + Trailer(c, s);
    text := Join(lines, "\n");
  }

  // ---------------------------------------------------------- properties of the script

  /** Lines per step: nine when a Base script loops over timepoints, seven otherwise. */
  function BlockSize(s: Script): nat { if s.level == Base then 9 else 7 }

  lemma StepBlockSize(c: Config, s: Script, step: string)
    ensures |StepBlock(c, s, step)| == BlockSize(s)
  {
  }

  lemma {:induction false} StepBlocksLength(c: Config, s: Script, steps: seq<string>)
    ensures |StepBlocks(c, s, steps)| == |steps| * BlockSize(s)
  {
    if steps != [] {
      StepBlocksLength(c, s, steps[..|steps| - 1]);
      StepBlockSize(c, s, steps[|steps| - 1]);
    }
  }

  /** Line `j` of the `k`-th block is line `j` of the block of step `k`: the steps run in their given order. */
  lemma {:induction false} StepBlocksAt(c: Config, s: Script, steps: seq<string>, k: nat, j: nat)
    requires k < |steps| && j < BlockSize(s)
    ensures k * BlockSize(s) + j < |StepBlocks(c, s, steps)|
    ensures StepBlocks(c, s, steps)[k * BlockSize(s) + j] == StepBlock(c, s, steps[k])[j]
  {
    var b := BlockSize(s);
    var front := steps[..|steps| - 1];
    StepBlocksLength(c, s, steps);
    StepBlocksLength(c, s, front);
    StepBlockSize(c, s, steps[|steps| - 1]);
    if k < |front| {
      assert k * b + b <= |front| * b by { MulMonotone(k + 1, |front|, b); }
      StepBlocksAt(c, s, front, k, j);
      assert front[k] == steps[k];
    } else {
      assert k == |front|;
    }
  }

  /** The script is its opening, then one block per step, then the nine-line trailer. */
  lemma ScriptLength(c: Config, s: Script)
    requires s.requiresHost ==> c.host.Some?
    ensures |ScriptLines(c, s)| == |Opening(c, s)| + |s.steps| * BlockSize(s) + 9
  {
    StepBlocksLength(c, s, s.steps);
  }

  /** The `k`-th block of `steps` opens with the `if` running step `k` and exits with status 1 on failure. */
  lemma StepBlockHead(c: Config, s: Script, steps: seq<string>, k: nat)
    requires k < |steps|
    ensures var m, b := StepBlocks(c, s, steps), BlockSize(s);
      && k * b + b <= |m|
      && m[k * b] == "if " + steps[k] + " ; then"
      && m[k * b + b - 3] == "  exit 1"
  {
    var b := BlockSize(s);
    StepBlocksAt(c, s, steps, k, 0);
    StepBlocksAt(c, s, steps, k, b - 3);
    StepBlocksLength(c, s, steps);
    MulMonotone(k + 1, |steps|, b);
  }

  /** Each step `k` is run by the `if` at its block's head, and a failure ends the script with status 1. */
  lemma StepsInOrder(c: Config, s: Script, k: nat)
    requires s.requiresHost ==> c.host.Some?
    requires k < |s.steps|
    ensures var at := |Opening(c, s)| + k * BlockSize(s);
      && at + BlockSize(s) <= |ScriptLines(c, s)|
      && ScriptLines(c, s)[at] == "if " + s.steps[k] + " ; then"
      && ScriptLines(c, s)[at + BlockSize(s) - 3] == "  exit 1"
  {
    var b := BlockSize(s);
    var o, m, t := Opening(c, s), StepBlocks(c, s, s.steps), Trailer(c, s);
    StepBlockHead(c, s, s.steps, k);
    IndexMiddle(o, m, t, k * b);
    IndexMiddle(o, m, t, k * b + b - 3);
  }

  /** A Base script reports a failed step once per timepoint, on the row `${idvar}_${t}`; other levels report once, on the target. */
  lemma ErrorFanOut(c: Config, s: Script, step: string)
    ensures s.level == Base ==>
      StepBlock(c, s, step)[3..6] == ["  for t in $othervars ; do", "    " + ErrorLine(c, s, "${idvar}_${t}"), "  done"]
    ensures s.level != Base ==> StepBlock(c, s, step)[3] == "  " + ErrorLine(c, s, "${targetvar}")
  {
  }

  /** The Running update is always emitted; the host check follows it exactly when the script requires the host. */
  lemma RunningThenHostCheck(c: Config, s: Script)
    requires s.requiresHost ==> c.host.Some?
    ensures var r := 13 + |Binding(s.level, c.isLongitudinal)| + |InputLoop(s.name)| + |AddRow(c, s)|;
      && ScriptLines(c, s)[r] == RunningLine(c, s)
      && (s.requiresHost ==>
            && ScriptLines(c, s)[r + 2] == HostCheckLine(c.host.value)
            && ScriptLines(c, s)[r + 5] == CellCall(c, "$targetvar", s.name, HostErrorFlags)
            && ScriptLines(c, s)[r + 6] == "exit 1")
      && (!s.requiresHost ==> |Opening(c, s)| == r + 2)
  {
  }

  /** The script closes with Finished (processes) or Inactive (viewers) on `${targetvar}`, the timing echo and `exit 0`. */
  lemma ScriptEnding(c: Config, s: Script)
    requires s.requiresHost ==> c.host.Some?
    ensures var lines := ScriptLines(c, s); var n := |lines|;
      && n >= 9
      && lines[n - 5] == "  " + CellCall(c, "${targetvar}", s.name, if s.isProcess then FinishedFlags else InactiveFlags)
      && lines[n - 2] == "echo \"" + s.name + " took $totaltime seconds\""
      && lines[n - 1] == "exit 0"
  {
  }

  lemma FrontSlice(h: seq<string>, b: seq<string>, p: seq<string>, m: seq<string>, t: seq<string>)
    requires |h| == 10
    ensures var lines := h + b + p + m + t;
      |lines| >= 10 + |b| && lines[1] == h[1] && lines[10..10 + |b|] == b
  {
    var lines := h + b + p + m + t;
    assert lines == (h + b) + (p + m + t);
    assert (h + b)[10..10 + |b|] == b;
  }

  /** The first lines name the script and bind its arguments as its level requires. */
  lemma ScriptOpening(c: Config, s: Script)
    requires s.requiresHost ==> c.host.Some?
    ensures var lines := ScriptLines(c, s); var b := Binding(s.level, c.isLongitudinal);
      && |lines| >= 10 + |b|
      && lines[1] == "# " + s.name
      && lines[10..10 + |b|] == b
  {
    FrontSlice(Header(c, s), Binding(s.level, c.isLongitudinal), Preamble(c, s), StepBlocks(c, s, s.steps), Trailer(c, s));
  }

  // ---------------------------------------------------------- the submit description

  /** How the submit description names the target and passes the arguments. */
  function SubmitBinding(level: Level, longitudinal: bool): seq<string> {
    if TakesTimepoint(level, longitudinal) then
      ["target=$(id)_$(time)", "arguments=$(id) $(time) $(args)"]
    else if level == Cross || level == Base then
      ["target=$(id)", "arguments=$(id) $(args)"]
    else
      // the two literals are adjacent in the list, so they form one line
      ["target=Projectarguments=$(subjects)"]
  }

  /** The lines of `render_submit`. */
  function SubmitLines(c: Config, s: Script): seq<string> {
    ["Universe=vanilla",
     "getenv=True",
     "request_memory=" + NatToString(s.memory),
     "initialdir=" + SubjectsDir(c),
     "Executable=" + ScriptDir(c) + ExecutableName(s),
     "Log=" + LogDir(c) + LogName(s),
     "Output=" + LogDir(c) + OutName(s),
     "Error=" + LogDir(c) + ErrName(s)]
    + SubmitBinding(s.level, c.isLongitudinal)
    + ["Queue"]
  }

  function RenderSubmit(c: Config, s: Script): string {
    Join(SubmitLines(c, s), "\n")
  }

  /** Eight header lines, the binding (two lines, or one at project level), then `Queue`; the memory request reads back as `s.memory`. */
  lemma SubmitShape(c: Config, s: Script)
    ensures var lines := SubmitLines(c, s);
      && |lines| == (if s.level == ProjectLevel then 10 else 11)
      && lines[|lines| - 1] == "Queue"
      && lines[2][..15] == "request_memory="
      && DigitsValue(lines[2][15..]) == s.memory
      && lines[4] == "Executable=" + ScriptDir(c) + s.name + ".sh"
  {
    var line := SubmitLines(c, s)[2];
    assert line[15..] == NatToString(s.memory);
    NatToStringRoundTrip(s.memory);
  }

  /** The project-level submit has no line of its own for the arguments: target and arguments run together. */
  lemma ProjectSubmitRunTogether(c: Config, s: Script)
    requires s.level == ProjectLevel
    ensures SubmitLines(c, s)[8] == "target=Projectarguments=$(subjects)"
    ensures forall i :: 0 <= i < |SubmitLines(c, s)| ==> SubmitLines(c, s)[i] != "arguments=$(subjects)"
  {
    var lines := SubmitLines(c, s);
    forall i | 0 <= i < |lines| ensures lines[i] != "arguments=$(subjects)" {
      assert |lines[i]| >= 1 && lines[i][0] != 'a';
    }
  }

  /** Script and submit agree on the arguments: the script reads a timepoint exactly when the submit passes one. */
  lemma ArgumentsAgree(level: Level, longitudinal: bool)
    ensures ("timevar=$2" in Binding(level, longitudinal)) <==> ("arguments=$(id) $(time) $(args)" in SubmitBinding(level, longitudinal))
    ensures ("idvar=$1" in Binding(level, longitudinal)) <==> (level != ProjectLevel)
    ensures (level != ProjectLevel) <==> |SubmitBinding(level, longitudinal)| == 2
  {
  }
}
