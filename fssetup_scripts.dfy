/**
  The earlier generator revision, FSSETUP.py: the clean-ups it applies to
  option strings (FSSETUP.py:72-83), the parsed options its writers read,
  and the script catalog `defineScripts` spells out as dictionary literals
  (FSSETUP.py:152-317).
 */
module FsSetupScripts {
  import opened Wrappers
  import opened Text

  // ------------------------------------------------------ option strings

  /** `cleanString`: one leading `=` (as left by `--opt==value`) is dropped. */
  function CleanString(s: string): (r: string)
    ensures r == s || s == "=" + r
    ensures r == s <==> !(|s| > 0 && s[0] == '=')
  {
    if |s| > 0 && s[0] == '=' then s[1..] else s
  }

  /** `path[:-1]` when the path ends in `/`. */
  function DropSlash(p: string): (r: string)
    ensures r == p || p == r + "/"
    ensures r == p <==> !(|p| > 0 && p[|p| - 1] == '/')
  {
    if |p| > 0 && p[|p| - 1] == '/' then p[..|p| - 1] else p
  }

  /** The string part of `cleanPathString`: one trailing `/`, then one leading `=`, are dropped. */
  function CleanPathStrip(p: string): string {
    CleanString(DropSlash(p))
  }

  /** Each clean-up removes exactly the one character it adds back: a single `=` prefix. */
  lemma CleanStringDropsOne(t: string)
    ensures CleanString("=" + t) == t
    ensures |t| > 0 && t[0] == '=' ==> CleanString("=" + t) != CleanString(t)
  {
    assert ("=" + t)[1..] == t;
  }

  /** The path clean-up undoes one `=` prefix and one `/` suffix, and leaves a clean path alone. */
  lemma CleanPathStripInverse(t: string)
    ensures CleanPathStrip("=" + t + "/") == t
    ensures !(|t| > 0 && (t[0] == '=' || t[|t| - 1] == '/')) ==> CleanPathStrip(t) == t
  {
    assert ("=" + t + "/")[..|t| + 1] == "=" + t;
    assert ("=" + t)[1..] == t;
  }

  /** Stripping in the other order gives the same path. */
  lemma StripsCommute(p: string)
    ensures CleanPathStrip(p) == DropSlash(CleanString(p))
  {
    if |p| > 0 && p[0] == '=' && p[|p| - 1] == '/' && |p| >= 2 {
      assert p[..|p| - 1][1..] == p[1..][..|p| - 2];
    }
  }

  // ------------------------------------------------------------- options

  /**
    `arguments["MonitorType"]` with what comes with it: "JobMonitor" brings
    `MonitorDir`, "Google" brings `SpreadsheetKey`, and "None" brings neither.
   */
  datatype Monitor = NoMonitor | JobMonitor(monitorDir: string) | Google(spreadsheetKey: string)

  /**
    One row of the input file: its `Subject` index, its `Timepoint` already
    turned into text, and the values of its `File` columns in column order
    (`None` is a value the file filter drops; an empty cell, which pandas
    reads as NaN and which that filter lets through, is not modelled).
   */
  datatype Row = Row(subject: string, timepoint: string, files: seq<Option<string>>)

  /** The entries of `arguments` the writers read; `thisDir` is where the generator lives. */
  datatype Setup = Setup(freeSurferDir: string, thisDir: string, isLongitudinal: bool,
                         monitor: Monitor, rows: seq<Row>)

  /** A script as `defineScripts` writes it: a name, its argument-reading lines and its commands. */
  datatype FsScript = FsScript(name: string, inputLines: seq<string>, steps: seq<string>)

  // ------------------------------------------------------ the dictionaries

  function ScriptHeader(fd: string): string {
    "#!/bin/sh\n\nexport FREESURFER_HOME=/apps/x86_64_sci7/freesurfer-latest\nsource $FREESURFER_HOME/SetUpFreeSurfer.sh\nexport SUBJECTS_DIR="
    + fd + "/subjects\n\nSTARTTIME=$(date +%s)\ncurtime=$(date +%FT%R:%S)\n"
  }

  /** `substring`: the directory name of one (subject, timepoint) run. */
  function Substring(long: bool): string {
    if long then "${subid}_${time}" else "${subid}"
  }

  /** `subarglist`: the positional arguments a per-row script reads. */
  function SubArgs(long: bool): seq<string> {
    if long then ["subid=$1", "time=$2"] else ["subid=$1"]
  }

  /** `allotherargs`: the input files after the row's own arguments. */
  function AllOtherArgs(long: bool): string {
    if long then "${@:3}" else "${@:2}"
  }

  /** `allbutfirstarg`, which is `${@:2}` either way. */
  const AllButFirstArg: string := "${@:2}"

  /** The input lines of the Base scripts (the `inputlist` quote is never closed). */
  const BaseInput: seq<string> := [
    "subid=$1", "inputstring=''", "inputlist=''",
    "for t in " + AllButFirstArg + " ; do inputstring=\"${inputstring} -tp ${subid}_${t}\" ; inputlist=\"${inputlist} ${subid}_${t} ; done"]

  function OrigScript(long: bool): FsScript {
    FsScript("Orig",
      SubArgs(long) + ["inputstring=''", "for i in " + AllOtherArgs(long) + " ; do inputstring=\"${inputstring} -i ${i}\" ; done"],
      ["recon-all ${inputstring} -subjid " + Substring(long) + " -all"])
  }

  function RestartScript(long: bool): FsScript {
    FsScript("Restart", SubArgs(long), ["recon-all -clean -subjid " + Substring(long) + " -all"])
  }

  function BaseStep(flags: string): string { "recon-all -base ${subid}_base ${inputstring} " + flags }
  function LongStep(flags: string): string { "recon-all -long ${subid}_${time} ${subid}_base " + flags }

  const BaseGenScript: FsScript := FsScript("Base", BaseInput, [BaseStep("-all")])

  function LongGenScript(long: bool): FsScript {
    FsScript("Long", SubArgs(long), [LongStep("-all")])
  }

  /** The flags of the tal, mask, cp, wm and gm edits of the Base and Long levels. */
  const EditFlags: seq<string> := ["-all", "-autorecon2 -autorecon3", "-autorecon2-cp -autorecon3", "-autorecon2-wm -autorecon3", "-autorecon-pial"]

  const CrossEditNames: seq<string> := ["Cross_talEdit", "Cross_maskEdit", "Cross_cpEdit", "Cross_wmEdit", "Cross_gmEdit"]
  const BaseEditNames: seq<string> := ["Base_talEdit", "Base_maskEdit", "Base_cpEdit", "Base_wmEdit", "Base_gmEdit"]
  const LongEditNames: seq<string> := ["Long_talEdit", "Long_maskEdit", "Long_cpEdit", "Long_wmEdit", "Long_gmEdit"]
  const CrossViewNames: seq<string> := ["Cross_talView", "Cross_maskView", "Cross_cpView", "Cross_wmView", "Cross_gmView"]
  const BaseViewNames: seq<string> := ["Base_talView", "Base_maskView", "Base_cpView", "Base_wmView", "Base_gmView"]
  const LongViewNames: seq<string> := ["Long_talView", "Long_maskView", "Long_cpView", "Long_wmView", "Long_gmView"]

  function CrossEditSteps(sub: string): seq<string> {
    [ "recon-all -subjid " + sub + " -all",
      "recon-all -autorecon2 -autorecon3 -subjid " + sub,
      "recon-all -autorecon2-cp -autorecon3 -subjid " + sub,
      "recon-all -autorecon2-wm -autorecon3 -subjid " + sub,
      "recon-all -autorecon-pial -subjid " + sub + " -all" ]
  }

  function BaseEditSteps(): seq<string> {
    seq(5, i requires 0 <= i < 5 => BaseStep(EditFlags[i]))
  }

  function LongEditSteps(): seq<string> {
    seq(5, i requires 0 <= i < 5 => LongStep(EditFlags[i]))
  }

  const ExtractName: string := "ExtractVals"

  function AparcStep(hemi: string, meas: string, fd: string): string {
    "aparcstats2table --hemi " + hemi + " --subjects $subjectslist --meas " + meas + " --parc aparc.a2009s --tablefile "
    + fd + "/analysis/atlas-extracted/" + hemi + "_aparc-a2009-" + meas + "-table.csv"
  }

  /** The nine table extractions: four measures per hemisphere, then the volumes. */
  function ExtractSteps(fd: string): seq<string> {
    [ AparcStep("lh", "area", fd), AparcStep("lh", "meancurv", fd), AparcStep("lh", "thickness", fd), AparcStep("lh", "volume", fd),
      AparcStep("rh", "area", fd), AparcStep("rh", "meancurv", fd), AparcStep("rh", "thickness", fd), AparcStep("rh", "volume", fd),
      "segstats2table --subjects $subjectslist --stats aseg.stats --tablefile " + fd + "/analysis/atlas-extracted/aseg-vol-table.csv" ]
  }

  function ExtractScript(fd: string): FsScript {
    FsScript(ExtractName, ["subjectslist=$@"], ExtractSteps(fd))
  }

  /** The four surfaces the cp, wm and gm viewers overlay, for the run directory `t`. */
  function Surfaces(t: string): string {
    " -f " + t + "/surf/lh.white:edgecolor=yellow " + t + "/surf/lh.pial:edgecolor=red "
    + t + "/surf/rh.white:edgecolor=yellow " + t + "/surf/rh.pial:edgecolor=red"
  }

  /** The tal, mask, cp, wm and gm viewer commands for run `tal` in directory `t`. */
  function ViewSteps(tal: string, t: string): seq<string> {
    [ "tkregister2 --mgz --s " + tal + " --fstal --surf orig",
      "freeview -v " + t + "/mri/T1.mgz " + t + "/mri/brainmask.mgz:colormap=heat:opacity=0.4",
      "freeview -v " + t + "/mri/T1.mgz " + t + "/mri/brainmask.mgz " + t + "/mri/wm.mgz:colormap=heat:opacity=0.3" + Surfaces(t),
      "freeview -v " + t + "/mri/T1.mgz " + t + "/mri/brainmask.mgz " + t + "/mri/wm.mgz:opacity=0.5" + Surfaces(t),
      "freeview -v " + t + "/mri/T1.mgz " + t + "/mri/brainmask.mgz " + t + "/mri/wm.mgz:opacity=0" + Surfaces(t) ]
  }

  /** One group of single-step scripts sharing their input lines: the i-th name runs the i-th step. */
  function Group(names: seq<string>, input: seq<string>, steps: seq<string>): seq<FsScript>
    requires |names| == |steps|
  {
    seq(|names|, i requires 0 <= i < |names| => FsScript(names[i], input, [steps[i]]))
  }

  /** The order of `ScriptList`; the Base and Long entries exist only when longitudinal. */
  function FsArrange<T>(long: bool, orig: T, restart: T, baseGen: T, longGen: T,
                        crossEdit: seq<T>, baseEdit: seq<T>, longEdit: seq<T>, extract: T,
                        crossView: seq<T>, baseView: seq<T>, longView: seq<T>): seq<T>
  {
    [orig, restart]
    + (if long then [baseGen, longGen] else [])
    + crossEdit
    + (if long then baseEdit + longEdit else [])
    + [extract]
    + crossView
    + (if long then baseView + longView else [])
  }

  function CrossEdits(long: bool): seq<FsScript> { Group(CrossEditNames, SubArgs(long), CrossEditSteps(Substring(long))) }
  function BaseEdits(): seq<FsScript> { Group(BaseEditNames, BaseInput, BaseEditSteps()) }
  function LongEdits(long: bool): seq<FsScript> { Group(LongEditNames, SubArgs(long), LongEditSteps()) }

  function CrossViews(fd: string, long: bool): seq<FsScript> {
    var sub := Substring(long);
    Group(CrossViewNames, SubArgs(long), ViewSteps(sub, fd + "/subjects/" + sub))
  }

  /** The Base viewers read only the subject. */
  function BaseViews(fd: string): seq<FsScript> {
    Group(BaseViewNames, ["subid=$1"], ViewSteps("${subid}_base", fd + "/subjects/${subid}_base"))
  }

  function LongViews(fd: string, long: bool): seq<FsScript> {
    var run := Substring(long) + ".long.${subid}_base";
    Group(LongViewNames, SubArgs(long), ViewSteps(run, fd + "/subjects/" + run))
  }

  /** `defineScripts`: the header every script starts with, and `ScriptList`. */
  function DefineScripts(fd: string, long: bool): (string, seq<FsScript>) {
    (ScriptHeader(fd),
     FsArrange(long, OrigScript(long), RestartScript(long), BaseGenScript, LongGenScript(long),
       CrossEdits(long), BaseEdits(), LongEdits(long), ExtractScript(fd),
       CrossViews(fd, long), BaseViews(fd), LongViews(fd, long)))
  }

  function Names(scripts: seq<FsScript>): seq<string> {
    seq(|scripts|, i requires 0 <= i < |scripts| => scripts[i].name)
  }

  /** The script names in `ScriptList` order. */
  function ScriptNames(long: bool): seq<string> {
    FsArrange(long, "Orig", "Restart", "Base", "Long", CrossEditNames, BaseEditNames, LongEditNames, ExtractName,
      CrossViewNames, BaseViewNames, LongViewNames)
  }

  // ---------------------------------------------------------- properties

  lemma NamesConcat(a: seq<FsScript>, b: seq<FsScript>)
    ensures Names(a + b) == Names(a) + Names(b)
  {
  }

  /** Naming commutes with arranging the groups. */
  lemma {:induction false} NamesArrange(long: bool, o: FsScript, r: FsScript, b: FsScript, l: FsScript,
                                        ce: seq<FsScript>, be: seq<FsScript>, le: seq<FsScript>, e: FsScript,
                                        cv: seq<FsScript>, bv: seq<FsScript>, lv: seq<FsScript>)
    ensures Names(FsArrange(long, o, r, b, l, ce, be, le, e, cv, bv, lv))
         == FsArrange(long, o.name, r.name, b.name, l.name, Names(ce), Names(be), Names(le), e.name, Names(cv), Names(bv), Names(lv))
  {
    var g: seq<FsScript> := if long then [b, l] else [];
    var me: seq<FsScript> := if long then be + le else [];
    var mv: seq<FsScript> := if long then bv + lv else [];
    NamesConcat(be, le);
    NamesConcat(bv, lv);
    assert Names([o, r]) == [o.name, r.name];
    assert Names(g) == if long then [b.name, l.name] else [];
    assert Names(me) == if long then Names(be) + Names(le) else [];
    assert Names(mv) == if long then Names(bv) + Names(lv) else [];
    assert Names([e]) == [e.name];
    NamesConcat([o, r], g);
    NamesConcat([o, r] + g, ce);
    NamesConcat([o, r] + g + ce, me);
    NamesConcat([o, r] + g + ce + me, [e]);
    NamesConcat([o, r] + g + ce + me + [e], cv);
    NamesConcat([o, r] + g + ce + me + [e] + cv, mv);
  }

  lemma GroupNames(names: seq<string>, input: seq<string>, steps: seq<string>)
    requires |names| == |steps|
    ensures Names(Group(names, input, steps)) == names
  {
  }

  /** `ScriptList` holds these names, in this order. */
  lemma {:induction false} DefineScriptsNames(fd: string, long: bool)
    ensures Names(DefineScripts(fd, long).1) == ScriptNames(long)
  {
    var sub := Substring(long);
    GroupNames(CrossEditNames, SubArgs(long), CrossEditSteps(sub));
    GroupNames(BaseEditNames, BaseInput, BaseEditSteps());
    GroupNames(LongEditNames, SubArgs(long), LongEditSteps());
    GroupNames(CrossViewNames, SubArgs(long), ViewSteps(sub, fd + "/subjects/" + sub));
    GroupNames(BaseViewNames, ["subid=$1"], ViewSteps("${subid}_base", fd + "/subjects/${subid}_base"));
    var run := sub + ".long.${subid}_base";
    GroupNames(LongViewNames, SubArgs(long), ViewSteps(run, fd + "/subjects/" + run));
    NamesArrange(long, OrigScript(long), RestartScript(long), BaseGenScript, LongGenScript(long),
       CrossEdits(long), BaseEdits(), LongEdits(long), ExtractScript(fd),
       CrossViews(fd, long), BaseViews(fd), LongViews(fd, long));
  }

  /** `ScriptList` has 35 scripts when longitudinal and 13 otherwise. */
  lemma DefineScriptsSize(fd: string, long: bool)
    ensures |DefineScripts(fd, long).1| == if long then 35 else 13
  {
    DefineScriptsNames(fd, long);
  }

  // ---------------------------------------------------- distinct names

  /** A name's first and last characters, which tell the catalog's groups apart. */
  function Tag(n: string): (char, char)
    requires |n| > 0
  {
    (n[0], n[|n| - 1])
  }

  /** Every name is non-empty and its tag is one of `tags`. */
  predicate TaggedIn(names: seq<string>, tags: set<(char, char)>) {
    forall i :: 0 <= i < |names| ==> |names[i]| > 0 && Tag(names[i]) in tags
  }

  /** Two distinct lists whose tags do not meet join without a repeat. */
  lemma {:induction false} JoinTagged(a: seq<string>, ta: set<(char, char)>, b: seq<string>, tb: set<(char, char)>)
    requires Distinct(a) && TaggedIn(a, ta)
    requires Distinct(b) && TaggedIn(b, tb) && ta !! tb
    ensures Distinct(a + b) && TaggedIn(a + b, ta + tb)
  {
    forall i, j | 0 <= i < |a| && 0 <= j < |b| ensures a[i] != b[j] {
      assert Tag(a[i]) in ta && Tag(b[j]) in tb;
    }
    DistinctConcat(a, b);
    forall i | 0 <= i < |a + b| ensures |(a + b)[i]| > 0 && Tag((a + b)[i]) in ta + tb {
      if i < |a| {
        assert (a + b)[i] == a[i];
      } else {
        assert (a + b)[i] == b[i - |a|];
      }
    }
  }

  lemma GroupsTagged()
    ensures Distinct(CrossEditNames) && TaggedIn(CrossEditNames, {('C', 't')})
    ensures Distinct(BaseEditNames) && TaggedIn(BaseEditNames, {('B', 't')})
    ensures Distinct(LongEditNames) && TaggedIn(LongEditNames, {('L', 't')})
    ensures Distinct(CrossViewNames) && TaggedIn(CrossViewNames, {('C', 'w')})
    ensures Distinct(BaseViewNames) && TaggedIn(BaseViewNames, {('B', 'w')})
    ensures Distinct(LongViewNames) && TaggedIn(LongViewNames, {('L', 'w')})
    ensures TaggedIn(["Orig"], {('O', 'g')}) && TaggedIn(["Restart"], {('R', 't')})
    ensures TaggedIn(["Base"], {('B', 'e')}) && TaggedIn(["Long"], {('L', 'g')})
    ensures TaggedIn([ExtractName], {('E', 's')})
  {
  }

  /** The tags of the processing groups and of the viewers. */
  const FrontTags: set<(char, char)> := {('O', 'g'), ('R', 't'), ('B', 'e'), ('L', 'g'), ('C', 't'), ('B', 't'), ('L', 't'), ('E', 's')}
  const ViewTags: set<(char, char)> := {('C', 'w'), ('B', 'w'), ('L', 'w')}

  /** The entries before the viewers carry distinct names. */
  lemma {:induction false} DistinctFront(long: bool, o: string, r: string, b: string, l: string,
                                         ce: seq<string>, be: seq<string>, le: seq<string>, e: string)
    requires TaggedIn([o], {('O', 'g')}) && TaggedIn([r], {('R', 't')})
    requires TaggedIn([b], {('B', 'e')}) && TaggedIn([l], {('L', 'g')}) && TaggedIn([e], {('E', 's')})
    requires Distinct(ce) && TaggedIn(ce, {('C', 't')})
    requires Distinct(be) && TaggedIn(be, {('B', 't')})
    requires Distinct(le) && TaggedIn(le, {('L', 't')})
    ensures var front := [o, r] + (if long then [b, l] else []) + ce + (if long then be + le else []) + [e];
      Distinct(front) && TaggedIn(front, FrontTags)
  {
    JoinTagged([o], {('O', 'g')}, [r], {('R', 't')});
    assert [o] + [r] == [o, r];
    var a: seq<string> := [o, r];
    var tags := {('O', 'g'), ('R', 't')};
    if long {
      JoinTagged([b], {('B', 'e')}, [l], {('L', 'g')});
      assert [b] + [l] == [b, l];
      JoinTagged(a, tags, [b, l], {('B', 'e'), ('L', 'g')});
      a, tags := a + [b, l], tags + {('B', 'e'), ('L', 'g')};
    }
    JoinTagged(a, tags, ce, {('C', 't')});
    a, tags := a + ce, tags + {('C', 't')};
    if long {
      JoinTagged(be, {('B', 't')}, le, {('L', 't')});
      JoinTagged(a, tags, be + le, {('B', 't'), ('L', 't')});
      a, tags := a + (be + le), tags + {('B', 't'), ('L', 't')};
    }
    JoinTagged(a, tags, [e], {('E', 's')});
    assert TaggedIn(a + [e], FrontTags);
  }

  /** The viewers carry distinct names. */
  lemma {:induction false} DistinctViews(long: bool, cv: seq<string>, bv: seq<string>, lv: seq<string>)
    requires Distinct(cv) && TaggedIn(cv, {('C', 'w')})
    requires Distinct(bv) && TaggedIn(bv, {('B', 'w')})
    requires Distinct(lv) && TaggedIn(lv, {('L', 'w')})
    ensures var views := cv + (if long then bv + lv else []);
      Distinct(views) && TaggedIn(views, ViewTags)
  {
    if long {
      JoinTagged(bv, {('B', 'w')}, lv, {('L', 'w')});
      JoinTagged(cv, {('C', 'w')}, bv + lv, {('B', 'w'), ('L', 'w')});
    } else {
      assert cv + [] == cv;
    }
  }

  /** Groups told apart by their tags arrange into a list without repeats. */
  lemma {:induction false} DistinctArrange(long: bool, o: string, r: string, b: string, l: string,
                                           ce: seq<string>, be: seq<string>, le: seq<string>, e: string,
                                           cv: seq<string>, bv: seq<string>, lv: seq<string>)
    requires TaggedIn([o], {('O', 'g')}) && TaggedIn([r], {('R', 't')})
    requires TaggedIn([b], {('B', 'e')}) && TaggedIn([l], {('L', 'g')}) && TaggedIn([e], {('E', 's')})
    requires Distinct(ce) && TaggedIn(ce, {('C', 't')})
    requires Distinct(be) && TaggedIn(be, {('B', 't')})
    requires Distinct(le) && TaggedIn(le, {('L', 't')})
    requires Distinct(cv) && TaggedIn(cv, {('C', 'w')})
    requires Distinct(bv) && TaggedIn(bv, {('B', 'w')})
    requires Distinct(lv) && TaggedIn(lv, {('L', 'w')})
    ensures Distinct(FsArrange(long, o, r, b, l, ce, be, le, e, cv, bv, lv))
  {
    var front := [o, r] + (if long then [b, l] else []) + ce + (if long then be + le else []) + [e];
    var views := cv + (if long then bv + lv else []);
    DistinctFront(long, o, r, b, l, ce, be, le, e);
    DistinctViews(long, cv, bv, lv);
    JoinTagged(front, FrontTags, views, ViewTags);
    assert FsArrange(long, o, r, b, l, ce, be, le, e, cv, bv, lv) == front + views;
  }

  /** No two scripts of `ScriptList` share a name. */
  lemma {:induction false} DefineScriptsDistinct(fd: string, long: bool)
    ensures Distinct(Names(DefineScripts(fd, long).1))
  {
    DefineScriptsNames(fd, long);
    GroupsTagged();
    DistinctArrange(long, "Orig", "Restart", "Base", "Long", CrossEditNames, BaseEditNames, LongEditNames, ExtractName,
      CrossViewNames, BaseViewNames, LongViewNames);
  }

  // --------------------------------------------------- input lines, steps

  /** A property every entry has (the longitudinal-only ones when present) holds across the arrangement. */
  lemma {:induction false} AllArrange<T>(long: bool, o: T, r: T, b: T, l: T, ce: seq<T>, be: seq<T>, le: seq<T>, e: T,
                                        cv: seq<T>, bv: seq<T>, lv: seq<T>, P: T -> bool)
    requires P(o) && P(r) && (long ==> P(b) && P(l)) && P(e)
    requires forall i :: 0 <= i < |ce| ==> P(ce[i])
    requires long ==> forall i :: 0 <= i < |be| ==> P(be[i])
    requires long ==> forall i :: 0 <= i < |le| ==> P(le[i])
    requires forall i :: 0 <= i < |cv| ==> P(cv[i])
    requires long ==> forall i :: 0 <= i < |bv| ==> P(bv[i])
    requires long ==> forall i :: 0 <= i < |lv| ==> P(lv[i])
    ensures forall i :: 0 <= i < |FsArrange(long, o, r, b, l, ce, be, le, e, cv, bv, lv)| ==> P(FsArrange(long, o, r, b, l, ce, be, le, e, cv, bv, lv)[i])
  {
    var g: seq<T> := if long then [b, l] else [];
    var me: seq<T> := if long then be + le else [];
    var mv: seq<T> := if long then bv + lv else [];
    if long {
      AllConcat(be, le, P);
      AllConcat(bv, lv, P);
    }
    AllConcat([o, r], g, P);
    AllConcat([o, r] + g, ce, P);
    AllConcat([o, r] + g + ce, me, P);
    AllConcat([o, r] + g + ce + me, [e], P);
    AllConcat([o, r] + g + ce + me + [e], cv, P);
    AllConcat([o, r] + g + ce + me + [e] + cv, mv, P);
  }

  /**
    How a script reads its arguments: the project-wide extraction takes every
    argument as the subject list, the Base scripts take the subject first,
    and every other script starts with the row's own arguments, `subid=$1`
    and, when longitudinal, `time=$2`. Every script runs at least one command.
   */
  predicate ReadsArguments(long: bool, s: FsScript) {
    && |s.steps| >= 1
    && |s.name| > 0
    && (s.name[0] == 'E' ==> s.inputLines == ["subjectslist=$@"])
    && (s.name[0] == 'B' ==> |s.inputLines| >= 1 && s.inputLines[0] == "subid=$1")
    && (s.name[0] != 'E' && s.name[0] != 'B' ==> |s.inputLines| >= |SubArgs(long)| && s.inputLines[..|SubArgs(long)|] == SubArgs(long))
  }

  lemma GroupReads(long: bool, names: seq<string>, input: seq<string>, steps: seq<string>)
    requires |names| == |steps|
    requires forall i :: 0 <= i < |names| ==> |names[i]| > 0 && names[i][0] != 'E'
    requires forall i :: 0 <= i < |names| ==> names[i][0] == 'B' ==> |input| >= 1 && input[0] == "subid=$1"
    requires forall i :: 0 <= i < |names| ==> names[i][0] != 'B' ==> |input| >= |SubArgs(long)| && input[..|SubArgs(long)|] == SubArgs(long)
    ensures forall i :: 0 <= i < |Group(names, input, steps)| ==> ReadsArguments(long, Group(names, input, steps)[i])
  {
  }

  /** The five scripts outside the groups read their arguments as their level demands. */
  lemma SinglesRead(fd: string, long: bool)
    ensures ReadsArguments(long, OrigScript(long)) && ReadsArguments(long, RestartScript(long))
    ensures ReadsArguments(long, BaseGenScript) && ReadsArguments(long, LongGenScript(long))
    ensures ReadsArguments(long, ExtractScript(fd))
  {
    var subArgs := SubArgs(long);
    assert OrigScript(long).inputLines[..|subArgs|] == subArgs;
    assert subArgs[..|subArgs|] == subArgs;
  }

  lemma GroupsRead(fd: string, long: bool)
    ensures forall i :: 0 <= i < |CrossEdits(long)| ==> ReadsArguments(long, CrossEdits(long)[i])
    ensures forall i :: 0 <= i < |BaseEdits()| ==> ReadsArguments(long, BaseEdits()[i])
    ensures forall i :: 0 <= i < |LongEdits(long)| ==> ReadsArguments(long, LongEdits(long)[i])
    ensures forall i :: 0 <= i < |CrossViews(fd, long)| ==> ReadsArguments(long, CrossViews(fd, long)[i])
    ensures forall i :: 0 <= i < |BaseViews(fd)| ==> ReadsArguments(long, BaseViews(fd)[i])
    ensures forall i :: 0 <= i < |LongViews(fd, long)| ==> ReadsArguments(long, LongViews(fd, long)[i])
  {
    var sub := Substring(long);
    var subArgs := SubArgs(long);
    assert subArgs[..|subArgs|] == subArgs;
    GroupReads(long, CrossEditNames, subArgs, CrossEditSteps(sub));
    GroupReads(long, BaseEditNames, BaseInput, BaseEditSteps());
    GroupReads(long, LongEditNames, subArgs, LongEditSteps());
    GroupReads(long, CrossViewNames, subArgs, ViewSteps(sub, fd + "/subjects/" + sub));
    GroupReads(long, BaseViewNames, ["subid=$1"], ViewSteps("${subid}_base", fd + "/subjects/${subid}_base"));
    var run := sub + ".long.${subid}_base";
    GroupReads(long, LongViewNames, subArgs, ViewSteps(run, fd + "/subjects/" + run));
  }

  /** Every script of `ScriptList` reads its arguments as its level demands. */
  lemma {:induction false} DefineScriptsArguments(fd: string, long: bool)
    ensures forall i :: 0 <= i < |DefineScripts(fd, long).1| ==> ReadsArguments(long, DefineScripts(fd, long).1[i])
  {
    SinglesRead(fd, long);
    GroupsRead(fd, long);
    AllArrange(long, OrigScript(long), RestartScript(long), BaseGenScript, LongGenScript(long),
       CrossEdits(long), BaseEdits(), LongEdits(long), ExtractScript(fd),
       CrossViews(fd, long), BaseViews(fd), LongViews(fd, long),
       s => ReadsArguments(long, s));
  }
}
