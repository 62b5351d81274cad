/**
  The FreeSurfer project generator's configuration and script catalog
  (setupfreesurfer.py:216-387): the directories derived from the options,
  the `Script` record and its file names, and the ordered list of scripts
  `Project.__init__` builds.
 */
module FreeSurferCatalog {
  import opened Wrappers
  import opened Text
  import opened Ident

  /** `Script.level`: "cross", "base", "long" or "project". */
  datatype Level = Cross | Base | Long | ProjectLevel

  /** The options `Project` is built from; `srcDir` is where the generator itself lives. */
  datatype Config = Config(dataDir: string, codeDir: string, freesurferHome: string,
                           isLongitudinal: bool, host: Option<string>, srcDir: string)

  function SubjectsDir(c: Config): string { c.dataDir + "/subjects/" }
  function AnalysisDir(c: Config): string { c.dataDir + "/analysis/" }
  function MonitorDir(c: Config): string { c.codeDir + "/monitor/" }
  function ScriptDir(c: Config): string { c.codeDir + "/scripts/" }
  function SubmitDir(c: Config): string { c.codeDir + "/submit/" }
  function LogDir(c: Config): string { c.codeDir + "/logs/" }
  function DashPath(c: Config): string { c.srcDir + "/dash/dash.py" }

  /** `Project.requires_host`: a host was given. */
  predicate RequiresHost(c: Config) { c.host.Some? }

  datatype Script = Script(name: string, level: Level, isProcess: bool, steps: seq<string>,
                           memory: nat, requiresHost: bool)

  /** `Script.__init__`: the name is sanitised and the memory request defaults to 3072. */
  function MakeScript(raw: string, level: Level, isProcess: bool, steps: seq<string>, requiresHost: bool): Script {
    Script(Idify(raw), level, isProcess, steps, 3072, requiresHost)
  }

  function ExecutableName(s: Script): string { s.name + ".sh" }
  function SubmitName(s: Script): string { s.name + ".txt" }
  function LogName(s: Script): string { s.name + "_$(target)_log.txt" }
  function OutName(s: Script): string { s.name + "_$(target)_out.txt" }
  function ErrName(s: Script): string { s.name + "_$(target)_err.txt" }

  // ------------------------------------------------------------ the steps

  function ExtractStep(hemi: string, meas: string, parc: string, atlas: string, ad: string): string {
    "aparcstats2table --hemi " + hemi + " --subjects $vars --delimiter comma --meas " + meas
    + " --parc " + parc + " --tablefile " + ad + "/extracted/" + hemi + "_aparc-" + atlas + "-" + meas + "-table.csv"
  }

  /** The seventeen table extractions of the project-level script, in order. */
  function ExtractSteps(ad: string): seq<string> {
    [ ExtractStep("lh", "area", "aparc", "desikankilliany", ad),
      ExtractStep("rh", "area", "aparc", "desikankilliany", ad),
      ExtractStep("lh", "meancurv", "aparc", "desikankilliany", ad),
      ExtractStep("rh", "meancurv", "aparc", "desikankilliany", ad),
      ExtractStep("lh", "thickness", "aparc", "desikankilliany", ad),
      ExtractStep("rh", "thickness", "aparc", "desikankilliany", ad),
      ExtractStep("lh", "volume", "aparc", "desikankilliany", ad),
      ExtractStep("rh", "volume", "aparc", "desikankilliany", ad),
      ExtractStep("lh", "area", "aparc.a2009s", "destrieux", ad),
      ExtractStep("rh", "area", "aparc.a2009s", "destrieux", ad),
      ExtractStep("lh", "meancurv", "aparc.a2009s", "destrieux", ad),
      ExtractStep("rh", "meancurv", "aparc.a2009s", "destrieux", ad),
      ExtractStep("lh", "thickness", "aparc.a2009s", "destrieux", ad),
      ExtractStep("rh", "thickness", "aparc.a2009s", "destrieux", ad),
      ExtractStep("lh", "volume", "aparc.a2009s", "destrieux", ad),
      ExtractStep("rh", "volume", "aparc.a2009s", "destrieux", ad),
      "asegstats2table --subjects $vars --delimiter comma --stats aseg.stats --tablefile " + ad + "/extracted/aseg-volume-table.csv" ]
  }

  const TalViewStep: string := "tkregister2 --mgz --s ${targetvar} --fstal --surf orig"

  function MaskViewStep(sd: string): string {
    "freeview -v " + sd + "${targetvar}/mri/T1.mgz " + sd + "/subjects/${targetvar}/mri/brainmask.mgz:colormap=heat:opacity=0.4"
  }

  /** The four surfaces the edit viewers overlay. */
  function Surfaces(sd: string): string {
    " -f " + sd + "${targetvar}/surf/lh.white:edgecolor=yellow " + sd + "${targetvar}/surf/lh.pial:edgecolor=red "
    + sd + "${targetvar}/surf/rh.white:edgecolor=yellow " + sd + "${targetvar}/surf/rh.pial:edgecolor=red"
  }

  function CpViewStep(sd: string): string {
    "freeview -v " + sd + "${targetvar}/mri/T1.mgz " + sd + "${targetvar}/mri/brainmask.mgz " + sd
    + "${targetvar}/mri/wm.mgz:colormap=heat:opacity=0.3" + Surfaces(sd) + " -c " + sd + "${targetvar}/tmp/control.dat"
  }

  function WmViewStep(sd: string): string {
    "freeview -v " + sd + "${targetvar}/mri/T1.mgz " + sd + "${targetvar}/mri/brainmask.mgz " + sd
    + "${targetvar}/mri/wm.mgz:opacity=0.5" + Surfaces(sd)
  }

  function GmViewStep(sd: string): string {
    "freeview -v " + sd + "${targetvar}/mri/T1.mgz " + sd + "${targetvar}/mri/brainmask.mgz " + sd
    + "${targetvar}/mri/wm.mgz:opacity=0" + Surfaces(sd)
  }

  // ----------------------------------------------------------- the groups

  const CrossProcessNames: seq<string> := ["Cross_Initialize", "Cross_Restart", "Cross_talEdit", "Cross_maskEdit", "Cross_cpEdit", "Cross_wmEdit", "Cross_gmEdit"]
  const CrossProcessSteps: seq<string> := [
    "recon-all ${inputstring} -subjid ${targetvar} -all",
    "recon-all -subjid ${targetvar} -clean -all",
    "recon-all -subjid ${targetvar} -all",
    "recon-all -subjid ${targetvar} -autorecon2 -autorecon3",
    "recon-all -subjid ${targetvar} -autorecon2-cp -autorecon3",
    "recon-all -subjid ${targetvar} -autorecon2-wm -autorecon3",
    "recon-all -subjid ${targetvar} -autorecon-pial"]

  const BaseProcessNames: seq<string> := ["Base_Initialize", "Base_Restart", "Base_talEdit", "Base_maskEdit", "Base_cpEdit", "Base_wmEdit", "Base_gmEdit"]
  const BaseProcessSteps: seq<string> := [
    "recon-all ${inputstring} -base ${targetvar} -all",
    "recon-all -base ${targetvar} -clean -all",
    "recon-all -base ${targetvar} -all",
    "recon-all -base ${targetvar} -autorecon2 -autorecon3",
    "recon-all -base ${targetvar} -autorecon2-cp -autorecon3",
    "recon-all -base ${targetvar} -autorecon2-wm -autorecon3",
    "recon-all -base ${targetvar} -autorecon-pial"]

  const LongProcessNames: seq<string> := ["Long_Initialize", "Long_Restart", "Long_talEdit", "Long_maskEdit", "Long_cpEdit", "Long_wmEdit", "Long_gmEdit"]
  const LongProcessSteps: seq<string> := [
    "recon-all -long ${targetvar} ${idvar}_base -all",
    "recon-all -long ${targetvar} ${idvar}_base -clean -all",
    "recon-all -long ${targetvar} ${idvar}_base -all",
    "recon-all -long ${targetvar} ${idvar}_base -autorecon2 -autorecon3",
    "recon-all -long ${targetvar} ${idvar}_base -autorecon2-cp -autorecon3",
    "recon-all -long ${targetvar} ${idvar}_base -autorecon2-wm -autorecon3",
    "recon-all -long ${targetvar} ${idvar}_base -autorecon-pial"]

  const CrossViewNames: seq<string> := ["Cross_talView", "Cross_maskView", "Cross_cpView", "Cross_wmView", "Cross_gmView"]
  const BaseViewNames: seq<string> := ["Base_talView", "Base_maskView", "Base_cpView", "Base_wmView", "Base_gmView"]
  const LongViewNames: seq<string> := ["Long_talView", "Long_maskView", "Long_cpView", "Long_wmView", "Long_gmView"]

  /** The single-step viewer commands, in viewer order (tal, mask, cp, wm, gm). */
  function ViewSteps(sd: string): seq<string> {
    [TalViewStep, MaskViewStep(sd), CpViewStep(sd), WmViewStep(sd), GmViewStep(sd)]
  }

  /** One level's processing scripts: the i-th name runs the i-th single step. */
  function Processes(names: seq<string>, steps: seq<string>, level: Level, rh: bool): seq<Script>
    requires |names| == |steps|
  {
    seq(|names|, i requires 0 <= i < |names| => MakeScript(names[i], level, true, [steps[i]], rh))
  }

  /** One level's five viewers; viewers never require the host. */
  function Viewers(names: seq<string>, level: Level, sd: string): seq<Script>
    requires |names| == 5
  {
    seq(5, i requires 0 <= i < 5 => MakeScript(names[i], level, false, [ViewSteps(sd)[i]], false))
  }

  const ExtractName: string := "Extract"

  function ExtractScript(c: Config): Script {
    MakeScript(ExtractName, ProjectLevel, true, ExtractSteps(AnalysisDir(c)), RequiresHost(c))
  }

  /** The order `Project.__init__` appends its groups in; the Base and Long groups exist only when longitudinal. */
  function Arrange<T>(longitudinal: bool, crossProc: seq<T>, baseProc: seq<T>, longProc: seq<T>, extract: T,
                      crossView: seq<T>, baseView: seq<T>, longView: seq<T>): seq<T>
  {
    crossProc
    + (if longitudinal then baseProc + longProc else [])
    + [extract]
    + crossView
    + (if longitudinal then baseView + longView else [])
  }

  /** `Project.scripts`, in the order `Project.__init__` appends them. */
  function Catalog(c: Config): seq<Script> {
    var rh := RequiresHost(c);
    var sd := SubjectsDir(c);
    Arrange(c.isLongitudinal,
      Processes(CrossProcessNames, CrossProcessSteps, Cross, rh),
      Processes(BaseProcessNames, BaseProcessSteps, Base, rh),
      Processes(LongProcessNames, LongProcessSteps, Long, rh),
      ExtractScript(c),
      Viewers(CrossViewNames, Cross, sd),
      Viewers(BaseViewNames, Base, sd),
      Viewers(LongViewNames, Long, sd))
  }

  function Names(scripts: seq<Script>): seq<string> {
    seq(|scripts|, i requires 0 <= i < |scripts| => scripts[i].name)
  }

  // ---------------------------------------------------------- properties

  /** The script names in catalog order. */
  function CatalogNames(longitudinal: bool): seq<string> {
    Arrange(longitudinal, CrossProcessNames, BaseProcessNames, LongProcessNames, ExtractName,
      CrossViewNames, BaseViewNames, LongViewNames)
  }

  lemma NamesConcat(a: seq<Script>, b: seq<Script>)
    ensures Names(a + b) == Names(a) + Names(b)
  {
  }

  /** Naming commutes with arranging the groups. */
  lemma {:induction false} NamesArrange(long: bool, cp: seq<Script>, bp: seq<Script>, lp: seq<Script>, e: Script,
                                        cv: seq<Script>, bv: seq<Script>, lv: seq<Script>)
    ensures Names(Arrange(long, cp, bp, lp, e, cv, bv, lv))
         == Arrange(long, Names(cp), Names(bp), Names(lp), e.name, Names(cv), Names(bv), Names(lv))
  {
    var mp: seq<Script> := if long then bp + lp else [];
    var mv: seq<Script> := if long then bv + lv else [];
    NamesConcat(bp, lp);
    NamesConcat(bv, lv);
    assert Names(mp) == if long then Names(bp) + Names(lp) else [];
    assert Names(mv) == if long then Names(bv) + Names(lv) else [];
    assert Names([e]) == [e.name];
    NamesConcat(cp, mp);
    NamesConcat(cp + mp, [e]);
    NamesConcat(cp + mp + [e], cv);
    NamesConcat(cp + mp + [e] + cv, mv);
  }

  /** Names that are already identifiers pass through `Script.__init__` unchanged. */
  lemma {:induction false} IdNamesKept(names: seq<string>)
    requires forall i :: 0 <= i < |names| ==> IsId(names[i])
    ensures forall i :: 0 <= i < |names| ==> Idify(names[i]) == names[i]
  {
    forall i | 0 <= i < |names| ensures Idify(names[i]) == names[i] {
      IdifyOfId(names[i]);
    }
  }

  lemma CrossIds()
    ensures forall i :: 0 <= i < |CrossProcessNames| ==> IsId(CrossProcessNames[i])
    ensures forall i :: 0 <= i < |CrossViewNames| ==> IsId(CrossViewNames[i])
  {
  }

  lemma BaseIds()
    ensures forall i :: 0 <= i < |BaseProcessNames| ==> IsId(BaseProcessNames[i])
    ensures forall i :: 0 <= i < |BaseViewNames| ==> IsId(BaseViewNames[i])
  {
  }

  lemma LongIds()
    ensures forall i :: 0 <= i < |LongProcessNames| ==> IsId(LongProcessNames[i])
    ensures forall i :: 0 <= i < |LongViewNames| ==> IsId(LongViewNames[i])
  {
  }

  lemma GroupNames(names: seq<string>, steps: seq<string>, level: Level, rh: bool, sd: string)
    requires |names| == |steps|
    requires forall i :: 0 <= i < |names| ==> IsId(names[i])
    ensures Names(Processes(names, steps, level, rh)) == names
    ensures |names| == 5 ==> Names(Viewers(names, level, sd)) == names
  {
    IdNamesKept(names);
  }

  /** The catalog lists its scripts under exactly these names, in this order. */
  lemma {:induction false} CatalogNamesInOrder(c: Config)
    ensures Names(Catalog(c)) == CatalogNames(c.isLongitudinal)
  {
    var rh, sd := RequiresHost(c), SubjectsDir(c);
    CrossIds();
    BaseIds();
    LongIds();
    GroupNames(CrossProcessNames, CrossProcessSteps, Cross, rh, sd);
    GroupNames(BaseProcessNames, BaseProcessSteps, Base, rh, sd);
    GroupNames(LongProcessNames, LongProcessSteps, Long, rh, sd);
    GroupNames(CrossViewNames, CrossProcessSteps[..5], Cross, rh, sd);
    GroupNames(BaseViewNames, CrossProcessSteps[..5], Base, rh, sd);
    GroupNames(LongViewNames, CrossProcessSteps[..5], Long, rh, sd);
    assert IsId(ExtractName);
    IdifyOfId(ExtractName);
    NamesArrange(c.isLongitudinal,
      Processes(CrossProcessNames, CrossProcessSteps, Cross, rh),
      Processes(BaseProcessNames, BaseProcessSteps, Base, rh),
      Processes(LongProcessNames, LongProcessSteps, Long, rh),
      ExtractScript(c),
      Viewers(CrossViewNames, Cross, sd),
      Viewers(BaseViewNames, Base, sd),
      Viewers(LongViewNames, Long, sd));
  }

  /** The catalog has 13 scripts, or 37 when longitudinal. */
  lemma CatalogSize(c: Config)
    ensures |Catalog(c)| == if c.isLongitudinal then 37 else 13
  {
  }

  /** Every name in the group starts with `first`, and ends in 'w' exactly when `view`. */
  predicate Marked(names: seq<string>, first: char, view: bool) {
    forall i :: 0 <= i < |names| ==> |names[i]| > 0 && names[i][0] == first && (names[i][|names[i]| - 1] == 'w') == view
  }

  lemma GroupsMarked()
    ensures Distinct(CrossProcessNames) && Marked(CrossProcessNames, 'C', false)
    ensures Distinct(BaseProcessNames) && Marked(BaseProcessNames, 'B', false)
    ensures Distinct(LongProcessNames) && Marked(LongProcessNames, 'L', false)
    ensures Distinct(CrossViewNames) && Marked(CrossViewNames, 'C', true)
    ensures Distinct(BaseViewNames) && Marked(BaseViewNames, 'B', true)
    ensures Distinct(LongViewNames) && Marked(LongViewNames, 'L', true)
    ensures Distinct([ExtractName]) && Marked([ExtractName], 'E', false)
  {
  }

  /** Names that carry a mark `b`'s names lack. */
  predicate Apart(a: seq<string>, fb: char, vb: bool) {
    forall i :: 0 <= i < |a| ==> |a[i]| > 0 && (a[i][0] != fb || (a[i][|a[i]| - 1] == 'w') != vb)
  }

  /** A list joined to a marked group whose mark none of its names carries stays distinct. */
  lemma {:induction false} JoinMarked(a: seq<string>, b: seq<string>, fb: char, vb: bool)
    requires Distinct(a) && Distinct(b) && Marked(b, fb, vb) && Apart(a, fb, vb)
    ensures Distinct(a + b)
  {
    DistinctConcat(a, b);
  }

  lemma MarkedApart(a: seq<string>, fa: char, va: bool, fb: char, vb: bool)
    requires Marked(a, fa, va) && (fa != fb || va != vb)
    ensures Apart(a, fb, vb)
  {
  }

  lemma {:induction false} ApartConcat(a: seq<string>, b: seq<string>, fb: char, vb: bool)
    requires Apart(a, fb, vb) && Apart(b, fb, vb)
    ensures Apart(a + b, fb, vb)
  {
    forall i | 0 <= i < |a + b| ensures |(a + b)[i]| > 0 && ((a + b)[i][0] != fb || ((a + b)[i][|(a + b)[i]| - 1] == 'w') != vb) {
      if i < |a| {
        assert (a + b)[i] == a[i];
      } else {
        assert (a + b)[i] == b[i - |a|];
      }
    }
  }

  /** Groups told apart by their marks arrange into a list without repeats. */
  lemma {:induction false} DistinctArrange(long: bool, cp: seq<string>, bp: seq<string>, lp: seq<string>, e: string,
                                           cv: seq<string>, bv: seq<string>, lv: seq<string>)
    requires Distinct(cp) && Marked(cp, 'C', false)
    requires Distinct(bp) && Marked(bp, 'B', false)
    requires Distinct(lp) && Marked(lp, 'L', false)
    requires Marked([e], 'E', false)
    requires Distinct(cv) && Marked(cv, 'C', true)
    requires Distinct(bv) && Marked(bv, 'B', true)
    requires Distinct(lv) && Marked(lv, 'L', true)
    ensures Distinct(Arrange(long, cp, bp, lp, e, cv, bv, lv))
  {
    var a := cp;
    if long {
      MarkedApart(cp, 'C', false, 'B', false);
      JoinMarked(a, bp, 'B', false);
      MarkedApart(cp, 'C', false, 'L', false);
      MarkedApart(bp, 'B', false, 'L', false);
      ApartConcat(cp, bp, 'L', false);
      a := a + bp;
      JoinMarked(a, lp, 'L', false);
      a := a + lp;
    }
    var p := a;
    // everything so far is a processing group
    MarkedApart(cp, 'C', false, 'E', false);
    if long {
      MarkedApart(bp, 'B', false, 'E', false);
      MarkedApart(lp, 'L', false, 'E', false);
      ApartConcat(cp, bp, 'E', false);
      ApartConcat(cp + bp, lp, 'E', false);
    }
    JoinMarked(a, [e], 'E', false);
    a := a + [e];
    MarkedApart(cp, 'C', false, 'C', true);
    if long {
      MarkedApart(bp, 'B', false, 'C', true);
      MarkedApart(lp, 'L', false, 'C', true);
      ApartConcat(cp, bp, 'C', true);
      ApartConcat(cp + bp, lp, 'C', true);
    }
    MarkedApart([e], 'E', false, 'C', true);
    ApartConcat(p, [e], 'C', true);
    JoinMarked(a, cv, 'C', true);
    a := a + cv;
    if long {
      MarkedApart(cp, 'C', false, 'B', true);
      MarkedApart(bp, 'B', false, 'B', true);
      MarkedApart(lp, 'L', false, 'B', true);
      MarkedApart([e], 'E', false, 'B', true);
      MarkedApart(cv, 'C', true, 'B', true);
      ApartConcat(cp, bp, 'B', true);
      ApartConcat(cp + bp, lp, 'B', true);
      ApartConcat(p, [e], 'B', true);
      ApartConcat(p + [e], cv, 'B', true);
      JoinMarked(a, bv, 'B', true);
      var q := a;
      a := a + bv;
      MarkedApart(cp, 'C', false, 'L', true);
      MarkedApart(bp, 'B', false, 'L', true);
      MarkedApart(lp, 'L', false, 'L', true);
      MarkedApart([e], 'E', false, 'L', true);
      MarkedApart(cv, 'C', true, 'L', true);
      MarkedApart(bv, 'B', true, 'L', true);
      ApartConcat(cp, bp, 'L', true);
      ApartConcat(cp + bp, lp, 'L', true);
      ApartConcat(p, [e], 'L', true);
      ApartConcat(p + [e], cv, 'L', true);
      ApartConcat(q, bv, 'L', true);
      JoinMarked(a, lv, 'L', true);
      a := a + lv;
      assert a == Arrange(long, cp, bp, lp, e, cv, bv, lv);
    } else {
      assert a == Arrange(long, cp, bp, lp, e, cv, bv, lv);
    }
  }

  /** No two scripts of the catalog share a name. */
  lemma {:induction false} CatalogNamesDistinct(c: Config)
    ensures Distinct(Names(Catalog(c)))
  {
    CatalogNamesInOrder(c);
    GroupsMarked();
    DistinctArrange(c.isLongitudinal, CrossProcessNames, BaseProcessNames, LongProcessNames, ExtractName,
      CrossViewNames, BaseViewNames, LongViewNames);
  }

  /** What every script of one group shares. */
  predicate Shaped(scripts: seq<Script>, level: Level, isProcess: bool, rh: bool) {
    forall i :: 0 <= i < |scripts| ==>
      && scripts[i].level == level && scripts[i].isProcess == isProcess
      && scripts[i].requiresHost == rh && scripts[i].memory == 3072 && |scripts[i].steps| >= 1
  }

  lemma ProcessesShaped(names: seq<string>, steps: seq<string>, level: Level, rh: bool)
    requires |names| == |steps|
    ensures Shaped(Processes(names, steps, level, rh), level, true, rh)
  {
  }

  lemma ViewersShaped(names: seq<string>, level: Level, sd: string)
    requires |names| == 5
    ensures Shaped(Viewers(names, level, sd), level, false, false)
  {
    var v := Viewers(names, level, sd);
    forall i | 0 <= i < 5
      ensures v[i].level == level && !v[i].isProcess && !v[i].requiresHost && v[i].memory == 3072 && |v[i].steps| >= 1
    {
      var step := ViewSteps(sd)[i];
      assert v[i] == MakeScript(names[i], level, false, [step], false);
    }
  }

  /** A property every group has (the Base and Long ones only when present) holds across the arrangement. */
  lemma {:induction false} AllArrange<T>(long: bool, cp: seq<T>, bp: seq<T>, lp: seq<T>, e: T,
                                        cv: seq<T>, bv: seq<T>, lv: seq<T>, P: T -> bool)
    requires forall i :: 0 <= i < |cp| ==> P(cp[i])
    requires long ==> forall i :: 0 <= i < |bp| ==> P(bp[i])
    requires long ==> forall i :: 0 <= i < |lp| ==> P(lp[i])
    requires P(e)
    requires forall i :: 0 <= i < |cv| ==> P(cv[i])
    requires long ==> forall i :: 0 <= i < |bv| ==> P(bv[i])
    requires long ==> forall i :: 0 <= i < |lv| ==> P(lv[i])
    ensures forall i :: 0 <= i < |Arrange(long, cp, bp, lp, e, cv, bv, lv)| ==> P(Arrange(long, cp, bp, lp, e, cv, bv, lv)[i])
  {
    var mp: seq<T> := if long then bp + lp else [];
    var mv: seq<T> := if long then bv + lv else [];
    if long {
      AllConcat(bp, lp, P);
      AllConcat(bv, lv, P);
    }
    AllConcat(cp, mp, P);
    AllConcat(cp + mp, [e], P);
    AllConcat(cp + mp + [e], cv, P);
    AllConcat(cp + mp + [e] + cv, mv, P);
  }

  /** A script asks for the host exactly when it processes and a host was given, asks for 3072 MB, and runs a step. */
  predicate Fits(s: Script, rh: bool) {
    (s.requiresHost <==> s.isProcess && rh) && s.memory == 3072 && |s.steps| >= 1
  }

  /** Groups of the right shape arrange into scripts that fit, with Base and Long ones only when longitudinal. */
  lemma ArrangeShaped(long: bool, cp: seq<Script>, bp: seq<Script>, lp: seq<Script>, e: Script,
                      cv: seq<Script>, bv: seq<Script>, lv: seq<Script>, rh: bool)
    requires Shaped(cp, Cross, true, rh) && Shaped(cv, Cross, false, false)
    requires long ==> Shaped(bp, Base, true, rh) && Shaped(lp, Long, true, rh)
    requires long ==> Shaped(bv, Base, false, false) && Shaped(lv, Long, false, false)
    requires Fits(e, rh) && e.level == ProjectLevel
    ensures var all := Arrange(long, cp, bp, lp, e, cv, bv, lv);
      forall i :: 0 <= i < |all| ==> Fits(all[i], rh) && ((all[i].level == Base || all[i].level == Long) ==> long)
  {
    var P := (s: Script) => Fits(s, rh) && ((s.level == Base || s.level == Long) ==> long);
    AllArrange(long, cp, bp, lp, e, cv, bv, lv, P);
  }

  /** Every script of the catalog fits, and the Base and Long ones exist only in a longitudinal project. */
  lemma CatalogFits(c: Config)
    ensures forall i :: 0 <= i < |Catalog(c)| ==>
      Fits(Catalog(c)[i], RequiresHost(c)) && ((Catalog(c)[i].level == Base || Catalog(c)[i].level == Long) ==> c.isLongitudinal)
  {
    var rh, sd := RequiresHost(c), SubjectsDir(c);
    ProcessesShaped(CrossProcessNames, CrossProcessSteps, Cross, rh);
    ProcessesShaped(BaseProcessNames, BaseProcessSteps, Base, rh);
    ProcessesShaped(LongProcessNames, LongProcessSteps, Long, rh);
    ViewersShaped(CrossViewNames, Cross, sd);
    ViewersShaped(BaseViewNames, Base, sd);
    ViewersShaped(LongViewNames, Long, sd);
    ArrangeShaped(c.isLongitudinal,
      Processes(CrossProcessNames, CrossProcessSteps, Cross, rh),
      Processes(BaseProcessNames, BaseProcessSteps, Base, rh),
      Processes(LongProcessNames, LongProcessSteps, Long, rh),
      ExtractScript(c),
      Viewers(CrossViewNames, Cross, sd),
      Viewers(BaseViewNames, Base, sd),
      Viewers(LongViewNames, Long, sd), rh);
  }

  /** Processing scripts require the host exactly when one was given, viewers never do, and all ask for 3072 MB. */
  lemma CatalogHosts(c: Config)
    ensures forall i :: 0 <= i < |Catalog(c)| ==>
      && (Catalog(c)[i].requiresHost <==> Catalog(c)[i].isProcess && RequiresHost(c))
      && Catalog(c)[i].memory == 3072 && |Catalog(c)[i].steps| >= 1
  {
    CatalogFits(c);
  }

  /** Base and Long scripts exist only in a longitudinal project. */
  lemma CatalogLevels(c: Config)
    ensures forall i :: 0 <= i < |Catalog(c)| ==>
      (Catalog(c)[i].level == Base || Catalog(c)[i].level == Long) ==> c.isLongitudinal
  {
    CatalogFits(c);
  }

  /** Each of a script's five file names starts with the script name, and no two of them coincide. */
  lemma FileNamesDistinct(s: Script)
    ensures s.name <= ExecutableName(s) && s.name <= SubmitName(s)
    ensures s.name <= LogName(s) && s.name <= OutName(s) && s.name <= ErrName(s)
    ensures Distinct([ExecutableName(s), SubmitName(s), LogName(s), OutName(s), ErrName(s)])
  {
    var n := s.name;
    assert (n + ".sh")[|n| + 1] == 's' && (n + ".txt")[|n| + 1] == 't';
    assert (n + "_$(target)_log.txt")[|n| + 11] == 'l';
    assert (n + "_$(target)_out.txt")[|n| + 11] == 'o';
    assert (n + "_$(target)_err.txt")[|n| + 11] == 'e';
  }

  /** Two scripts with the same executable (or submit) file have the same name. */
  lemma {:induction false} FileNamesDetermineScript(a: Script, b: Script)
    ensures ExecutableName(a) == ExecutableName(b) ==> a.name == b.name
    ensures SubmitName(a) == SubmitName(b) ==> a.name == b.name
  {
    if ExecutableName(a) == ExecutableName(b) {
      assert a.name == ExecutableName(a)[..|a.name|];
      assert b.name == ExecutableName(b)[..|b.name|];
    }
    if SubmitName(a) == SubmitName(b) {
      assert a.name == SubmitName(a)[..|a.name|];
      assert b.name == SubmitName(b)[..|b.name|];
    }
  }
}
