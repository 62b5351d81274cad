/**
  `Project.write_scripts` and `Project.write_submits` (setupfreesurfer.py:346-352,
  403-412): every script of the catalog, viewers included, is written to
  `scripts/{name}.sh` and gets a submit description `submit/{name}.txt`. The
  files are modelled as a map from path to contents.
 */
module FreeSurferProject {
  import opened Text
  import opened FreeSurferCatalog
  import opened FreeSurferTemplate
  import opened FreeSurferMonitor

  function ExecutablePath(c: Config, s: Script): string { ScriptDir(c) + ExecutableName(s) }
  function SubmitPath(c: Config, s: Script): string { SubmitDir(c) + SubmitName(s) }

  /** Every script that requires the host has one to compare against, as in the catalog. */
  predicate HostsKnown(c: Config, scripts: seq<Script>) {
    forall i :: 0 <= i < |scripts| ==> scripts[i].requiresHost ==> c.host.Some?
  }

  /** The files after writing `texts[i]` to `paths[i]`, one after the other. */
  function Stored(disk: map<string, string>, paths: seq<string>, texts: seq<string>): map<string, string>
    requires |paths| == |texts|
  {
    if paths == [] then disk
    else Stored(disk, paths[..|paths| - 1], texts[..|texts| - 1])[paths[|paths| - 1] := texts[|texts| - 1]]
  }

  function SubmitPaths(c: Config, scripts: seq<Script>): seq<string> {
    seq(|scripts|, i requires 0 <= i < |scripts| => SubmitPath(c, scripts[i]))
  }

  function ExecutablePaths(c: Config, scripts: seq<Script>): seq<string> {
    seq(|scripts|, i requires 0 <= i < |scripts| => ExecutablePath(c, scripts[i]))
  }

  function Submits(c: Config, scripts: seq<Script>): seq<string> {
    seq(|scripts|, i requires 0 <= i < |scripts| => RenderSubmit(c, scripts[i]))
  }

  function Texts(c: Config, scripts: seq<Script>): seq<string>
    requires HostsKnown(c, scripts)
  {
    seq(|scripts|, i requires 0 <= i < |scripts| => ScriptText(c, scripts[i]))
  }

  /** The files after writing the submit descriptions of `scripts`, one after the other. */
  function SubmitsWritten(c: Config, disk: map<string, string>, scripts: seq<Script>): map<string, string> {
    Stored(disk, SubmitPaths(c, scripts), Submits(c, scripts))
  }

  /** The files after writing the executables of `scripts`, one after the other. */
  function ScriptsWritten(c: Config, disk: map<string, string>, scripts: seq<Script>): map<string, string>
    requires HostsKnown(c, scripts)
  {
    Stored(disk, ExecutablePaths(c, scripts), Texts(c, scripts))
  }

  /** `write_submits`: one submit file per script. */
  method WriteSubmits(c: Config, scripts: seq<Script>, disk: map<string, string>) returns (after: map<string, string>)
    ensures after == SubmitsWritten(c, disk, scripts)
  {
    ghost var paths, texts := SubmitPaths(c, scripts), Submits(c, scripts);
    after := disk;
    for k := 0 to |scripts|
      invariant after == Stored(disk, paths[..k], texts[..k])
    {
      StoredStep(disk, paths, texts, k);
      after := after[SubmitPath(c, scripts[k]) := RenderSubmit(c, scripts[k])];
    }
    assert paths[..|scripts|] == paths && texts[..|scripts|] == texts;
  }

  /** `write_scripts`: one executable per script (the permission bits are not modelled). */
  method WriteScripts(c: Config, scripts: seq<Script>, disk: map<string, string>) returns (after: map<string, string>)
    requires HostsKnown(c, scripts)
    ensures after == ScriptsWritten(c, disk, scripts)
  {
    ghost var paths, texts := ExecutablePaths(c, scripts), Texts(c, scripts);
    after := disk;
    for k := 0 to |scripts|
      invariant after == Stored(disk, paths[..k], texts[..k])
    {
      StoredStep(disk, paths, texts, k);
      after := after[ExecutablePath(c, scripts[k]) := ScriptText(c, scripts[k])];
    }
    assert paths[..|scripts|] == paths && texts[..|scripts|] == texts;
  }

  /** One more file written: the write of `paths[k]` lands on what the first `k` writes left. */
  lemma StoredStep(disk: map<string, string>, paths: seq<string>, texts: seq<string>, k: nat)
    requires |paths| == |texts| && k < |paths|
    ensures Stored(disk, paths[..k + 1], texts[..k + 1]) == Stored(disk, paths[..k], texts[..k])[paths[k] := texts[k]]
  {
    assert paths[..k + 1][..k] == paths[..k] && texts[..k + 1][..k] == texts[..k];
  }

  /** With no path written twice, each path holds the text written to it. */
  lemma {:induction false} StoredAt(disk: map<string, string>, paths: seq<string>, texts: seq<string>, k: nat)
    requires |paths| == |texts| && Distinct(paths) && k < |paths|
    ensures paths[k] in Stored(disk, paths, texts) && Stored(disk, paths, texts)[paths[k]] == texts[k]
    decreases |paths|
  {
    var n := |paths| - 1;
    if k < n {
      var front := paths[..n];
      assert Distinct(front);
      assert front[k] == paths[k] && texts[..n][k] == texts[k];
      StoredAt(disk, front, texts[..n], k);
    }
  }

  /** A path never written keeps what the disk had. */
  lemma {:induction false} StoredElsewhere(disk: map<string, string>, paths: seq<string>, texts: seq<string>, p: string)
    requires |paths| == |texts| && p !in paths
    ensures p in Stored(disk, paths, texts) <==> p in disk
    ensures p in disk ==> Stored(disk, paths, texts)[p] == disk[p]
    decreases |paths|
  {
    if paths != [] {
      var n := |paths| - 1;
      StoredElsewhere(disk, paths[..n], texts[..n], p);
    }
  }

  /** The catalog's scripts can all be rendered. */
  lemma CatalogHostsKnown(c: Config)
    ensures HostsKnown(c, Catalog(c))
  {
    CatalogHosts(c);
  }

  /** Scripts with different names have different submit and executable paths. */
  lemma PathsApart(c: Config, scripts: seq<Script>, i: nat, k: nat)
    requires WellNamed(scripts) && i < |scripts| && k < |scripts| && i != k
    ensures SubmitPath(c, scripts[i]) != SubmitPath(c, scripts[k])
    ensures ExecutablePath(c, scripts[i]) != ExecutablePath(c, scripts[k])
  {
    assert Names(scripts)[i] == scripts[i].name && Names(scripts)[k] == scripts[k].name;
    FileNamesDetermineScript(scripts[i], scripts[k]);
    PrefixCancels(SubmitDir(c), SubmitName(scripts[i]), SubmitName(scripts[k]));
    PrefixCancels(ScriptDir(c), ExecutableName(scripts[i]), ExecutableName(scripts[k]));
  }

  lemma PathListsDistinct(c: Config, scripts: seq<Script>)
    requires WellNamed(scripts)
    ensures Distinct(SubmitPaths(c, scripts)) && Distinct(ExecutablePaths(c, scripts))
  {
    forall i, k | 0 <= i < k < |scripts|
      ensures SubmitPaths(c, scripts)[i] != SubmitPaths(c, scripts)[k]
      ensures ExecutablePaths(c, scripts)[i] != ExecutablePaths(c, scripts)[k]
    {
      PathsApart(c, scripts, i, k);
    }
  }

  /**
    After `write_submits`, every script, viewers included, has its own submit
    file holding its rendered description.
   */
  lemma SubmitsWrittenAt(c: Config, disk: map<string, string>, scripts: seq<Script>, k: nat)
    requires WellNamed(scripts) && k < |scripts|
    ensures SubmitPath(c, scripts[k]) in SubmitsWritten(c, disk, scripts)
    ensures SubmitsWritten(c, disk, scripts)[SubmitPath(c, scripts[k])] == RenderSubmit(c, scripts[k])
  {
    PathListsDistinct(c, scripts);
    StoredAt(disk, SubmitPaths(c, scripts), Submits(c, scripts), k);
  }

  /** Any file other than the submit descriptions is as before. */
  lemma SubmitsWrittenElsewhere(c: Config, disk: map<string, string>, scripts: seq<Script>, p: string)
    requires forall i :: 0 <= i < |scripts| ==> SubmitPath(c, scripts[i]) != p
    ensures p in SubmitsWritten(c, disk, scripts) <==> p in disk
    ensures p in disk ==> SubmitsWritten(c, disk, scripts)[p] == disk[p]
  {
    StoredElsewhere(disk, SubmitPaths(c, scripts), Submits(c, scripts), p);
  }

  /** After `write_scripts`, every script has its own executable holding its rendered text. */
  lemma ScriptsWrittenAt(c: Config, disk: map<string, string>, scripts: seq<Script>, k: nat)
    requires WellNamed(scripts) && HostsKnown(c, scripts) && k < |scripts|
    ensures ExecutablePath(c, scripts[k]) in ScriptsWritten(c, disk, scripts)
    ensures ScriptsWritten(c, disk, scripts)[ExecutablePath(c, scripts[k])] == ScriptText(c, scripts[k])
  {
    PathListsDistinct(c, scripts);
    StoredAt(disk, ExecutablePaths(c, scripts), Texts(c, scripts), k);
  }

  /** The catalog gets one submit file per script: 13, or 37 when longitudinal, viewers included. */
  lemma CatalogSubmits(c: Config, disk: map<string, string>, k: nat)
    requires k < |Catalog(c)|
    ensures SubmitPath(c, Catalog(c)[k]) in SubmitsWritten(c, disk, Catalog(c))
    ensures SubmitsWritten(c, disk, Catalog(c))[SubmitPath(c, Catalog(c)[k])] == RenderSubmit(c, Catalog(c)[k])
  {
    CatalogWellNamed(c);
    SubmitsWrittenAt(c, disk, Catalog(c), k);
  }
}
