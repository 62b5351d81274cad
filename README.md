# FreeSurfer setup and the palantir dashboard, in Dafny

This project models the parts of the FreeSurfer processing setup that decide
what ends up on disk. It has three parts.

- **palantir** (`palantir/palantir.py`) is a file-based status dashboard. A
  structure document lists rows and columns; one cell document exists per
  row/column pair.
  - `structure_updater` adds and removes rows and columns. It unlinks the
    cells of removed entries, writes default cells for new pairs, and rejects
    an update that would leave an axis empty.
  - `cell_updater` merges validated options into a cell.
  - `update_json` loads a document, truncates it, runs an updater and writes
    the result back only when it changed.
  - `create` makes an empty dashboard.
- **setupfreesurfer.py** builds a `Project`:
  - the catalog of `Script`s (cross-sectional, Base, Long and project-level
    processes and viewers), with identifier names from `idify`;
  - `Template.render_script` and `Template.render_submit`, which render each
    script's shell text and HTCondor submit description;
  - `write_scripts` and `write_submits`, which put them on disk;
  - `create_monitor`, which sets up a palantir dashboard with a Project row,
    one column per script and N/A cells for non-project scripts.
- **FSSETUP.py**, the earlier generator:
  - `cleanString` and `cleanPathString` strip the option values;
  - `defineScripts` builds its 13 (or, longitudinal, 35) scripts;
  - `writeScript` wraps each command in status updates for the JobMonitor or
    the Google spreadsheet;
  - `writeSubmit` queues one job for the project, one per input row, or one
    per distinct subject;
  - `run` writes every script and every non-viewer submit description, then
    hands the jobs and events to the job monitor.

Files are modelled as maps from path to contents. Effects the model cannot
see (the clock, whether an unlink or a copy succeeds, the iteration order of
a Python set) are parameters. Loops in the source are Dafny methods proved
against specification functions. The dashboard, whose documents the source
updates in place, is a class with `modifies` clauses.

Modules:
- `Wrappers`: Option and Result.
- `Text`: join, substring search, `str(n)`, `list.remove`.
- `Ident`: `idify`.
- `PalantirText`, `PalantirStructure`, `PalantirCell`, `Palantir`: the
  dashboard.
- `FreeSurferCatalog`, `FreeSurferTemplate`, `FreeSurferProject`,
  `FreeSurferMonitor`: setupfreesurfer.py.
- `FsSetupScripts`, `FsSetupWriter`, `FsSetupRun`: FSSETUP.py.

## Model

| member | source | states |
|---|---|---|
| Ident.Idify | palantir/palantir.py:88-91 | the result holds only `-`, `_`, `.`, ASCII letters and digits, and is no longer than the name |
| Ident.IdifyConcat | setupfreesurfer.py:37-40 | sanitising distributes over concatenation, so the kept characters keep their order |
| Ident.IdifyKeepsExactly | palantir/palantir.py:89-90 | every identifier character is kept as often as it occurs in the name; every other character is dropped |
| Ident.IdifyOfId | setupfreesurfer.py:370 | a script name that is already an identifier is stored unchanged |
| Ident.IdifyIdempotent | palantir/palantir.py:88-91 | sanitising twice is sanitising once |
| Text.FirstIndex | palantir/palantir.py:127 | the position `list.remove` acts on holds `x`, and no earlier element equals `x` |
| Text.RemoveFirst | palantir/palantir.py:127 | `list.remove(x)` drops the element at the first occurrence of `x` and keeps the rest in order, one shorter |
| Text.RemoveFirstOneCopy | palantir/palantir.py:134 | `list.remove(x)` takes away exactly one copy of `x` |
| Text.NatToString | setupfreesurfer.py:190 | `str(n)` of a non-negative integer is a non-empty run of digits, one digit iff `n < 10`, with no leading zero |
| Text.NatToStringRoundTrip | setupfreesurfer.py:190 | the printed memory request reads back as the same number |
| PalantirText.HexRun | palantir/palantir.py:85 | the leading run of hex digits: all of it hex, the character after it not |
| PalantirText.GroupsThenEndIff | palantir/palantir.py:85 | `(?:[0-9a-fA-F]{1,2}){k}$` with backtracking matches iff k to 2k hex digits are followed by the end of the text (or a final newline) |
| PalantirText.IsHexColorIff | palantir/palantir.py:84-86 | a colour is accepted iff it is `#` followed by 3 to 6 hex digits and the end of the text |
| PalantirText.CleanedPathStripsBoth | palantir/palantir.py:96-100 | one leading `=` and one trailing `/` are removed |
| PalantirText.CleanedPathFixed | palantir/palantir.py:96-100 | a path is left alone iff it neither ends in `/` nor starts with `=` |
| PalantirText.Basename | palantir/palantir.py:217 | the file name is the suffix after the last `/` and holds no `/` |
| PalantirText.TrimLeft | palantir/palantir.py:209 | `int()` skips leading white space: the rest is no longer and does not start with a space |
| PalantirText.TrimRight | palantir/palantir.py:209 | `int()` skips trailing white space: the rest is no longer and does not end with a space |
| PalantirText.TrimLeftIsSuffix | palantir/palantir.py:209 | what is left after skipping leading white space is a suffix of the text |
| PalantirText.TrimRightIsPrefix | palantir/palantir.py:209 | what is left after skipping trailing white space is a prefix of the text |
| PalantirText.TrimLeftSkipsSpace | palantir/palantir.py:209 | every character skipped at the front is white space |
| PalantirText.TrimRightSkipsSpace | palantir/palantir.py:209 | every character skipped at the back is white space |
| PalantirText.ParseIntRoundTrip | palantir/palantir.py:207-209 | `int(str(n)) == n` |
| PalantirText.ParseUnsigned | palantir/palantir.py:209 | a run of digits parses to its decimal value |
| PalantirText.ParseNegative | palantir/palantir.py:209 | a minus sign followed by a run of digits parses to the negated value |
| PalantirText.NoTrailingSpace | palantir/palantir.py:209 | text ending in a digit loses nothing at the back |
| PalantirText.TrimLeftKeeps | palantir/palantir.py:209 | skipping leading white space keeps every other character, shifted by what was skipped |
| PalantirText.TrimRightKeeps | palantir/palantir.py:209 | skipping trailing white space keeps every other character in place |
| PalantirText.TrimmedRejectsLetter | palantir/palantir.py:209 | trimmed text holding a letter is refused, with or without a sign |
| PalantirText.ParseIntRejectsLetters | palantir/palantir.py:207 | an image index holding a letter is refused, which is the ValueError `cell_updater` lets escape |
| PalantirStructure.KeysUnionCols | palantir/palantir.py:163-168 | the cell keys of a union of columns are the union of the keys |
| PalantirStructure.KeysUnionRows | palantir/palantir.py:163-168 | the cell keys of a union of rows are the union of the keys |
| PalantirStructure.KeysSingle | palantir/palantir.py:165 | one row and one column give the single key `row-col` |
| PalantirStructure.ColumnKeys | palantir/palantir.py:138 | the keys unlinked for a removed column are those of every original row with that column |
| PalantirStructure.RowKeys | palantir/palantir.py:144 | the keys unlinked for a removed row are those of that row with every original column |
| PalantirStructure.AddEntriesMembers | palantir/palantir.py:110-121 | an entry is appended iff it is `{id: idify(n), text: n}` for a listed name whose id the original axis lacks |
| PalantirStructure.AddEntriesConcat | palantir/palantir.py:111-115 | adding two lists in turn appends what each would append, in order, since membership is checked against the original |
| PalantirStructure.AddEntriesKeepsRepeats | palantir/palantir.py:113 | a new name listed twice is appended twice |
| PalantirStructure.NothingAdded | palantir/palantir.py:113 | names whose ids are all present append nothing |
| PalantirStructure.ScanRemove | palantir/palantir.py:125-128 | the iterate-while-removing scan never grows the list |
| PalantirStructure.ScanRemoveKeepsOthers | palantir/palantir.py:125-128 | the scan touches only entries carrying the id: every other entry stays, in order |
| PalantirStructure.ScanRemoveIds | palantir/palantir.py:125-128 | the scan introduces no id |
| PalantirStructure.ScanRemoveNoMatch | palantir/palantir.py:125-128 | with no match ahead the scan changes nothing |
| PalantirStructure.ScanRemoveShrinks | palantir/palantir.py:124-128 | a name whose id is present removes at least one entry |
| PalantirStructure.ScanRemoveSingle | palantir/palantir.py:124-128 | when at most one entry carries the id, the scan removes exactly the entries with that id |
| PalantirStructure.Drop | palantir/palantir.py:155-158 | dropping ids never grows the list |
| PalantirStructure.DropMembers | palantir/palantir.py:155 | an id survives the drop iff it was present and not dropped |
| PalantirStructure.DropTwice | palantir/palantir.py:122-135 | dropping two id sets in turn is dropping their union |
| PalantirStructure.DropUnique | palantir/palantir.py:122-135 | removing entries keeps the ids unique |
| PalantirStructure.RemoveNamesNoMatch | palantir/palantir.py:122-135 | names whose id is absent are silent no-ops and record no removal |
| PalantirStructure.RemoveNamesKeepsOthers | palantir/palantir.py:122-135 | a remove list never touches an entry whose id it does not name |
| PalantirStructure.RemoveNamesUnique | palantir/palantir.py:122-135 | with unique ids, a remove list drops exactly the entries it names |
| PalantirStructure.RemovedIdsExactly | palantir/palantir.py:122-135 | an id is recorded as removed iff a listed name sanitises to it and it was present |
| PalantirStructure.FirstUpdateNeedsBothAxes | palantir/palantir.py:136 | a fresh dashboard's update that adds only rows is rejected |
| PalantirStructure.ReAddingChangesNothing | palantir/palantir.py:104-187 | re-adding present rows and columns leaves the structure as it was and creates and deletes no cell |
| PalantirStructure.AddThenRemoveSameColumn | palantir/palantir.py:149-168 | adding and removing the same new column in one update leaves the structure unchanged, yet its id counts as added for the cells written |
| PalantirCell.CellUpdater | palantir/palantir.py:189-224 | the method's result is the merge of the options into the cell |
| PalantirCell.UpdateFields | palantir/palantir.py:190-206 | the text, colours, boolean, animation and note steps give the merged fields |
| PalantirCell.UpdateImages | palantir/palantir.py:207-223 | the remove-image and add-image steps give the merged image list |
| PalantirCell.MergeCellFailsIff | palantir/palantir.py:193-207 | the update fails exactly on a colour that is not a str or an image index that is not a number |
| PalantirCell.MergeCellChangesOnlyOnValidInput | palantir/palantir.py:191-223 | a field changes only when its option is valid, and the id never changes |
| PalantirCell.MergeCellTakesValidInput | palantir/palantir.py:191-206 | each valid option ends up in its field; a note is prepended with the time stamp |
| PalantirCell.RemoveImageAtDropsOne | palantir/palantir.py:207-214 | an in-range index whose file was unlinked removes one copy of that image; otherwise the list is unchanged |
| PalantirCell.PositionIff | palantir/palantir.py:210 | a Python index selects a position iff it lies in `[-n, n)`, negatives counting from the end |
| PalantirCell.MergeCellIdempotent | palantir/palantir.py:191-204 | setting the same fields twice changes nothing the second time |
| PalantirCell.SetBoolNoneChangesDefault | palantir/palantir.py:201-202 | `--setbool none` on a fresh cell stores null in place of the string "none", which is a change |
| Palantir.CommitWritesOnlyChanges | palantir/palantir.py:51-62 | the file is rewritten iff the callback returned a changed document; otherwise it is left truncated and the call fails |
| PalantirStructure.CellIdInjective | palantir/palantir.py:138-168 | the key `"{row}-{col}"` names its row and column only when the row id holds no `-` |
| PalantirStructure.RemoveNamesOnce | palantir/palantir.py:122-135 | an id carried at most once stays so under a remove list, and is gone once a listed name sanitises to it |
| PalantirStructure.SurvivorKept | palantir/palantir.py:104-135 | an id present after the update was added by it, or is an original id it did not remove |
| Palantir.UpdateKeepsCellPerPair | palantir/palantir.py:138-168 | with unique ids and dash-free row ids, every pair of the updated structure has a cell when every pair before had one |
| Palantir.RemovingColumnUnlinksOtherPair | palantir/palantir.py:138-168 | with rows `a`, `a-b` and columns `c`, `b-c`, removing `b-c` unlinks the cell of the surviving pair (`a-b`, `c`) |
| Palantir.AppendNew | palantir/palantir.py:110-121 | the add loop appends what `AddEntries` gives |
| Palantir.RemoveLoop | palantir/palantir.py:122-135 | the remove loop leaves the axis `RemoveNames` gives and records the ids `RemovedIds` gives |
| Palantir.CollectKeys | palantir/palantir.py:162-168 | the nested loops gather every row-column key |
| Palantir.Dashboard.constructor | palantir/palantir.py:226-244 | a new dashboard holds the named empty structure and no cells |
| Palantir.Dashboard.DeleteCells | palantir/palantir.py:139-142 | the listed cells are gone; a missing file is ignored |
| Palantir.Dashboard.UnlinkColumns | palantir/palantir.py:137-142 | the cells of every original row in a removed column are gone |
| Palantir.Dashboard.UnlinkRows | palantir/palantir.py:143-148 | the cells of every original column in a removed row are gone |
| Palantir.Dashboard.WriteDefaults | palantir/palantir.py:169-183 | a default cell is written at every created key |
| Palantir.Dashboard.StructureUpdater | palantir/palantir.py:104-187 | an accepted update returns the new structure and applies the cell effects; a rejected one fails and touches no cell |
| Palantir.Dashboard.Update | palantir/palantir.py:246-259 | an unreadable structure fails; a rejected update leaves the structure truncated; an accepted one commits the new structure |
| Palantir.Dashboard.UpdateCell | palantir/palantir.py:261-282 | a missing or unreadable cell fails; otherwise the merged cell is committed |
| FreeSurferCatalog.CatalogNamesInOrder | setupfreesurfer.py:273-337 | the catalog lists its scripts under exactly these names, in this order |
| FreeSurferCatalog.CatalogSize | setupfreesurfer.py:273-337 | the catalog has 13 scripts, or 37 when longitudinal |
| FreeSurferCatalog.CatalogNamesDistinct | setupfreesurfer.py:273-337 | no two scripts share a name |
| FreeSurferCatalog.IdNamesKept | setupfreesurfer.py:370 | identifier names pass through `idify` unchanged |
| FreeSurferCatalog.ArrangeShaped | setupfreesurfer.py:273-337 | groups of the right level and kind arrange into scripts that each ask for the host exactly when they process and a host was given, with Base and Long ones only when longitudinal |
| FreeSurferCatalog.CatalogFits | setupfreesurfer.py:250-337 | every catalog script asks for the host as above, for 3072 MB, runs a step, and is Base or Long only when longitudinal |
| FreeSurferCatalog.CatalogHosts | setupfreesurfer.py:250-254 | processes require the host exactly when one was given, viewers never do, all ask for 3072 MB, and each runs at least one step |
| FreeSurferCatalog.CatalogLevels | setupfreesurfer.py:283-299 | Base and Long scripts exist only in a longitudinal project |
| FreeSurferCatalog.FileNamesDistinct | setupfreesurfer.py:377-381 | a script's five file names start with its name and are pairwise different |
| FreeSurferCatalog.FileNamesDetermineScript | setupfreesurfer.py:377-378 | two scripts with the same executable or submit name have the same name |
| FreeSurferTemplate.RenderSteps | setupfreesurfer.py:150-164 | the step loop emits one block per step, in order |
| FreeSurferTemplate.RenderScript | setupfreesurfer.py:88-183 | the rendered text is `ScriptText`: opening, step blocks and trailer joined by newlines |
| FreeSurferTemplate.StepBlockSize | setupfreesurfer.py:151-164 | a step takes nine lines in a Base script and seven otherwise |
| FreeSurferTemplate.StepBlocksLength | setupfreesurfer.py:150-164 | the step blocks take that many lines per step |
| FreeSurferTemplate.StepBlocksAt | setupfreesurfer.py:150-164 | line j of the k-th block is line j of step k's block |
| FreeSurferTemplate.ScriptLength | setupfreesurfer.py:88-183 | the script is its opening, the step blocks, and a nine-line trailer |
| FreeSurferTemplate.StepBlockHead | setupfreesurfer.py:150-164 | the k-th block opens with the `if` running step k and exits with status 1 on failure |
| FreeSurferTemplate.StepsInOrder | setupfreesurfer.py:150-164 | each step runs in the `if` at the head of its block, and a failure exits with status 1 |
| FreeSurferTemplate.ErrorFanOut | setupfreesurfer.py:156-163 | a Base script reports a failure once per timepoint; other levels report once, on the target |
| FreeSurferTemplate.RunningThenHostCheck | setupfreesurfer.py:137-149 | the Running update is always there; the host check follows it exactly when the host is required |
| FreeSurferTemplate.ScriptEnding | setupfreesurfer.py:165-181 | the script closes with Finished (processes) or Inactive (viewers), the timing echo and `exit 0` |
| FreeSurferTemplate.ScriptOpening | setupfreesurfer.py:89-125 | the opening names the script and binds its arguments as its level requires |
| FreeSurferTemplate.SubmitShape | setupfreesurfer.py:185-214 | eight header lines, the binding, then `Queue`; the memory request reads back as the script's memory |
| FreeSurferTemplate.ProjectSubmitRunTogether | setupfreesurfer.py:207-211 | the project-level target and arguments run together on one line, with no arguments line of their own |
| FreeSurferTemplate.ArgumentsAgree | setupfreesurfer.py:102-125 | the script reads a timepoint exactly when the submit passes one |
| FreeSurferProject.WriteSubmits | setupfreesurfer.py:350-352 | the loop leaves the disk `SubmitsWritten` gives: every submit file written in catalog order |
| FreeSurferProject.WriteScripts | setupfreesurfer.py:346-348 | the loop leaves the disk `ScriptsWritten` gives: every executable written in catalog order |
| FreeSurferProject.StoredStep | setupfreesurfer.py:346-352 | each turn writes one more file on top of what the earlier turns left |
| FreeSurferProject.StoredAt | setupfreesurfer.py:346-352 | with no path written twice, each path holds the text written to it |
| FreeSurferProject.StoredElsewhere | setupfreesurfer.py:346-352 | a path never written keeps what the disk had |
| FreeSurferProject.CatalogHostsKnown | setupfreesurfer.py:250-254 | every catalog script can be rendered |
| FreeSurferProject.PathsApart | setupfreesurfer.py:383-384 | scripts with different names have different paths |
| FreeSurferProject.PathListsDistinct | setupfreesurfer.py:383-384 | the catalog writes no submit path and no executable path twice |
| FreeSurferProject.SubmitsWrittenAt | setupfreesurfer.py:408-409 | after `write_submits`, every script's submit file holds its rendered text |
| FreeSurferProject.SubmitsWrittenElsewhere | setupfreesurfer.py:350-352 | a path that is no script's submit path keeps what the disk had |
| FreeSurferProject.ScriptsWrittenAt | setupfreesurfer.py:403-405 | after `write_scripts`, every script's executable holds its rendered text |
| FreeSurferProject.CatalogSubmits | setupfreesurfer.py:350-352 | every catalog script, viewers included, gets its own submit file |
| FreeSurferMonitor.CreateMonitor | setupfreesurfer.py:354-361 | the monitor holds the Project row, a column per catalog script and the cells `MonitorCells` gives |
| FreeSurferMonitor.BuildMonitor | setupfreesurfer.py:357-361 | create, add the row and columns, then mark the cells, for any well-named script list |
| FreeSurferMonitor.MarkNotApplicable | setupfreesurfer.py:359-361 | the cell loop turns the default cells of non-project scripts into N/A cells |
| FreeSurferMonitor.CatalogWellNamed | setupfreesurfer.py:273-337 | the catalog's names are identifiers and distinct |
| FreeSurferMonitor.AddToEmpty | setupfreesurfer.py:358 | adding names to an empty axis appends one entry per name, in order |
| FreeSurferMonitor.ColumnIds | setupfreesurfer.py:358 | the ids of those columns are the names |
| FreeSurferMonitor.ProjectRowAdded | setupfreesurfer.py:358 | the row update appends the single row "Project" |
| FreeSurferMonitor.PlanOnEmpty | setupfreesurfer.py:358 | an update of an empty structure that removes nothing appends the added entries |
| FreeSurferMonitor.MonitorPlan | setupfreesurfer.py:358 | the monitor's update is accepted and gives the monitor structure |
| FreeSurferMonitor.MonitorPlanCells | setupfreesurfer.py:358 | that update unlinks nothing and writes a default cell for every script in the Project row |
| FreeSurferMonitor.EffectsOnEmpty | palantir/palantir.py:136-183 | on an empty structure an update that removes nothing writes a default cell for each added pair, and only those |
| PalantirText.SixHexDigits | palantir/palantir.py:85 | six hex digits after `#` make a colour |
| FreeSurferMonitor.NotApplicableColors | setupfreesurfer.py:361 | the N/A colours pass the colour check |
| FreeSurferMonitor.MergeNotApplicable | setupfreesurfer.py:361 | the N/A call turns a default cell into the N/A cell, which is a change, so it is written |
| FreeSurferMonitor.ProjectKeyInjective | setupfreesurfer.py:361 | two scripts with the same Project cell have the same name |
| FreeSurferMonitor.MarkCellsOverlay | setupfreesurfer.py:359-361 | the loop overlays the N/A cell on each marked key and leaves every other key as it was |
| FreeSurferMonitor.UnmarkedBeforeOwnTurn | setupfreesurfer.py:359-361 | with distinct names, a script's cell is not yet marked when the loop reaches it |
| FreeSurferMonitor.KeyApart | setupfreesurfer.py:359-361 | different scripts of a well-named list have different Project cells |
| FreeSurferMonitor.MonitorCellsAt | setupfreesurfer.py:357-361 | the monitor has a cell per script: default for project-level scripts, N/A for the rest |
| FreeSurferMonitor.MonitorColumns | setupfreesurfer.py:358 | the monitor has exactly the row "Project" and a column per script, in catalog order |
| FsSetupScripts.CleanString | FSSETUP.py:80-83 | at most one leading `=` is dropped, exactly when there is one |
| FsSetupScripts.DropSlash | FSSETUP.py:73-74 | at most one trailing `/` is dropped, exactly when there is one |
| FsSetupScripts.CleanStringDropsOne | FSSETUP.py:80-83 | only one `=` is dropped: a doubled `=` keeps its second one |
| FsSetupScripts.CleanPathStripInverse | FSSETUP.py:72-76 | the path clean-up undoes one `=` prefix and one `/` suffix, and leaves a clean path alone |
| FsSetupScripts.StripsCommute | FSSETUP.py:72-76 | stripping in the other order gives the same path |
| FsSetupScripts.DefineScriptsNames | FSSETUP.py:312-315 | `ScriptList` holds exactly these names, in this order |
| FsSetupScripts.DefineScriptsSize | FSSETUP.py:312-315 | `ScriptList` has 35 scripts when longitudinal and 13 otherwise |
| FsSetupScripts.DefineScriptsDistinct | FSSETUP.py:173-315 | no two scripts share a name |
| FsSetupScripts.DefineScriptsArguments | FSSETUP.py:173-315 | every script runs a command; the extraction reads all arguments as subjects, Base scripts read the subject first, every other script reads the row's own arguments |
| FsSetupWriter.WriteScript | FSSETUP.py:322-354 | the text is `ScriptText`, or the KeyError for a missing monitor directory |
| FsSetupWriter.NoMonitorFails | FSSETUP.py:328-348 | with the monitor type "None", a script that runs a command fails on `MonitorDir` |
| FsSetupWriter.WrapSize | FSSETUP.py:338-348 | a wrapped command takes nine lines for Google and seven for the JobMonitor |
| FsSetupWriter.BlocksSize | FSSETUP.py:327-350 | the wrapped commands take that many lines per command |
| FsSetupWriter.BlocksAt | FSSETUP.py:327-350 | line j of the k-th block is line j of the k-th wrapped command |
| FsSetupWriter.ScriptLayout | FSSETUP.py:322-354 | header, input lines, two timing lines, the blocks, and three closing lines naming the script |
| FsSetupWriter.StepWrapped | FSSETUP.py:338-350 | command k runs in an `if` after its Running update, and its Error update is followed by `exit` and `fi` |
| FsSetupWriter.WrapShape | FSSETUP.py:338-348 | a wrapped command is the Running update, the `if`, and at the end the Error update, `exit` and `fi` |
| FsSetupWriter.UpdateSplits | FSSETUP.py:330-348 | the Running, Finished and Error updates of a script differ only in the status word |
| FsSetupWriter.GatherTimepoints | FSSETUP.py:413-417 | the loop gathers the subject's timepoints in row order |
| FsSetupWriter.BuildQueue | FSSETUP.py:373-419 | the queue loops give `Queue`, failing on `Timepoint` when a subject queue is built without a longitudinal layout |
| FsSetupWriter.WriteSubmit | FSSETUP.py:361-421 | the submit text is the header, then the queue, joined by newlines |
| FsSetupWriter.ExistingKeeps | FSSETUP.py:391-393 | exactly the present file values are passed on |
| FsSetupWriter.TimepointsOfKeeps | FSSETUP.py:413-417 | a subject's timepoints are exactly those of its rows |
| FsSetupWriter.QueueSizes | FSSETUP.py:373-408 | one project job listing every run; or one job per input row, in row order, with that row's target and arguments |
| FsSetupWriter.SubjectQueueOrderFree | FSSETUP.py:410-419 | one job per distinct subject, whatever order the set yields them in |
| FsSetupWriter.SubjectBlockArguments | FSSETUP.py:418-419 | a subject job's arguments are the subject followed by its timepoints |
| FsSetupRun.BuildJobs | FSSETUP.py:448-454 | the jobs are the Project row, then one row per input row |
| FsSetupRun.BuildEvents | FSSETUP.py:456-460 | the events are the scripts' names, each once, where it first occurs |
| FsSetupRun.FailureSticks | FSSETUP.py:442-445 | once a write fails, nothing after it is written |
| FsSetupRun.ApplyAllNext | FSSETUP.py:442-445 | each turn of a loop still going acts on the files the earlier turns left |
| FsSetupRun.WriteFiles | FSSETUP.py:442-445 | the loop leaves the files and the failure `WriteAll` gives |
| FsSetupRun.Run | FSSETUP.py:428-462 | `run` leaves the files `WriteAll` gives for `ScriptList`, fails with its first error, and otherwise passes the job monitor its setup (none for other monitor types) |
| FsSetupRun.DedupKeeps | FSSETUP.py:456-460 | the events repeat nothing and leave out no name |
| FsSetupRun.DedupAppend | FSSETUP.py:459-460 | an event is appended exactly when it did not occur before |
| FsSetupRun.DedupOfDistinct | FSSETUP.py:456-460 | a list without repeats is kept as it is |
| FsSetupRun.CatalogEvents | FSSETUP.py:456-460 | the events are the scripts of `ScriptList`, in list order: 35 or 13 |
| FsSetupRun.JobsMatchQueue | FSSETUP.py:448-454 | the project, Orig and per-row jobs are rows of the monitor: the project job targets Project, the k-th per-row job the k-th input row |
| FsSetupRun.PathsApart | FSSETUP.py:355 | a script path is never a submit path, and different names have different paths |
| FsSetupRun.TurnsSeparate | FSSETUP.py:355 | scripts with distinct names write distinct files |
| FsSetupRun.ApplyAllSucceeds | FSSETUP.py:442-445 | when every script, and every non-viewer's submit description, can be built, the loop goes through |
| FsSetupRun.PlacedByApply | FSSETUP.py:443-445 | a turn that goes through writes its script and, unless a viewer, its submit file |
| FsSetupRun.PlacedKept | FSSETUP.py:442-445 | a turn writing other files leaves a written script in place |
| FsSetupRun.ApplyAllUntouched | FSSETUP.py:442-445 | a path no turn writes keeps what the disk had |
| FsSetupRun.ApplyAllAt | FSSETUP.py:442-445 | after a loop that went through, each script holds its text, each non-viewer its submit file, and a viewer's submit path is as the disk had it |
| FsSetupRun.SubmitWritable | FSSETUP.py:402-419 | a non-viewer whose queue kind can be built gets its submit description |
| FsSetupRun.WriteAllThrough | FSSETUP.py:440-445 | with a monitor, a list of distinctly named, buildable scripts is written through, every script in place |
| FsSetupRun.WriteAllStops | FSSETUP.py:440-445 | a first script that cannot be built stops the loop before any file is written |
| FsSetupRun.CatalogSubmitsBuildable | FSSETUP.py:402-419 | without a longitudinal layout only viewers would get a subject queue, so no submit file of `ScriptList` fails |
| FsSetupRun.RunWithMonitor | FSSETUP.py:440-445 | with a monitor, every script and every non-viewer's submit file is written with its contents |
| FsSetupRun.RunWithoutMonitor | FSSETUP.py:328-348 | with the monitor type "None", `run` stops at the first script and writes nothing |

## Left out

- File I/O is modelled as maps from path to contents. `os.path.realpath`,
  `expanduser`, `chmod`, `mkdir`/`makedirs`, `shutil.copytree` and the JSON
  encoding (`sort_keys`, `indent`, `byteify`) are left out.
- Whether `os.unlink` and `shutil.copyfile` succeed, and the clock
  (`datetime.now`, `date +%s`), are parameters.
- Concurrent writers to one dashboard are not modelled, and neither is the
  window in which `update_json` has truncated a file.
- The iteration order of Python sets (`uniquesubjects`, `list(added_cells)`)
  is a parameter or a set.
- The Google spreadsheet CSV of `run` (FSSETUP.py:463-477) is not modelled:
  it is written with pandas.
- `cleanargs` and `parseCSV` (FSSETUP.py:39-150) are not modelled. They read
  the input table with pandas. The model takes their result as a `Setup`,
  whose rows hold a subject, a timepoint and optional file values; NaN
  semantics are not modelled.
- `query`, `read_json` and the command-line parsing (docopt) are not modelled.
- `create_directories` and `create_monitor`'s `shutil.rmtree` of an old
  monitor are not modelled; the monitor is built fresh.
- FsSetupWriter.Update: when `ThisDir`, `MonitorDir` or `SpreadsheetKey`
  holds `{` or `}`, the second `str.format` of FSSETUP.py:338 and 348 would
  rewrite or reject them. The model inserts these values verbatim.
- The branch of `writeScript` for `MonitorType` None (FSSETUP.py:351-352) is
  not modelled. `cleanargs` always sets a string there, so the branch is
  unreachable. The string "None" falls into the JobMonitor branch, and that
  branch is modelled.
- PalantirCell.UpdateImages: a Python 2 `int` is assumed to be 64 bits
  wide. Beyond that width, `int()` gives a `long`, and the image removal is
  skipped. The platform's actual word size is not modelled.
- FreeSurferTemplate.RenderScript: requires a host when the script requires
  one. Python would raise TypeError there, but the catalog never builds such
  a script (FreeSurferProject.CatalogHostsKnown).
- FreeSurferMonitor.CreateMonitor: stated for the catalog's scripts, whose
  names are distinct identifiers. BuildMonitor states it for any such list.

## Behaviour taken from the code

These are points where the program's own descriptions say less than, or
something other than, what the code does. The model follows the code.

- `is_hex_color` accepts `#` followed by 3 to 6 hex digits (for example
  `#abcd`), not only 3 or 6. A final newline is also accepted, because `$`
  matches before it.
- The boolean spellings are case-sensitive: only `True`/`true`,
  `False`/`false` and `None`/`none` change the cell.
- An update that would leave either axis empty is rejected. So is the first
  update of a fresh dashboard that adds rows but no column.
- In setupfreesurfer.py, viewers get a Running update and a submit file like
  every other script. FSSETUP.py writes no submit file for them.
- The Base scripts' `inputlist` quote in FSSETUP.py is never closed. Their
  status updates loop over `$inputlist` although the Base viewers never
  set it.
- A cell key is `"{row}-{col}"`, and `idify` keeps `-`. So keys are
  ambiguous: rows `a`, `a-b` and columns `c`, `b-c` give the key `a-b-c` to
  two pairs. Removing the column `b-c` then unlinks the cell of the pair
  (`a-b`, `c`), which survives. A cell per row and column pair is kept only
  while no row id holds `-` (Palantir.RemovingColumnUnlinksOtherPair,
  Palantir.UpdateKeepsCellPerPair).
- Base scripts queue jobs whose target is the bare subject (FSSETUP.py:418-419).
  The job monitor has rows only for the project and for
  `subject_timepoint` (FSSETUP.py:448-454). Base jobs report their status
  through `$inputlist` instead.
- `update_json` truncates before it calls the updater. A rejected update
  therefore leaves the document empty: the write is not atomic.
