# Bazel CI agent: artifact upload and pipeline builders, in Dafny

This project models the core of the Bazel CI agent (`agent/src`):

- **Artifact upload** (`artifact/upload.rs`). The agent follows the build event
  protocol (BEP) JSON file that a running Bazel build writes, line by line. It
  collects one test-log entry per test-summary record and hands each failed,
  timed-out or flaky entry on once. Handing on means copying each `file://`
  log into a staging directory as `<package>/<target>/test.log` or
  `attempt_<n>.log`, then uploading them with `buildkite-agent artifact upload`.
  The agent gives up after five failed reads in a row. At the end it uploads
  the BEP file itself when flaky tests are monitored and one was seen.
- **`split_path_inclusive`** (`utils.rs`). It splits a path after the first
  component equal to a target.
- **The Buildkite pipeline builders** (`buildkite.rs`). These are `Pipeline`,
  `Command` and `DockerPlugin`, whose setters update the object in place.
- **The CI configuration** (`pipeline/mod.rs`). This is `Pipeline::task`, the
  `Task` builders, and `on_load`, which names a task's platform after the task
  when the task gives none.

Modules, one per file:

- `Wrappers`: `Option`, `Outcome` and `Result`.
- `BuildEvent`: JSON values, `from_json_str`, and the dotted-path `get`. `get`
  is an imperative fold proved against the reference `Walk`.
- `Artifact`: the entries, modes, errors and side effects shared by the rest.
- `BepParser`: the resumable parser. `BepJsonParser` is a class whose `Parse`
  is proved against the function `ParseSpec`.
- `ParseProperties`: what a parse guarantees (resumption, progress, stopping),
  proved of the specification functions.
- `PartialLines`: a BEP file whose last line is still being written, the
  stuck state this leads to, and a parse that takes only whole lines.
- `Staging`: path arithmetic, `test_label_to_path`, `upload_test_logs` and
  `upload_artifacts`. The methods are proved against `StageSpec` and
  `UploadArtifactsSpec`.
- `Uploader`: the polling loop of `upload`. It is proved against `Poll` and
  `UploadSpec`, with the lemmas about handing on and retries.
- `Utils`: `split_path_inclusive`.
- `Buildkite`: the builders, as classes. Each setter states the new `Value()`.
- `Pipeline`: `Task`, `Pipeline::task` and `on_load`.

The file system, the `buildkite-agent` process and the BEP file are not
accessed. Instead:

- a run of the file system and the agent is the sequence of effects performed
  (`CreateDirAll`, `CopyFile`, `Announce`, `AgentUpload`);
- which of those effects fail is a parameter, `fails`;
- each read of the BEP file sees one `Snapshot`, a sequence of lines, each
  with its length in bytes and what reading and decoding it yields;
- the staging directory is a parameter.

## Model

| member | source | states |
|---|---|---|
| BuildEvent.FromJsonStr | agent/src/artifact/upload.rs:338-345 | a line is a build event exactly when it is JSON and an object; malformed text gives InvalidJson and a non-object gives NotAnObject |
| BuildEvent.Get | agent/src/artifact/upload.rs:357-363 | the fold of `and_then(get)` over the dot-separated segments equals the reference descent `Walk` over `Split(path, '.')` |
| BuildEvent.SplitJoin | agent/src/artifact/upload.rs:359 | `split('.')` loses nothing: its pieces hold no dot and join back to the path |
| BuildEvent.JoinSplit | agent/src/artifact/upload.rs:359 | joining dot-free segments with dots and splitting again gives the segments back |
| BuildEvent.WalkAppend | agent/src/artifact/upload.rs:357-363 | a lookup along `a + b` is the lookup along `a` followed by the lookup along `b` from where `a` ended |
| BuildEvent.WalkStopsAtMissingSegment | agent/src/artifact/upload.rs:357-363 | once a segment is missing, the lookup is `None` whatever follows |
| BuildEvent.LastMessageQuery | agent/src/artifact/upload.rs:351-355 | `get("lastMessage")` is the top-level `lastMessage` field |
| BuildEvent.IsLastMessage | agent/src/artifact/upload.rs:351-355 | a record is the last message exactly when its `lastMessage` field is the boolean `true`; missing or non-boolean means no |
| BuildEvent.TestSummaryQuery | agent/src/artifact/upload.rs:347-349 | `get("id.testSummary")` descends `id`, then `testSummary` |
| BuildEvent.IsTestSummary | agent/src/artifact/upload.rs:347-349 | a record is a test summary exactly when `id` is an object with a `testSummary` key of any type |
| BepParser.LabelQuery | agent/src/artifact/upload.rs:289-293 | the label lookup descends `id`, `testSummary`, `label` |
| BepParser.StatusQuery | agent/src/artifact/upload.rs:294-298 | the status lookup descends `testSummary`, `overallStatus` |
| BepParser.FailedQuery | agent/src/artifact/upload.rs:299-303 | the failed-outputs lookup descends `testSummary`, `failed` |
| BepParser.ReadSummary | agent/src/artifact/upload.rs:288-318 | the entry built with the three dotted lookups is `SummaryOf`: the label and status (`""` when missing or not a string), and one path per failed output (its `uri` or `""`), in order |
| BepParser.BepJsonParser.constructor | agent/src/artifact/upload.rs:228-238 | a new parser is at offset 0, line 1, not done, with no entries |
| BepParser.BepJsonParser.Parse | agent/src/artifact/upload.rs:246-286 | the new state and the outcome are those of `ParseSpec`: open, seek to the offset, read until the end, the last message or a line that does not decode |
| BepParser.BepJsonParser.TakeLine | agent/src/artifact/upload.rs:258-284 | a line that cannot be read or decoded stops the loop with the error for the current line and changes nothing; a decoded line advances line and offset, and then sets `done` (the last message) or appends its entries |
| BepParser.BepJsonParser.OnTestSummary | agent/src/artifact/upload.rs:288-320 | exactly one entry, `SummaryOf(e)`, is appended; offset, line and `done` are unchanged |
| BepParser.BepJsonParser.HasTestStatus | agent/src/artifact/upload.rs:322-330 | true exactly when some entry has that status |
| ParseProperties.ReadFromAdvances | agent/src/artifact/upload.rs:258-275 | only decoded lines are consumed; each adds one to the line number and its length to the offset; entries only grow, by the summaries of the consumed lines; `done` never reverts; the file never changes |
| ParseProperties.ReadFromStops | agent/src/artifact/upload.rs:258-284 | a read stops only at the end, after the last message, or at a line that does not decode, which it reports with the current line number and leaves unconsumed; `done` is set exactly by consuming the last message |
| ParseProperties.ReadFromIgnoresRest | agent/src/artifact/upload.rs:268-283 | after the last message, or at the failing line, whatever follows in the file makes no difference |
| ParseProperties.SeekToLine | agent/src/artifact/upload.rs:250-255 | seeking to the byte length of the first `k` lines resumes at line `k` |
| ParseProperties.ParseFromLine | agent/src/artifact/upload.rs:247-263 | with the offset at a line boundary, a parse reads from that line |
| ParseProperties.FailedReadStaysAtLine | agent/src/artifact/upload.rs:276-283 | a failed read names the line number of the first undecodable line and leaves the offset just before it |
| ParseProperties.FailedReadFromLine | agent/src/artifact/upload.rs:276-283 | the same failed read, stated in terms of line indices of the whole file |
| ParseProperties.ParseResumesAtFailedLine | agent/src/artifact/upload.rs:246-283 | after a failed parse, a later parse of a file with the same lines up to the broken one resumes exactly at the broken line |
| ParseProperties.ParseIdleAtEndOfFile | agent/src/artifact/upload.rs:258-263 | repeating a parse on an unchanged file that succeeded without the last message changes nothing |
| ParseProperties.ParseKeepsEntries | agent/src/artifact/upload.rs:246-286 | a parse keeps the file and only appends entries, so an index into earlier entries keeps its meaning |
| PartialLines.WholeLinesResume | agent/src/artifact/upload.rs:258-267 | a parse that takes only newline-terminated lines ends at the start of a line, and from any later state of the growing file the next parse reads whole lines from there |
| PartialLines.StuckParseAborts | agent/src/artifact/upload.rs:36-69 | a parse that fails without moving the state fails the same way on an unchanged file, so the loop spends its five retries and aborts with that error |
| PartialLines.PartialLineSticks | agent/src/artifact/upload.rs:258-267 | an unfinished last line that decodes is consumed; once it is finished, every parse seeks to its newline, fails at line 2 without moving, and `upload` aborts although the file holds the last message |
| PartialLines.PartialLineWaits | agent/src/artifact/upload.rs:258-275 | with only newline-terminated lines taken, the same file is first left alone, then read to the last message in one parse |
| Staging.StripJoin | agent/src/artifact/upload.rs:200 | `strip_prefix(tmpdir)` of `tmpdir` joined with a relative path gives that path back, so the `unwrap` cannot fail |
| Staging.ParentSkipsName | agent/src/artifact/upload.rs:192 | appending a separator-free name does not change the parent |
| Staging.ParentOfPush | agent/src/artifact/upload.rs:191 | the parent of `d` pushed with a plain name is `d`, less a trailing separator |
| Staging.MapSeparatorsAt | agent/src/artifact/upload.rs:135-141 | every `:` of the label becomes a separator and every other character is kept |
| Staging.TrimStartRemovesRun | agent/src/artifact/upload.rs:142 | `trim_start_matches` removes exactly the longest leading run of separators |
| Staging.LabelDirShape | agent/src/artifact/upload.rs:135-142 | a target's directory holds no `:` and does not start with a separator |
| Staging.DecimalDigits | agent/src/artifact/upload.rs:148 | the attempt number formats as a non-empty string of digits |
| Staging.DecimalRoundTrip | agent/src/artifact/upload.rs:148 | reading the formatted attempt number gives the number back |
| Staging.DecimalInjective | agent/src/artifact/upload.rs:148 | different attempt numbers format differently |
| Staging.FileNamePlain | agent/src/artifact/upload.rs:145-149 | a log file name is one non-empty path component without `:` |
| Staging.FileNameInjective | agent/src/artifact/upload.rs:145-149 | different attempts get different file names |
| Staging.RelPathShape | agent/src/artifact/upload.rs:133-152 | the path below the staging directory is relative, holds no `:` and ends with the attempt's file name |
| Staging.RelPathInjective | agent/src/artifact/upload.rs:133-152 | two attempts of one target never share a file |
| Staging.TestLabelToPath | agent/src/artifact/upload.rs:133-152 | the staging directory joined with the attempt's relative log path; `strip_prefix` of the staging directory gives exactly that relative path back, as `upload_test_logs` relies on at line 200 |
| Staging.CreatedDirHoldsLog | agent/src/artifact/upload.rs:189-194 | the directory created before a copy is the parent of the copy's destination: the staging directory joined with the target's directory |
| Staging.RootTargetExample | agent/src/artifact/upload.rs:375-377 | `//:test`, attempt 0, is staged as `test/test.log` |
| Staging.PackageTargetExample | agent/src/artifact/upload.rs:380-382 | `//foo/bar`, attempt 0, is staged as `foo/bar/test.log` |
| Staging.AttemptExample | agent/src/artifact/upload.rs:385-387 | `//foo/bar`, attempt 1, is staged as `foo/bar/attempt_1.log` |
| Staging.AcceptedShape | agent/src/artifact/upload.rs:183-188 | each accepted path is a listed `file://` URI without its scheme, and every listed `file://` URI is accepted; with no such URI nothing is accepted |
| Staging.AcceptedAppend | agent/src/artifact/upload.rs:183-188 | the filter keeps input order: the accepted paths of `a + b` are those of `a`, then those of `b` |
| Staging.AcceptedOne | agent/src/artifact/upload.rs:183-188 | one URI is accepted, without its `file://` scheme, exactly when it starts with `file://`; otherwise it is skipped |
| Staging.StagedPathsNumbered | agent/src/artifact/upload.rs:176-203 | the `i`-th accepted path of an entry is staged as attempt `first + i` |
| Staging.StagedNamesDistinct | agent/src/artifact/upload.rs:176-203 | within one entry, no two staged files share a name |
| Staging.RelsAreRelative | agent/src/artifact/upload.rs:200 | every staged name is non-empty and relative |
| Staging.CopyRunStops | agent/src/artifact/upload.rs:191-198 | once a copy has failed, further files change nothing |
| Staging.CopyRunPasses | agent/src/artifact/upload.rs:191-198 | a successful copy run performs exactly the copies of all staged files |
| Staging.CopiesInOrder | agent/src/artifact/upload.rs:191-198 | those copies are, per staged file and in order, a directory creation and then a copy to its destination |
| Staging.CopyRunCopiesAll | agent/src/artifact/upload.rs:191-198 | every successful copy run creates each staged file's directory and then copies it, in order |
| Staging.CopyRunFailsEarly | agent/src/artifact/upload.rs:191-198 | a failure within a prefix of the files decides the run |
| Staging.EntryFailureIsFinal | agent/src/artifact/upload.rs:183-198 | a copy failing at one path of an entry decides the entry |
| Staging.BatchFailureIsFinal | agent/src/artifact/upload.rs:176-198 | a copy failing in one entry decides `upload_test_logs`: the rest of the batch is not staged and nothing is uploaded |
| Staging.DryRunOnlyAnnounces | agent/src/artifact/upload.rs:115-124 | a dry run touches no file, cannot fail, and announces each staged file at its place in the staging directory |
| Staging.EmptyStagingStillUploads | agent/src/artifact/upload.rs:168-206 | a non-empty batch with no `file://` URI still runs the agent, with an empty list |
| Staging.UploadedNamesAreStaged | agent/src/artifact/upload.rs:200-206 | the names handed to the agent are exactly the staged names, and each lies below the staging directory it is uploaded from |
| Staging.UploadArtifacts | agent/src/artifact/upload.rs:113-131 | the effects and result are `UploadArtifactsSpec`: announce each path in a dry run, else one agent upload that fails when the command fails |
| Staging.StageFile | agent/src/artifact/upload.rs:189-198 | one accepted path: outside a dry run, create the directory, then copy; the result extends the copy run by this file |
| Staging.StagePath | agent/src/artifact/upload.rs:184-202 | one turn of the inner loop keeps the progress invariant: a non-`file://` path is skipped, any other is staged under the next attempt |
| Staging.StageEntry | agent/src/artifact/upload.rs:177-203 | the inner loop over one entry extends the copy run and the artifact list by exactly the entry's staged files |
| Staging.UploadTestLogs | agent/src/artifact/upload.rs:168-209 | the effects and result are `StageSpec`: nothing for an empty batch, else stage every accepted path and then upload the names |
| Uploader.ReportablesSelect | agent/src/artifact/upload.rs:36-51 | exactly the entries with status FAILED, TIMEOUT or FLAKY are handed on |
| Uploader.ReportablesAppend | agent/src/artifact/upload.rs:48-51 | selecting from two runs of entries is selecting from each in turn |
| Uploader.PollHandsOnEachEntryOnce | agent/src/artifact/upload.rs:42-73 | every collected entry up to the cursor is handed on once, in order, if reportable; the entries only grow; a finished loop has handed on all of them |
| Uploader.PollAbortsAfterFiveFailures | agent/src/artifact/upload.rs:38-69 | the loop gives up exactly when the failed reads in a row reach five, and never before; a successful read resets the count |
| Uploader.UploadReportsEverything | agent/src/artifact/upload.rs:42-79 | after the last message, every reportable entry has been handed on exactly once and in order, and the BEP file is uploaded exactly when flaky tests are monitored and one was seen |
| Uploader.UploadGivesUpAfterFiveFailures | agent/src/artifact/upload.rs:61-69 | from a fresh parser, `upload` fails from the loop exactly when its reads end in five failures in a row, and no earlier point had five |
| Uploader.HandOn | agent/src/artifact/upload.rs:52-54 | staging a batch adds its effects; its failure is only warned about |
| Uploader.PollLoop | agent/src/artifact/upload.rs:42-73 | the loop's end status, parser state and effects are those of `Poll` and the batches it hands on |
| Uploader.Upload | agent/src/artifact/upload.rs:25-80 | the verdict and effects are those of `UploadSpec` |
| Utils.SplitPathInclusive | agent/src/utils.rs:18-37 | there is a result exactly when the target is a component; the first part ends with its first occurrence and the second is the rest |
| Utils.SplitUnique | agent/src/utils.rs:5-11 | the split is determined by the path and the target |
| Utils.SplitDocExample | agent/src/utils.rs:12-15 | `a/b/c` split on `b` is `a/b` and `c`, and nothing else |
| Buildkite.WithCommandExclusive | agent/src/buildkite.rs:58-72 | after `command`, the single command and the command list are never both in use |
| Buildkite.WithCommandAppends | agent/src/buildkite.rs:58-72 | a new command runs after all earlier ones; only an empty command given to an empty step is lost (it leaves the step unchanged) |
| Buildkite.FirstCommandAfterLabel | agent/src/buildkite.rs:58-96 | a step with only agent tags or a label is not empty, so its first command goes straight into the list |
| Buildkite.BuiltInOrder | agent/src/buildkite.rs:58-72 | non-empty commands added to a fresh step run in call order: one sits in the single field, two or more fill the list |
| Buildkite.CommandValue.IsEmpty | agent/src/buildkite.rs:91-96 | a step is empty exactly when it is the default step apart from its plugins |
| Buildkite.CommandValue.PluginsIsEmpty | agent/src/buildkite.rs:110-113 | the plugin list is empty exactly when clearing it changes nothing |
| Buildkite.Command.IsEmpty | agent/src/buildkite.rs:91-96 | the step object is empty exactly when its value is the default step apart from its plugins |
| Buildkite.DockerPluginShown | agent/src/buildkite.rs:110-113 | after `docker_plugin` the plugin list is not empty (`Plugins::is_empty` is false), the earlier plugins stay in front, and whether the step is empty does not change |
| Buildkite.IsEmptyIgnoresPlugins | agent/src/buildkite.rs:91-96 | `is_empty` does not look at the plugins |
| Buildkite.DockerPlugin.constructor | agent/src/buildkite.rs:138-149 | every setting starts false or empty |
| Buildkite.DockerPlugin.AlwaysPull | agent/src/buildkite.rs:152-155 | sets `always_pull` only |
| Buildkite.DockerPlugin.Environment | agent/src/buildkite.rs:157-160 | appends one environment name, nothing else changes |
| Buildkite.DockerPlugin.Image | agent/src/buildkite.rs:162-165 | sets `image` only |
| Buildkite.DockerPlugin.Network | agent/src/buildkite.rs:167-170 | sets `network` only |
| Buildkite.DockerPlugin.Privileged | agent/src/buildkite.rs:172-175 | sets `privileged` only |
| Buildkite.DockerPlugin.PropagateEnvironment | agent/src/buildkite.rs:177-180 | sets `propagate_environment` only |
| Buildkite.DockerPlugin.PropagateUidGid | agent/src/buildkite.rs:182-185 | sets `propagate_uid_gid` only |
| Buildkite.DockerPlugin.Volume | agent/src/buildkite.rs:187-190 | appends one volume, nothing else changes |
| Buildkite.Command.constructor | agent/src/buildkite.rs:38-50 | a new step has no tags, commands, label or plugins |
| Buildkite.Command.Agent | agent/src/buildkite.rs:53-56 | inserts or overwrites one agent tag, nothing else changes |
| Buildkite.Command.Command | agent/src/buildkite.rs:58-72 | the new step is `WithCommand` of the old one (properties in the lemmas above) |
| Buildkite.Command.Label | agent/src/buildkite.rs:74-77 | sets the label only |
| Buildkite.Command.DockerPlugin | agent/src/buildkite.rs:79-89 | appends one Docker plugin with the plugin's current settings, nothing else changes |
| Buildkite.Pipeline.constructor | agent/src/buildkite.rs:6-14 | a new pipeline has no tags, environment or steps |
| Buildkite.Pipeline.CommandStep | agent/src/buildkite.rs:17-20 | appends one command step holding the command's current fields |
| Buildkite.Pipeline.Agent | agent/src/buildkite.rs:22-25 | inserts or overwrites one agent tag |
| Buildkite.SingleCommandPipeline | agent/src/buildkite.rs:198-210 | the builder calls of the single-command example give one step whose only field is the command |
| Buildkite.MultipleCommandsPipeline | agent/src/buildkite.rs:212-227 | two commands end up in the list, in call order |
| Buildkite.DockerPluginPipeline | agent/src/buildkite.rs:229-263 | the Docker example gives one step with no command and one plugin holding every setting |
| Pipeline.LoadedFillsPlatforms | agent/src/pipeline/mod.rs:28-34 | `on_load` keeps every task name and every field except the platform, and sets the platform to the task's name exactly where none was given |
| Pipeline.LoadedIdempotent | agent/src/pipeline/mod.rs:28-34 | loading twice is loading once |
| Pipeline.Task.constructor | agent/src/pipeline/mod.rs:37-47 | a new task is empty |
| Pipeline.Task.Platform | agent/src/pipeline/mod.rs:50-53 | sets the platform only |
| Pipeline.Task.Environment | agent/src/pipeline/mod.rs:55-58 | inserts or overwrites one environment variable |
| Pipeline.Task.BuildTarget | agent/src/pipeline/mod.rs:60-63 | appends one build target |
| Pipeline.Task.TestTarget | agent/src/pipeline/mod.rs:65-68 | appends one test target |
| Pipeline.Pipeline.constructor | agent/src/pipeline/mod.rs:8-12 | a new configuration has no tasks |
| Pipeline.Pipeline.Task | agent/src/pipeline/mod.rs:15-18 | inserts or overwrites the task under its name |
| Pipeline.Pipeline.OnLoad | agent/src/pipeline/mod.rs:28-34 | visiting the tasks in any order yields `Loaded` of the old tasks |
| Pipeline.OmitPlatformExample | agent/src/pipeline/mod.rs:108-134 | two tasks without platforms get the platforms named after them, with nothing else changed |

## Left out

- Integer widths: the offset (`u64`), line number (`usize`) and attempt (`i32`) are unbounded here. No realistic file or retry count reaches their limits.
- `std::path`: paths are `/`-separated strings. `push`, `join`, `parent` and `strip_prefix` are modelled for the relative shapes they receive here, without normalisation of `.`/`..`. `split_path_inclusive` takes the path as its sequence of components.
- `make_tmpdir_path`: it picks a random name and may create the directory, so the staging directory is a parameter of `upload`.
- The initial `delay`, the one-second sleep between reads, and every `warn!`/`info!` log line are not modelled. They are timing and logging only.
- The file system and `buildkite-agent`: a run is its list of effects, and the `fails` oracle says which effects fail. `fails(AgentUpload(..))` stands for a failed `canonicalize` of the working directory or a failed spawn of `buildkite-agent` (`upload.rs:89-95`), both reported as `CommandFailed`. A non-zero exit status of `buildkite-agent` is not an error: `output()` is called, but its status is never read.
- `upload_bep_json_file` is modelled inline in `UploadSpec`, as `upload_artifacts` of the file with no working directory.
- JSON decoding (`serde_json`): a line carries what decoding it yields. Numbers are integers, since no query reads one.
- The BEP file is a finite snapshot per `parse` call. Changes between calls are modelled by successive snapshots, with no model of concurrent writes within one call. When the loop has not ended once the snapshots run out, the result is `StillPolling`.
- Open and seek failures are one outcome, `Unopenable`. An offset in the middle of a line is taken to leave text that does not decode. The code reaches such an offset when it consumes a last line that decodes before its newline is written (see Findings), or when the file is rewritten.
- The `buf` field of `BepJsonParser` is scratch space and is not modelled.
- The `ParseProperties` lemmas are stated for any classifier of lines (`kind`) and hold in particular for `KindOf`, the one `parse` uses.
- `Pipeline::to_yaml`, the `Serialize` impl of `Plugins` (`buildkite.rs:27-30,116-136`) and `Pipeline::from_yaml`'s YAML decoding are not modelled. These are serialisation only. `Plugins::is_empty` is modelled as `CommandValue.PluginsIsEmpty`.
- `from_yaml` is modelled by its `on_load` step only.
- `load_file` and `load_http` (`utils.rs:39-57`) are not modelled. They are network and file I/O.
- `pipeline/print.rs` and `config.rs` are not part of this model.
- The Buildkite step's `label` field is named `stepLabel`, because `label` is a Dafny keyword.

Three behaviours of the code worth noting:

- `trim_start_matches` removes every leading separator of a target, not just one (`upload.rs:142`).
- A non-empty batch whose entries carry no `file://` URI still runs `buildkite-agent artifact upload`, with no paths (`upload.rs:206`).
- An error from `upload_test_logs` inside the polling loop is only logged. It does not stop the loop (`upload.rs:52-54`).

## Findings

| source | as written | input that shows it | evidently intended | confidence | as-written member | corrected member |
|---|---|---|---|---|---|---|
| agent/src/artifact/upload.rs:258-267 | `read_line` returns a last line without its newline; if that text already decodes, `offset` moves past it, and once the newline is written every later `parse` seeks to the newline alone, which never decodes | a first `parse` that sees `{}` with no newline yet, then the file `{}\n{"lastMessage":true}\n`: every later `parse` fails at line 2, and after five of them `upload` returns that error | take a line only once its newline is there, so the offset always lands at the start of a line | medium, not executed | PartialLines.PartialLineSticks | PartialLines.WholeLinesResume |

`BepJsonParser.Parse` and the polling loop keep the code as written. `PartialLines.ParseWholeLines` is the corrected parse, and `PartialLines.PartialLineWaits` shows it finishing on the same file.
