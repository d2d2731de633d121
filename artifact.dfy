/** Types shared by the parts of agent/src/artifact/upload.rs: the test-log
    entries the parser collects, the upload mode, the errors the agent reports
    and the side effects it performs on the file system and the upload agent. */
module Artifact {
  import opened Wrappers
  import opened BuildEvent

  /** `TestLog`: one test-summary record, immutable once collected. */
  datatype TestLog = TestLog(target: string, status: string, paths: seq<string>)

  /** `Mode`: `Dry` only reports what it would upload; `Buildkite` copies the
      files and hands them to `buildkite-agent`. */
  datatype Mode = Dry | Buildkite

  /** Everything that can go wrong, with the context the agent attaches. */
  datatype Error =
    | OpenFailed(file: string)                     // "Failed to open file …" (also a failed seek)
    | ReadFailed                                   // `read_line` failed (I/O or invalid UTF-8)
    | DecodeFailed(file: string, line: nat, cause: DecodeError)  // "<file>:<line>: …"
    | CreateDirFailed(dir: string)                 // "Failed to create directories for …"
    | CopyFailed(source: string, dest: string)     // "Failed to copy file … to …"
    | CommandFailed(program: string)              // "Failed to execute command …"

  /** A side effect on the outside world, recorded in the order performed.
      `Announce` is the dry-run report "Upload artifact: <path>";
      `AgentUpload` runs `buildkite-agent artifact upload <a;b;…>` in `cwd`. */
  datatype Effect =
    | CreateDirAll(dir: string)
    | CopyFile(source: string, dest: string)
    | Announce(path: string)
    | AgentUpload(cwd: Option<string>, artifacts: seq<string>)

  /** The statuses whose logs are staged and uploaded. */
  predicate Reportable(status: string) {
    status == "FAILED" || status == "TIMEOUT" || status == "FLAKY"
  }

  /** Some entry has exactly this status. */
  predicate HasStatus(logs: seq<TestLog>, status: string) {
    exists i :: 0 <= i < |logs| && logs[i].status == status
  }
}
