/** `BepJsonParser` of agent/src/artifact/upload.rs: a resumable reader of the
    newline-delimited BEP JSON file that a running build may still be writing.

    The file is a sequence of lines, each with its length in bytes (newline
    included) and what reading and decoding it yields. Opening and seeking are
    folded into `Seek`; the I/O of `File::open` and `BufReader::read_line` is
    reduced to the two outcomes `Unopenable` and `Unreadable`. */
module BepParser {
  import opened Wrappers
  import opened BuildEvent
  import opened Artifact

  /** A line returned by `read_line` is never empty (an empty read is EOF). */
  type Width = n: nat | n >= 1 witness 1

  /** `Unreadable`: `read_line` fails (an I/O error or invalid UTF-8). */
  datatype LineBody = Unreadable | Text(json: JsonText)

  datatype Line = Line(bytes: Width, body: LineBody)

  /** The file as one call of `parse` finds it. */
  datatype Snapshot = Unopenable | Readable(lines: seq<Line>)

  /** Total length in bytes. */
  function Bytes(lines: seq<Line>): nat {
    if lines == [] then 0 else lines[0].bytes + Bytes(lines[1..])
  }

  /** What a reader positioned at byte `offset` goes on to read. Whole lines
      before the offset are skipped; past the end nothing is left. An offset in
      the middle of a line leaves the rest of that line, which is taken not to
      decode. That happens when an earlier `parse` consumed a last line whose
      newline was not written yet (`read_line` returns it all the same) and the
      build has since finished it: only the newline is left, and it never
      decodes (see `PartialLines`). It also happens if the file was
      rewritten. */
  function Seek(lines: seq<Line>, offset: nat): seq<Line> {
    if lines == [] || offset == 0 then lines
    else if offset >= lines[0].bytes then Seek(lines[1..], offset - lines[0].bytes)
    else [Line(lines[0].bytes - offset, Text(Malformed))] + lines[1..]
  }

  /* ---------------------------------------------------------------------- */
  /* What one line means                                                     */
  /* ---------------------------------------------------------------------- */

  /** How `parse` treats a line: it cannot be read, it does not decode to a
      record (with the decoder's complaint), it is the last message, or it is
      another record, which contributes the given entries. */
  datatype Kind = Unread | Undecoded(cause: DecodeError) | Last | Event(entries: seq<TestLog>)
  {
    predicate Decodes() {
      Last? || Event?
    }

    /** The entries a decoded line contributes. */
    function Entries(): seq<TestLog> {
      if Event? then entries else []
    }

    /** The error `parse` reports for a line that does not decode, when the
        parser is at line number `line`. */
    function ErrorAt(file: string, line: nat): Error
      requires !Decodes()
    {
      if Unread? then ReadFailed else DecodeFailed(file, line, cause)
    }
  }

  /** What `parse` makes of a line: `read_line`, then `from_json_str`; a
      decoded record ends the read when it is the last message, and otherwise
      contributes its summary when it is a test summary. */
  function KindOf(l: Line): Kind {
    if l.body.Unreadable? then Unread
    else
      match FromJsonStr(l.body.json)
      case Err(cause) => Undecoded(cause)
      case Ok(e) =>
        if IsLastMessage(e) then Last
        else Event(if IsTestSummary(e) then [SummaryOf(e)] else [])
  }

  /* ---------------------------------------------------------------------- */
  /* on_test_summary                                                         */
  /* ---------------------------------------------------------------------- */

  const LabelPath := "id.testSummary.label"
  const StatusPath := "testSummary.overallStatus"
  const FailedPath := "testSummary.failed"

  /** The entry a test-summary record contributes: the label at
      `id.testSummary.label`, the status at `testSummary.overallStatus`
      (`""` when missing or not a string) and one path per element of
      `testSummary.failed` (none when missing or not an array), in order: that
      element's `uri`, or `""`. */
  function SummaryOf(e: BuildEvent): TestLog {
    TestLog(
      StrOr(Walk(e.value, ["id", "testSummary", "label"]), ""),
      StrOr(Walk(e.value, ["testSummary", "overallStatus"]), ""),
      Uris(ArrayOr(Walk(e.value, ["testSummary", "failed"]), [])))
  }

  /** Each failed output's `uri`, or `""` when it has none that is a string. */
  function Uris(failed: seq<Json>): seq<string> {
    if failed == [] then [] else [StrOr(Index(failed[0], "uri"), "")] + Uris(failed[1..])
  }

  // The dotted paths of `on_test_summary`, as lists of keys.

  lemma LabelQuery(e: BuildEvent)
    ensures Lookup(e, LabelPath) == Walk(e.value, ["id", "testSummary", "label"])
  {
    assert LabelPath == "id" + [Dot] + "testSummary" + [Dot] + "label";
    SplitDotted3("id", "testSummary", "label");
  }

  lemma StatusQuery(e: BuildEvent)
    ensures Lookup(e, StatusPath) == Walk(e.value, ["testSummary", "overallStatus"])
  {
    assert StatusPath == "testSummary" + [Dot] + "overallStatus";
    SplitDotted2("testSummary", "overallStatus");
  }

  lemma FailedQuery(e: BuildEvent)
    ensures Lookup(e, FailedPath) == Walk(e.value, ["testSummary", "failed"])
  {
    assert FailedPath == "testSummary" + [Dot] + "failed";
    SplitDotted2("testSummary", "failed");
  }

  /** The entries contributed by decoded lines, in file order. */
  function SummariesIn(lines: seq<Line>, kind: Line -> Kind): seq<TestLog> {
    if lines == [] then [] else kind(lines[0]).Entries() + SummariesIn(lines[1..], kind)
  }

  /* ---------------------------------------------------------------------- */
  /* parse, as a function of the state and of the file                       */
  /* ---------------------------------------------------------------------- */

  /** The fields of `BepJsonParser` (the scratch buffer aside). */
  datatype ParserState = ParserState(
    file: string, offset: nat, line: nat, done: bool, testLogs: seq<TestLog>)

  /** `BepJsonParser::new`. */
  function Initial(file: string): ParserState {
    ParserState(file, 0, 1, false, [])
  }

  /** The state and outcome after a `parse`, and how many lines it consumed. */
  datatype Parsed = Parsed(state: ParserState, outcome: Outcome<Error>, consumed: nat)

  /** One decoded line taken in: one more line number, its bytes added to
      the offset, and then either `done` (the last message) or its entries. */
  function Consume(s: ParserState, bytes: nat, k: Kind): ParserState {
    var s1 := s.(line := s.line + 1, offset := s.offset + bytes);
    if k.Last? then s1.(done := true) else s1.(testLogs := s1.testLogs + k.Entries())
  }

  /** The read loop of `parse` over the lines after the current offset, with
      `kind` saying how each line reads: stop with success at the end, stop
      with an error at a line that does not decode, stop with success after
      the last message. */
  function ReadFrom(s: ParserState, view: seq<Line>, kind: Line -> Kind): Parsed
    decreases |view|
  {
    if view == [] then Parsed(s, Pass, 0)
    else
      var k := kind(view[0]);
      if !k.Decodes() then Parsed(s, Fail(k.ErrorAt(s.file, s.line)), 0)
      else if k.Last? then Parsed(Consume(s, view[0].bytes, k), Pass, 1)
      else
        var r := ReadFrom(Consume(s, view[0].bytes, k), view[1..], kind);
        r.(consumed := r.consumed + 1)
  }

  /** A `parse` of a snapshot, with `kind` saying how each line reads. */
  function ParseWith(s: ParserState, snap: Snapshot, kind: Line -> Kind): Parsed {
    match snap
    case Unopenable => Parsed(s, Fail(OpenFailed(s.file)), 0)
    case Readable(lines) => ReadFrom(s, Seek(lines, s.offset), kind)
  }

  /** `parse`: open the file, seek to the offset, read on. */
  function ParseSpec(s: ParserState, snap: Snapshot): Parsed {
    ParseWith(s, snap, KindOf)
  }

  /* ---------------------------------------------------------------------- */
  /* The parser object                                                       */
  /* ---------------------------------------------------------------------- */

  /** The entry `on_test_summary` builds from a record with the three
      dotted-path lookups of the source. */
  method ReadSummary(e: BuildEvent) returns (t: TestLog)
    ensures t == SummaryOf(e)
  {
    var labelPath, statusPath, failedPath := LabelPath, StatusPath, FailedPath;
    var target := Get(e, labelPath);
    LabelQuery(e);
    var status := Get(e, statusPath);
    StatusQuery(e);
    var failedOutputs := Get(e, failedPath);
    FailedQuery(e);
    var failed := ArrayOr(failedOutputs, []);
    t := TestLog(StrOr(target, ""), StrOr(status, ""), Uris(failed));
  }

  class BepJsonParser {
    const file: string
    var offset: nat
    var line: nat
    var done: bool
    var testLogs: seq<TestLog>

    function State(): ParserState
      reads this
    {
      ParserState(file, offset, line, done, testLogs)
    }

    /** `BepJsonParser::new`. */
    constructor (file: string)
      ensures State() == Initial(file)
    {
      this.file := file;
      offset, line, done, testLogs := 0, 1, false, [];
    }

    /** `parse`: read on from `offset` until the end of the file, the last
        message, or a line that does not decode. */
    method Parse(snap: Snapshot) returns (r: Outcome<Error>)
      modifies this
      ensures State() == ParseSpec(old(State()), snap).state
      ensures r == ParseSpec(old(State()), snap).outcome
    {
      if snap.Unopenable? {
        return Fail(OpenFailed(file));
      }
      var view := Seek(snap.lines, offset);
      ghost var goal := ReadFrom(State(), view, KindOf);
      var i, stop := 0, false;
      r := Pass;
      while i < |view| && !stop
        invariant 0 <= i <= |view|
        invariant !stop ==> ReadFrom(State(), view[i..], KindOf).state == goal.state
        invariant !stop ==> ReadFrom(State(), view[i..], KindOf).outcome == goal.outcome
        invariant !stop ==> r == Pass
        invariant stop ==> State() == goal.state && r == goal.outcome
        decreases |view| - i
      {
        assert view[i..][0] == view[i] && view[i..][1..] == view[i + 1..];
        stop, r := TakeLine(view[i]);
        i := i + 1;
      }
      if !stop {
        assert view[i..] == [];
      }
    }

    /** One turn of the read loop of `parse`: a line that cannot be read or
        decoded stops it with an error and changes nothing; a decoded line is
        consumed, and stops it when it is the last message. */
    method TakeLine(l: Line) returns (stop: bool, r: Outcome<Error>)
      modifies this
      ensures var k := KindOf(l);
        if !k.Decodes() then stop && r == Fail(k.ErrorAt(file, old(line))) && State() == old(State())
        else r == Pass && stop == k.Last? && State() == Consume(old(State()), l.bytes, k)
    {
      if l.body.Unreadable? {
        return true, Fail(ReadFailed);
      }
      var decoded := FromJsonStr(l.body.json);
      if decoded.Err? {
        return true, Fail(DecodeFailed(file, line, decoded.error));
      }
      line := line + 1;
      offset := offset + l.bytes;
      stop, r := false, Pass;
      if IsLastMessage(decoded.value) {
        done := true;
        stop := true;
      } else if IsTestSummary(decoded.value) {
        OnTestSummary(decoded.value);
      } else {
        assert testLogs + [] == testLogs;
      }
    }

    /** `on_test_summary`: append the entry this record describes. */
    method OnTestSummary(e: BuildEvent)
      modifies this
      ensures testLogs == old(testLogs) + [SummaryOf(e)]
      ensures offset == old(offset) && line == old(line) && done == old(done)
    {
      var testLog := ReadSummary(e);
      testLogs := testLogs + [testLog];
    }

    /** `has_test_status`: scan the entries for one with this status. */
    method HasTestStatus(status: string) returns (found: bool)
      ensures found <==> HasStatus(testLogs, status)
    {
      var i := 0;
      while i < |testLogs|
        invariant 0 <= i <= |testLogs|
        invariant forall j :: 0 <= j < i ==> testLogs[j].status != status
      {
        if testLogs[i].status == status {
          return true;
        }
        i := i + 1;
      }
      return false;
    }
  }
}
