/** A BEP file whose last line is still being written, and what `parse` does
    with it.

    `read_line` returns the text up to the end of the file even when the
    newline that ends it is not there yet. If that unfinished text already
    decodes, `parse` consumes it and moves `offset` past it; once the build
    writes the newline, the next `parse` seeks into the middle of the
    finished line and finds only the newline, which never decodes. This
    module states that behaviour of the code as written, and proves of a
    `parse` that counts only newline-terminated lines that its offset always
    stays at the start of a line. */
module PartialLines {
  import opened Wrappers
  import opened BuildEvent
  import opened Artifact
  import opened BepParser
  import opened ParseProperties
  import opened Uploader

  /** The BEP file as the running build has left it: whole lines, each ended
      by its newline, then possibly the start of the next line, whose newline
      is not written yet (its `bytes` count what is there so far). */
  datatype Growing = Growing(complete: seq<Line>, tail: Option<Line>)

  /** The lines `read_line` returns: the unfinished one too. */
  function AsRead(f: Growing): seq<Line> {
    f.complete + if f.tail.Some? then [f.tail.value] else []
  }

  /** `later` is `f` after the build wrote more: the whole lines of `f` are
      kept, and an unfinished line has become a whole, longer line. */
  predicate Extends(f: Growing, later: Growing) {
    && |f.complete| <= |later.complete|
    && later.complete[..|f.complete|] == f.complete
    && (f.tail.Some? ==>
          |f.complete| < |later.complete| && later.complete[|f.complete|].bytes > f.tail.value.bytes)
  }

  /** `parse` as written: the unfinished last line is read like the others. */
  function ParseAsWritten(s: ParserState, f: Growing): Parsed {
    ParseSpec(s, Readable(AsRead(f)))
  }

  /** `parse` as evidently intended: a line is taken only once its newline is
      there; an unfinished line is left for a later call. */
  function ParseWholeLines(s: ParserState, f: Growing): Parsed {
    ParseSpec(s, Readable(f.complete))
  }

  /** With whole lines only, a parse that starts at the start of line `k`
      ends at the start of a line, and that line starts at the same byte in
      every later state of the file; so the next parse reads whole lines from
      there, never the remains of a line. */
  lemma WholeLinesResume(s: ParserState, f: Growing, later: Growing, k: nat)
    requires k <= |f.complete|
    requires s.offset == Bytes(f.complete[..k])
    requires Extends(f, later)
    ensures var r := ParseWholeLines(s, f);
      && k + r.consumed <= |f.complete|
      && r.state.offset == Bytes(later.complete[..k + r.consumed])
      && ParseWholeLines(r.state, later) == ReadFrom(r.state, later.complete[k + r.consumed..], KindOf)
  {
    var file := f.complete;
    ParseFromLine(s, file, KindOf, k);
    var r := ReadFrom(s, file[k..], KindOf);
    ReadFromAdvances(s, file[k..], KindOf);
    var j := k + r.consumed;
    BytesSplit(file, k, r.consumed);
    assert later.complete[..j] == file[..j] by {
      assert later.complete[..j] == later.complete[..|file|][..j];
    }
    ParseFromLine(r.state, later.complete, KindOf, j);
  }

  /** `seq` of `n` copies of one snapshot: the file left unchanged between
      reads. */
  function Copies(snap: Snapshot, n: nat): seq<Snapshot> {
    seq(n, _ => snap)
  }

  /** A parse that fails without changing the state fails the same way every
      time, so on an unchanged file the loop uses up its retries and gives
      up with that error. */
  lemma {:induction false} StuckParseAborts(p: ParserState, retries: nat, cursor: nat, snap: Snapshot, e: Error)
    requires 1 <= retries && cursor <= |p.testLogs|
    requires ParseSpec(p, snap) == Parsed(p, Fail(e), 0)
    ensures Poll(p, retries, cursor, Copies(snap, retries)).status == Aborted(e)
    decreases retries
  {
    var snaps := Copies(snap, retries);
    assert snaps[0] == snap;
    if retries > 1 {
      assert snaps[1..] == Copies(snap, retries - 1);
      StuckParseAborts(p, retries - 1, cursor, snap, e);
    }
  }

  // The example: a summary-free record still without its newline, then the
  // same record finished, followed by the last message.

  const Record := Text(WellFormed(JObject(map[])))
  const Final := Text(WellFormed(JObject(map["lastMessage" := JBool(true)])))
  const Unfinished := Growing([], Some(Line(7, Record)))
  const Finished := Growing([Line(8, Record), Line(20, Final)], None)

  lemma RecordKinds()
    ensures KindOf(Line(7, Record)) == Event([])
    ensures KindOf(Line(8, Record)) == Event([])
    ensures KindOf(Line(1, Text(Malformed))) == Undecoded(InvalidJson)
    ensures KindOf(Line(20, Final)) == Last
  {
    var last := JObject(map["lastMessage" := JBool(true)]);
    assert Walk(last, ["lastMessage"]) == Some(JBool(true)) by {
      assert ["lastMessage"][1..] == [];
    }
    var empty := JObject(map[]);
    assert Walk(empty, ["lastMessage"]) == None;
    assert Walk(empty, ["id", "testSummary"]) == None;
  }

  /** As written: the unfinished record decodes and is consumed, 7 bytes in;
      after the build finishes the line, every parse seeks to its last byte,
      reads the lone newline, and fails at line 2 without moving. Five such
      reads in a row end `upload` with that error, although the file now
      holds the last message. */
  lemma PartialLineSticks(file: string)
    ensures Extends(Unfinished, Finished)
    ensures var r1 := ParseAsWritten(Initial(file), Unfinished);
      && r1.outcome == Pass && r1.state.offset == 7 && r1.state.line == 2 && !r1.state.done
      && ParseAsWritten(r1.state, Finished) == Parsed(r1.state, Fail(DecodeFailed(file, 2, InvalidJson)), 0)
      && Poll(r1.state, MaxRetries, 0, Copies(Readable(AsRead(Finished)), MaxRetries)).status
           == Aborted(DecodeFailed(file, 2, InvalidJson))
  {
    RecordKinds();
    var s0 := Initial(file);
    assert AsRead(Unfinished) == [Line(7, Record)];
    var first := [Line(7, Record)];
    assert Seek(first, 0) == first && first[1..] == [];
    var r1 := ParseAsWritten(s0, Unfinished);
    assert r1 == ReadFrom(Consume(s0, 7, Event([])), [], KindOf).(consumed := 1);
    assert r1.state.testLogs == [];
    var lines := AsRead(Finished);
    assert lines == [Line(8, Record), Line(20, Final)];
    assert Seek(lines, 7) == [Line(1, Text(Malformed)), Line(20, Final)];
    StuckParseAborts(r1.state, MaxRetries, 0, Readable(lines), DecodeFailed(file, 2, InvalidJson));
  }

  /** Corrected: the unfinished record is left alone, and once it is finished
      one parse reads it and the last message, and the loop ends. */
  lemma PartialLineWaits(file: string)
    ensures var r1 := ParseWholeLines(Initial(file), Unfinished);
      && r1.outcome == Pass && r1.state == Initial(file)
      && var r2 := ParseWholeLines(r1.state, Finished);
      && r2.outcome == Pass && r2.state.done && r2.state.offset == 28 && r2.state.line == 3
  {
    RecordKinds();
    var s0 := Initial(file);
    var lines := Finished.complete;
    assert Seek(lines, 0) == lines;
    assert lines[1..] == [Line(20, Final)];
    var s1 := Consume(s0, 8, Event([]));
    assert ReadFrom(s0, lines, KindOf) == ReadFrom(s1, lines[1..], KindOf).(consumed := 1 + 1);
  }
}
