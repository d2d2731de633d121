/** What `BepJsonParser::parse` guarantees, proved of `ParseSpec`, the function
    that `BepJsonParser.Parse` is verified against. */
module ParseProperties {
  import opened Wrappers
  import opened BuildEvent
  import opened Artifact
  import opened BepParser

  lemma {:induction false} BytesAppend(a: seq<Line>, b: seq<Line>)
    ensures Bytes(a + b) == Bytes(a) + Bytes(b)
  {
    if a == [] {
      assert a + b == b;
    } else {
      assert (a + b)[1..] == a[1..] + b;
      BytesAppend(a[1..], b);
    }
  }

  /** The bytes of the first `k + j` lines are those of the first `k` and of
      the `j` after them. */
  lemma BytesSplit(lines: seq<Line>, k: nat, j: nat)
    requires k + j <= |lines|
    ensures Bytes(lines[..k + j]) == Bytes(lines[..k]) + Bytes(lines[k..][..j])
  {
    assert lines[..k + j] == lines[..k] + lines[k..][..j];
    BytesAppend(lines[..k], lines[k..][..j]);
  }

  /** Only decoded lines move the parser, each by one line number and by its
      length in bytes; the entries only grow, by exactly the entries of the
      consumed records; `done` never reverts and the file name never changes. */
  lemma {:induction false} ReadFromAdvances(s: ParserState, view: seq<Line>, kind: Line -> Kind)
    ensures var r := ReadFrom(s, view, kind);
      && r.consumed <= |view|
      && (forall i :: 0 <= i < r.consumed ==> kind(view[i]).Decodes())
      && r.state.file == s.file
      && r.state.offset == s.offset + Bytes(view[..r.consumed])
      && r.state.line == s.line + r.consumed
      && r.state.testLogs == s.testLogs + SummariesIn(view[..r.consumed], kind)
      && (s.done ==> r.state.done)
    decreases |view|
  {
    if view != [] && kind(view[0]).Decodes() {
      assert [view[0]][1..] == [];
      assert Bytes([view[0]]) == view[0].bytes;
      if kind(view[0]).Last? {
        assert view[..1] == [view[0]];
        assert SummariesIn(view[..1], kind) == kind(view[0]).Entries() + SummariesIn([], kind);
      } else {
        var s1 := Consume(s, view[0].bytes, kind(view[0]));
        var rest := ReadFrom(s1, view[1..], kind);
        ReadFromAdvances(s1, view[1..], kind);
        var r := ReadFrom(s, view, kind);
        assert r == rest.(consumed := rest.consumed + 1);
        var taken := view[..r.consumed];
        assert taken[0] == view[0];
        assert taken[1..] == view[1..][..rest.consumed];
      }
    }
  }

  /** Why `parse` stopped: at the end of the file, after the last message, or
      at a line that does not decode, which it reports with the current line
      number and leaves unconsumed. Only the last consumed line can be the
      last message. */
  lemma {:induction false} ReadFromStops(s: ParserState, view: seq<Line>, kind: Line -> Kind)
    ensures var r := ReadFrom(s, view, kind);
      && r.consumed <= |view|
      && (forall i :: 0 <= i && i + 1 < r.consumed ==> kind(view[i]).Event?)
      && (r.outcome.Fail? ==> r.consumed < |view| && !kind(view[r.consumed]).Decodes())
      && (r.outcome.Fail? ==> r.outcome.error == kind(view[r.consumed]).ErrorAt(s.file, s.line + r.consumed))
      && (r.state.done <==> s.done || (0 < r.consumed && kind(view[r.consumed - 1]).Last?))
      && (r.outcome.Pass? ==> r.consumed == |view| || kind(view[r.consumed - 1]).Last?)
    decreases |view|
  {
    if view != [] && kind(view[0]).Event? {
      var s1 := Consume(s, view[0].bytes, kind(view[0]));
      ReadFromStops(s1, view[1..], kind);
      var rest := ReadFrom(s1, view[1..], kind);
      assert ReadFrom(s, view, kind) == rest.(consumed := rest.consumed + 1);
      assert forall i :: 1 <= i <= |view[1..]| ==> view[1..][i - 1] == view[i];
      if rest.consumed < |view[1..]| {
        assert view[1..][rest.consumed] == view[rest.consumed + 1];
      }
      if 0 < rest.consumed {
        assert view[1..][rest.consumed - 1] == view[rest.consumed];
      }
    }
  }

  /** Reaching the last message ends the read: nothing after it is looked at,
      so any bytes that follow it make no difference. The same holds of the
      line that does not decode. */
  lemma {:induction false} ReadFromIgnoresRest(s: ParserState, view: seq<Line>, kind: Line -> Kind, n: nat, tail: seq<Line>)
    requires n <= |view|
    requires var r := ReadFrom(s, view, kind); r.state.done != s.done || r.outcome.Fail?
    requires n == ReadFrom(s, view, kind).consumed + (if ReadFrom(s, view, kind).outcome.Fail? then 1 else 0)
    ensures ReadFrom(s, view[..n] + tail, kind) == ReadFrom(s, view, kind)
    decreases |view|
  {
    var v := view[..n] + tail;
    assert n >= 1 ==> v[0] == view[0] && v[1..] == view[1..][..n - 1] + tail;
    if view != [] && kind(view[0]).Event? {
      ReadFromIgnoresRest(Consume(s, view[0].bytes, kind(view[0])), view[1..], kind, n - 1, tail);
    }
  }

  /** Seeking to the end of the first `k` lines lands on line `k`. */
  lemma {:induction false} SeekToLine(lines: seq<Line>, k: nat)
    requires k <= |lines|
    ensures Seek(lines, Bytes(lines[..k])) == lines[k..]
  {
    if k > 0 {
      assert lines[..k][1..] == lines[1..][..k - 1];
      SeekToLine(lines[1..], k - 1);
      assert lines[1..][k - 1..] == lines[k..];
    } else {
      assert lines[..0] == [];
    }
  }

  /** A failing `parse` is resumable: if the offset was at the start of line
      `k`, the error names line number `line + j` where `j` lines were
      consumed, the state now points at the start of line `k + j`, and a later
      call that sees the same first `k + j` lines (the producer may have
      finished writing the broken one meanwhile) starts reading exactly at the
      line that failed. */
  lemma ParseResumesAtFailedLine(s: ParserState, file: seq<Line>, kind: Line -> Kind, k: nat, later: seq<Line>)
    requires k <= |file|
    requires s.offset == Bytes(file[..k])
    requires ParseWith(s, Readable(file), kind).outcome.Fail?
    ensures var r := ParseWith(s, Readable(file), kind);
      && k + r.consumed < |file|
      && r.state.offset == Bytes(file[..k + r.consumed])
      && r.state.line == s.line + r.consumed
      && !kind(file[k + r.consumed]).Decodes()
      && r.outcome.error == kind(file[k + r.consumed]).ErrorAt(s.file, r.state.line)
      && (k + r.consumed <= |later| && later[..k + r.consumed] == file[..k + r.consumed] ==>
            Seek(later, r.state.offset) == later[k + r.consumed..])
  {
    ParseFromLine(s, file, kind, k);
    FailedReadFromLine(s, file, kind, k);
    var j := ReadFrom(s, file[k..], kind).consumed;
    if k + j <= |later| && later[..k + j] == file[..k + j] {
      SeekToLine(later, k + j);
    }
  }

  /** With the offset at the start of line `k`, `parse` reads from line `k`. */
  lemma ParseFromLine(s: ParserState, file: seq<Line>, kind: Line -> Kind, k: nat)
    requires k <= |file|
    requires s.offset == Bytes(file[..k])
    ensures ParseWith(s, Readable(file), kind) == ReadFrom(s, file[k..], kind)
  {
    SeekToLine(file, k);
  }

  /** The failing read from the start of line `k`, in terms of the file. */
  lemma FailedReadFromLine(s: ParserState, file: seq<Line>, kind: Line -> Kind, k: nat)
    requires k <= |file|
    requires s.offset == Bytes(file[..k])
    requires ReadFrom(s, file[k..], kind).outcome.Fail?
    ensures var r := ReadFrom(s, file[k..], kind);
      && k + r.consumed < |file|
      && r.state.offset == Bytes(file[..k + r.consumed])
      && r.state.line == s.line + r.consumed
      && !kind(file[k + r.consumed]).Decodes()
      && r.outcome.error == kind(file[k + r.consumed]).ErrorAt(s.file, r.state.line)
  {
    var view := file[k..];
    FailedReadStaysAtLine(s, view, kind);
    var j := ReadFrom(s, view, kind).consumed;
    assert view[j] == file[k + j];
    BytesSplit(file, k, j);
  }

  /** The failing read in terms of the lines after the offset. */
  lemma FailedReadStaysAtLine(s: ParserState, view: seq<Line>, kind: Line -> Kind)
    requires ReadFrom(s, view, kind).outcome.Fail?
    ensures var r := ReadFrom(s, view, kind);
      && r.consumed < |view|
      && r.state.offset == s.offset + Bytes(view[..r.consumed])
      && r.state.line == s.line + r.consumed
      && !kind(view[r.consumed]).Decodes()
      && r.outcome.error == kind(view[r.consumed]).ErrorAt(s.file, s.line + r.consumed)
  {
    ReadFromStops(s, view, kind);
    ReadFromAdvances(s, view, kind);
  }

  /** At the end of the file `parse` changes nothing, so repeating it on an
      unchanged file after it succeeded without the last message is a no-op. */
  lemma ParseIdleAtEndOfFile(s: ParserState, file: seq<Line>, kind: Line -> Kind, k: nat)
    requires k <= |file|
    requires s.offset == Bytes(file[..k])
    requires var r := ParseWith(s, Readable(file), kind); r.outcome.Pass? && !r.state.done
    ensures var r := ParseWith(s, Readable(file), kind);
      ParseWith(r.state, Readable(file), kind) == Parsed(r.state, Pass, 0)
  {
    ParseFromLine(s, file, kind, k);
    var view := file[k..];
    var r := ReadFrom(s, view, kind);
    ReadFromAdvances(s, view, kind);
    ReadFromStops(s, view, kind);
    assert r.consumed == |view|;
    BytesSplit(file, k, |view|);
    assert file[..k + |view|] == file[..|file|];
    SeekToLine(file, |file|);
  }

  /** A `parse` keeps the file name and only appends entries: an index into
      the entries taken before stays valid and means the same entry. */
  lemma ParseKeepsEntries(s: ParserState, snap: Snapshot)
    ensures var t := ParseSpec(s, snap).state;
      && t.file == s.file
      && |s.testLogs| <= |t.testLogs|
      && t.testLogs[..|s.testLogs|] == s.testLogs
  {
    if snap.Readable? {
      var view := Seek(snap.lines, s.offset);
      ReadFromAdvances(s, view, KindOf);
      var t := ReadFrom(s, view, KindOf).state;
      assert t.testLogs[..|s.testLogs|] == s.testLogs;
    }
  }
}
