/** `upload` of agent/src/artifact/upload.rs: poll the BEP JSON file while the
    build writes it, hand every new failing, timed-out or flaky test on to
    `upload_test_logs` once, give up after five failed reads in a row, and
    finally upload the file itself when flaky tests are monitored and one was
    seen.

    The loop sleeps a second between reads; here each read sees the next
    element of a sequence of snapshots of the file. When the snapshots run
    out before the loop ends, the run is still polling. */
module Uploader {
  import opened Wrappers
  import opened Artifact
  import opened BepParser
  import opened ParseProperties
  import opened Staging

  const MaxRetries: nat := 5
  const Flaky := "FLAKY"

  /** The entries whose logs are uploaded, in order. */
  function Reportables(logs: seq<TestLog>): seq<TestLog>
    decreases |logs|
  {
    if logs == [] then []
    else (if Reportable(logs[0].status) then [logs[0]] else []) + Reportables(logs[1..])
  }

  /** Selecting from two runs of entries is selecting from each in turn. */
  lemma {:induction false} ReportablesAppend(a: seq<TestLog>, b: seq<TestLog>)
    ensures Reportables(a + b) == Reportables(a) + Reportables(b)
    decreases |a|
  {
    if a == [] {
      assert a + b == b;
    } else {
      var head := if Reportable(a[0].status) then [a[0]] else [];
      assert (a + b)[0] == a[0] && (a + b)[1..] == a[1..] + b;
      assert Reportables(a + b) == head + Reportables(a[1..] + b);
      ReportablesAppend(a[1..], b);
      assert head + (Reportables(a[1..]) + Reportables(b)) == (head + Reportables(a[1..])) + Reportables(b);
    }
  }

  /** Exactly the reportable entries. */
  lemma {:induction false} ReportablesSelect(logs: seq<TestLog>)
    ensures forall t :: t in Reportables(logs) <==> t in logs && Reportable(t.status)
    decreases |logs|
  {
    if logs != [] {
      ReportablesSelect(logs[1..]);
      assert logs == [logs[0]] + logs[1..];
    }
  }

  function Concat(batches: seq<seq<TestLog>>): seq<TestLog>
    decreases |batches|
  {
    if batches == [] then [] else batches[0] + Concat(batches[1..])
  }

  /** How the loop ended: the last message was read, five reads in a row
      failed, or the snapshots ran out first. */
  datatype Status = Done | Aborted(error: Error) | Polling

  /** The loop's end: its status, the parser's state, how many entries were
      handed on, the batches handed on, and for each read whether it
      succeeded. */
  datatype Run = Run(status: Status, parser: ParserState, cursor: nat,
                     batches: seq<seq<TestLog>>, trace: seq<bool>)

  /** The `'parse_loop` of `upload`, from a parser state, the retries left and
      the number of entries already handed on. Staging a batch cannot change
      its course (its errors are only logged), so staging is not part of it. */
  function Poll(p: ParserState, retries: nat, cursor: nat, snaps: seq<Snapshot>): Run
    requires 1 <= retries && cursor <= |p.testLogs|
    decreases |snaps|
  {
    if snaps == [] then Run(Polling, p, cursor, [], [])
    else
      var r := ParseSpec(p, snaps[0]);
      ParseKeepsEntries(p, snaps[0]);
      if r.outcome.Pass? then
        var batch := Reportables(r.state.testLogs[cursor..]);
        var next := |r.state.testLogs|;
        if r.state.done then Run(Done, r.state, next, [batch], [true])
        else
          var rest := Poll(r.state, MaxRetries, next, snaps[1..]);
          rest.(batches := [batch] + rest.batches, trace := [true] + rest.trace)
      else if retries == 1 then Run(Aborted(r.outcome.error), r.state, cursor, [], [false])
      else
        var rest := Poll(r.state, retries - 1, cursor, snaps[1..]);
        rest.(trace := [false] + rest.trace)
  }

  /** The effects of staging the batches one after the other. */
  function LoopEffects(tmpdir: string, batches: seq<seq<TestLog>>, mode: Mode, fails: Effect -> bool): seq<Effect>
    decreases |batches|
  {
    if batches == [] then []
    else LoopEffects(tmpdir, batches[..|batches| - 1], mode, fails)
           + StageSpec(tmpdir, batches[|batches| - 1], mode, fails).effects
  }

  /** What `upload` returns once the loop has ended, or that it is still
      polling. */
  datatype Verdict = Finished(outcome: Outcome<Error>) | StillPolling

  datatype Ending = Ending(verdict: Verdict, effects: seq<Effect>)

  /** `upload`: the loop from a fresh parser, each batch staged as it is
      handed on, then the upload of the BEP file itself when the build
      finished, flaky tests are monitored and one was seen; that upload's
      error is `upload`'s error. */
  function UploadSpec(file: string, tmpdir: string, snaps: seq<Snapshot>, mode: Mode,
                      monitorFlaky: bool, fails: Effect -> bool): Ending
  {
    var run := Poll(Initial(file), MaxRetries, 0, snaps);
    var effects := LoopEffects(tmpdir, run.batches, mode, fails);
    match run.status
    case Polling => Ending(StillPolling, effects)
    case Aborted(e) => Ending(Finished(Fail(e)), effects)
    case Done =>
      if monitorFlaky && HasStatus(run.parser.testLogs, Flaky) then
        var up := UploadArtifactsSpec(None, [file], mode, fails);
        Ending(Finished(up.outcome), effects + up.effects)
      else Ending(Finished(Pass), effects)
  }

  /* ---------------------------------------------------------------------- */
  /* Properties of the loop                                                  */
  /* ---------------------------------------------------------------------- */

  /** One turn of `Poll`, as far as the entries go. */
  lemma PollEntriesStep(p: ParserState, retries: nat, cursor: nat, snaps: seq<Snapshot>)
    requires snaps != [] && 1 <= retries && cursor <= |p.testLogs|
    ensures var r := ParseSpec(p, snaps[0]); var run := Poll(p, retries, cursor, snaps);
      && |p.testLogs| <= |r.state.testLogs| && r.state.testLogs[..|p.testLogs|] == p.testLogs
      && var batch := Reportables(r.state.testLogs[cursor..]);
      && (r.outcome.Pass? && r.state.done ==>
            run.status == Done && run.parser == r.state && run.cursor == |r.state.testLogs| && run.batches == [batch])
      && (r.outcome.Pass? && !r.state.done ==>
            var rest := Poll(r.state, MaxRetries, |r.state.testLogs|, snaps[1..]);
            && run.status == rest.status && run.parser == rest.parser && run.cursor == rest.cursor
            && run.batches == [batch] + rest.batches)
      && (r.outcome.Fail? && retries == 1 ==>
            run.status.Aborted? && run.parser == r.state && run.cursor == cursor && run.batches == [])
      && (r.outcome.Fail? && retries > 1 ==>
            var rest := Poll(r.state, retries - 1, cursor, snaps[1..]);
            && run.status == rest.status && run.parser == rest.parser && run.cursor == rest.cursor
            && run.batches == rest.batches)
  {
    ParseKeepsEntries(p, snaps[0]);
  }

  /** The batch of one turn followed by the batches after it are the
      reportable entries from the old cursor on. */
  lemma ConcatStep(logs: seq<TestLog>, final: seq<TestLog>, cursor: nat, until: nat, later: seq<seq<TestLog>>)
    requires cursor <= |logs| <= until <= |final| && final[..|logs|] == logs
    requires Concat(later) == Reportables(final[|logs|..until])
    ensures Concat([Reportables(logs[cursor..])] + later) == Reportables(final[cursor..until])
  {
    var next := |logs|;
    assert final[cursor..until] == logs[cursor..] + final[next..until];
    ReportablesAppend(logs[cursor..], final[next..until]);
    assert ([Reportables(logs[cursor..])] + later)[1..] == later;
  }

  /** Every entry the parser collected up to the cursor is handed on once, in
      order, if it is reportable; when the build finished, that is all of
      them. */
  lemma {:induction false} PollHandsOnEachEntryOnce(p: ParserState, retries: nat, cursor: nat, snaps: seq<Snapshot>)
    requires 1 <= retries && cursor <= |p.testLogs|
    ensures var run := Poll(p, retries, cursor, snaps);
      && cursor <= run.cursor <= |run.parser.testLogs|
      && |p.testLogs| <= |run.parser.testLogs|
      && run.parser.testLogs[..|p.testLogs|] == p.testLogs
      && Concat(run.batches) == Reportables(run.parser.testLogs[cursor..run.cursor])
      && (run.status.Done? ==> run.cursor == |run.parser.testLogs| && run.parser.done)
    decreases |snaps|
  {
    var run := Poll(p, retries, cursor, snaps);
    if snaps == [] {
      assert run.parser.testLogs[cursor..cursor] == [];
    } else {
      PollEntriesStep(p, retries, cursor, snaps);
      var r := ParseSpec(p, snaps[0]);
      var logs := r.state.testLogs;
      var next := |logs|;
      if r.outcome.Pass? {
        if r.state.done {
          assert Concat(run.batches) == Reportables(logs[cursor..]) + Concat([]);
          assert logs[cursor..next] == logs[cursor..];
        } else {
          var rest := Poll(r.state, MaxRetries, next, snaps[1..]);
          PollHandsOnEachEntryOnce(r.state, MaxRetries, next, snaps[1..]);
          var final := rest.parser.testLogs;
          ConcatStep(logs, final, cursor, rest.cursor, rest.batches);
          assert final[..|p.testLogs|] == logs[..|p.testLogs|];
        }
      } else if retries == 1 {
        assert run.parser.testLogs[cursor..cursor] == [];
      } else {
        var rest := Poll(r.state, retries - 1, cursor, snaps[1..]);
        PollHandsOnEachEntryOnce(r.state, retries - 1, cursor, snaps[1..]);
        assert rest.parser.testLogs[..|p.testLogs|] == logs[..|p.testLogs|];
      }
    }
  }

  /** The number of failed reads at the end of a trace. */
  function Streak(trace: seq<bool>): nat
    decreases |trace|
  {
    if trace == [] || trace[|trace| - 1] then 0 else Streak(trace[..|trace| - 1]) + 1
  }

  lemma StreakPush(t: seq<bool>, ok: bool)
    ensures Streak(t + [ok]) == if ok then 0 else Streak(t) + 1
  {
    assert (t + [ok])[..|t|] == t;
  }

  /** No point of `t`, read after `pre`, had reached five failures in a row. */
  predicate BelowLimit(pre: seq<bool>, t: seq<bool>)
    decreases |t|
  {
    t == [] || (Streak(pre) < MaxRetries && BelowLimit(pre + [t[0]], t[1..]))
  }

  lemma BelowLimitCons(pre: seq<bool>, ok: bool, t: seq<bool>)
    requires Streak(pre) < MaxRetries && BelowLimit(pre + [ok], t)
    ensures BelowLimit(pre, [ok] + t)
    ensures pre + ([ok] + t) == (pre + [ok]) + t
  {
    assert ([ok] + t)[0] == ok && ([ok] + t)[1..] == t;
  }

  /** `BelowLimit` read point by point. */
  lemma {:induction false} BelowLimitAt(pre: seq<bool>, t: seq<bool>, n: nat)
    requires BelowLimit(pre, t) && n < |t|
    ensures Streak(pre + t[..n]) < MaxRetries
    decreases n
  {
    if n == 0 {
      assert pre + t[..0] == pre;
    } else {
      BelowLimitAt(pre + [t[0]], t[1..], n - 1);
      assert (pre + [t[0]]) + t[1..][..n - 1] == pre + t[..n];
    }
  }

  /** One turn of `Poll`, as far as the reads' outcomes and the status go:
      the turn ends the run (the last message, or the last retry failing) or
      the run of the remaining snapshots carries on from it. */
  lemma PollTraceStep(p: ParserState, retries: nat, cursor: nat, snaps: seq<Snapshot>)
    requires snaps != [] && 1 <= retries && cursor <= |p.testLogs|
    ensures var r := ParseSpec(p, snaps[0]); var ok := r.outcome.Pass?; var run := Poll(p, retries, cursor, snaps);
      && cursor <= |r.state.testLogs|
      && ((ok && r.state.done) || (!ok && retries == 1) ==>
            run.trace == [ok] && (run.status.Done? <==> ok) && (run.status.Aborted? <==> !ok))
      && (!((ok && r.state.done) || (!ok && retries == 1)) ==>
            var rest := Poll(r.state, if ok then MaxRetries else retries - 1,
                             if ok then |r.state.testLogs| else cursor, snaps[1..]);
            run.trace == [ok] + rest.trace && run.status == rest.status)
  {
    ParseKeepsEntries(p, snaps[0]);
  }

  /** The streak bookkeeping of a turn that ends the run. */
  lemma LastTurnStreak(pre: seq<bool>, ok: bool, retries: nat)
    requires 1 <= retries <= MaxRetries && Streak(pre) == MaxRetries - retries
    requires ok || retries == 1
    ensures (!ok <==> Streak(pre + [ok]) == MaxRetries) && BelowLimit(pre, [ok])
  {
    StreakPush(pre, ok);
    assert [ok][1..] == [];
  }

  /** The streak bookkeeping of a turn after which the run carries on. */
  lemma NextTurnStreak(pre: seq<bool>, ok: bool, t: seq<bool>, retries: nat, aborted: bool)
    requires 1 <= retries <= MaxRetries && Streak(pre) == MaxRetries - retries
    requires ok || retries > 1
    requires aborted <==> Streak((pre + [ok]) + t) == MaxRetries
    requires BelowLimit(pre + [ok], t)
    ensures Streak(pre + [ok]) == MaxRetries - (if ok then MaxRetries else retries - 1)
    ensures (aborted <==> Streak(pre + ([ok] + t)) == MaxRetries) && BelowLimit(pre, [ok] + t)
  {
    StreakPush(pre, ok);
    BelowLimitCons(pre, ok, t);
  }

  /** The loop gives up exactly when the failed reads in a row reach five,
      and not before: with `pre` the reads before this point (whose failures
      in a row have used up the retries not left), the run stops with an
      error if and only if its reads end that way, every earlier point had
      fewer, and a run still polling used every snapshot. */
  lemma {:induction false} PollAbortsAfterFiveFailures(p: ParserState, retries: nat, cursor: nat, snaps: seq<Snapshot>,
                                                      pre: seq<bool>)
    requires 1 <= retries <= MaxRetries && cursor <= |p.testLogs|
    requires Streak(pre) == MaxRetries - retries
    ensures var run := Poll(p, retries, cursor, snaps);
      && |run.trace| <= |snaps|
      && (run.status.Aborted? <==> Streak(pre + run.trace) == MaxRetries)
      && BelowLimit(pre, run.trace)
      && (run.status.Polling? ==> |run.trace| == |snaps|)
      && (run.status.Done? ==> run.trace != [] && run.trace[|run.trace| - 1])
    decreases |snaps|
  {
    if snaps == [] {
      assert pre + [] == pre;
    } else {
      PollTraceStep(p, retries, cursor, snaps);
      var r := ParseSpec(p, snaps[0]);
      var ok := r.outcome.Pass?;
      if (ok && r.state.done) || (!ok && retries == 1) {
        LastTurnStreak(pre, ok, retries);
      } else {
        var retries' := if ok then MaxRetries else retries - 1;
        var cursor' := if ok then |r.state.testLogs| else cursor;
        var rest := Poll(r.state, retries', cursor', snaps[1..]);
        StreakPush(pre, ok);
        PollAbortsAfterFiveFailures(r.state, retries', cursor', snaps[1..], pre + [ok]);
        NextTurnStreak(pre, ok, rest.trace, retries, rest.status.Aborted?);
        assert rest.trace != [] ==> ([ok] + rest.trace)[|rest.trace|] == rest.trace[|rest.trace| - 1];
      }
    }
  }

  /** After a finished build, every reportable entry the file held has been
      handed on exactly once and in order; the BEP file itself is uploaded
      at the end exactly when flaky tests are monitored and one was seen. */
  lemma UploadReportsEverything(file: string, tmpdir: string, snaps: seq<Snapshot>, mode: Mode,
                                monitorFlaky: bool, fails: Effect -> bool)
    requires Poll(Initial(file), MaxRetries, 0, snaps).status.Done?
    ensures var run := Poll(Initial(file), MaxRetries, 0, snaps);
      var e := UploadSpec(file, tmpdir, snaps, mode, monitorFlaky, fails);
      && run.parser.done
      && Concat(run.batches) == Reportables(run.parser.testLogs)
      && e.verdict.Finished?
      && ((monitorFlaky && HasStatus(run.parser.testLogs, Flaky))
           <==> |e.effects| > |LoopEffects(tmpdir, run.batches, mode, fails)|)
      && (!monitorFlaky || !HasStatus(run.parser.testLogs, Flaky) ==> e.verdict.outcome == Pass)
  {
    var run := Poll(Initial(file), MaxRetries, 0, snaps);
    PollHandsOnEachEntryOnce(Initial(file), MaxRetries, 0, snaps);
    assert run.parser.testLogs[0..run.cursor] == run.parser.testLogs;
  }

  /** From a fresh parser, `upload` returns an error from the loop exactly
      when the reads it recorded end in five failures in a row. */
  lemma UploadGivesUpAfterFiveFailures(file: string, tmpdir: string, snaps: seq<Snapshot>, mode: Mode,
                                      fails: Effect -> bool)
    ensures var run := Poll(Initial(file), MaxRetries, 0, snaps);
      && (run.status.Aborted? <==> Streak(run.trace) == MaxRetries)
      && (forall n :: 0 <= n < |run.trace| ==> Streak(run.trace[..n]) < MaxRetries)
  {
    var run := Poll(Initial(file), MaxRetries, 0, snaps);
    PollAbortsAfterFiveFailures(Initial(file), MaxRetries, 0, snaps, []);
    assert [] + run.trace == run.trace;
    forall n | 0 <= n < |run.trace|
      ensures Streak(run.trace[..n]) < MaxRetries
    {
      BelowLimitAt([], run.trace, n);
      assert [] + run.trace[..n] == run.trace[..n];
    }
  }

  /* ---------------------------------------------------------------------- */
  /* The operation                                                           */
  /* ---------------------------------------------------------------------- */

  lemma LoopEffectsStep(tmpdir: string, batches: seq<seq<TestLog>>, batch: seq<TestLog>, mode: Mode, fails: Effect -> bool)
    ensures LoopEffects(tmpdir, batches + [batch], mode, fails)
      == LoopEffects(tmpdir, batches, mode, fails) + StageSpec(tmpdir, batch, mode, fails).effects
  {
    assert (batches + [batch])[..|batches|] == batches;
  }

  /** The loop, having handed on `handed`, is on course for `goal`: running
      the rest of the snapshots from here ends as `goal` does, handing on the
      rest of its batches. */
  ghost predicate OnCourse(p: ParserState, retries: nat, cursor: nat, snaps: seq<Snapshot>, goal: Run,
                           handed: seq<seq<TestLog>>)
  {
    && 1 <= retries && cursor <= |p.testLogs|
    && var rest := Poll(p, retries, cursor, snaps);
    && rest.status == goal.status && rest.parser == goal.parser
    && handed + rest.batches == goal.batches
  }

  /** One turn of the loop keeps it on course, or ends it where `goal` ends. */
  lemma OnCourseTurn(p: ParserState, retries: nat, cursor: nat, snaps: seq<Snapshot>, goal: Run,
                     handed: seq<seq<TestLog>>)
    requires snaps != [] && OnCourse(p, retries, cursor, snaps, goal, handed)
    ensures var r := ParseSpec(p, snaps[0]);
      && cursor <= |r.state.testLogs|
      && var batch := Reportables(r.state.testLogs[cursor..]);
      && (r.outcome.Pass? && r.state.done ==>
            goal.status == Done && goal.parser == r.state && goal.batches == handed + [batch])
      && (r.outcome.Pass? && !r.state.done ==>
            OnCourse(r.state, MaxRetries, |r.state.testLogs|, snaps[1..], goal, handed + [batch]))
      && (r.outcome.Fail? && retries == 1 ==>
            goal.status == Aborted(r.outcome.error) && goal.parser == r.state && goal.batches == handed)
      && (r.outcome.Fail? && retries > 1 ==> OnCourse(r.state, retries - 1, cursor, snaps[1..], goal, handed))
  {
    var r := ParseSpec(p, snaps[0]);
    ParseKeepsEntries(p, snaps[0]);
    var batch := Reportables(r.state.testLogs[cursor..]);
    if r.outcome.Pass? {
      if r.state.done {
        assert Poll(p, retries, cursor, snaps).batches == [batch];
      } else {
        var rest := Poll(r.state, MaxRetries, |r.state.testLogs|, snaps[1..]);
        assert Poll(p, retries, cursor, snaps).batches == [batch] + rest.batches;
        assert handed + ([batch] + rest.batches) == (handed + [batch]) + rest.batches;
      }
    } else if retries == 1 {
      assert handed + [] == handed;
    }
  }

  /** With no snapshots left the loop is still polling. */
  lemma OnCourseEnd(p: ParserState, retries: nat, cursor: nat, goal: Run, handed: seq<seq<TestLog>>)
    requires OnCourse(p, retries, cursor, [], goal, handed)
    ensures goal.status == Polling && goal.parser == p && goal.batches == handed
  {
    assert handed + [] == handed;
  }

  /** Stages one batch (`upload.rs:52-54`): its failures are only warned about, so
      only the effects are kept. */
  method HandOn(tmpdir: string, batch: seq<TestLog>, mode: Mode, fails: Effect -> bool,
                ghost handed: seq<seq<TestLog>>, effects: seq<Effect>)
    returns (effects': seq<Effect>)
    requires effects == LoopEffects(tmpdir, handed, mode, fails)
    ensures effects' == LoopEffects(tmpdir, handed + [batch], mode, fails)
  {
    var staged := UploadTestLogs(tmpdir, batch, mode, fails);
    LoopEffectsStep(tmpdir, handed, batch, mode, fails);
    effects' := effects + staged.effects;
  }

  /** The polling loop of `upload` (lines 42-73): parse, hand the new
      reportable entries to staging, and stop after the last message, after
      five failed reads in a row, or when the snapshots run out. */
  method PollLoop(parser: BepJsonParser, tmpdir: string, snaps: seq<Snapshot>, mode: Mode, fails: Effect -> bool)
    returns (status: Status, effects: seq<Effect>)
    modifies parser
    ensures var run := Poll(old(parser.State()), MaxRetries, 0, snaps);
      && status == run.status && parser.State() == run.parser
      && effects == LoopEffects(tmpdir, run.batches, mode, fails)
  {
    var retries: nat := MaxRetries;
    var cursor: nat := 0;
    effects := [];
    status := Polling;
    ghost var handed: seq<seq<TestLog>> := [];
    ghost var goal := Poll(parser.State(), retries, cursor, snaps);
    assert [] + goal.batches == goal.batches;
    var i := 0;
    while i < |snaps| && status.Polling?
      invariant 0 <= i <= |snaps|
      invariant status.Polling? ==> OnCourse(parser.State(), retries, cursor, snaps[i..], goal, handed)
      invariant !status.Polling? ==> goal.status == status && goal.parser == parser.State() && goal.batches == handed
      invariant effects == LoopEffects(tmpdir, handed, mode, fails)
      decreases |snaps| - i
    {
      ghost var before := parser.State();
      OnCourseTurn(before, retries, cursor, snaps[i..], goal, handed);
      assert snaps[i..][0] == snaps[i] && snaps[i..][1..] == snaps[i + 1..];
      var outcome := parser.Parse(snaps[i]);
      match outcome {
        case Pass =>
          retries := MaxRetries;
          var batch := Reportables(parser.testLogs[cursor..]);
          effects := HandOn(tmpdir, batch, mode, fails, handed, effects);
          handed := handed + [batch];
          cursor := |parser.testLogs|;
          if parser.done {
            status := Done;
          }
        case Fail(error) =>
          retries := retries - 1;
          if retries == 0 {
            status := Aborted(error);
          }
      }
      i := i + 1;
    }
    if status.Polling? {
      OnCourseEnd(parser.State(), retries, cursor, goal, handed);
    }
  }

  /** `upload`, with the staging directory given. */
  method Upload(file: string, tmpdir: string, snaps: seq<Snapshot>, mode: Mode, monitorFlaky: bool,
                fails: Effect -> bool)
    returns (verdict: Verdict, effects: seq<Effect>)
    ensures Ending(verdict, effects) == UploadSpec(file, tmpdir, snaps, mode, monitorFlaky, fails)
  {
    var parser := new BepJsonParser(file);
    var status;
    status, effects := PollLoop(parser, tmpdir, snaps, mode, fails);
    match status {
      case Polling =>
        return StillPolling, effects;
      case Aborted(error) =>
        return Finished(Fail(error)), effects;
      case Done =>
    }
    var flaky := parser.HasTestStatus(Flaky);
    if monitorFlaky && flaky {
      var up := UploadArtifacts(None, [file], mode, fails);
      effects := effects + up.effects;
      return Finished(up.outcome), effects;
    }
    verdict := Finished(Pass);
  }
}
