/** Staging and handing on test logs, from agent/src/artifact/upload.rs:
    `test_label_to_path`, `upload_test_logs` and `upload_artifacts`.

    Paths are strings with `/` as the separator. `PathBuf::push`, `join`,
    `parent` and `strip_prefix` are modelled on those strings for the shapes
    they receive here (a relative path never starts with `/`). The file system
    and the `buildkite-agent` process are reduced to the list of effects
    performed, and to an oracle `fails` that says which of them fail. */
module Staging {
  import opened Wrappers
  import opened Artifact

  /* ---------------------------------------------------------------------- */
  /* Paths                                                                   */
  /* ---------------------------------------------------------------------- */

  const Sep := '/'

  /** `PathBuf::push` of a relative name: a separator goes in between unless
      the path is empty or already ends with one. */
  function Push(p: string, name: string): string {
    if p == [] || p[|p| - 1] == Sep then p + name else p + [Sep] + name
  }

  /** `Path::join` of a relative path. */
  function Join(base: string, rel: string): string {
    Push(base, rel)
  }

  /** `join` with an optional working directory: none leaves the path as is. */
  function JoinIn(cwd: Option<string>, p: string): string {
    if cwd.Some? then Join(cwd.value, p) else p
  }

  /** `Path::strip_prefix`: what follows `base` and the separator after it. */
  function StripPrefix(p: string, base: string): Option<string> {
    if |base| <= |p| && p[..|base|] == base then
      var rest := p[|base|..];
      Some(if rest != [] && rest[0] == Sep then rest[1..] else rest)
    else None
  }

  /** `strip_prefix` undoes `join`: the `unwrap` in `upload_test_logs` cannot
      fail, and yields the relative path that was joined. */
  lemma StripJoin(base: string, rel: string)
    requires rel == [] || rel[0] != Sep
    ensures StripPrefix(Join(base, rel), base) == Some(rel)
  {
    var p := Join(base, rel);
    assert p[..|base|] == base;
    if base == [] || base[|base| - 1] == Sep {
      assert p[|base|..] == rel;
    } else {
      assert p[|base|..] == [Sep] + rel;
      assert ([Sep] + rel)[1..] == rel;
    }
  }

  /** `Path::parent`: everything before the last separator (`""` when there is
      none). */
  function Parent(p: string): string
    decreases |p|
  {
    if p == [] then []
    else if p[|p| - 1] == Sep then p[..|p| - 1]
    else Parent(p[..|p| - 1])
  }

  /** A plain name appended to a path does not change its parent. */
  lemma {:induction false} ParentSkipsName(q: string, name: string)
    requires forall i :: 0 <= i < |name| ==> name[i] != Sep
    ensures Parent(q + name) == Parent(q)
    decreases |name|
  {
    if name != [] {
      var init := name[..|name| - 1];
      assert (q + name)[..|q + name| - 1] == q + init;
      ParentSkipsName(q, init);
    } else {
      assert q + name == q;
    }
  }

  /** The parent of `d` pushed with a plain name is `d` itself, without the
      separator `d` may end with. */
  lemma ParentOfPush(d: string, name: string)
    requires forall i :: 0 <= i < |name| ==> name[i] != Sep
    ensures Parent(Push(d, name)) == if d != [] && d[|d| - 1] == Sep then d[..|d| - 1] else d
  {
    if d == [] || d[|d| - 1] == Sep {
      ParentSkipsName(d, name);
    } else {
      ParentSkipsName(d + [Sep], name);
      assert (d + [Sep])[..|d|] == d;
    }
  }

  /* ---------------------------------------------------------------------- */
  /* test_label_to_path                                                      */
  /* ---------------------------------------------------------------------- */

  /** Every `/` and `:` of a target becomes a separator. */
  function MapSeparators(target: string): string {
    if target == [] then []
    else [if target[0] == '/' || target[0] == ':' then Sep else target[0]] + MapSeparators(target[1..])
  }

  /** Each character of the label is kept, except that ':' becomes the
      separator. */
  lemma {:induction false} MapSeparatorsAt(target: string)
    ensures var r := MapSeparators(target);
      && |r| == |target|
      && forall i :: 0 <= i < |target| ==> r[i] == (if target[i] == '/' || target[i] == ':' then Sep else target[i])
  {
    if target != [] {
      MapSeparatorsAt(target[1..]);
      var r := MapSeparators(target);
      assert forall i :: 1 <= i < |target| ==> r[i] == MapSeparators(target[1..])[i - 1] && target[i] == target[1..][i - 1];
    }
  }

  /** `trim_start_matches(c)`. */
  function TrimStart(s: string, c: char): string {
    if s == [] || s[0] != c then s else TrimStart(s[1..], c)
  }

  /** What `TrimStart` removes is the longest leading run of `c`: the rest is
      a suffix of `s` that does not start with `c`. */
  lemma {:induction false} TrimStartRemovesRun(s: string, c: char)
    ensures var r := TrimStart(s, c);
      && |r| <= |s| && r == s[|s| - |r|..]
      && (forall i :: 0 <= i < |s| - |r| ==> s[i] == c)
      && (r == [] || r[0] != c)
  {
    if s != [] && s[0] == c {
      TrimStartRemovesRun(s[1..], c);
      var r := TrimStart(s, c);
      assert s[1..][|s| - 1 - |r|..] == s[|s| - |r|..];
    }
  }

  /** The directory of a target: separators mapped, leading ones trimmed. */
  function LabelDir(target: string): string {
    TrimStart(MapSeparators(target), Sep)
  }

  /** A target's directory holds no `:` and does not start with a separator. */
  lemma LabelDirShape(target: string)
    ensures var d := LabelDir(target);
      && (forall i :: 0 <= i < |d| ==> d[i] != ':')
      && (d == [] || d[0] != Sep)
  {
    var m := MapSeparators(target);
    MapSeparatorsAt(target);
    TrimStartRemovesRun(m, Sep);
    var d := TrimStart(m, Sep);
    assert forall i :: 0 <= i < |d| ==> d[i] == m[|m| - |d| + i];
  }

  function Digit(d: nat): (c: char)
    requires d < 10
    ensures '0' <= c <= '9'
  {
    ('0' as int + d) as char
  }

  predicate IsDigits(s: string) {
    forall i :: 0 <= i < |s| ==> '0' <= s[i] <= '9'
  }

  /** Decimal notation of a natural number, as `format!("{}", n)`. */
  function Decimal(n: nat): string
    decreases n
  {
    if n < 10 then [Digit(n)] else Decimal(n / 10) + [Digit(n % 10)]
  }

  /** Decimal notation is a non-empty string of digits. */
  lemma {:induction false} DecimalDigits(n: nat)
    ensures |Decimal(n)| >= 1 && IsDigits(Decimal(n))
    decreases n
  {
    if n >= 10 {
      DecimalDigits(n / 10);
    }
  }

  /** The number a string of digits denotes. */
  function DecimalValue(s: string): int
    decreases |s|
  {
    if s == [] then 0 else 10 * DecimalValue(s[..|s| - 1]) + (s[|s| - 1] as int - '0' as int)
  }

  lemma {:induction false} DecimalRoundTrip(n: nat)
    ensures DecimalValue(Decimal(n)) == n
    decreases n
  {
    var s := Decimal(n);
    if n >= 10 {
      DecimalRoundTrip(n / 10);
      assert s[..|s| - 1] == Decimal(n / 10);
    }
  }

  /** Decimal notation is one-to-one. */
  lemma DecimalInjective(a: nat, b: nat)
    requires Decimal(a) == Decimal(b)
    ensures a == b
  {
    DecimalRoundTrip(a);
    DecimalRoundTrip(b);
  }

  const TestLogName := "test.log"
  const AttemptPrefix := "attempt_"
  const LogSuffix := ".log"

  /** The file name of an attempt: `test.log` for attempt 0, otherwise
      `attempt_<n>.log`. */
  function FileName(attempt: nat): string {
    if attempt == 0 then TestLogName else AttemptPrefix + Decimal(attempt) + LogSuffix
  }

  /** A file name is a single, non-empty path component. */
  lemma FileNamePlain(attempt: nat)
    ensures FileName(attempt) != []
    ensures forall i :: 0 <= i < |FileName(attempt)| ==> FileName(attempt)[i] != Sep && FileName(attempt)[i] != ':'
  {
    if attempt > 0 {
      var s := FileName(attempt);
      var d := Decimal(attempt);
      DecimalDigits(attempt);
      forall i | 0 <= i < |s|
        ensures s[i] != Sep && s[i] != ':'
      {
        if i < |AttemptPrefix| {
          assert s[i] == AttemptPrefix[i];
        } else if i < |AttemptPrefix| + |d| {
          assert s[i] == d[i - |AttemptPrefix|];
        } else {
          assert s[i] == LogSuffix[i - |AttemptPrefix| - |d|];
        }
      }
    }
  }

  /** Different attempts get different file names. */
  lemma FileNameInjective(a: nat, b: nat)
    requires FileName(a) == FileName(b)
    ensures a == b
  {
    var fa, fb := FileName(a), FileName(b);
    if a != 0 && b != 0 {
      var p := |AttemptPrefix|;
      DecimalDigits(a);
      DecimalDigits(b);
      assert fa[p..|fa| - |LogSuffix|] == Decimal(a);
      assert fb[p..|fb| - |LogSuffix|] == Decimal(b);
      DecimalInjective(a, b);
    }
  }

  /** The path of an attempt's log below the staging directory. */
  function RelPath(target: string, attempt: nat): string {
    Push(LabelDir(target), FileName(attempt))
  }

  /** `test_label_to_path`: the attempt's log path joined under `tmpdir`, so
      that `strip_prefix(tmpdir)` gives back exactly that relative path. */
  function TestLabelToPath(tmpdir: string, target: string, attempt: nat): (p: string)
    ensures StripPrefix(p, tmpdir) == Some(RelPath(target, attempt))
  {
    RelPathShape(target, attempt);
    StripJoin(tmpdir, RelPath(target, attempt));
    Join(tmpdir, RelPath(target, attempt))
  }

  /** The relative path is a relative path: it holds no `:`, does not start
      with a separator, and ends with the attempt's file name. */
  lemma RelPathShape(target: string, attempt: nat)
    ensures var r := RelPath(target, attempt);
      && (forall i :: 0 <= i < |r| ==> r[i] != ':')
      && r != [] && r[0] != Sep
      && r[|r| - |FileName(attempt)|..] == FileName(attempt)
  {
    var d, f := LabelDir(target), FileName(attempt);
    FileNamePlain(attempt);
    LabelDirShape(target);
    var r := RelPath(target, attempt);
    if d == [] || d[|d| - 1] == Sep {
      assert r == d + f;
      assert d == [] ==> r[0] == f[0];
    } else {
      assert r == d + [Sep] + f;
    }
    assert r[|r| - |f|..] == f;
    forall i | 0 <= i < |r|
      ensures r[i] != ':'
    {
      if i >= |r| - |f| {
        assert r[i] == f[i - (|r| - |f|)];
      } else if i < |d| {
        assert r[i] == d[i];
      }
    }
  }

  /** Two attempts of one target never share a file. */
  lemma RelPathInjective(target: string, a: nat, b: nat)
    requires RelPath(target, a) == RelPath(target, b)
    ensures a == b
  {
    PushInjective(LabelDir(target), FileName(a), FileName(b));
    FileNameInjective(a, b);
  }

  /** Pushing onto one path keeps the pushed names apart. */
  lemma PushInjective(p: string, x: string, y: string)
    requires Push(p, x) == Push(p, y)
    ensures x == y
  {
    var n := if p == [] || p[|p| - 1] == Sep then |p| else |p| + 1;
    assert Push(p, x)[n..] == x;
    assert Push(p, y)[n..] == y;
  }

  /** Joining to a pushed path is pushing to the joined path. */
  lemma JoinPush(base: string, d: string, name: string)
    requires d != []
    ensures Join(base, Push(d, name)) == Push(Join(base, d), name)
  {
    var b: string := if base == [] || base[|base| - 1] == Sep then [] else [Sep];
    var t: string := if d[|d| - 1] == Sep then [] else [Sep];
    assert Push(d, name) == d + t + name;
    var j := Join(base, d);
    assert j == base + b + d;
    assert j[|j| - 1] == d[|d| - 1];
    assert Push(j, name) == j + t + name;
    assert base + b + (d + t + name) == (base + b + d) + t + name;
  }

  lemma ParentInBase(base: string, name: string)
    requires forall i :: 0 <= i < |name| ==> name[i] != Sep
    ensures var p := Join(base, []);
      Parent(Join(base, Push([], name))) == if p != [] && p[|p| - 1] == Sep then p[..|p| - 1] else p
  {
    assert Push([], name) == name;
    ParentOfPush(base, name);
    var p := Join(base, []);
    if base != [] && base[|base| - 1] != Sep {
      assert p == base + [Sep];
      assert p[..|p| - 1] == base;
    } else {
      assert p == base;
    }
  }

  /** The parent of a plain name pushed below `d` in `base`. */
  lemma ParentOfJoined(base: string, d: string, name: string)
    requires forall i :: 0 <= i < |name| ==> name[i] != Sep
    ensures var p := Join(base, d);
      Parent(Join(base, Push(d, name))) == if p != [] && p[|p| - 1] == Sep then p[..|p| - 1] else p
  {
    if d == [] {
      ParentInBase(base, name);
    } else {
      JoinPush(base, d, name);
      ParentOfPush(Join(base, d), name);
    }
  }

  /** The directory `upload_test_logs` creates before copying an attempt is
      the one the copy lands in: the staging directory joined with the
      target's directory. */
  lemma CreatedDirHoldsLog(tmpdir: string, target: string, attempt: nat)
    ensures var p := Join(tmpdir, LabelDir(target));
      Parent(TestLabelToPath(tmpdir, target, attempt))
        == if p != [] && p[|p| - 1] == Sep then p[..|p| - 1] else p
  {
    FileNamePlain(attempt);
    ParentOfJoined(tmpdir, LabelDir(target), FileName(attempt));
  }

  // The cases the repository's own tests pin down.

  lemma RootTargetExample()
    ensures RelPath("//:test", 0) == "test/test.log"
  {
    TestDir();
    var d := LabelDir("//:test");
    assert d[|d| - 1] != Sep;
    assert FileName(0) == "test.log";
    assert RelPath("//:test", 0) == d + [Sep] + "test.log";
  }

  lemma TestDir()
    ensures LabelDir("//:test") == "test"
  {
    var m := MapSeparators("//:test");
    assert m == "///test";
    assert m[3..] == "test";
  }

  lemma PackageTargetExample()
    ensures RelPath("//foo/bar", 0) == "foo/bar/" + "test.log"
  {
    FooBarDir();
    PushExample("foo/bar", "test.log");
  }

  lemma PushExample(d: string, name: string)
    requires d == "foo/bar"
    ensures Push(d, name) == "foo/bar/" + name
  {
    assert d[|d| - 1] == 'r';
  }

  lemma FirstRetryName()
    ensures FileName(1) == "attempt_1.log"
  {
    assert Decimal(1) == "1";
  }

  lemma FooBarDir()
    ensures LabelDir("//foo/bar") == "foo/bar"
  {
    var m := MapSeparators("//foo/bar");
    assert m == "//foo/bar";
    assert m[2..] == "foo/bar";
  }

  lemma AttemptExample()
    ensures RelPath("//foo/bar", 1) == "foo/bar/" + "attempt_1.log"
  {
    FooBarDir();
    FirstRetryName();
    PushExample("foo/bar", "attempt_1.log");
  }

  /* ---------------------------------------------------------------------- */
  /* Which files are staged, under which names                               */
  /* ---------------------------------------------------------------------- */

  const FileProtocol := "file://"

  predicate IsFileUri(p: string) {
    |FileProtocol| <= |p| && p[..|FileProtocol|] == FileProtocol
  }

  /** The local paths of the `file://` URIs among `paths`, in order; other
      URIs are skipped with a warning. */
  function Accepted(paths: seq<string>): seq<string>
    decreases |paths|
  {
    if paths == [] then []
    else
      var init, p := paths[..|paths| - 1], paths[|paths| - 1];
      Accepted(init) + if IsFileUri(p) then [p[|FileProtocol|..]] else []
  }

  /** Each accepted path is a listed `file://` URI with its scheme removed,
      and every listed `file://` URI is accepted; with no such URI nothing is
      accepted. */
  lemma {:induction false} AcceptedShape(paths: seq<string>)
    ensures var r := Accepted(paths);
      && |r| <= |paths|
      && (forall i :: 0 <= i < |r| ==> FileProtocol + r[i] in paths)
      && (forall j :: 0 <= j < |paths| && IsFileUri(paths[j]) ==> paths[j][|FileProtocol|..] in r)
      && ((forall j :: 0 <= j < |paths| ==> !IsFileUri(paths[j])) ==> r == [])
    decreases |paths|
  {
    if paths != [] {
      var init, p := paths[..|paths| - 1], paths[|paths| - 1];
      AcceptedShape(init);
      var r := Accepted(paths);
      assert forall i :: 0 <= i < |Accepted(init)| ==> r[i] == Accepted(init)[i];
      assert IsFileUri(p) ==> FileProtocol + p[|FileProtocol|..] == p;
      assert forall x :: x in init ==> x in paths;
      assert forall x :: x in Accepted(init) ==> x in r;
      forall j | 0 <= j < |paths| && IsFileUri(paths[j])
        ensures paths[j][|FileProtocol|..] in r
      {
        if j < |init| {
          assert paths[j] == init[j];
        } else {
          assert r[|r| - 1] == p[|FileProtocol|..];
        }
      }
    }
  }

  /** The filter keeps input order: the accepted paths of two runs of URIs
      are those of the first run, then those of the second. */
  lemma {:induction false} AcceptedAppend(a: seq<string>, b: seq<string>)
    ensures Accepted(a + b) == Accepted(a) + Accepted(b)
    decreases |b|
  {
    if b == [] {
      assert a + b == a;
    } else {
      var init, p := b[..|b| - 1], b[|b| - 1];
      assert (a + b)[..|a + b| - 1] == a + init;
      assert (a + b)[|a + b| - 1] == p;
      AcceptedAppend(a, init);
    }
  }

  /** A single URI is accepted, without its scheme, exactly when it starts
      with `file://`. */
  lemma AcceptedOne(p: string)
    ensures Accepted([p]) == if IsFileUri(p) then [p[|FileProtocol|..]] else []
  {
    assert [p][..0] == [];
  }

  /** One staged file: where it is copied from, and its path below the
      staging directory. */
  datatype Staged = Staged(source: string, rel: string)

  /** The attempt number of the first accepted path of an entry: 1 when the
      entry lists several paths (accepted or not), else 0. */
  function FirstAttempt(log: TestLog): nat {
    if |log.paths| > 1 then 1 else 0
  }

  /** The staged files of one entry as the loop produces them: each accepted
      path takes the next attempt number, starting from `first`. */
  function StagedPaths(target: string, first: nat, paths: seq<string>): seq<Staged>
    decreases |paths|
  {
    if paths == [] then []
    else
      var init, p := paths[..|paths| - 1], paths[|paths| - 1];
      StagedPaths(target, first, init)
        + if IsFileUri(p) then [Staged(p[|FileProtocol|..], RelPath(target, first + |Accepted(init)|))] else []
  }

  /** Independently of the loop: the `i`-th accepted path is attempt
      `first + i`. */
  lemma {:induction false} StagedPathsNumbered(target: string, first: nat, paths: seq<string>)
    ensures var s := StagedPaths(target, first, paths);
      && |s| == |Accepted(paths)|
      && forall i :: 0 <= i < |s| ==> s[i] == Staged(Accepted(paths)[i], RelPath(target, first + i))
    decreases |paths|
  {
    if paths != [] {
      var init, p := paths[..|paths| - 1], paths[|paths| - 1];
      StagedPathsNumbered(target, first, init);
      var s0, a0 := StagedPaths(target, first, init), Accepted(init);
      var s, a := StagedPaths(target, first, paths), Accepted(paths);
      if IsFileUri(p) {
        var item := Staged(p[|FileProtocol|..], RelPath(target, first + |a0|));
        assert s == s0 + [item];
        assert a == a0 + [p[|FileProtocol|..]];
        NumberedAppend(target, first, s0, a0, item);
      } else {
        assert s == s0 + [] && a == a0 + [];
      }
    }
  }

  /** One more accepted path, staged as the next attempt, keeps the
      numbering. */
  lemma NumberedAppend(target: string, first: nat, s0: seq<Staged>, a0: seq<string>, item: Staged)
    requires |s0| == |a0|
    requires forall i :: 0 <= i < |s0| ==> s0[i] == Staged(a0[i], RelPath(target, first + i))
    requires item.rel == RelPath(target, first + |a0|)
    ensures var s, a := s0 + [item], a0 + [item.source];
      forall i :: 0 <= i < |s| ==> s[i] == Staged(a[i], RelPath(target, first + i))
  {
    var s, a := s0 + [item], a0 + [item.source];
    forall i | 0 <= i < |s|
      ensures s[i] == Staged(a[i], RelPath(target, first + i))
    {
      if i < |s0| {
        assert s[i] == s0[i] && a[i] == a0[i];
      }
    }
  }

  lemma StagedRel(target: string, first: nat, paths: seq<string>, i: nat)
    requires i < |StagedPaths(target, first, paths)|
    ensures StagedPaths(target, first, paths)[i].rel == RelPath(target, first + i)
  {
    StagedPathsNumbered(target, first, paths);
  }

  /** Within one entry, no two staged files share a name. */
  lemma StagedNamesDistinct(target: string, first: nat, paths: seq<string>, i: nat, j: nat)
    requires i < j < |StagedPaths(target, first, paths)|
    ensures StagedPaths(target, first, paths)[i].rel != StagedPaths(target, first, paths)[j].rel
  {
    StagedRel(target, first, paths, i);
    StagedRel(target, first, paths, j);
    if RelPath(target, first + i) == RelPath(target, first + j) {
      RelPathInjective(target, first + i, first + j);
    }
  }

  /** The staged files of one entry. */
  function StagedOf(log: TestLog): seq<Staged> {
    StagedPaths(log.target, FirstAttempt(log), log.paths)
  }

  /** The staged files of a batch, entry after entry. */
  function StagedAll(logs: seq<TestLog>): seq<Staged>
    decreases |logs|
  {
    if logs == [] then [] else StagedAll(logs[..|logs| - 1]) + StagedOf(logs[|logs| - 1])
  }

  function Rels(staged: seq<Staged>): (r: seq<string>)
    ensures |r| == |staged| && forall i :: 0 <= i < |r| ==> r[i] == staged[i].rel
  {
    seq(|staged|, i requires 0 <= i < |staged| => staged[i].rel)
  }

  /* ---------------------------------------------------------------------- */
  /* Effects                                                                 */
  /* ---------------------------------------------------------------------- */

  /** What a step reports, and the effects it performed in order. */
  datatype Report = Report(outcome: Outcome<Error>, effects: seq<Effect>)

  const Agent := "buildkite-agent"

  /** `upload_artifacts`: a dry run reports each path (joined to `cwd`) and
      cannot fail; otherwise one `buildkite-agent artifact upload` with all of
      them, which fails when the command cannot be run. */
  function UploadArtifactsSpec(cwd: Option<string>, artifacts: seq<string>, mode: Mode, fails: Effect -> bool): Report {
    match mode
    case Dry => Report(Pass, seq(|artifacts|, i requires 0 <= i < |artifacts| => Announce(JoinIn(cwd, artifacts[i]))))
    case Buildkite =>
      var e := AgentUpload(cwd, artifacts);
      Report(if fails(e) then Fail(CommandFailed(Agent)) else Pass, [e])
  }

  /** Copying staged files one by one: create the destination's directory,
      then copy; the first failure stops everything. */
  function CopyRun(tmpdir: string, staged: seq<Staged>, fails: Effect -> bool): Report
    decreases |staged|
  {
    if staged == [] then Report(Pass, [])
    else
      var prev := CopyRun(tmpdir, staged[..|staged| - 1], fails);
      if prev.outcome.Fail? then prev
      else
        var s := staged[|staged| - 1];
        var dest := Join(tmpdir, s.rel);
        var mk := CreateDirAll(Parent(dest));
        if fails(mk) then Report(Fail(CreateDirFailed(dest)), prev.effects + [mk])
        else
          var cp := CopyFile(s.source, dest);
          Report(if fails(cp) then Fail(CopyFailed(s.source, dest)) else Pass, prev.effects + [mk, cp])
  }

  /** Once a copy has failed, further staged files change nothing. */
  lemma {:induction false} CopyRunStops(tmpdir: string, staged: seq<Staged>, more: seq<Staged>, fails: Effect -> bool)
    requires CopyRun(tmpdir, staged, fails).outcome.Fail?
    ensures CopyRun(tmpdir, staged + more, fails) == CopyRun(tmpdir, staged, fails)
    decreases |more|
  {
    if more != [] {
      var init := more[..|more| - 1];
      assert (staged + more)[..|staged + more| - 1] == staged + init;
      CopyRunStops(tmpdir, staged, init, fails);
    } else {
      assert staged + more == staged;
    }
  }

  /** The effects of copying every staged file: its directory, then the
      copy. */
  function Copies(tmpdir: string, staged: seq<Staged>): seq<Effect>
    decreases |staged|
  {
    if staged == [] then []
    else
      var s := staged[|staged| - 1];
      var dest := Join(tmpdir, s.rel);
      Copies(tmpdir, staged[..|staged| - 1]) + [CreateDirAll(Parent(dest)), CopyFile(s.source, dest)]
  }

  /** A successful copy run performs all the copies. */
  lemma {:induction false} CopyRunPasses(tmpdir: string, staged: seq<Staged>, fails: Effect -> bool)
    requires CopyRun(tmpdir, staged, fails).outcome.Pass?
    ensures CopyRun(tmpdir, staged, fails).effects == Copies(tmpdir, staged)
    decreases |staged|
  {
    if staged != [] {
      CopyRunPasses(tmpdir, staged[..|staged| - 1], fails);
    }
  }

  /** The copies are two effects per staged file, in order. */
  lemma {:induction false} CopiesInOrder(tmpdir: string, staged: seq<Staged>)
    ensures var e := Copies(tmpdir, staged);
      && |e| == 2 * |staged|
      && forall i :: 0 <= i < |staged| ==>
           e[2 * i] == CreateDirAll(Parent(Join(tmpdir, staged[i].rel)))
           && e[2 * i + 1] == CopyFile(staged[i].source, Join(tmpdir, staged[i].rel))
    decreases |staged|
  {
    if staged != [] {
      var init := staged[..|staged| - 1];
      CopiesInOrder(tmpdir, init);
      var prev, e := Copies(tmpdir, init), Copies(tmpdir, staged);
      forall i | 0 <= i < |init|
        ensures e[2 * i] == CreateDirAll(Parent(Join(tmpdir, staged[i].rel)))
        ensures e[2 * i + 1] == CopyFile(staged[i].source, Join(tmpdir, staged[i].rel))
      {
        assert staged[i] == init[i];
        assert e[2 * i] == prev[2 * i] && e[2 * i + 1] == prev[2 * i + 1];
      }
    }
  }

  /** Every successful copy run performs, for each staged file in order, a
      directory creation and a copy to its destination. */
  lemma CopyRunCopiesAll(tmpdir: string, staged: seq<Staged>, fails: Effect -> bool)
    requires CopyRun(tmpdir, staged, fails).outcome.Pass?
    ensures var e := CopyRun(tmpdir, staged, fails).effects;
      && |e| == 2 * |staged|
      && forall i :: 0 <= i < |staged| ==>
           e[2 * i] == CreateDirAll(Parent(Join(tmpdir, staged[i].rel)))
           && e[2 * i + 1] == CopyFile(staged[i].source, Join(tmpdir, staged[i].rel))
  {
    CopyRunPasses(tmpdir, staged, fails);
    CopiesInOrder(tmpdir, staged);
  }

  /** `upload_test_logs`: nothing for an empty batch; otherwise stage every
      accepted path (in a dry run only the names), then upload the names
      from the staging directory. */
  function StageSpec(tmpdir: string, logs: seq<TestLog>, mode: Mode, fails: Effect -> bool): Report {
    if logs == [] then Report(Pass, [])
    else
      var staged := StagedAll(logs);
      var copied := if mode == Dry then Report(Pass, []) else CopyRun(tmpdir, staged, fails);
      if copied.outcome.Fail? then copied
      else
        var up := UploadArtifactsSpec(Some(tmpdir), Rels(staged), mode, fails);
        Report(up.outcome, copied.effects + up.effects)
  }

  /** A dry run touches no file, cannot fail, and reports each staged file at
      its place in the staging directory. */
  lemma DryRunOnlyAnnounces(tmpdir: string, logs: seq<TestLog>, fails: Effect -> bool)
    requires logs != []
    ensures var r := StageSpec(tmpdir, logs, Dry, fails);
      var staged := StagedAll(logs);
      && r.outcome == Pass
      && |r.effects| == |staged|
      && forall i :: 0 <= i < |staged| ==> r.effects[i] == Announce(Join(tmpdir, staged[i].rel))
  {
    var r := StageSpec(tmpdir, logs, Dry, fails);
    assert r.effects == [] + UploadArtifactsSpec(Some(tmpdir), Rels(StagedAll(logs)), Dry, fails).effects;
  }

  /** A batch whose entries carry no `file://` URI at all still runs the
      agent, with an empty list. */
  lemma EmptyStagingStillUploads(tmpdir: string, logs: seq<TestLog>, fails: Effect -> bool)
    requires logs != [] && StagedAll(logs) == []
    ensures StageSpec(tmpdir, logs, Buildkite, fails).effects == [AgentUpload(Some(tmpdir), [])]
  {
    assert Rels([]) == [];
  }

  /** The names handed to the agent are exactly the staged names, and each
      lies below the staging directory it is uploaded from. */
  lemma UploadedNamesAreStaged(tmpdir: string, logs: seq<TestLog>, fails: Effect -> bool)
    requires logs != []
    requires StageSpec(tmpdir, logs, Buildkite, fails).outcome.Pass?
    ensures var e := StageSpec(tmpdir, logs, Buildkite, fails).effects;
      && e != []
      && e[|e| - 1] == AgentUpload(Some(tmpdir), Rels(StagedAll(logs)))
      && forall i :: 0 <= i < |StagedAll(logs)| ==>
           StripPrefix(Join(tmpdir, StagedAll(logs)[i].rel), tmpdir) == Some(StagedAll(logs)[i].rel)
  {
    var staged := StagedAll(logs);
    forall i | 0 <= i < |staged|
      ensures StripPrefix(Join(tmpdir, staged[i].rel), tmpdir) == Some(staged[i].rel)
    {
      RelsAreRelative(logs, i);
      StripJoin(tmpdir, staged[i].rel);
    }
  }

  /** Every staged name is some entry's relative log path. */
  lemma {:induction false} RelsAreRelative(logs: seq<TestLog>, i: nat)
    requires i < |StagedAll(logs)|
    ensures StagedAll(logs)[i].rel != [] && StagedAll(logs)[i].rel[0] != Sep
    decreases |logs|
  {
    var init, last := logs[..|logs| - 1], logs[|logs| - 1];
    if i < |StagedAll(init)| {
      RelsAreRelative(init, i);
    } else {
      var j := i - |StagedAll(init)|;
      StagedPathsNumbered(last.target, FirstAttempt(last), last.paths);
      RelPathShape(last.target, FirstAttempt(last) + j);
    }
  }

  predicate IsPrefix<T(==)>(a: seq<T>, b: seq<T>) {
    |a| <= |b| && b[..|a|] == a
  }

  lemma {:induction false} StagedPathsPrefix(target: string, first: nat, paths: seq<string>, j: nat)
    requires j <= |paths|
    ensures IsPrefix(StagedPaths(target, first, paths[..j]), StagedPaths(target, first, paths))
    decreases |paths|
  {
    if j < |paths| {
      var init := paths[..|paths| - 1];
      assert init[..j] == paths[..j];
      StagedPathsPrefix(target, first, init, j);
    } else {
      assert paths[..j] == paths;
    }
  }

  lemma {:induction false} StagedAllPrefix(logs: seq<TestLog>, i: nat)
    requires i <= |logs|
    ensures IsPrefix(StagedAll(logs[..i]), StagedAll(logs))
    decreases |logs|
  {
    if i < |logs| {
      var init := logs[..|logs| - 1];
      assert init[..i] == logs[..i];
      StagedAllPrefix(init, i);
    } else {
      assert logs[..i] == logs;
    }
  }

  /** A failure within a prefix of the files decides the run. */
  lemma CopyRunFailsEarly(tmpdir: string, mid: seq<Staged>, all: seq<Staged>, fails: Effect -> bool)
    requires IsPrefix(mid, all)
    requires CopyRun(tmpdir, mid, fails).outcome.Fail?
    ensures CopyRun(tmpdir, all, fails) == CopyRun(tmpdir, mid, fails)
  {
    var rest := all[|mid|..];
    assert all == mid + rest;
    CopyRunStops(tmpdir, mid, rest, fails);
  }

  lemma PrefixAfter<T>(done: seq<T>, mid: seq<T>, all: seq<T>)
    requires IsPrefix(mid, all)
    ensures IsPrefix(done + mid, done + all)
  {
    assert (done + all)[..|done + mid|] == done + all[..|mid|];
  }

  /** A copy that fails at path `j` of an entry decides the entry. */
  lemma EntryFailureIsFinal(tmpdir: string, done: seq<Staged>, log: TestLog, j: nat, fails: Effect -> bool)
    requires j < |log.paths|
    requires CopyRun(tmpdir, done + StagedPaths(log.target, FirstAttempt(log), log.paths[..j + 1]), fails).outcome.Fail?
    ensures CopyRun(tmpdir, done + StagedOf(log), fails)
      == CopyRun(tmpdir, done + StagedPaths(log.target, FirstAttempt(log), log.paths[..j + 1]), fails)
  {
    var mid := StagedPaths(log.target, FirstAttempt(log), log.paths[..j + 1]);
    StagedPathsPrefix(log.target, FirstAttempt(log), log.paths, j + 1);
    PrefixAfter(done, mid, StagedOf(log));
    CopyRunFailsEarly(tmpdir, done + mid, done + StagedOf(log), fails);
  }

  /** A copy that fails in entry `i` decides the whole batch. */
  lemma BatchFailureIsFinal(tmpdir: string, logs: seq<TestLog>, i: nat, fails: Effect -> bool)
    requires i < |logs|
    requires CopyRun(tmpdir, StagedAll(logs[..i + 1]), fails).outcome.Fail?
    ensures StageSpec(tmpdir, logs, Buildkite, fails) == CopyRun(tmpdir, StagedAll(logs[..i + 1]), fails)
  {
    var upto, all := StagedAll(logs[..i + 1]), StagedAll(logs);
    StagedAllPrefix(logs, i + 1);
    CopyRunFailsEarly(tmpdir, upto, all, fails);
  }

  /** An accepted path is staged under the next attempt number. */
  lemma StagedAccept(done: seq<Staged>, target: string, first: nat, paths: seq<string>, j: nat)
    requires j < |paths| && IsFileUri(paths[j])
    ensures |Accepted(paths[..j + 1])| == |Accepted(paths[..j])| + 1
    ensures done + StagedPaths(target, first, paths[..j + 1]) == done + StagedPaths(target, first, paths[..j])
      + [Staged(paths[j][|FileProtocol|..], RelPath(target, first + |Accepted(paths[..j])|))]
  {
    assert paths[..j + 1][..j] == paths[..j];
  }

  /** Any other path is skipped. */
  lemma StagedSkip(target: string, first: nat, paths: seq<string>, j: nat)
    requires j < |paths| && !IsFileUri(paths[j])
    ensures Accepted(paths[..j + 1]) == Accepted(paths[..j])
    ensures StagedPaths(target, first, paths[..j + 1]) == StagedPaths(target, first, paths[..j])
  {
    assert paths[..j + 1][..j] == paths[..j];
  }

  lemma StagedAllStep(logs: seq<TestLog>, i: nat)
    requires i < |logs|
    ensures StagedAll(logs[..i + 1]) == StagedAll(logs[..i]) + StagedOf(logs[i])
  {
    assert logs[..i + 1][..i] == logs[..i];
  }

  // One more staged file, after a run that succeeded so far.

  lemma CopyRunDirFails(tmpdir: string, staged: seq<Staged>, s: Staged, fails: Effect -> bool)
    requires CopyRun(tmpdir, staged, fails).outcome.Pass?
    requires fails(CreateDirAll(Parent(Join(tmpdir, s.rel))))
    ensures CopyRun(tmpdir, staged + [s], fails) == Report(Fail(CreateDirFailed(Join(tmpdir, s.rel))),
      CopyRun(tmpdir, staged, fails).effects + [CreateDirAll(Parent(Join(tmpdir, s.rel)))])
  {
    assert (staged + [s])[..|staged|] == staged;
  }

  lemma CopyRunCopy(tmpdir: string, staged: seq<Staged>, s: Staged, fails: Effect -> bool)
    requires CopyRun(tmpdir, staged, fails).outcome.Pass?
    requires !fails(CreateDirAll(Parent(Join(tmpdir, s.rel))))
    ensures var dest := Join(tmpdir, s.rel);
      CopyRun(tmpdir, staged + [s], fails) == Report(
        if fails(CopyFile(s.source, dest)) then Fail(CopyFailed(s.source, dest)) else Pass,
        CopyRun(tmpdir, staged, fails).effects + [CreateDirAll(Parent(dest)), CopyFile(s.source, dest)])
  {
    assert (staged + [s])[..|staged|] == staged;
  }

  lemma RelsAppend(staged: seq<Staged>, s: Staged)
    ensures Rels(staged + [s]) == Rels(staged) + [s.rel]
  {
  }

  /** When every copy succeeded, the batch ends with the upload. */
  lemma StageSpecAfterCopies(tmpdir: string, logs: seq<TestLog>, mode: Mode, fails: Effect -> bool, effects: seq<Effect>)
    requires logs != []
    requires mode == Buildkite ==> CopyRun(tmpdir, StagedAll(logs), fails) == Report(Pass, effects)
    requires mode == Dry ==> effects == []
    ensures var up := UploadArtifactsSpec(Some(tmpdir), Rels(StagedAll(logs)), mode, fails);
      StageSpec(tmpdir, logs, mode, fails) == Report(up.outcome, effects + up.effects)
  {
  }

  /* ---------------------------------------------------------------------- */
  /* The operations                                                          */
  /* ---------------------------------------------------------------------- */

  /** `upload_artifacts`. */
  method UploadArtifacts(cwd: Option<string>, artifacts: seq<string>, mode: Mode, fails: Effect -> bool)
    returns (r: Report)
    ensures r == UploadArtifactsSpec(cwd, artifacts, mode, fails)
  {
    match mode {
      case Dry =>
        var effects := [];
        for i := 0 to |artifacts|
          invariant effects == seq(i, k requires 0 <= k < i => Announce(JoinIn(cwd, artifacts[k])))
        {
          var path := if cwd.Some? then Join(cwd.value, artifacts[i]) else artifacts[i];
          effects := effects + [Announce(path)];
        }
        r := Report(Pass, effects);
      case Buildkite =>
        var e := AgentUpload(cwd, artifacts);
        r := Report(if fails(e) then Fail(CommandFailed(Agent)) else Pass, [e]);
    }
  }

  /** The body of that loop for one accepted path: outside a dry run,
      create the destination's directory, then copy the file there. */
  method StageFile(tmpdir: string, target: string, attempt: nat, source: string, mode: Mode,
                   fails: Effect -> bool, ghost staged: seq<Staged>, effects: seq<Effect>)
    returns (r: Report, rel: string)
    requires mode == Buildkite ==> CopyRun(tmpdir, staged, fails) == Report(Pass, effects)
    requires mode == Dry ==> effects == []
    ensures mode == Buildkite ==> r == CopyRun(tmpdir, staged + [Staged(source, RelPath(target, attempt))], fails)
    ensures mode == Dry ==> r == Report(Pass, [])
    ensures r.outcome.Pass? ==> rel == RelPath(target, attempt)
  {
    var newPath := TestLabelToPath(tmpdir, target, attempt);
    ghost var item := Staged(source, RelPath(target, attempt));
    if mode == Buildkite {
      var mk := CreateDirAll(Parent(newPath));
      if fails(mk) {
        CopyRunDirFails(tmpdir, staged, item, fails);
        return Report(Fail(CreateDirFailed(newPath)), effects + [mk]), [];
      }
      CopyRunCopy(tmpdir, staged, item, fails);
      var cp := CopyFile(source, newPath);
      if fails(cp) {
        return Report(Fail(CopyFailed(source, newPath)), effects + [mk, cp]), [];
      }
      r := Report(Pass, effects + [mk, cp]);
    } else {
      r := Report(Pass, effects);
    }
    rel := StripPrefix(newPath, tmpdir).value;
  }

  /** Where the inner loop of `upload_test_logs` stands after the first `j`
      paths of `log`: either every copy so far succeeded, and the attempt
      number, the artifacts and the effects are those of the staged files so
      far, or a copy failed, which decides the whole entry. */
  ghost predicate EntryProgress(tmpdir: string, log: TestLog, mode: Mode, fails: Effect -> bool,
                                staged: seq<Staged>, j: nat, attempt: nat, artifacts: seq<string>, r: Report)
    requires j <= |log.paths|
  {
    var sofar := staged + StagedPaths(log.target, FirstAttempt(log), log.paths[..j]);
    && (r.outcome.Pass? ==>
          && attempt == FirstAttempt(log) + |Accepted(log.paths[..j])|
          && artifacts == Rels(sofar)
          && (mode == Buildkite ==> CopyRun(tmpdir, sofar, fails) == r)
          && (mode == Dry ==> r.effects == []))
    && (r.outcome.Fail? ==> mode == Buildkite && CopyRun(tmpdir, staged + StagedOf(log), fails) == r)
  }

  /** A path that is not a `file://` URI leaves the loop where it was. */
  lemma ProgressSkip(tmpdir: string, log: TestLog, mode: Mode, fails: Effect -> bool,
                     staged: seq<Staged>, j: nat, attempt: nat, artifacts: seq<string>, r: Report)
    requires j < |log.paths| && !IsFileUri(log.paths[j]) && r.outcome.Pass?
    requires EntryProgress(tmpdir, log, mode, fails, staged, j, attempt, artifacts, r)
    ensures EntryProgress(tmpdir, log, mode, fails, staged, j + 1, attempt, artifacts, r)
  {
    StagedSkip(log.target, FirstAttempt(log), log.paths, j);
  }

  /** Staging a `file://` path moves the loop on by one staged file, or ends
      it with the failure that decides the entry. */
  lemma ProgressStaged(tmpdir: string, log: TestLog, mode: Mode, fails: Effect -> bool,
                       staged: seq<Staged>, j: nat, attempt: nat, artifacts: seq<string>, r: Report,
                       r': Report, rel: string)
    requires j < |log.paths| && IsFileUri(log.paths[j]) && r.outcome.Pass?
    requires EntryProgress(tmpdir, log, mode, fails, staged, j, attempt, artifacts, r)
    requires var sofar := staged + StagedPaths(log.target, FirstAttempt(log), log.paths[..j]);
      var item := Staged(log.paths[j][|FileProtocol|..], RelPath(log.target, attempt));
      && (mode == Buildkite ==> r' == CopyRun(tmpdir, sofar + [item], fails))
      && (mode == Dry ==> r' == Report(Pass, []))
      && (r'.outcome.Pass? ==> rel == RelPath(log.target, attempt))
    ensures r'.outcome.Pass? ==> EntryProgress(tmpdir, log, mode, fails, staged, j + 1, attempt + 1, artifacts + [rel], r')
    ensures r'.outcome.Fail? ==> EntryProgress(tmpdir, log, mode, fails, staged, j + 1, attempt, artifacts, r')
  {
    StagedAccept(staged, log.target, FirstAttempt(log), log.paths, j);
    var sofar := staged + StagedPaths(log.target, FirstAttempt(log), log.paths[..j]);
    var item := Staged(log.paths[j][|FileProtocol|..], RelPath(log.target, attempt));
    if r'.outcome.Fail? {
      EntryFailureIsFinal(tmpdir, staged, log, j, fails);
    } else {
      RelsAppend(sofar, item);
    }
  }

  /** The body of the inner loop for path `j`: skip it unless it is a
      `file://` URI, else stage it under the current attempt number. */
  method StagePath(tmpdir: string, log: TestLog, j: nat, attempt: nat, mode: Mode, fails: Effect -> bool,
                   ghost staged: seq<Staged>, artifacts: seq<string>, r: Report)
    returns (attempt': nat, artifacts': seq<string>, r': Report)
    requires j < |log.paths| && r.outcome.Pass?
    requires EntryProgress(tmpdir, log, mode, fails, staged, j, attempt, artifacts, r)
    ensures EntryProgress(tmpdir, log, mode, fails, staged, j + 1, attempt', artifacts', r')
  {
    attempt', artifacts', r' := attempt, artifacts, r;
    var path := log.paths[j];
    if !IsFileUri(path) {
      ProgressSkip(tmpdir, log, mode, fails, staged, j, attempt, artifacts, r);
      return;
    }
    ghost var sofar := staged + StagedPaths(log.target, FirstAttempt(log), log.paths[..j]);
    var source := path[|FileProtocol|..];
    var rel;
    r', rel := StageFile(tmpdir, log.target, attempt, source, mode, fails, sofar, r.effects);
    ProgressStaged(tmpdir, log, mode, fails, staged, j, attempt, artifacts, r, r', rel);
    if r'.outcome.Pass? {
      artifacts' := artifacts + [rel];
      attempt' := attempt + 1;
    }
  }

  /** The inner loop of `upload_test_logs`, over the paths of one entry:
      stage each `file://` path under the next attempt number, stopping at
      the first file-system failure. `staged` is what earlier entries staged. */
  method StageEntry(tmpdir: string, log: TestLog, mode: Mode, fails: Effect -> bool,
                    ghost staged: seq<Staged>, artifacts: seq<string>, effects: seq<Effect>)
    returns (r: Report, artifacts': seq<string>)
    requires artifacts == Rels(staged)
    requires mode == Buildkite ==> CopyRun(tmpdir, staged, fails) == Report(Pass, effects)
    requires mode == Dry ==> effects == []
    ensures r.outcome.Pass? ==> artifacts' == Rels(staged + StagedOf(log))
    ensures mode == Buildkite ==> CopyRun(tmpdir, staged + StagedOf(log), fails) == r
    ensures mode == Dry ==> r == Report(Pass, [])
  {
    artifacts' := artifacts;
    r := Report(Pass, effects);
    var attempt := if |log.paths| > 1 then 1 else 0;
    assert log.paths[..0] == [] && staged + [] == staged;
    var j := 0;
    while j < |log.paths| && r.outcome.Pass?
      invariant j <= |log.paths|
      invariant EntryProgress(tmpdir, log, mode, fails, staged, j, attempt, artifacts', r)
      decreases |log.paths| - j
    {
      attempt, artifacts', r := StagePath(tmpdir, log, j, attempt, mode, fails, staged, artifacts', r);
      j := j + 1;
    }
    assert r.outcome.Pass? ==> log.paths[..j] == log.paths;
  }

  /** `upload_test_logs`. */
  method UploadTestLogs(tmpdir: string, logs: seq<TestLog>, mode: Mode, fails: Effect -> bool)
    returns (r: Report)
    ensures r == StageSpec(tmpdir, logs, mode, fails)
  {
    if logs == [] {
      return Report(Pass, []);
    }
    var artifacts := [];
    var effects := [];
    for i := 0 to |logs|
      invariant artifacts == Rels(StagedAll(logs[..i]))
      invariant mode == Buildkite ==> CopyRun(tmpdir, StagedAll(logs[..i]), fails) == Report(Pass, effects)
      invariant mode == Dry ==> effects == []
    {
      StagedAllStep(logs, i);
      var entry;
      entry, artifacts := StageEntry(tmpdir, logs[i], mode, fails, StagedAll(logs[..i]), artifacts, effects);
      if entry.outcome.Fail? {
        BatchFailureIsFinal(tmpdir, logs, i, fails);
        return entry;
      }
      effects := entry.effects;
    }
    assert logs[..|logs|] == logs;
    var up := UploadArtifacts(Some(tmpdir), artifacts, mode, fails);
    r := Report(up.outcome, effects + up.effects);
    StageSpecAfterCopies(tmpdir, logs, mode, fails, effects);
  }
}
