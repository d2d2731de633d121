/** One decoded record of the build event protocol (BEP) JSON stream, and the
    dotted-path lookup the agent uses to query it (`BuildEvent` in
    agent/src/artifact/upload.rs). */
module BuildEvent {
  import opened Wrappers

  /** A decoded JSON value (`serde_json::Value`). Numbers are kept as integers:
      no query of the agent looks at a number. */
  datatype Json =
    | JNull
    | JBool(b: bool)
    | JNumber(n: int)
    | JString(s: string)
    | JArray(items: seq<Json>)
    | JObject(fields: map<string, Json>)

  /** What `serde_json::from_str` makes of one line of text: either it is not
      JSON at all, or it is some JSON value (not necessarily an object). */
  datatype JsonText = Malformed | WellFormed(value: Json)

  /** Why a line is not a build event. */
  datatype DecodeError = InvalidJson | NotAnObject

  /** A build event always wraps a JSON object. */
  datatype BuildEvent = BuildEvent(value: Json)

  /** `BuildEvent::from_json_str`: the text must decode, and to an object. */
  function FromJsonStr(t: JsonText): (r: Result<BuildEvent, DecodeError>)
    ensures r.Ok? <==> t.WellFormed? && t.value.JObject?
    ensures r.Ok? ==> r.value.value == t.value
    ensures t.Malformed? ==> r == Err(InvalidJson)
    ensures t.WellFormed? && !t.value.JObject? ==> r == Err(NotAnObject)
  {
    match t
    case Malformed => Err(InvalidJson)
    case WellFormed(v) => if v.JObject? then Ok(BuildEvent(v)) else Err(NotAnObject)
  }

  // serde_json's accessors: `get(key)` answers only on objects, `as_str`,
  // `as_bool` and `as_array` only on the matching kind of value.

  function Index(v: Json, key: string): Option<Json> {
    if v.JObject? && key in v.fields then Some(v.fields[key]) else None
  }

  function StrOr(v: Option<Json>, default: string): string {
    if v.Some? && v.value.JString? then v.value.s else default
  }

  function BoolOr(v: Option<Json>, default: bool): bool {
    if v.Some? && v.value.JBool? then v.value.b else default
  }

  function ArrayOr(v: Option<Json>, default: seq<Json>): seq<Json> {
    if v.Some? && v.value.JArray? then v.value.items else default
  }

  /* ---------------------------------------------------------------------- */
  /* `str::split(".")` and its inverse                                       */
  /* ---------------------------------------------------------------------- */

  const Dot := '.'

  /** `s.split(d)`: the pieces between the occurrences of `d`; the empty string
      gives one empty piece. */
  function Split(s: string, d: char): (parts: seq<string>)
    ensures |parts| >= 1
  {
    if s == [] then [[]]
    else
      var rest := Split(s[1..], d);
      if s[0] == d then [[]] + rest else [[s[0]] + rest[0]] + rest[1..]
  }

  /** The pieces glued back together with `d` between them. */
  function Join(parts: seq<string>, d: char): string
    requires |parts| >= 1
  {
    if |parts| == 1 then parts[0] else parts[0] + [d] + Join(parts[1..], d)
  }

  /** Splitting loses nothing: the pieces contain no separator and join back
      to the original string. */
  lemma {:induction false} SplitJoin(s: string, d: char)
    ensures Join(Split(s, d), d) == s
    ensures forall i :: 0 <= i < |Split(s, d)| ==> d !in Split(s, d)[i]
  {
    if s != [] {
      SplitJoin(s[1..], d);
      var rest := Split(s[1..], d);
      if s[0] == d {
        assert Split(s, d) == [[]] + rest;
        assert Split(s, d)[1..] == rest;
      } else {
        assert Split(s, d) == [[s[0]] + rest[0]] + rest[1..];
        if |rest| == 1 {
          assert Join(Split(s, d), d) == [s[0]] + rest[0];
        } else {
          assert Split(s, d)[1..] == rest[1..];
          assert Join(rest, d) == rest[0] + [d] + Join(rest[1..], d);
        }
        assert s == [s[0]] + s[1..];
      }
    }
  }

  /** Splitting a separator-free prefix off a string. */
  lemma {:induction false} SplitFreePrefix(w: string, rest: string, d: char)
    requires d !in w
    ensures Split(w + rest, d) == [w + Split(rest, d)[0]] + Split(rest, d)[1..]
  {
    if w != [] {
      SplitFreePrefix(w[1..], rest, d);
      assert (w + rest)[0] == w[0];
      assert (w + rest)[1..] == w[1..] + rest;
      var tail := Split(w[1..] + rest, d);
      assert tail[0] == w[1..] + Split(rest, d)[0];
      assert [w[0]] + tail[0] == w + Split(rest, d)[0];
    } else {
      assert w + rest == rest;
      assert w + Split(rest, d)[0] == Split(rest, d)[0];
      assert Split(rest, d) == [Split(rest, d)[0]] + Split(rest, d)[1..];
    }
  }

  /** Joining separator-free pieces and splitting again gives the pieces back. */
  lemma {:induction false} JoinSplit(parts: seq<string>, d: char)
    requires |parts| >= 1
    requires forall i :: 0 <= i < |parts| ==> d !in parts[i]
    ensures Split(Join(parts, d), d) == parts
  {
    if |parts| == 1 {
      SplitFreePrefix(parts[0], [], d);
      assert parts[0] + [] == parts[0];
    } else {
      JoinSplit(parts[1..], d);
      var tail := [d] + Join(parts[1..], d);
      assert Join(parts, d) == parts[0] + tail;
      SplitFreePrefix(parts[0], tail, d);
      assert Split(tail, d) == [[]] + parts[1..];
      assert parts[0] + [] == parts[0];
    }
  }

  /** A string without the separator is a single piece. */
  lemma SplitWithoutSeparator(s: string, d: char)
    requires d !in s
    ensures Split(s, d) == [s]
  {
    JoinSplit([s], d);
  }

  /* ---------------------------------------------------------------------- */
  /* Dotted-path lookup                                                      */
  /* ---------------------------------------------------------------------- */

  /** Reference meaning of a lookup: descend one object key per segment and
      stop with `None` at the first segment that is missing or whose parent is
      not an object. */
  function Walk(v: Json, segs: seq<string>): Option<Json> {
    if segs == [] then Some(v)
    else
      match Index(v, segs[0])
      case None => None
      case Some(child) => Walk(child, segs[1..])
  }

  /** What `BuildEvent::get(path)` returns. */
  function Lookup(e: BuildEvent, path: string): Option<Json> {
    Walk(e.value, Split(path, Dot))
  }

  /** `BuildEvent::get`: folds `and_then(get)` over the dot-separated segments
      of `path`, starting from the whole record. */
  method Get(e: BuildEvent, path: string) returns (r: Option<Json>)
    ensures r == Walk(e.value, Split(path, Dot))
  {
    var segs := Split(path, Dot);
    var value: Option<Json> := Some(e.value);
    var i := 0;
    while i < |segs|
      invariant 0 <= i <= |segs|
      invariant value.Some? ==> Walk(value.value, segs[i..]) == Walk(e.value, segs)
      invariant value.None? ==> Walk(e.value, segs) == None
    {
      assert segs[i..][1..] == segs[i + 1..];
      value := if value.Some? then Index(value.value, segs[i]) else None;
      i := i + 1;
    }
    assert segs[i..] == [];
    r := value;
  }

  /** Walking a path in two pieces is walking the first piece and then the
      second one from where the first ended. */
  lemma {:induction false} WalkAppend(v: Json, a: seq<string>, b: seq<string>)
    ensures Walk(v, a + b) == if Walk(v, a).Some? then Walk(Walk(v, a).value, b) else None
  {
    if a == [] {
      assert a + b == b;
    } else {
      assert (a + b)[0] == a[0];
      assert (a + b)[1..] == a[1..] + b;
      match Index(v, a[0])
      case None =>
      case Some(child) => WalkAppend(child, a[1..], b);
    }
  }

  /** Once a segment is missing, or its parent is not an object, the lookup
      yields `None`, whatever segments follow. */
  lemma WalkStopsAtMissingSegment(v: Json, segs: seq<string>, i: nat)
    requires i < |segs|
    requires Walk(v, segs[..i]).Some?
    requires Index(Walk(v, segs[..i]).value, segs[i]).None?
    ensures Walk(v, segs) == None
  {
    WalkAppend(v, segs[..i], segs[i..]);
    assert segs[..i] + segs[i..] == segs;
  }

  const LastMessagePath := "lastMessage"
  const TestSummaryPath := "id.testSummary"

  /** `is_last_message`: `get("lastMessage")` is the boolean `true` (see
      `LastMessageQuery` for the split of the path). The record is the last
      message exactly when its top-level `lastMessage` field holds `true`; a
      missing field or one of another type means no. */
  predicate IsLastMessage(e: BuildEvent)
    ensures IsLastMessage(e) <==>
      e.value.JObject? && "lastMessage" in e.value.fields
      && e.value.fields["lastMessage"] == JBool(true)
  {
    assert Walk(e.value, ["lastMessage"]) == Index(e.value, "lastMessage");
    BoolOr(Walk(e.value, ["lastMessage"]), false)
  }

  /** `is_test_summary`: `get("id.testSummary")` is present (see
      `TestSummaryQuery`). The record is a test summary exactly when it has an
      object `id` with a `testSummary` key, of any type. */
  predicate IsTestSummary(e: BuildEvent)
    ensures IsTestSummary(e) <==>
      e.value.JObject? && "id" in e.value.fields
      && e.value.fields["id"].JObject? && "testSummary" in e.value.fields["id"].fields
  {
    WalkAppend(e.value, ["id"], ["testSummary"]);
    assert ["id"] + ["testSummary"] == ["id", "testSummary"];
    Walk(e.value, ["id", "testSummary"]).Some?
  }

  /** A dotted path whose segments hold no dot splits into those segments. */
  lemma SplitDotted2(a: string, b: string)
    requires Dot !in a && Dot !in b
    ensures Split(a + [Dot] + b, Dot) == [a, b]
  {
    assert Join([a, b], Dot) == a + [Dot] + b;
    JoinSplit([a, b], Dot);
  }

  lemma SplitDotted3(a: string, b: string, c: string)
    requires Dot !in a && Dot !in b && Dot !in c
    ensures Split(a + [Dot] + b + [Dot] + c, Dot) == [a, b, c]
  {
    var parts := [a, b, c];
    assert parts[1..] == [b, c] && [b, c][1..] == [c];
    assert Join([b, c], Dot) == b + [Dot] + c;
    assert Join(parts, Dot) == a + [Dot] + b + [Dot] + c;
    JoinSplit(parts, Dot);
  }

  // The dotted paths the agent queries, as lists of object keys.

  lemma LastMessageQuery(e: BuildEvent)
    ensures Lookup(e, LastMessagePath) == Walk(e.value, ["lastMessage"])
  {
    SplitWithoutSeparator(LastMessagePath, Dot);
  }

  lemma TestSummaryQuery(e: BuildEvent)
    ensures Lookup(e, TestSummaryPath) == Walk(e.value, ["id", "testSummary"])
  {
    assert TestSummaryPath == "id" + [Dot] + "testSummary";
    SplitDotted2("id", "testSummary");
  }
}
