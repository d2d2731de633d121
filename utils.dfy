/** `split_path_inclusive` (agent/src/utils.rs), over a path given as its
    sequence of components. */
module Utils {
  import opened Wrappers

  /** `first` ends with the first occurrence of `target` in `path`, and
      `second` is the rest of `path`. */
  ghost predicate SplitsAt(path: seq<string>, target: string, first: seq<string>, second: seq<string>) {
    && first + second == path
    && |first| >= 1
    && first[|first| - 1] == target
    && target !in first[..|first| - 1]
  }

  /** Walk the components, moving each into `first`, until one equals
      `target`; the components not walked are `second`. */
  method SplitPathInclusive(path: seq<string>, target: string) returns (r: Option<(seq<string>, seq<string>)>)
    ensures r.Some? <==> target in path
    ensures r.Some? ==> SplitsAt(path, target, r.value.0, r.value.1)
  {
    var i := 0;
    var first: seq<string> := [];
    var found := false;
    while i < |path| && !found
      invariant 0 <= i <= |path|
      invariant first == path[..i]
      invariant !found ==> target !in path[..i]
      invariant found ==> 1 <= i && path[i - 1] == target && target !in path[..i - 1]
      decreases |path| - i
    {
      var comp := path[i];
      assert path[..i + 1] == path[..i] + [comp];
      first := first + [comp];
      i := i + 1;
      if comp == target {
        found := true;
      }
    }
    if found {
      assert path[..i] + path[i..] == path;
      r := Some((first, path[i..]));
    } else {
      assert path[..i] == path;
      r := None;
    }
  }

  /** The split is determined by the path and the target: there is at most
      one. */
  lemma SplitUnique(path: seq<string>, target: string, f1: seq<string>, s1: seq<string>, f2: seq<string>, s2: seq<string>)
    requires SplitsAt(path, target, f1, s1) && SplitsAt(path, target, f2, s2)
    ensures f1 == f2 && s1 == s2
  {
    NoShorterSplit(path, target, f1, s1, f2, s2);
    NoShorterSplit(path, target, f2, s2, f1, s1);
    assert f1 == path[..|f1|] == f2;
    assert s1 == path[|f1|..] == s2;
  }

  /** Of two splits, neither ends before the other. */
  lemma NoShorterSplit(path: seq<string>, target: string, f1: seq<string>, s1: seq<string>, f2: seq<string>, s2: seq<string>)
    requires SplitsAt(path, target, f1, s1) && SplitsAt(path, target, f2, s2)
    ensures |f1| >= |f2|
  {
    assert path[|f1| - 1] == f1[|f1| - 1] == target;
    forall j | 0 <= j < |f2| - 1
      ensures path[j] != target
    {
      assert path[j] == f2[..|f2| - 1][j];
    }
  }

  /** The documented example: `a/b/c` split on `b` is `a/b` and `c`. */
  lemma SplitDocExample(first: seq<string>, second: seq<string>)
    ensures SplitsAt(["a", "b", "c"], "b", first, second) <==> first == ["a", "b"] && second == ["c"]
  {
    var path := ["a", "b", "c"];
    assert ["a", "b"][..1] == ["a"];
    assert SplitsAt(path, "b", ["a", "b"], ["c"]);
    if SplitsAt(path, "b", first, second) {
      SplitUnique(path, "b", first, second, ["a", "b"], ["c"]);
    }
  }
}
