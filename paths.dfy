/** Joining path components with the platform delimiter, and its inverse. */
module Paths {

  /** The delimiter join_path uses: a backslash on Windows, a slash elsewhere. */
  function Delimiter(windows: bool): char
  {
    if windows then '\\' else '/'
  }

  /** The components of xs separated by d, with no delimiter before the first or after the last. */
  function Join(xs: seq<string>, d: char): (r: string)
    // no components give the empty path, one component gives itself
    ensures |xs| == 0 ==> r == ""
    ensures |xs| == 1 ==> r == xs[0]
    // the path starts with the first component, followed by a delimiter when more follow
    ensures |xs| >= 1 ==> xs[0] <= r
    ensures |xs| >= 2 ==> |xs[0]| < |r| && r[|xs[0]|] == d
  {
    if |xs| == 0 then ""
    else if |xs| == 1 then xs[0]
    else xs[0] + [d] + Join(xs[1..], d)
  }

  /** Appending a component adds one delimiter and that component. */
  lemma {:induction false} JoinSnoc(xs: seq<string>, y: string, d: char)
    requires |xs| >= 1
    ensures Join(xs + [y], d) == Join(xs, d) + [d] + y
  {
    if |xs| == 1 {
      assert (xs + [y])[1..] == [y];
    } else {
      assert (xs + [y])[1..] == xs[1..] + [y];
      JoinSnoc(xs[1..], y, d);
    }
  }

  /** The joined string ends with the last component, so no delimiter trails it. */
  lemma {:induction false} JoinEndsWithLast(xs: seq<string>, d: char)
    requires |xs| >= 1
    ensures |Join(xs, d)| >= |xs[|xs| - 1]|
    ensures Join(xs, d)[|Join(xs, d)| - |xs[|xs| - 1]|..] == xs[|xs| - 1]
  {
    if |xs| > 1 {
      JoinEndsWithLast(xs[1..], d);
      var j := Join(xs[1..], d);
      var last := xs[|xs| - 1];
      assert xs[1..][|xs[1..]| - 1] == last;
      var full := xs[0] + [d] + j;
      assert full[|full| - |last|..] == j[|j| - |last|..];
    }
  }

  /** The position of the first d in s, if any. */
  function IndexOf(s: string, d: char): (i: nat)
    ensures i <= |s|
    ensures i < |s| ==> s[i] == d
    ensures forall k :: 0 <= k < i ==> s[k] != d
  {
    if |s| == 0 then 0
    else if s[0] == d then 0
    else 1 + IndexOf(s[1..], d)
  }

  /** s cut at every d. */
  function Split(s: string, d: char): (r: seq<string>)
    ensures |r| >= 1
    decreases |s|
  {
    var i := IndexOf(s, d);
    if i == |s| then [s] else [s[..i]] + Split(s[i + 1..], d)
  }

  /** Components that do not contain the delimiter are recovered by splitting the joined path. */
  lemma {:induction false} SplitJoin(xs: seq<string>, d: char)
    requires |xs| >= 1
    requires forall k :: 0 <= k < |xs| ==> d !in xs[k]
    ensures Split(Join(xs, d), d) == xs
  {
    if |xs| == 1 {
      NoDelimiter(xs[0], d);
    } else {
      var rest := Join(xs[1..], d);
      var s := xs[0] + [d] + rest;
      assert Join(xs, d) == s;
      FirstDelimiter(xs[0], rest, d);
      assert s[..|xs[0]|] == xs[0];
      assert s[|xs[0]| + 1..] == rest;
      assert Split(s, d) == [xs[0]] + Split(rest, d);
      SplitJoin(xs[1..], d);
    }
  }

  lemma NoDelimiter(s: string, d: char)
    requires d !in s
    ensures IndexOf(s, d) == |s|
  {
  }

  lemma {:induction false} FirstDelimiter(a: string, b: string, d: char)
    requires d !in a
    ensures IndexOf(a + [d] + b, d) == |a|
  {
    if |a| > 0 {
      assert (a + [d] + b)[1..] == a[1..] + [d] + b;
      FirstDelimiter(a[1..], b, d);
    }
  }
}
