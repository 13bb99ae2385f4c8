/**
  Pattern resolution done by the Wasabi constructor: exactly one of a regex
  and a "contains" literal must be given, and a literal is wrapped into a
  wildcard pattern without escaping.
 */
module Patterns {
  import opened Wrappers

  /** Why a pattern specification is refused. */
  datatype PatternError = BothGiven | NoneGiven

  const Prefix: string := ".*."
  const Suffix: string := ".*"

  /**
    The pattern a contains literal becomes. The literal is not escaped, and
    the "." after the leading ".*" asks for one character before it.
   */
  function ContainsPattern(s: string): (p: string)
    ensures |p| == |Prefix| + |s| + |Suffix|
    ensures p[..|Prefix|] == Prefix && p[|p| - |Suffix|..] == Suffix
    ensures p[|Prefix|..|p| - |Suffix|] == s
  {
    Prefix + s + Suffix
  }

  /** Recovers the literal from a pattern of the shape ContainsPattern builds. */
  function ContainsLiteral(p: string): (r: Option<string>)
    ensures r.Some? ==> p == Prefix + r.value + Suffix
  {
    if |p| >= |Prefix| + |Suffix| && p[..|Prefix|] == Prefix && p[|p| - |Suffix|..] == Suffix
    then Some(p[|Prefix|..|p| - |Suffix|])
    else None
  }

  /** Wrapping a literal loses nothing: the literal can be read back. */
  lemma ContainsRoundTrip(s: string)
    ensures ContainsLiteral(ContainsPattern(s)) == Some(s)
  {
  }

  /** Distinct literals give distinct patterns. */
  lemma ContainsInjective(s: string, t: string)
    requires ContainsPattern(s) == ContainsPattern(t)
    ensures s == t
  {
    ContainsRoundTrip(s);
    ContainsRoundTrip(t);
  }

  /**
    The regex the scan uses, or why construction is refused: both given and
    neither given are errors, a regex alone is kept, a literal is wrapped.
   */
  function ResolvePattern(regex: Option<string>, contains: Option<string>): (r: Result<string, PatternError>)
    ensures r.Failure? <==> (regex.Some? <==> contains.Some?)
    ensures regex.Some? && contains.Some? ==> r == Failure(BothGiven)
    ensures regex.None? && contains.None? ==> r == Failure(NoneGiven)
    ensures regex.Some? && contains.None? ==> r == Success(regex.value)
    ensures regex.None? && contains.Some? ==> ContainsLiteral(r.value) == Some(contains.value)
  {
    if regex.Some? && contains.Some? then Failure(BothGiven)
    else if regex.None? && contains.None? then Failure(NoneGiven)
    else if contains.Some? then
      ContainsRoundTrip(contains.value);
      Success(ContainsPattern(contains.value))
    else Success(regex.value)
  }
}
