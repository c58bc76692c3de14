/** The one string library operation the client relies on: `str::split_once` with a char pattern. */
module Strings {
  import opened Wrappers

  /** Splits `s` around the FIRST occurrence of `sep`, dropping that occurrence;
      `None` when `sep` does not occur in `s`. */
  function SplitOnce(s: string, sep: char): (r: Option<(string, string)>)
    ensures r.None? <==> sep !in s
    ensures r.Some? ==> r.value.0 + [sep] + r.value.1 == s && sep !in r.value.0
    decreases |s|
  {
    if s == [] then None
    else if s[0] == sep then Some(([], s[1..]))
    else
      match SplitOnce(s[1..], sep)
      case None => None
      case Some((before, after)) => Some(([s[0]] + before, after))
  }

  /** The split is the only one whose left part is free of `sep`: it is at the first occurrence. */
  lemma {:induction false} SplitOnceIsFirst(s: string, sep: char, before: string, after: string)
    requires s == before + [sep] + after
    requires sep !in before
    ensures SplitOnce(s, sep) == Some((before, after))
    decreases |before|
  {
    if before == [] {
      assert s[0] == sep && s[1..] == after;
    } else {
      assert s[0] == before[0] != sep;
      assert s[1..] == before[1..] + [sep] + after;
      SplitOnceIsFirst(s[1..], sep, before[1..], after);
      assert [s[0]] + before[1..] == before;
    }
  }
}
