/** The two string operations of the Java and Apache Commons libraries the core relies on. */
module JavaStrings {
  import opened Wrappers

  /** `String.lastIndexOf(c)`: the index of the last occurrence of `c` in `s`, or -1. */
  function LastIndexOf(s: string, c: char): (k: int)
    ensures -1 <= k < |s|
    ensures 0 <= k ==> s[k] == c
    ensures forall j :: k < j < |s| ==> s[j] != c
    decreases |s|
  {
    if s == [] then -1
    else if s[|s| - 1] == c then |s| - 1
    else LastIndexOf(s[..|s| - 1], c)
  }

  /** `StringUtils.isNotEmpty(s)`: non-null and of non-zero length. */
  predicate IsNotEmpty(s: Option<string>)
  {
    s.Some? && |s.value| > 0
  }
}
