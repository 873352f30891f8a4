/** Character-level helpers on strings. */
module Text {
  import opened Wrappers

  /** Index of the last occurrence of `c` in `s`, if there is one. */
  function LastIndexOf(s: string, c: char): (r: Option<nat>)
    ensures r.None? <==> (forall j :: 0 <= j < |s| ==> s[j] != c)
    ensures r.Some? ==> r.value < |s| && s[r.value] == c && forall j :: r.value < j < |s| ==> s[j] != c
  {
    LastIndexBefore(s, c, |s|)
  }

  /** Index of the last occurrence of `c` in `s` before position `end`, if there is one. */
  function LastIndexBefore(s: string, c: char, end: nat): (r: Option<nat>)
    requires end <= |s|
    ensures r.None? ==> forall j :: 0 <= j < end ==> s[j] != c
    ensures r.Some? ==> r.value < end && s[r.value] == c && forall j :: r.value < j < end ==> s[j] != c
    decreases end
  {
    if end == 0 then None
    else if s[end - 1] == c then Some(end - 1)
    else LastIndexBefore(s, c, end - 1)
  }

  /**
   * The index of the first character at or after `from` that is not a space
   * (U+0020 only, not a tab), or `|s|` if there is none.
   */
  function SkipSpaces(s: string, from: nat): (j: nat)
    requires from <= |s|
    ensures from <= j <= |s|
    ensures forall i :: from <= i < j ==> s[i] == ' '
    ensures j == |s| || s[j] != ' '
    decreases |s| - from
  {
    if from < |s| && s[from] == ' ' then SkipSpaces(s, from + 1) else from
  }
}
