/** The few string operations of Python's `str` that the provider uses. */
module Strings {

  /** `sep` occurs in `s` starting at index `i`. */
  predicate OccursAt(s: string, sep: string, i: nat) {
    i + |sep| <= |s| && s[i..i + |sep|] == sep
  }

  /** `s` ends with `suffix` (Python's `s.endswith(suffix)`). */
  predicate EndsWith(s: string, suffix: string) {
    |suffix| <= |s| && s[|s| - |suffix|..] == suffix
  }

  /**
   * `s.split(sep)[0]`: the part of `s` before the first occurrence of `sep`,
   * or the whole of `s` when `sep` does not occur. Python rejects an empty
   * separator, hence the precondition.
   */
  function SplitHead(s: string, sep: string): (r: string)
    requires sep != ""
    ensures r <= s
    ensures forall i :: 0 <= i < |r| ==> !OccursAt(s, sep, i)
    ensures |r| < |s| ==> OccursAt(s, sep, |r|)
    ensures |r| == |s| ==> forall i :: 0 <= i <= |s| ==> !OccursAt(s, sep, i)
  {
    SplitHeadFrom(s, sep, 0)
  }

  /** The scan behind `SplitHead`, having found no occurrence before index `i`. */
  function SplitHeadFrom(s: string, sep: string, i: nat): (r: string)
    requires sep != "" && i <= |s|
    requires forall j :: 0 <= j < i ==> !OccursAt(s, sep, j)
    ensures i <= |r| && r <= s
    ensures forall j :: 0 <= j < |r| ==> !OccursAt(s, sep, j)
    ensures |r| < |s| ==> OccursAt(s, sep, |r|)
    decreases |s| - i
  {
    if i == |s| then s
    else if OccursAt(s, sep, i) then s[..i]
    else SplitHeadFrom(s, sep, i + 1)
  }

  /** A character that differs from `sep` rules out an occurrence of `sep` at `i`. */
  lemma MismatchAt(s: string, sep: string, i: nat, j: nat)
    requires j < |sep| && i + j < |s| && s[i + j] != sep[j]
    ensures !OccursAt(s, sep, i)
  {
  }

  /** Splitting a string that holds `sep` right after a prefix free of it yields that prefix. */
  lemma {:induction false} SplitHeadOfJoined(head: string, sep: string, tail: string)
    requires sep != ""
    requires forall i :: 0 <= i < |head| ==> !OccursAt(head + sep + tail, sep, i)
    ensures SplitHead(head + sep + tail, sep) == head
  {
    var s := head + sep + tail;
    assert s[|head|..|head| + |sep|] == sep;
    assert OccursAt(s, sep, |head|);
    assert s[..|head|] == head;
  }
}
