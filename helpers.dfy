/** `extractVersionFromTaskName`: the first `V` followed by digits in a task name. */
module Helpers {
  import opened Wrappers
  import opened Text

  const VersionMark := "V"

  /**
   * `version` occurs in `s` at `p`, where the regex `V\d+` matches first: no
   * earlier `V` is followed by a digit, and the digit run is maximal.
   */
  predicate MatchedAt(s: string, version: string, p: nat) {
    && OccursAt(s, version, p)
    && (p + |version| == |s| || !IsDigit(s[p + |version|]))
    && forall q: nat :: q < p ==> !DigitsFollow(s, VersionMark, q)
  }

  /**
   * The leftmost match of `V\d+` in the task name, or '' when there is none
   * (the default task name '' therefore gives '').
   */
  function ExtractVersionFromTaskName(taskName: string): (r: string)
    ensures r == "" <==> forall p: nat :: !DigitsFollow(taskName, VersionMark, p)
    ensures r != "" ==> |r| >= 2 && r[0] == 'V' && forall k :: 1 <= k < |r| ==> IsDigit(r[k])
    ensures r != "" ==> exists p: nat :: MatchedAt(taskName, r, p)
  {
    match FindDigitsAfter(taskName, VersionMark, 0)
    case None => ""
    case Some(p) =>
      var r := taskName[p..DigitRunEnd(taskName, p + 1)];
      assert taskName[p..p + 1] == VersionMark;
      assert r[0] == taskName[p];
      assert MatchedAt(taskName, r, p);
      r
  }

  /**
   * A name holding no earlier `V` followed by a digit gives back the version
   * written into it, whatever non-digit text follows.
   */
  lemma VersionOfName(before: string, digits: string, after: string)
    requires forall p: nat :: !DigitsFollow(before, VersionMark, p)
    requires |digits| > 0 && forall k :: 0 <= k < |digits| ==> IsDigit(digits[k])
    requires after == [] || !IsDigit(after[0])
    ensures ExtractVersionFromTaskName(before + VersionMark + digits + after) == VersionMark + digits
  {
    var s := before + VersionMark + digits + after;
    var n := |before|;
    assert forall k :: 0 <= k < n ==> s[k] == before[k];
    assert s[n] == 'V';
    forall p: nat | p < n ensures !DigitsFollow(s, VersionMark, p) {
      assert !DigitsFollow(before, VersionMark, p);
    }
    assert DigitsFollow(s, VersionMark, n) by {
      assert s[n..n + 1] == VersionMark;
      assert s[n + 1] == digits[0];
    }
    assert FindDigitsAfter(s, VersionMark, 0) == Some(n);
    var end := DigitRunEnd(s, n + 1);
    assert forall k :: n + 1 <= k < n + 1 + |digits| ==> s[k] == digits[k - n - 1];
    assert n + 1 + |digits| == |s| || s[n + 1 + |digits|] == after[0];
    assert end == n + 1 + |digits|;
    assert s[n..end] == VersionMark + digits;
  }
}
