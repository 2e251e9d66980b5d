/**
 * The `eventhub_name` validator: the pattern
 * ^[a-zA-Z0-9]([-._a-zA-Z0-9]{0,48}[a-zA-Z0-9])?$ under Go's regexp, where
 * `$` without the multi-line flag matches only at the end of the text.
 */
module EventHubName {

  predicate IsAsciiAlnum(c: char) {
    'a' <= c <= 'z' || 'A' <= c <= 'Z' || '0' <= c <= '9'
  }

  /** A member of the class [-._a-zA-Z0-9]. */
  predicate IsNameChar(c: char) {
    IsAsciiAlnum(c) || c == '-' || c == '.' || c == '_'
  }

  /** [-._a-zA-Z0-9]{0,max}: the whole of t, at most max name characters. */
  predicate MatchesRepeat(t: string, max: nat)
    decreases |t|
  {
    t == [] || (max > 0 && IsNameChar(t[0]) && MatchesRepeat(t[1..], max - 1))
  }

  /** The optional group ([-._a-zA-Z0-9]{0,48}[a-zA-Z0-9])? matching the whole of t. */
  predicate MatchesOptionalGroup(t: string) {
    t == [] || (IsAsciiAlnum(t[|t| - 1]) && MatchesRepeat(t[..|t| - 1], 48))
  }

  /** The anchored pattern, read term by term. */
  predicate MatchesPattern(s: string) {
    |s| >= 1 && IsAsciiAlnum(s[0]) && MatchesOptionalGroup(s[1..])
  }

  lemma {:induction false} MatchesRepeatIff(t: string, max: nat)
    ensures MatchesRepeat(t, max) <==> |t| <= max && forall i :: 0 <= i < |t| ==> IsNameChar(t[i])
    decreases |t|
  {
    if t != [] && max > 0 {
      MatchesRepeatIff(t[1..], max - 1);
      if forall i :: 0 <= i < |t| ==> IsNameChar(t[i]) {
        assert forall i :: 0 <= i < |t[1..]| ==> IsNameChar(t[1..][i]);
      }
      if IsNameChar(t[0]) && forall i :: 0 <= i < |t[1..]| ==> IsNameChar(t[1..][i]) {
        forall i | 0 < i < |t|
          ensures IsNameChar(t[i])
        {
          assert t[i] == t[1..][i - 1];
        }
      }
    }
  }

  /**
   * The validator as an explicit check: 1 to 50 characters, letters, digits,
   * '-', '.' and '_' only, beginning and ending with a letter or digit.
   */
  predicate ValidEventHubName(s: string) {
    && 1 <= |s| <= 50
    && IsAsciiAlnum(s[0])
    && IsAsciiAlnum(s[|s| - 1])
    && forall i :: 0 <= i < |s| ==> IsNameChar(s[i])
  }

  /** The explicit check accepts exactly the strings the pattern matches. */
  lemma ValidEventHubNameMatchesPattern(s: string)
    ensures ValidEventHubName(s) <==> MatchesPattern(s)
  {
    if |s| >= 2 {
      var t := s[1..];
      assert t[..|t| - 1] == s[1..|s| - 1];
      MatchesRepeatIff(s[1..|s| - 1], 48);
      if MatchesPattern(s) {
        forall i | 0 <= i < |s|
          ensures IsNameChar(s[i])
        {
          if 0 < i < |s| - 1 {
            assert s[i] == s[1..|s| - 1][i - 1];
          }
        }
      }
      if ValidEventHubName(s) {
        var mid := s[1..|s| - 1];
        forall i | 0 <= i < |mid|
          ensures IsNameChar(mid[i])
        {
          assert mid[i] == s[i + 1];
        }
      }
    }
  }
}
