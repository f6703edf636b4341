/**
 * The URL-shaped regular expressions the image helpers share, written out as
 * predicates: a case-insensitive `http(s)://` scheme and a bare host name with an
 * optional path.
 */
module UrlPatterns {
  import opened Strings

  /** A case-insensitive prefix test against a lower-case pattern. */
  predicate StartsWithNoCase(s: string, lowerPrefix: string) {
    |lowerPrefix| == 0 || (|s| > 0 && LowerChar(s[0]) == lowerPrefix[0] && StartsWithNoCase(s[1..], lowerPrefix[1..]))
  }

  lemma {:induction false} StartsWithNoCaseAt(s: string, lowerPrefix: string, k: nat)
    requires StartsWithNoCase(s, lowerPrefix) && k < |lowerPrefix|
    ensures k < |s| && LowerChar(s[k]) == lowerPrefix[k]
  {
    if k > 0 {
      StartsWithNoCaseAt(s[1..], lowerPrefix[1..], k - 1);
    }
  }

  /** A case-insensitive suffix test against a lower-case pattern. */
  predicate EndsWithNoCase(s: string, lowerSuffix: string) {
    |lowerSuffix| == 0
    || (|s| > 0 && LowerChar(s[|s| - 1]) == lowerSuffix[|lowerSuffix| - 1]
        && EndsWithNoCase(s[..|s| - 1], lowerSuffix[..|lowerSuffix| - 1]))
  }

  /** A suffix match fixes the character where the suffix starts. */
  lemma {:induction false} EndsWithNoCaseStart(s: string, lowerSuffix: string)
    requires EndsWithNoCase(s, lowerSuffix) && |lowerSuffix| > 0
    ensures |lowerSuffix| <= |s| && LowerChar(s[|s| - |lowerSuffix|]) == lowerSuffix[0]
  {
    if |lowerSuffix| > 1 {
      EndsWithNoCaseStart(s[..|s| - 1], lowerSuffix[..|lowerSuffix| - 1]);
    }
  }

  /** `^https?:\/\/` with the `i` flag. */
  predicate IsHttpUrl(s: string) {
    StartsWithNoCase(s, "http://") || StartsWithNoCase(s, "https://")
  }

  predicate IsAsciiLetter(c: char) {
    'a' <= c <= 'z' || 'A' <= c <= 'Z'
  }

  predicate IsHostChar(c: char) {
    IsAsciiLetter(c) || IsDigit(c) || c == '.' || c == '-'
  }

  /** The text before the first `/`. */
  function BeforeSlash(s: string): (r: string)
    ensures |r| <= |s| && r == s[..|r|] && '/' !in r
    ensures |r| < |s| ==> s[|r|] == '/'
  {
    if |s| == 0 || s[0] == '/' then "" else [s[0]] + BeforeSlash(s[1..])
  }

  predicate AllHostChars(h: string) {
    |h| == 0 || (IsHostChar(h[0]) && AllHostChars(h[1..]))
  }

  /** The length of the run of ASCII letters that ends the string. */
  function TrailingLetters(h: string): (t: nat)
    ensures t <= |h|
    ensures forall j :: |h| - t <= j < |h| ==> IsAsciiLetter(h[j])
    ensures t < |h| ==> !IsAsciiLetter(h[|h| - t - 1])
  {
    if |h| == 0 || !IsAsciiLetter(h[|h| - 1]) then 0 else TrailingLetters(h[..|h| - 1]) + 1
  }

  /**
   * `[a-z0-9.-]+\.[a-z]{2,}` with the `i` flag, over the whole string: host characters
   * throughout, and a `.` after at least one character followed by two or more letters.
   * The dot must be the one in front of the trailing run of letters.
   */
  predicate IsHostName(h: string) {
    var t := TrailingLetters(h);
    AllHostChars(h) && t >= 2 && t + 2 <= |h| && h[|h| - t - 1] == '.'
  }

  /**
   * `^[a-z0-9.-]+\.[a-z]{2,}(?:\/|$)` with the `i` flag. No character of the host can be a
   * `/`, so a match spans exactly the text before the first `/`.
   */
  predicate HostWithPath(s: string) {
    IsHostName(BeforeSlash(s))
  }

  /** A prefix test that holds character by character holds. */
  lemma {:induction false} StartsWithNoCaseChars(s: string, lowerPrefix: string)
    requires |lowerPrefix| <= |s|
    requires forall i :: 0 <= i < |lowerPrefix| ==> LowerChar(s[i]) == lowerPrefix[i]
    ensures StartsWithNoCase(s, lowerPrefix)
  {
    if |lowerPrefix| > 0 {
      forall i | 0 <= i < |lowerPrefix| - 1
        ensures LowerChar(s[1..][i]) == lowerPrefix[1..][i]
      {
        assert s[1..][i] == s[i + 1];
      }
      StartsWithNoCaseChars(s[1..], lowerPrefix[1..]);
    }
  }

  /** A string spelled `https://` at its start is an http(s) URL. */
  lemma HttpsLead(s: string)
    requires |s| >= 8 && s[0] == 'h' && s[1] == 't' && s[2] == 't' && s[3] == 'p'
    requires s[4] == 's' && s[5] == ':' && s[6] == '/' && s[7] == '/'
    ensures IsHttpUrl(s)
  {
    StartsWithNoCaseChars(s, "https://");
  }
}
