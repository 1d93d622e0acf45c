/** Substring search and Python's `str.replace(old, new)` over `seq<char>`. */
module Strings {

  /** `pat` occurs in `s` starting at index `k`. */
  predicate OccursAt(s: string, pat: string, k: int) {
    0 <= k && k + |pat| <= |s| && s[k..k + |pat|] == pat
  }

  /** Python's `pat in s`. */
  predicate Contains(s: string, pat: string) {
    exists k | 0 <= k <= |s| :: OccursAt(s, pat, k)
  }

  predicate StartsWith(s: string, pat: string) {
    |pat| <= |s| && s[..|pat|] == pat
  }

  /** Python's `s.replace(pat, rep)` for a non-empty `pat`: scans left to
      right and replaces every non-overlapping occurrence of `pat`. */
  function ReplaceAll(s: string, pat: string, rep: string): string
    requires |pat| > 0
    decreases |s|
  {
    if |s| == 0 then ""
    else if StartsWith(s, pat) then rep + ReplaceAll(s[|pat|..], pat, rep)
    else [s[0]] + ReplaceAll(s[1..], pat, rep)
  }

  /** A string without any occurrence of `pat` is returned unchanged. */
  lemma {:induction false} ReplaceAllUnchanged(s: string, pat: string, rep: string)
    requires |pat| > 0
    ensures !Contains(s, pat) ==> ReplaceAll(s, pat, rep) == s
    decreases |s|
  {
    if |s| > 0 && !Contains(s, pat) {
      assert !OccursAt(s, pat, 0);
      forall k | OccursAt(s[1..], pat, k)
        ensures OccursAt(s, pat, k + 1)
      {
        assert s[k + 1..k + 1 + |pat|] == s[1..][k..k + |pat|];
      }
      ReplaceAllUnchanged(s[1..], pat, rep);
      assert s == [s[0]] + s[1..];
    }
  }

  /** Replacing leaves a prefix that is free of `pat[0]` untouched: a prefix of
      `ReplaceAll(s, ...)` of length `m` either contains the replacement
      character or equals the same-length prefix of `s`. */
  lemma {:induction false} ReplacedPrefix(t: string, pat: string, rep: string, m: nat)
    requires |pat| > 0 && |rep| == 1
    requires m <= |ReplaceAll(t, pat, rep)|
    ensures rep[0] in ReplaceAll(t, pat, rep)[..m]
            || (m <= |t| && t[..m] == ReplaceAll(t, pat, rep)[..m])
    decreases |t|
  {
    var r := ReplaceAll(t, pat, rep);
    if m == 0 {
      assert t[..0] == r[..0];
    } else if StartsWith(t, pat) {
      assert r[..m][0] == rep[0];
    } else {
      var r' := ReplaceAll(t[1..], pat, rep);
      assert r == [t[0]] + r';
      ReplacedPrefix(t[1..], pat, rep, m - 1);
      assert r[..m] == [t[0]] + r'[..m - 1];
      if rep[0] !in r'[..m - 1] {
        assert t[..m] == [t[0]] + t[1..][..m - 1];
      }
    }
  }

  /** After replacement there is no occurrence of `pat` at index `k`, provided
      the replacement is one character that does not occur in `pat`. */
  lemma {:induction false} NoMatchAfterReplace(s: string, pat: string, rep: string, k: int)
    requires |pat| > 0 && |rep| == 1 && rep[0] !in pat
    ensures !OccursAt(ReplaceAll(s, pat, rep), pat, k)
    decreases |s|
  {
    var r := ReplaceAll(s, pat, rep);
    if k < 0 || k + |pat| > |r| {
    } else if StartsWith(s, pat) {
      var t := ReplaceAll(s[|pat|..], pat, rep);
      assert r == rep + t;
      if k == 0 {
        assert r[k..k + |pat|][0] == rep[0];
      } else {
        NoMatchAfterReplace(s[|pat|..], pat, rep, k - 1);
        assert r[k..k + |pat|] == t[k - 1..k - 1 + |pat|];
      }
    } else {
      var t := ReplaceAll(s[1..], pat, rep);
      assert r == [s[0]] + t;
      if k == 0 {
        ReplacedPrefix(s[1..], pat, rep, |pat| - 1);
        assert r[..|pat|] == [s[0]] + t[..|pat| - 1];
        if rep[0] !in t[..|pat| - 1] {
          assert s[..|pat|] == [s[0]] + s[1..][..|pat| - 1];
        }
      } else {
        NoMatchAfterReplace(s[1..], pat, rep, k - 1);
        assert r[k..k + |pat|] == t[k - 1..k - 1 + |pat|];
      }
    }
  }

  /** Every occurrence is gone after replacement. */
  lemma ReplaceAllRemovesPattern(s: string, pat: string, rep: string)
    requires |pat| > 0 && |rep| == 1 && rep[0] !in pat
    ensures !Contains(ReplaceAll(s, pat, rep), pat)
  {
    forall k | true
      ensures !OccursAt(ReplaceAll(s, pat, rep), pat, k)
    {
      NoMatchAfterReplace(s, pat, rep, k);
    }
  }

  /** A prefix that cannot start an occurrence (it lacks `pat`'s first
      character) passes through replacement verbatim. */
  lemma {:induction false} ReplaceAllCleanPrefix(a: string, b: string, pat: string, rep: string)
    requires |pat| > 0 && pat[0] !in a
    ensures ReplaceAll(a + b, pat, rep) == a + ReplaceAll(b, pat, rep)
    decreases |a|
  {
    if |a| > 0 {
      assert (a + b)[0] == a[0];
      assert (a + b)[1..] == a[1..] + b;
      ReplaceAllCleanPrefix(a[1..], b, pat, rep);
      assert a == [a[0]] + a[1..];
    } else {
      assert a + b == b;
    }
  }

  /** Replacing with a character the input lacks loses nothing: replacing
      that character back restores the input. */
  lemma {:induction false} ReplaceAllRoundTrip(s: string, pat: string, rep: string)
    requires |pat| > 0 && |rep| == 1 && rep[0] !in s
    ensures ReplaceAll(ReplaceAll(s, pat, rep), rep, pat) == s
    decreases |s|
  {
    if |s| == 0 {
    } else if StartsWith(s, pat) {
      var t := ReplaceAll(s[|pat|..], pat, rep);
      assert (rep + t)[..1] == rep && (rep + t)[1..] == t;
      ReplaceAllRoundTrip(s[|pat|..], pat, rep);
      assert s == pat + s[|pat|..];
    } else {
      var t := ReplaceAll(s[1..], pat, rep);
      assert ([s[0]] + t)[0] == s[0] && ([s[0]] + t)[1..] == t;
      ReplaceAllRoundTrip(s[1..], pat, rep);
      assert s == [s[0]] + s[1..];
    }
  }
}
