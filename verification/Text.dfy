/** Searching and replacing in strings. */
module Text {

  /** `pat` occurs in `s`. */
  ghost predicate Has(s: string, pat: string) {
    exists i: nat :: Here(s, pat, i)
  }

  /** `pat` occurs in `s` at position `i`. */
  predicate Here(s: string, pat: string, i: nat) {
    i + |pat| <= |s| && s[i..i + |pat|] == pat
  }

  /** Replaces, from left to right, every occurrence that does not overlap an earlier one. */
  function ReplaceAll(s: string, pat: string, rep: string): string
    requires pat != ""
  {
    if s == "" then ""
    else if pat <= s then rep + ReplaceAll(s[|pat|..], pat, rep)
    else [s[0]] + ReplaceAll(s[1..], pat, rep)
  }

  /** An occurrence is at the front or in the tail. */
  lemma HasFrontOrTail(s: string, pat: string)
    requires pat != "" && s != ""
    ensures Has(s, pat) <==> pat <= s || Has(s[1..], pat)
  {
    if pat <= s {
      assert Here(s, pat, 0);
    } else if Has(s[1..], pat) {
      var i: nat :| Here(s[1..], pat, i);
      assert s[1..][i..i + |pat|] == s[i + 1..i + 1 + |pat|];
      assert Here(s, pat, i + 1);
    } else if Has(s, pat) {
      var i: nat :| Here(s, pat, i);
      assert i > 0;
      assert s[1..][i - 1..i - 1 + |pat|] == s[i..i + |pat|];
      assert Here(s[1..], pat, i - 1);
    }
  }

  /** A longer replacement never shortens a string, and a shorter one never lengthens it. */
  lemma {:induction false} ReplaceLength(s: string, pat: string, rep: string)
    requires pat != ""
    ensures |rep| >= |pat| ==> |ReplaceAll(s, pat, rep)| >= |s|
    ensures |rep| <= |pat| ==> |ReplaceAll(s, pat, rep)| <= |s|
    decreases |s|
  {
    if s == "" {
    } else {
      ReplaceLength(if pat <= s then s[|pat|..] else s[1..], pat, rep);
    }
  }

  lemma {:induction false} ReplaceAbsent(s: string, pat: string, rep: string)
    requires pat != "" && !Has(s, pat)
    ensures ReplaceAll(s, pat, rep) == s
  {
    if s == "" {
    } else {
      HasFrontOrTail(s, pat);
      ReplaceAbsent(s[1..], pat, rep);
    }
  }

  lemma {:induction false} ReplaceByItself(s: string, pat: string)
    requires pat != ""
    ensures ReplaceAll(s, pat, pat) == s
    decreases |s|
  {
    if s == "" {
    } else if pat <= s {
      ReplaceByItself(s[|pat|..], pat);
      assert s == pat + s[|pat|..];
    } else {
      ReplaceByItself(s[1..], pat);
      assert s == [s[0]] + s[1..];
    }
  }

  lemma {:induction false} ReplacePresent(s: string, pat: string, rep: string)
    requires pat != "" && Has(s, pat) && rep != pat
    ensures ReplaceAll(s, pat, rep) != s
  {
    if s == "" {
    } else {
      HasFrontOrTail(s, pat);
      if pat <= s {
        ReplaceLength(s[|pat|..], pat, rep);
        assert |rep| == |pat| ==> ReplaceAll(s, pat, rep)[..|pat|] == rep && s[..|pat|] == pat;
      } else {
        ReplacePresent(s[1..], pat, rep);
        assert s == [s[0]] + s[1..];
      }
    }
  }

  /** Replacement leaves a string as it is exactly when there is nothing to replace or the
      pattern is replaced by itself. */
  lemma ReplaceIdentity(s: string, pat: string, rep: string)
    requires pat != ""
    ensures ReplaceAll(s, pat, rep) == s <==> !Has(s, pat) || rep == pat
  {
    if !Has(s, pat) {
      ReplaceAbsent(s, pat, rep);
    } else if rep == pat {
      ReplaceByItself(s, pat);
    } else {
      ReplacePresent(s, pat, rep);
    }
  }

  /** A pattern at the front of a string does not reach over a separator that it lacks. */
  lemma FrontBeforeSeparator(a: string, sep: char, b: string, pat: string)
    requires sep !in pat
    ensures pat <= a + [sep] + b <==> pat <= a
  {
    var s := a + [sep] + b;
    assert a <= s && s[|a|] == sep;
    if pat <= s {
      assert forall i :: 0 <= i < |pat| ==> s[i] in pat;
    }
  }

  /** A separator that the pattern does not contain splits the replacement. */
  lemma {:induction false} ReplaceAround(a: string, sep: char, b: string, pat: string, rep: string)
    requires pat != "" && sep !in pat
    ensures ReplaceAll(a + [sep] + b, pat, rep) == ReplaceAll(a, pat, rep) + [sep] + ReplaceAll(b, pat, rep)
    decreases |a|
  {
    var s := a + [sep] + b;
    FrontBeforeSeparator(a, sep, b, pat);
    if pat <= a {
      assert s[|pat|..] == a[|pat|..] + [sep] + b;
      ReplaceAround(a[|pat|..], sep, b, pat, rep);
    } else if a == "" {
      assert s[1..] == b;
    } else {
      assert s[1..] == a[1..] + [sep] + b;
      ReplaceAround(a[1..], sep, b, pat, rep);
    }
  }

  lemma {:induction false} ReplaceKeepsOut(s: string, pat: string, rep: string, ch: char)
    requires pat != "" && ch !in s && ch !in rep
    ensures ch !in ReplaceAll(s, pat, rep)
    decreases |s|
  {
    if s == "" {
    } else {
      ReplaceKeepsOut(if pat <= s then s[|pat|..] else s[1..], pat, rep, ch);
    }
  }

  /** Two strings split alike at their first separator. */
  lemma SplitAtFirst(a: string, b: string, c: string, d: string, sep: char)
    requires sep !in a && sep !in c && a + [sep] + b == c + [sep] + d
    ensures a == c && b == d
  {
    var s := a + [sep] + b;
    assert s[|a|] == sep && s[|c|] == sep;
    assert forall i :: 0 <= i < |a| ==> s[i] in a;
    assert forall i :: 0 <= i < |c| ==> s[i] in c;
    assert |a| == |c|;
    assert a == s[..|a|] == c;
    assert b == s[|a| + 1..] == d;
  }

  /** Two strings split alike at their last separator. */
  lemma SplitAtLast(a: string, b: string, c: string, d: string, sep: char)
    requires sep !in b && sep !in d && a + [sep] + b == c + [sep] + d
    ensures a == c && b == d
  {
    var s := a + [sep] + b;
    assert s[|a|] == sep && s[|c|] == sep;
    assert forall i :: |a| < i < |s| ==> s[i] in b;
    assert forall i :: |c| < i < |s| ==> s[i] in d;
    assert |a| == |c|;
    assert a == s[..|a|] == c;
    assert b == s[|a| + 1..] == d;
  }

  /** The position of the first colon, or the length of a string without one. */
  function FirstColon(s: string): (n: nat)
    ensures n <= |s| && ':' !in s[..n] && (n < |s| ==> s[n] == ':')
  {
    if s == "" || s[0] == ':' then 0 else
      var n := 1 + FirstColon(s[1..]);
      assert s[..n] == [s[0]] + s[1..][..n - 1];
      n
  }
}
