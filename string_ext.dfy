/**
 * The string helpers the extractor relies on: the project's own extension
 * functions `validateString`, `isValidString` and `parseInt` (defined in a file
 * that is not part of this model, so only what the extractor needs of them is
 * fixed here), and the two Kotlin library operations it applies to a line,
 * `replace(" ", "")` and `split(" ")`.
 */
module StringExt {
  import opened Wrappers

  /** `validateString`: a null string reads as the empty string; any other string is kept. */
  function ValidateString(s: Option<string>): string
  {
    match s
    case None => ""
    case Some(v) => v
  }

  /** `isValidString`: the string is non-empty. */
  predicate IsValidString(s: string)
  {
    |s| > 0
  }

  predicate IsDigit(c: char)
  {
    '0' <= c <= '9'
  }

  predicate AllDigits(s: string)
  {
    forall i :: 0 <= i < |s| ==> IsDigit(s[i])
  }

  lemma AllDigitsSplit(s: string, k: nat)
    requires k <= |s|
    ensures AllDigits(s) <==> AllDigits(s[..k]) && AllDigits(s[k..])
  {
    if AllDigits(s[..k]) && AllDigits(s[k..]) {
      forall i | 0 <= i < |s| ensures IsDigit(s[i]) {
        if i < k { assert s[i] == s[..k][i]; } else { assert s[i] == s[k..][i - k]; }
      }
    }
  }

  /** A non-empty string is all digits when its first character and the rest are. */
  lemma AllDigitsHead(s: string)
    requires |s| >= 1
    ensures AllDigits(s) <==> IsDigit(s[0]) && AllDigits(s[1..])
  {
    AllDigitsSplit(s, 1);
    assert s[..1] == [s[0]];
  }

  function DigitValue(c: char): nat
    requires IsDigit(c)
  {
    c as int - '0' as int
  }

  /** The decimal value of a string of ASCII digits, most significant digit first. */
  function DecimalValue(s: string): nat
    requires AllDigits(s)
  {
    if s == [] then 0 else 10 * DecimalValue(s[..|s| - 1]) + DigitValue(s[|s| - 1])
  }

  /**
   * `parseInt`. Its callers here only hand it the last two characters of an
   * expiry candidate; a string of ASCII digits reads as its decimal value and
   * anything else as 0.
   */
  function ParseInt(s: string): (n: int)
    ensures n >= 0
    ensures AllDigits(s) && |s| == 2 ==> n == 10 * DigitValue(s[0]) + DigitValue(s[1]) && n <= 99
  {
    if |s| > 0 && AllDigits(s) then
      (assert |s| == 2 ==> DecimalValue(s[..1]) == DigitValue(s[0]) by {
         if |s| == 2 { assert s[..1][..0] == [] && s[..1][0] == s[0]; }
       }
       DecimalValue(s))
    else 0
  }

  /** Kotlin `replace(" ", "")`: every space removed, every other character kept in order. */
  function StripSpaces(s: string): (r: string)
    ensures ' ' !in r
    ensures |r| <= |s|
  {
    if s == [] then []
    else (if s[0] == ' ' then [] else [s[0]]) + StripSpaces(s[1..])
  }

  /** Only spaces are removed: every other character keeps its number of occurrences. */
  lemma {:induction false} StripSpacesKeepsOthers(s: string)
    ensures multiset(StripSpaces(s)) == multiset(s)[' ' := 0]
  {
    if s != [] {
      assert s == [s[0]] + s[1..];
      StripSpacesKeepsOthers(s[1..]);
    }
  }

  lemma {:induction false} StripSpacesAppend(a: string, b: string)
    ensures StripSpaces(a + b) == StripSpaces(a) + StripSpaces(b)
  {
    if a == [] {
      assert a + b == b;
    } else {
      assert (a + b)[0] == a[0] && (a + b)[1..] == a[1..] + b;
      StripSpacesAppend(a[1..], b);
      var head := if a[0] == ' ' then [] else [a[0]];
      assert StripSpaces(a + b) == head + StripSpaces(a[1..] + b);
      assert StripSpaces(a) == head + StripSpaces(a[1..]);
    }
  }

  /** A space between two runs disappears and the runs are glued together. */
  lemma StripSpacesAroundSpace(x: string, y: string)
    ensures StripSpaces(x + " " + y) == StripSpaces(x) + StripSpaces(y)
  {
    StripSpacesAppend(x + " ", y);
    StripSpacesAppend(x, " ");
  }

  /** Removing spaces changes a string exactly when it has a space; so it is idempotent. */
  lemma {:induction false} StripSpacesFixedPoint(s: string)
    ensures StripSpaces(s) == s <==> ' ' !in s
  {
    if s != [] {
      StripSpacesFixedPoint(s[1..]);
      assert s == [s[0]] + s[1..];
    }
  }

  /**
   * Kotlin `split(" ")` with the default limit: the maximal runs between single
   * spaces, empty runs included (a leading, trailing or doubled space yields an
   * empty token, and the empty string yields one empty token).
   */
  function Split(s: string): (tokens: seq<string>)
    ensures |tokens| >= 1
    ensures forall i :: 0 <= i < |tokens| ==> ' ' !in tokens[i]
  {
    if s == [] then [""]
    else
      var init := Split(s[..|s| - 1]);
      var c := s[|s| - 1];
      if c == ' ' then init + [""]
      else init[..|init| - 1] + [init[|init| - 1] + [c]]
  }

  /** A line with n spaces splits into n + 1 tokens. */
  lemma {:induction false} SplitCount(s: string)
    ensures |Split(s)| == 1 + multiset(s)[' ']
  {
    if s != [] {
      SplitCount(s[..|s| - 1]);
      assert s == s[..|s| - 1] + [s[|s| - 1]];
    }
  }

  /** The inverse of `Split`: the tokens glued back together with single spaces. */
  function Join(tokens: seq<string>): string
    requires |tokens| >= 1
  {
    if |tokens| == 1 then tokens[0]
    else Join(tokens[..|tokens| - 1]) + " " + tokens[|tokens| - 1]
  }

  lemma JoinExtendLast(tokens: seq<string>, x: string)
    requires |tokens| >= 1
    ensures Join(tokens[..|tokens| - 1] + [tokens[|tokens| - 1] + x]) == Join(tokens) + x
  {
    var n := |tokens|;
    var ts := tokens[..n - 1] + [tokens[n - 1] + x];
    if n > 1 {
      assert ts[..n - 1] == tokens[..n - 1];
    }
  }

  /** Splitting loses nothing: joining the tokens gives the line back. */
  lemma {:induction false} SplitJoin(s: string)
    ensures Join(Split(s)) == s
  {
    if s != [] {
      var p := s[..|s| - 1];
      var c := s[|s| - 1];
      var init := Split(p);
      SplitJoin(p);
      assert s == p + [c];
      if c == ' ' {
        assert (init + [""])[..|init|] == init;
      } else {
        JoinExtendLast(init, [c]);
      }
    }
  }

  /** `t` occurs in `s` as a contiguous run of characters. */
  ghost predicate IsInfix(t: string, s: string)
  {
    exists k: nat :: OccursAt(t, s, k)
  }

  predicate OccursAt(t: string, s: string, k: nat)
  {
    k + |t| <= |s| && s[k..k + |t|] == t
  }

  lemma {:induction false} SplitLastIsSuffix(s: string)
    ensures var tokens := Split(s); var last := tokens[|tokens| - 1];
      |last| <= |s| && last == s[|s| - |last|..]
  {
    if s != [] {
      var p := s[..|s| - 1];
      var c := s[|s| - 1];
      SplitLastIsSuffix(p);
      var init := Split(p);
      var last := init[|init| - 1];
      if c != ' ' {
        assert s[|s| - (|last| + 1)..] == p[|p| - |last|..] + [c];
      }
    }
  }

  /** Every token of a split occurs verbatim in the split string. */
  lemma {:induction false} SplitTokensAreInfixes(s: string)
    ensures forall i :: 0 <= i < |Split(s)| ==> IsInfix(Split(s)[i], s)
  {
    var tokens := Split(s);
    if s == [] {
      assert OccursAt(tokens[0], s, 0);
    } else {
      var p := s[..|s| - 1];
      var c := s[|s| - 1];
      var init := Split(p);
      SplitTokensAreInfixes(p);
      SplitLastIsSuffix(s);
      forall i | 0 <= i < |tokens| ensures IsInfix(tokens[i], s) {
        var t := tokens[i];
        if i == |tokens| - 1 {
          assert OccursAt(t, s, |s| - |t|);
        } else {
          assert t == init[i];
          assert IsInfix(t, p);
          var k: nat :| OccursAt(t, p, k);
          assert s[k..k + |t|] == p[k..k + |t|];
          assert OccursAt(t, s, k);
        }
      }
    }
  }
}
