/**
 * `creditCardPattern` and `isCardNumberValid`. The pattern is kept twice: as a
 * regular-expression term whose meaning is given by `Matches` (the form the
 * source writes it in), and as a predicate on digit strings with one disjunct
 * per alternative (the form the extractor evaluates). `CardPatternIsRegex`
 * proves the two agree on every string.
 */
module CardNumberPattern {
  import opened StringExt

  /** The fragment of Java regular expressions the card pattern is written in. */
  datatype Regex =
    | Str(lit: string)               // a literal run of characters
    | Chars(cs: set<char>, n: nat)   // a character class repeated exactly n times
    | Concat(first: Regex, rest: Regex)
    | Alt(left: Regex, right: Regex)
    | Opt(inner: Regex)              // a group followed by `?`

  /** `s` is matched by `r` as a whole (the behaviour of `Matcher.matches()`). */
  ghost predicate Matches(r: Regex, s: string)
  {
    match r
    case Str(lit) => s == lit
    case Chars(cs, n) => |s| == n && forall i :: 0 <= i < |s| ==> s[i] in cs
    case Concat(a, b) => exists k :: 0 <= k <= |s| && Matches(a, s[..k]) && Matches(b, s[k..])
    case Alt(a, b) => Matches(a, s) || Matches(b, s)
    case Opt(a) => s == [] || Matches(a, s)
  }

  /** Every string `r` matches has the same length, `Width(r)`. */
  predicate FixedWidth(r: Regex)
  {
    match r
    case Str(_) => true
    case Chars(_, _) => true
    case Concat(a, b) => FixedWidth(a) && FixedWidth(b)
    case Alt(a, b) => FixedWidth(a) && FixedWidth(b) && Width(a) == Width(b)
    case Opt(_) => false
  }

  function Width(r: Regex): nat
  {
    match r
    case Str(lit) => |lit|
    case Chars(_, n) => n
    case Concat(a, b) => Width(a) + Width(b)
    case Alt(a, _) => Width(a)
    case Opt(_) => 0
  }

  lemma {:induction false} MatchesFixedLength(r: Regex, s: string)
    requires FixedWidth(r) && Matches(r, s)
    ensures |s| == Width(r)
  {
    match r
    case Str(_) =>
    case Chars(_, _) =>
    case Concat(a, b) =>
      var k :| 0 <= k <= |s| && Matches(a, s[..k]) && Matches(b, s[k..]);
      MatchesFixedLength(a, s[..k]);
      MatchesFixedLength(b, s[k..]);
    case Alt(a, b) =>
      if Matches(a, s) { MatchesFixedLength(a, s); } else { MatchesFixedLength(b, s); }
  }

  /** A concatenation whose first part has a fixed width splits at that width. */
  lemma ConcatFixed(a: Regex, b: Regex, s: string)
    requires FixedWidth(a)
    ensures Matches(Concat(a, b), s) <==>
      Width(a) <= |s| && Matches(a, s[..Width(a)]) && Matches(b, s[Width(a)..])
  {
    if Matches(Concat(a, b), s) {
      var k :| 0 <= k <= |s| && Matches(a, s[..k]) && Matches(b, s[k..]);
      MatchesFixedLength(a, s[..k]);
    }
  }

  const DigitClass: set<char> := {'0', '1', '2', '3', '4', '5', '6', '7', '8', '9'}

  /** `[0-9]{n}`, also written `\d{n}` (ASCII digits: no UNICODE_CHARACTER_CLASS flag). */
  function Digits(n: nat): Regex
  {
    Chars(DigitClass, n)
  }

  lemma DigitsMatch(n: nat, s: string)
    ensures Matches(Digits(n), s) <==> |s| == n && AllDigits(s)
  {
    assert forall c :: c in DigitClass <==> IsDigit(c);
  }

  // The six alternatives of the card pattern, in the order the source lists them.
  const VisaRegex: Regex := Concat(Str("4"), Concat(Digits(12), Opt(Digits(3))))
  const MastercardRegex: Regex :=
    Concat(Chars({'2', '5'}, 1), Concat(Chars({'1', '2', '3', '4', '5', '6', '7'}, 1), Digits(14)))
  const DiscoverRegex: Regex := Concat(Str("6"), Concat(DiscoverHead, Digits(12)))
  const DiscoverHead: Regex := Alt(Str("011"), Concat(Str("5"), Concat(Digits(1), Digits(1))))
  const AmexRegex: Regex := Concat(Str("3"), Concat(Chars({'4', '7'}, 1), Digits(13)))
  const DinersRegex: Regex := Concat(Str("3"), Concat(DinersHead, Digits(11)))
  const DinersHead: Regex :=
    Alt(Concat(Str("0"), Chars({'0', '1', '2', '3', '4', '5'}, 1)), Concat(Chars({'6', '8'}, 1), Digits(1)))
  const JcbRegex: Regex := Concat(Alt(Str("2131"), Alt(Str("1800"), Concat(Str("35"), Digits(3)))), Digits(11))

  /** `creditCardPattern`, line for line; the leading `^` is subsumed by whole-string matching. */
  const CreditCardRegex: Regex :=
    Alt(VisaRegex, Alt(MastercardRegex, Alt(DiscoverRegex, Alt(AmexRegex, Alt(DinersRegex, JcbRegex)))))

  /** `4`, then 12 or 15 more digits. */
  predicate IsVisa(d: string)
  {
    (|d| == 13 || |d| == 16) && d[0] == '4' && AllDigits(d)
  }

  /** `2` or `5`, a digit from 1 to 7, then 14 more digits (no BIN-range check). */
  predicate IsMastercard(d: string)
  {
    |d| == 16 && (d[0] == '2' || d[0] == '5') && '1' <= d[1] <= '7' && AllDigits(d)
  }

  /** `6011` or `65` and two digits, then 12 more digits. */
  predicate IsDiscover(d: string)
  {
    |d| == 16 && (d[..4] == "6011" || d[..2] == "65") && AllDigits(d)
  }

  /** `34` or `37`, then 13 more digits. */
  predicate IsAmex(d: string)
  {
    |d| == 15 && d[0] == '3' && (d[1] == '4' || d[1] == '7') && AllDigits(d)
  }

  /** `300` to `305`, or `36` or `38` and a digit, then 11 more digits. */
  predicate IsDiners(d: string)
  {
    |d| == 14 && d[0] == '3' && ((d[1] == '0' && '0' <= d[2] <= '5') || d[1] == '6' || d[1] == '8')
    && AllDigits(d)
  }

  /** `2131` or `1800` then 11 digits, or `35` and three digits then 11 more digits. */
  predicate IsJcb(d: string)
  {
    ((|d| == 15 && (d[..4] == "2131" || d[..4] == "1800")) || (|d| == 16 && d[..2] == "35"))
    && AllDigits(d)
  }

  /** The card pattern as a predicate on the space-stripped text. */
  predicate InCardPattern(d: string)
  {
    IsVisa(d) || IsMastercard(d) || IsDiscover(d) || IsAmex(d) || IsDiners(d) || IsJcb(d)
  }

  lemma VisaBranch(s: string)
    ensures Matches(VisaRegex, s) <==> IsVisa(s)
  {
    ConcatFixed(Str("4"), Concat(Digits(12), Opt(Digits(3))), s);
    if |s| >= 1 {
      var t := s[1..];
      ConcatFixed(Digits(12), Opt(Digits(3)), t);
      AllDigitsSplit(s, 1);
      if |t| >= 12 {
        DigitsMatch(12, t[..12]);
        DigitsMatch(3, t[12..]);
        AllDigitsSplit(t, 12);
      }
      assert s[..1] == "4" <==> s[0] == '4';
    }
  }

  lemma MastercardBranch(s: string)
    ensures Matches(MastercardRegex, s) <==> IsMastercard(s)
  {
    var second := Chars({'1', '2', '3', '4', '5', '6', '7'}, 1);
    ConcatFixed(Chars({'2', '5'}, 1), Concat(second, Digits(14)), s);
    if |s| >= 1 {
      var t := s[1..];
      ConcatFixed(second, Digits(14), t);
      if |t| >= 1 {
        DigitsMatch(14, t[1..]);
        assert s[2..] == t[1..];
        AllDigitsSplit(s, 2);
        assert s[..2] == [s[0], s[1]];
        assert t[..1] == [s[1]];
      }
    }
  }

  /** The group after the leading `6`: `011`, or `5` and two digits. */
  lemma DiscoverHeadMatch(u: string)
    requires |u| == 3
    ensures Matches(DiscoverHead, u) <==>
      (u[0] == '0' && u[1] == '1' && u[2] == '1') || (u[0] == '5' && IsDigit(u[1]) && IsDigit(u[2]))
  {
    ConcatFixed(Str("5"), Concat(Digits(1), Digits(1)), u);
    ConcatFixed(Digits(1), Digits(1), u[1..]);
    DigitsMatch(1, u[1..][..1]);
    DigitsMatch(1, u[1..][1..]);
    assert u[..1] == [u[0]];
    assert u[1..][..1] == [u[1]] && u[1..][1..] == [u[2]];
    assert u == "011" <==> u[0] == '0' && u[1] == '1' && u[2] == '1';
  }

  lemma DiscoverBranch(s: string)
    ensures Matches(DiscoverRegex, s) <==> IsDiscover(s)
  {
    ConcatFixed(Str("6"), Concat(DiscoverHead, Digits(12)), s);
    if |s| >= 1 {
      ConcatFixed(DiscoverHead, Digits(12), s[1..]);
    }
    if |s| >= 4 {
      var t := s[1..];
      DiscoverHeadMatch(t[..3]);
      DigitsMatch(12, t[3..]);
      assert t[..3] == [s[1], s[2], s[3]];
      assert s[..1] == "6" <==> s[0] == '6';
      assert s[..4] == "6011" <==> s[0] == '6' && s[1] == '0' && s[2] == '1' && s[3] == '1';
      assert s[..2] == "65" <==> s[0] == '6' && s[1] == '5';
      AllDigitsHead(s);
      AllDigitsHead(t);
      AllDigitsHead(t[1..]);
      AllDigitsHead(t[2..]);
      assert t[1..][1..] == t[2..] && t[2..][1..] == t[3..];
    }
  }

  lemma AmexBranch(s: string)
    ensures Matches(AmexRegex, s) <==> IsAmex(s)
  {
    ConcatFixed(Str("3"), Concat(Chars({'4', '7'}, 1), Digits(13)), s);
    if |s| >= 1 {
      var t := s[1..];
      ConcatFixed(Chars({'4', '7'}, 1), Digits(13), t);
      if |t| >= 1 {
        DigitsMatch(13, t[1..]);
        assert s[2..] == t[1..];
        AllDigitsSplit(s, 2);
        assert s[..1] == [s[0]];
        assert t[..1] == [s[1]];
      }
    }
  }

  /** The group after the leading `3`: `0` and a digit up to 5, or `6` or `8` and a digit. */
  lemma DinersHeadMatch(u: string)
    requires |u| == 2
    ensures Matches(DinersHead, u) <==>
      (u[0] == '0' && '0' <= u[1] <= '5') || ((u[0] == '6' || u[0] == '8') && IsDigit(u[1]))
  {
    ConcatFixed(Str("0"), Chars({'0', '1', '2', '3', '4', '5'}, 1), u);
    ConcatFixed(Chars({'6', '8'}, 1), Digits(1), u);
    DigitsMatch(1, u[1..]);
    assert u[..1] == [u[0]] && u[1..] == [u[1]];
  }

  lemma DinersBranch(s: string)
    ensures Matches(DinersRegex, s) <==> IsDiners(s)
  {
    ConcatFixed(Str("3"), Concat(DinersHead, Digits(11)), s);
    if |s| >= 1 {
      ConcatFixed(DinersHead, Digits(11), s[1..]);
    }
    if |s| >= 3 {
      var t := s[1..];
      DinersHeadMatch(t[..2]);
      DigitsMatch(11, t[2..]);
      assert t[..2] == [s[1], s[2]];
      assert s[..1] == "3" <==> s[0] == '3';
      AllDigitsHead(s);
      AllDigitsHead(t);
      AllDigitsHead(t[1..]);
      assert t[1..][1..] == t[2..];
    }
  }

  /** Concatenation distributes over alternation on the left. */
  lemma ConcatAltDistributes(a: Regex, b: Regex, c: Regex, s: string)
    ensures Matches(Concat(Alt(a, b), c), s) <==> Matches(Concat(a, c), s) || Matches(Concat(b, c), s)
  {
    if Matches(Concat(Alt(a, b), c), s) {
      var k :| 0 <= k <= |s| && Matches(Alt(a, b), s[..k]) && Matches(c, s[k..]);
      if Matches(a, s[..k]) { assert Matches(Concat(a, c), s); } else { assert Matches(Concat(b, c), s); }
    }
    if Matches(Concat(a, c), s) {
      var k :| 0 <= k <= |s| && Matches(a, s[..k]) && Matches(c, s[k..]);
      assert Matches(Alt(a, b), s[..k]);
    }
    if Matches(Concat(b, c), s) {
      var k :| 0 <= k <= |s| && Matches(b, s[..k]) && Matches(c, s[k..]);
      assert Matches(Alt(a, b), s[..k]);
    }
  }

  lemma JcbBranch(s: string)
    ensures Matches(JcbRegex, s) <==> IsJcb(s)
  {
    var long := Concat(Str("35"), Digits(3));
    ConcatAltDistributes(Str("2131"), Alt(Str("1800"), long), Digits(11), s);
    ConcatAltDistributes(Str("1800"), long, Digits(11), s);
    ConcatFixed(Str("2131"), Digits(11), s);
    ConcatFixed(Str("1800"), Digits(11), s);
    ConcatFixed(long, Digits(11), s);
    if |s| >= 5 {
      ConcatFixed(Str("35"), Digits(3), s[..5]);
      DigitsMatch(3, s[..5][2..]);
      DigitsMatch(11, s[5..]);
      AllDigitsSplit(s, 5);
      AllDigitsSplit(s[..5], 2);
      assert s[..5][..2] == s[..2];
      assert AllDigits(s[..2]) <== s[..2] == "35";
    }
    if |s| >= 4 {
      DigitsMatch(11, s[4..]);
      AllDigitsSplit(s, 4);
      assert AllDigits(s[..4]) <== s[..4] == "2131" || s[..4] == "1800";
    }
  }

  /** The hand-written predicate is exactly the language of `creditCardPattern`. */
  lemma CardPatternIsRegex(d: string)
    ensures Matches(CreditCardRegex, d) <==> InCardPattern(d)
  {
    var tail4 := Alt(DinersRegex, JcbRegex);
    var tail3 := Alt(AmexRegex, tail4);
    var tail2 := Alt(DiscoverRegex, tail3);
    var tail1 := Alt(MastercardRegex, tail2);
    assert CreditCardRegex == Alt(VisaRegex, tail1);
    assert Matches(tail4, d) <==> Matches(DinersRegex, d) || Matches(JcbRegex, d);
    assert Matches(tail3, d) <==> Matches(AmexRegex, d) || Matches(tail4, d);
    assert Matches(tail2, d) <==> Matches(DiscoverRegex, d) || Matches(tail3, d);
    assert Matches(tail1, d) <==> Matches(MastercardRegex, d) || Matches(tail2, d);
    VisaBranch(d);
    MastercardBranch(d);
    DiscoverBranch(d);
    AmexBranch(d);
    DinersBranch(d);
    JcbBranch(d);
  }

  /**
   * `isCardNumberValid`: the text with its spaces removed matches the card
   * pattern as a whole.
   */
  function IsCardNumberValid(s: string): (r: bool)
    ensures r ==> AllDigits(StripSpaces(s)) && 13 <= |StripSpaces(s)| <= 16
  {
    InCardPattern(StripSpaces(s))
  }

  /** `isCardNumberValid` holds exactly when the space-stripped text matches `creditCardPattern`. */
  lemma CardNumberValidIffRegex(s: string)
    ensures IsCardNumberValid(s) <==> Matches(CreditCardRegex, StripSpaces(s))
  {
    CardPatternIsRegex(StripSpaces(s));
  }

  /**
   * The second alternative admits every 16-digit number whose first two digits
   * are 21 to 27 or 51 to 57, not only the issuer range 2221 to 2720 and 51 to 55.
   */
  lemma MastercardBranchIsWide()
    ensures InCardPattern("2100000000000000") && InCardPattern("2799999999999999")
    ensures InCardPattern("5700000000000000")
  {
    assert IsMastercard("2100000000000000");
    assert IsMastercard("2799999999999999");
    assert IsMastercard("5700000000000000");
  }

  /** A number of an accepted length with a prefix no alternative names is rejected. */
  lemma WrongPrefixRejected()
    ensures !InCardPattern("9000000000000000") && !InCardPattern("1234567890123456")
    ensures !InCardPattern("40000000000000")
  {
  }
}
