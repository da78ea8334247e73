/**
 * `setValuesFromVisionText`: scans the recognised lines of one OCR result,
 * collects expiry-date candidates and the last line that reads as a card
 * number, and reports a card only when both a number and a date were found.
 * The recognised text is its blocks' line strings; the callback becomes the
 * returned option (`None`: the callback is not invoked).
 */
module VisionText {
  import opened Wrappers
  import opened StringExt
  import opened CardNumberPattern
  import opened ExpiryDate

  /** What `getCardType` yields for a card number; its mapping is not part of this model. */
  datatype CardType = CardType(cardType: string, cardIcon: int)

  /** The four arguments passed to the callback. */
  datatype CardDetails = CardDetails(cardNumber: string, expiryDate: string, cardType: string, cardIcon: int)

  /** `textBlocks.flatMap { it.lines }`: every line, in block order and then line order. */
  function Flatten(blocks: seq<seq<string>>): (lines: seq<string>)
  {
    if blocks == [] then []
    else Flatten(blocks[..|blocks| - 1]) + blocks[|blocks| - 1]
  }

  /** Flattening keeps every line of every block and invents none. */
  lemma {:induction false} FlattenMembership(blocks: seq<seq<string>>, x: string)
    ensures x in Flatten(blocks) <==> exists b :: 0 <= b < |blocks| && x in blocks[b]
  {
    if blocks != [] {
      var init := blocks[..|blocks| - 1];
      FlattenMembership(init, x);
      assert forall b :: 0 <= b < |init| ==> init[b] == blocks[b];
    }
  }

  /** The shape every date candidate has: five characters, one of them `/`. */
  predicate IsDateCandidate(d: string)
  {
    |d| == 5 && '/' in d
  }

  /** `filter { it.length == 5 && it.contains("/") }`, keeping the tokens' order. */
  function DateTokens(tokens: seq<string>): seq<string>
  {
    if tokens == [] then []
    else
      var last := tokens[|tokens| - 1];
      DateTokens(tokens[..|tokens| - 1]) + (if IsDateCandidate(last) then [last] else [])
  }

  /** The filter keeps exactly the tokens that have the candidate shape. */
  lemma {:induction false} DateTokensMembership(tokens: seq<string>, t: string)
    ensures t in DateTokens(tokens) <==> t in tokens && IsDateCandidate(t)
  {
    if tokens != [] {
      var init := tokens[..|tokens| - 1];
      DateTokensMembership(init, t);
      assert tokens == init + [tokens[|tokens| - 1]];
    }
  }

  /** The filter keeps token order: filtering two runs back to back is filtering each in turn. */
  lemma {:induction false} DateTokensAppend(a: seq<string>, b: seq<string>)
    ensures DateTokens(a + b) == DateTokens(a) + DateTokens(b)
  {
    if b == [] {
      assert a + b == a;
    } else {
      var init, last := b[..|b| - 1], b[|b| - 1];
      assert (a + b)[..|a + b| - 1] == a + init;
      assert (a + b)[|a + b| - 1] == last;
      DateTokensAppend(a, init);
      var kept := if IsDateCandidate(last) then [last] else [];
      assert DateTokens(a + b) == DateTokens(a + init) + kept;
      assert DateTokens(b) == DateTokens(init) + kept;
      assert DateTokens(a) + DateTokens(init) + kept == DateTokens(a) + (DateTokens(init) + kept);
    }
  }

  /** The candidates one line contributes. */
  function LineDates(line: string): seq<string>
  {
    (if '/' in line && |line| == 5 then [line] else [])
    + (if '/' in line && |line| > 5 then DateTokens(Split(line)) else [])
  }

  /** Every candidate a line contributes has five characters and a `/`. */
  lemma LineDatesAreCandidates(line: string)
    ensures forall d :: d in LineDates(line) ==> IsDateCandidate(d)
  {
    forall d | d in LineDates(line) ensures IsDateCandidate(d) {
      if !('/' in line && |line| == 5) {
        DateTokensMembership(Split(line), d);
      }
    }
  }

  /** Every candidate is copied verbatim from its line: a five-character run of it. */
  lemma LineDatesAreVerbatim(line: string)
    ensures forall d :: d in LineDates(line) ==> IsInfix(d, line)
  {
    forall d | d in LineDates(line) ensures IsInfix(d, line) {
      if '/' in line && |line| == 5 {
        assert d == line && OccursAt(line, line, 0);
      } else {
        DateTokensMembership(Split(line), d);
        SplitTokensAreInfixes(line);
        var i :| 0 <= i < |Split(line)| && Split(line)[i] == d;
      }
    }
  }

  /** `datesList` after scanning `lines`: each line's candidates, line after line. */
  function Dates(lines: seq<string>): seq<string>
  {
    if lines == [] then []
    else Dates(lines[..|lines| - 1]) + LineDates(lines[|lines| - 1])
  }

  /**
   * Every collected candidate has five characters and a `/`; in particular
   * each is long enough for the year suffix `getExpiryDate` reads.
   */
  lemma {:induction false} DatesAreCandidates(lines: seq<string>)
    ensures forall k :: 0 <= k < |Dates(lines)| ==> IsDateCandidate(Dates(lines)[k])
    ensures LongEnough(Dates(lines))
  {
    if lines != [] {
      var init := lines[..|lines| - 1];
      var last := lines[|lines| - 1];
      DatesAreCandidates(init);
      LineDatesAreCandidates(last);
      var r := Dates(lines);
      forall k | 0 <= k < |r| ensures IsDateCandidate(r[k]) {
        if k < |Dates(init)| {
          assert r[k] == Dates(init)[k];
        } else {
          assert r[k] in LineDates(last);
        }
      }
    }
  }

  /** Every collected candidate is a five-character run of one of the scanned lines. */
  lemma {:induction false} DatesAreVerbatim(lines: seq<string>)
    ensures forall k :: 0 <= k < |Dates(lines)| ==>
      exists i :: 0 <= i < |lines| && IsInfix(Dates(lines)[k], lines[i])
  {
    if lines != [] {
      var init := lines[..|lines| - 1];
      var last := lines[|lines| - 1];
      DatesAreVerbatim(init);
      LineDatesAreVerbatim(last);
      var prefix := Dates(init);
      forall k | 0 <= k < |Dates(lines)|
        ensures exists i :: 0 <= i < |lines| && IsInfix(Dates(lines)[k], lines[i])
      {
        if k < |prefix| {
          var i :| 0 <= i < |init| && IsInfix(prefix[k], init[i]);
          assert init[i] == lines[i];
        } else {
          assert Dates(lines)[k] in LineDates(last);
        }
      }
    } else {
      assert Dates(lines) == [];
    }
  }

  /** Scanning two runs of lines back to back collects the first run's candidates, then the second's. */
  lemma {:induction false} DatesAppend(a: seq<string>, b: seq<string>)
    ensures Dates(a + b) == Dates(a) + Dates(b)
  {
    if b == [] {
      assert a + b == a;
    } else {
      var init, last := b[..|b| - 1], b[|b| - 1];
      assert b == init + [last];
      assert a + b == (a + init) + [last];
      DatesAppend(a, init);
      DatesSnoc(a + init, last);
      DatesSnoc(init, last);
      AppendAssoc(Dates(a), Dates(init), LineDates(last));
    }
  }

  lemma AppendAssoc(x: seq<string>, y: seq<string>, z: seq<string>)
    ensures x + y + z == x + (y + z)
  {
  }

  /** Scanning one more line appends its candidates. */
  lemma DatesSnoc(lines: seq<string>, line: string)
    ensures Dates(lines + [line]) == Dates(lines) + LineDates(line)
  {
    assert (lines + [line])[..|lines|] == lines;
  }

  lemma {:induction false} FlattenAppend(x: seq<seq<string>>, y: seq<seq<string>>)
    ensures Flatten(x + y) == Flatten(x) + Flatten(y)
  {
    if y == [] {
      assert x + y == x;
    } else {
      var init := y[..|y| - 1];
      assert (x + y)[..|x + y| - 1] == x + init;
      FlattenAppend(x, init);
    }
  }

  /**
   * Candidates keep scan order: those of earlier blocks come before those of
   * later blocks (and, by `DatesAppend`, earlier lines before later lines).
   */
  lemma ScanOrder(x: seq<seq<string>>, y: seq<seq<string>>)
    ensures Dates(Flatten(x + y)) == Dates(Flatten(x)) + Dates(Flatten(y))
  {
    FlattenAppend(x, y);
    DatesAppend(Flatten(x), Flatten(y));
  }

  /**
   * What one line contributes: nothing if it is shorter than five characters or
   * has no `/`; the whole line if it has exactly five; otherwise exactly its
   * space-separated tokens of the candidate shape, so a longer line without a
   * space contributes nothing.
   */
  lemma LineDatesCases(line: string)
    ensures |line| < 5 || '/' !in line ==> LineDates(line) == []
    ensures |line| == 5 && '/' in line ==> LineDates(line) == [line]
    ensures |line| > 5 && '/' in line ==>
      forall t :: t in LineDates(line) <==> t in Split(line) && IsDateCandidate(t)
    ensures |line| > 5 && ' ' !in line ==> LineDates(line) == []
  {
    if |line| > 5 && '/' in line {
      forall t ensures t in LineDates(line) <==> t in Split(line) && IsDateCandidate(t) {
        DateTokensMembership(Split(line), t);
      }
    }
    if |line| > 5 && ' ' !in line {
      SplitCount(line);
      SplitJoin(line);
      assert multiset(line)[' '] == 0;
      assert Split(line) == [line];
      assert !IsDateCandidate(line);
      assert [line][..0] == [];
      assert DateTokens([line]) == [];
    }
  }

  /** `cardNumber` after scanning `lines`: the last line that reads as a card number, spaces removed. */
  function CardNumber(lines: seq<string>): (r: string)
    ensures r == "" <==> forall i :: 0 <= i < |lines| ==> !IsCardNumberValid(lines[i])
    ensures r != "" ==> exists i :: 0 <= i < |lines| && LastCardLine(lines, i) && r == StripSpaces(lines[i])
  {
    if lines == [] then ""
    else
      var last := lines[|lines| - 1];
      var init := lines[..|lines| - 1];
      assert forall i :: 0 <= i < |init| ==> init[i] == lines[i];
      if IsCardNumberValid(last) then
        assert LastCardLine(lines, |lines| - 1);
        StripSpaces(last)
      else
        var r := CardNumber(init);
        if r != "" then
          var i :| 0 <= i < |init| && LastCardLine(init, i) && r == StripSpaces(init[i]);
          assert forall j :: i < j < |lines| ==> !IsCardNumberValid(lines[j]) by {
            forall j | i < j < |lines| ensures !IsCardNumberValid(lines[j]) {
              if j < |init| { assert !IsCardNumberValid(init[j]); }
            }
          }
          assert LastCardLine(lines, i);
          r
        else r
  }

  /** Line `i` reads as a card number and no later line does. */
  predicate LastCardLine(lines: seq<string>, i: int)
  {
    0 <= i < |lines| && IsCardNumberValid(lines[i])
    && forall j :: i < j < |lines| ==> !IsCardNumberValid(lines[j])
  }

  /**
   * The callback's arguments for one OCR result, or `None` when the callback is
   * not invoked: the receiver is null, no line reads as a card number, or no
   * candidate has a non-zero year suffix.
   */
  function Extract(text: Option<seq<seq<string>>>, getCardType: string -> CardType): (r: Option<CardDetails>)
    ensures text.None? ==> r.None?
    ensures r.Some? ==> r.value.cardNumber != "" && r.value.expiryDate != ""
  {
    match text
    case None => None
    case Some(blocks) =>
      var lines := Flatten(blocks);
      var cardNumber := CardNumber(lines);
      DatesAreCandidates(lines);
      var expiryDate := GetExpiryDate(Dates(lines));
      if IsValidString(cardNumber) && IsValidString(expiryDate) then
        Some(CardDetails(cardNumber, expiryDate, getCardType(cardNumber).cardType, getCardType(cardNumber).cardIcon))
      else None
  }

  /**
   * The callback fires exactly when some line reads as a card number and some
   * candidate has a non-zero year suffix.
   */
  lemma ExtractFiresExactly(blocks: seq<seq<string>>, getCardType: string -> CardType)
    ensures var lines := Flatten(blocks);
      var dates := Dates(lines);
      LongEnough(dates) &&
      (Extract(Some(blocks), getCardType).Some? <==>
        (exists i :: 0 <= i < |lines| && IsCardNumberValid(lines[i]))
        && (exists k :: 0 <= k < |dates| && SuffixValue(dates[k]) != 0))
  {
    var lines := Flatten(blocks);
    DatesAreCandidates(lines);
    ExtractGate(blocks, getCardType);
    CardNumberFound(lines);
    ExpiryDateFound(Dates(lines));
  }

  /** The gate: the callback fires when both fields are non-empty. */
  lemma ExtractGate(blocks: seq<seq<string>>, getCardType: string -> CardType)
    requires LongEnough(Dates(Flatten(blocks)))
    ensures Extract(Some(blocks), getCardType).Some? <==>
      CardNumber(Flatten(blocks)) != "" && GetExpiryDate(Dates(Flatten(blocks))) != ""
  {
  }

  /**
   * The gate in terms of `maxOfOrNull` itself, so that it holds whatever
   * `parseInt` does with a sign: the callback fires exactly when some line is
   * accepted and the largest year suffix exists and is not 0.
   */
  lemma ExtractFiresByMax(blocks: seq<seq<string>>, getCardType: string -> CardType)
    ensures var lines := Flatten(blocks);
      var dates := Dates(lines);
      LongEnough(dates) &&
      (Extract(Some(blocks), getCardType).Some? <==>
        (exists i :: 0 <= i < |lines| && IsCardNumberValid(lines[i]))
        && MaxSuffix(dates).Some? && MaxSuffix(dates) != Some(0))
  {
    var lines := Flatten(blocks);
    DatesAreCandidates(lines);
    ExtractGate(blocks, getCardType);
    CardNumberFound(lines);
  }

  lemma CardNumberFound(lines: seq<string>)
    ensures CardNumber(lines) != "" <==> exists i :: 0 <= i < |lines| && IsCardNumberValid(lines[i])
  {
    if CardNumber(lines) == "" {
      assert forall i :: 0 <= i < |lines| ==> !IsCardNumberValid(lines[i]);
    }
  }

  lemma ExpiryDateFound(dates: seq<string>)
    requires LongEnough(dates)
    ensures GetExpiryDate(dates) != "" <==> exists k :: 0 <= k < |dates| && SuffixValue(dates[k]) != 0
  {
    if GetExpiryDate(dates) == "" {
      assert forall k :: 0 <= k < |dates| ==> SuffixValue(dates[k]) == 0;
    }
  }

  /**
   * When the callback fires, it receives the last card-number line with its
   * spaces removed (13 to 16 digits), the selected date (one of the collected
   * candidates), and the card type and icon of that number.
   */
  lemma ExtractArguments(blocks: seq<seq<string>>, getCardType: string -> CardType)
    requires Extract(Some(blocks), getCardType).Some?
    ensures var lines := Flatten(blocks);
      var dates := Dates(lines);
      var r := Extract(Some(blocks), getCardType).value;
      && LongEnough(dates)
      && r.cardNumber == CardNumber(lines)
      && (exists i :: LastCardLine(lines, i) && r.cardNumber == StripSpaces(lines[i]))
      && AllDigits(r.cardNumber) && 13 <= |r.cardNumber| <= 16
      && r.expiryDate == GetExpiryDate(dates)
      && (exists k :: 0 <= k < |dates| && IsFirstLatest(dates, k) && r.expiryDate == dates[k])
      && IsDateCandidate(r.expiryDate)
      && r.cardType == getCardType(r.cardNumber).cardType
      && r.cardIcon == getCardType(r.cardNumber).cardIcon
  {
    var lines := Flatten(blocks);
    var dates := Dates(lines);
    var r := Extract(Some(blocks), getCardType).value;
    DatesAreCandidates(lines);
    assert r.cardNumber == CardNumber(lines) && r.expiryDate == GetExpiryDate(dates);
    var i :| 0 <= i < |lines| && LastCardLine(lines, i) && r.cardNumber == StripSpaces(lines[i]);
    var k :| 0 <= k < |dates| && dates[k] == r.expiryDate && IsFirstLatest(dates, k);
  }

  // A Visa card photographed with its holder, number, label, date and CVV on separate lines.
  const ExampleNumber: string := "4532" + "0151" + "1283" + "0366"

  /** The lines of the example, named so that their texts stay out of each step's proof. */
  predicate ExampleLines(l0: string, l1: string, l2: string, l3: string, l4: string)
  {
    l0 == "JOHN DOE" && l1 == "4532" + " " + "0151" + " " + "1283" + " " + "0366" && l2 == "VALID THRU" && l3 == "08/25" && l4 == "CVV 123"
  }

  lemma ExampleGroupsAreDigits(a: string, b: string, c: string, d: string)
    requires a == "4532" && b == "0151" && c == "1283" && d == "0366"
    ensures AllDigits(a + b + c + d)
  {
    assert AllDigits(a) && AllDigits(b) && AllDigits(c) && AllDigits(d);
    AllDigitsSplit(a + b, |a|);
    AllDigitsSplit(a + b + c, |a + b|);
    AllDigitsSplit(a + b + c + d, |a + b + c|);
    assert (a + b)[..|a|] == a && (a + b)[|a|..] == b;
    assert (a + b + c)[..|a + b|] == a + b && (a + b + c)[|a + b|..] == c;
    assert (a + b + c + d)[..|a + b + c|] == a + b + c && (a + b + c + d)[|a + b + c|..] == d;
  }

  lemma ExampleStripGroups(a: string, b: string, c: string, d: string)
    requires a == "4532" && b == "0151" && c == "1283" && d == "0366"
    ensures StripSpaces(a + " " + b + " " + c + " " + d) == a + b + c + d
  {
    StripSpacesAroundSpace(a + " " + b + " " + c, d);
    StripSpacesAroundSpace(a + " " + b, c);
    StripSpacesAroundSpace(a, b);
    StripSpacesFixedPoint(a);
    StripSpacesFixedPoint(b);
    StripSpacesFixedPoint(c);
    StripSpacesFixedPoint(d);
  }

  lemma ExampleNumberLine(l1: string)
    requires l1 == "4532" + " " + "0151" + " " + "1283" + " " + "0366"
    ensures StripSpaces(l1) == ExampleNumber && IsCardNumberValid(l1)
  {
    ExampleStripGroups("4532", "0151", "1283", "0366");
    ExampleNumberIsVisa(ExampleNumber);
  }

  lemma ExampleNumberIsVisa(n: string)
    requires n == "4532" + "0151" + "1283" + "0366"
    ensures InCardPattern(n)
  {
    ExampleGroupsAreDigits("4532", "0151", "1283", "0366");
    assert |n| == 16 && n[0] == '4';
    assert IsVisa(n);
  }

  lemma ExampleCardNumber(l0: string, l1: string, l2: string, l3: string, l4: string)
    requires ExampleLines(l0, l1, l2, l3, l4)
    ensures CardNumber([l0, l1, l2, l3, l4]) == ExampleNumber
  {
    var lines := [l0, l1, l2, l3, l4];
    ExampleNumberLine(l1);
    assert !IsCardNumberValid(l2) && !IsCardNumberValid(l3) && !IsCardNumberValid(l4);
    assert LastCardLine(lines, 1);
    var cn := CardNumber(lines);
    var i :| 0 <= i < |lines| && LastCardLine(lines, i) && cn == StripSpaces(lines[i]);
    assert !IsCardNumberValid(l0);
    assert i == 1;
  }

  lemma ExampleDates(l0: string, l1: string, l2: string, l3: string, l4: string)
    requires ExampleLines(l0, l1, l2, l3, l4)
    ensures Dates([l0, l1, l2, l3, l4]) == [l3]
  {
    var lines := [l0, l1, l2, l3, l4];
    assert '/' !in l0 && '/' !in l1 && '/' !in l2 && '/' !in l4;
    assert '/' in l3 && |l3| == 5;
    assert lines[..1] == [l0];
    assert lines[..2][..1] == lines[..1];
    assert lines[..3][..2] == lines[..2];
    assert lines[..4][..3] == lines[..3];
    assert lines[..5][..4] == lines[..4];
    assert Dates(lines[..1]) == [];
    assert Dates(lines[..2]) == [];
    assert Dates(lines[..3]) == [];
    assert Dates(lines[..4]) == [l3];
    assert lines[..5] == lines;
  }

  lemma ExampleFlatten(l0: string, l1: string, l2: string, l3: string, l4: string)
    ensures Flatten([[l0, l1], [l2, l3], [l4]]) == [l0, l1, l2, l3, l4]
  {
    var blocks := [[l0, l1], [l2, l3], [l4]];
    assert blocks[..2][..1] == [blocks[0]];
    assert blocks[..2][..1][..0] == [];
    assert Flatten(blocks[..1]) == blocks[0];
    assert Flatten(blocks[..2]) == blocks[0] + blocks[1];
  }

  /** The card is reported with its number stripped of spaces and the one date found. */
  lemma EndToEndVisa(getCardType: string -> CardType)
    ensures Extract(Some([["JOHN DOE", "4532 0151 1283 0366"], ["VALID THRU", "08/25"], ["CVV 123"]]), getCardType)
      == Some(CardDetails(ExampleNumber, "08/25",
                          getCardType(ExampleNumber).cardType, getCardType(ExampleNumber).cardIcon))
  {
    ExampleEndToEnd("JOHN DOE", "4532 0151 1283 0366", "VALID THRU", "08/25", "CVV 123", getCardType);
  }

  lemma ExampleEndToEnd(l0: string, l1: string, l2: string, l3: string, l4: string, getCardType: string -> CardType)
    requires ExampleLines(l0, l1, l2, l3, l4)
    ensures Extract(Some([[l0, l1], [l2, l3], [l4]]), getCardType)
      == Some(CardDetails(ExampleNumber, l3,
                          getCardType(ExampleNumber).cardType, getCardType(ExampleNumber).cardIcon))
  {
    ExampleFlatten(l0, l1, l2, l3, l4);
    ExampleCardNumber(l0, l1, l2, l3, l4);
    ExampleDates(l0, l1, l2, l3, l4);
    TwoDigitSuffix(l3, '2', '5');
    OneCandidate(l3);
    ExtractOf(Some([[l0, l1], [l2, l3], [l4]]), getCardType, ExampleNumber, l3);
  }

  /** The callback's arguments once the scan's two results are known. */
  lemma ExtractOf(text: Option<seq<seq<string>>>, getCardType: string -> CardType, cardNumber: string, date: string)
    requires text.Some? && cardNumber != ""
    requires CardNumber(Flatten(text.value)) == cardNumber
    requires Dates(Flatten(text.value)) == [date] && |date| >= 2 && GetExpiryDate([date]) == date
    ensures Extract(text, getCardType)
      == Some(CardDetails(cardNumber, date, getCardType(cardNumber).cardType, getCardType(cardNumber).cardIcon))
  {
  }

  /** The three branches of one line's `datesList` update, in the form the loop of `ScanLines` takes them. */
  lemma LineDatesStep(line: string)
    ensures !('/' in line && |line| >= 5) ==> LineDates(line) == []
    ensures '/' in line && |line| == 5 ==> LineDates(line) == [line]
    ensures '/' in line && |line| > 5 ==> LineDates(line) == DateTokens(Split(line))
  {
  }

  /** Scanning one more line extends `datesList` by its candidates and may overwrite `cardNumber`. */
  lemma ScanStep(lines: seq<string>, i: nat)
    requires i < |lines|
    ensures Dates(lines[..i + 1]) == Dates(lines[..i]) + LineDates(lines[i])
    ensures CardNumber(lines[..i + 1]) ==
      if IsCardNumberValid(lines[i]) then StripSpaces(lines[i]) else CardNumber(lines[..i])
  {
    assert lines[..i + 1][..i] == lines[..i];
    assert lines[..i + 1][i] == lines[i];
  }

  /** The inner `forEach` of a long line: appends the tokens of the candidate shape, in order. */
  method AppendDateTokens(datesList: seq<string>, tokens: seq<string>) returns (r: seq<string>)
    ensures r == datesList + DateTokens(tokens)
  {
    r := datesList;
    var j := 0;
    while j < |tokens|
      invariant 0 <= j <= |tokens|
      invariant r == datesList + DateTokens(tokens[..j])
    {
      assert tokens[..j + 1][..j] == tokens[..j];
      if IsDateCandidate(tokens[j]) {
        r := r + [tokens[j]];
      }
      j := j + 1;
    }
    assert tokens[..|tokens|] == tokens;
  }

  /**
   * The `forEach` over the flattened lines: appends each line's candidates to
   * `datesList` and overwrites `cardNumber` whenever a line reads as a card number.
   */
  method ScanLines(lines: seq<string>) returns (datesList: seq<string>, cardNumber: string)
    ensures datesList == Dates(lines)
    ensures cardNumber == CardNumber(lines)
  {
    datesList := [];
    cardNumber := "";
    var i := 0;
    while i < |lines|
      invariant 0 <= i <= |lines|
      invariant datesList == Dates(lines[..i])
      invariant cardNumber == CardNumber(lines[..i])
    {
      var line := ValidateString(Some(lines[i]));
      ScanStep(lines, i);
      LineDatesStep(line);
      if '/' in line && |line| == 5 {
        datesList := datesList + [line];
      }
      if '/' in line && |line| > 5 {
        datesList := AppendDateTokens(datesList, Split(line));
      }
      if IsCardNumberValid(line) {
        cardNumber := StripSpaces(line);
      }
      i := i + 1;
    }
    assert lines[..|lines|] == lines;
  }

  /**
   * `setValuesFromVisionText`: nothing for a null receiver; otherwise scan the
   * lines and invoke the callback only when both fields were found.
   */
  method SetValuesFromVisionText(text: Option<seq<seq<string>>>, getCardType: string -> CardType)
    returns (callback: Option<CardDetails>)
    ensures callback == Extract(text, getCardType)
  {
    if text.None? {
      return None;
    }
    var datesList, cardNumber := ScanLines(Flatten(text.value));
    DatesAreCandidates(Flatten(text.value));
    if IsValidString(cardNumber) && IsValidString(GetExpiryDate(datesList)) {
      callback := Some(CardDetails(cardNumber, GetExpiryDate(datesList),
                                   getCardType(cardNumber).cardType, getCardType(cardNumber).cardIcon));
    } else {
      callback := None;
    }
  }
}
