/**
 * `getExpiryDate`: among the collected candidates, the first one whose
 * two-character year suffix is the largest, unless that largest suffix is 0.
 */
module ExpiryDate {
  import opened Wrappers
  import opened StringExt

  /** `substring(length - 2, length)` would throw on a shorter string. */
  predicate LongEnough(dates: seq<string>)
  {
    forall i :: 0 <= i < |dates| ==> |dates[i]| >= 2
  }

  /** The year suffix of a candidate: its last two characters, parsed. */
  function SuffixValue(d: string): (v: int)
    requires |d| >= 2
    ensures v >= 0
  {
    ParseInt(d[|d| - 2..])
  }

  /** `maxOfOrNull` over the suffix values: null for an empty list, otherwise the largest. */
  function MaxSuffix(dates: seq<string>): (m: Option<int>)
    requires LongEnough(dates)
    ensures m.None? <==> dates == []
    ensures m.Some? ==> exists i :: 0 <= i < |dates| && SuffixValue(dates[i]) == m.value
    ensures m.Some? ==> forall i :: 0 <= i < |dates| ==> SuffixValue(dates[i]) <= m.value
  {
    if dates == [] then None
    else
      var v := SuffixValue(dates[0]);
      match MaxSuffix(dates[1..])
      case None => Some(v)
      case Some(m) =>
        assert forall i :: 1 <= i < |dates| ==> dates[i] == dates[1..][i - 1];
        Some(if v >= m then v else m)
  }

  /**
   * `find { suffix == maxDate }`: the first candidate whose suffix value equals
   * the nullable target (an `Int` never equals null).
   */
  function FindFirst(dates: seq<string>, target: Option<int>): (r: Option<string>)
    requires LongEnough(dates)
    ensures r.None? <==> forall i :: 0 <= i < |dates| ==> Some(SuffixValue(dates[i])) != target
    ensures r.Some? ==> exists i :: 0 <= i < |dates| && dates[i] == r.value && FirstWith(dates, i, target)
  {
    if dates == [] then None
    else if Some(SuffixValue(dates[0])) == target then
      assert FirstWith(dates, 0, target);
      Some(dates[0])
    else
      var r := FindFirst(dates[1..], target);
      assert forall i :: 1 <= i < |dates| ==> dates[i] == dates[1..][i - 1];
      if r.Some? then
        var i :| 0 <= i < |dates[1..]| && dates[1..][i] == r.value && FirstWith(dates[1..], i, target);
        assert FirstWith(dates, i + 1, target);
        r
      else r
  }

  /** Position `i` holds the first candidate whose suffix value is `target`. */
  predicate FirstWith(dates: seq<string>, i: int, target: Option<int>)
    requires LongEnough(dates)
  {
    0 <= i < |dates| && Some(SuffixValue(dates[i])) == target
    && forall j :: 0 <= j < i ==> Some(SuffixValue(dates[j])) != target
  }

  /** Position `i` holds the first candidate with the largest year suffix. */
  predicate IsFirstLatest(dates: seq<string>, i: int)
    requires LongEnough(dates)
  {
    0 <= i < |dates|
    && (forall j :: 0 <= j < |dates| ==> SuffixValue(dates[j]) <= SuffixValue(dates[i]))
    && (forall j :: 0 <= j < i ==> SuffixValue(dates[j]) < SuffixValue(dates[i]))
  }

  /**
   * `getExpiryDate`. Empty exactly when `maxOfOrNull` gives null or 0, whatever
   * `parseInt` does with a sign; since suffix values are never negative here,
   * that is exactly when every candidate's suffix is 0 (so also on an empty
   * list). Otherwise the first candidate with the largest suffix.
   */
  function GetExpiryDate(dates: seq<string>): (r: string)
    requires LongEnough(dates)
    ensures r == "" <==> MaxSuffix(dates).None? || MaxSuffix(dates) == Some(0)
    ensures r == "" <==> forall i :: 0 <= i < |dates| ==> SuffixValue(dates[i]) == 0
    ensures r != "" ==> exists i :: 0 <= i < |dates| && dates[i] == r && IsFirstLatest(dates, i)
  {
    var maxDate := MaxSuffix(dates);
    if maxDate == Some(0) then ""
    else
      var currentDate := FindFirst(dates, maxDate);
      if currentDate.Some? then
        var i :| 0 <= i < |dates| && dates[i] == currentDate.value && FirstWith(dates, i, maxDate);
        FirstMaxIsFirstLatest(dates, i);
        ValidateString(currentDate)
      else ValidateString(currentDate)
  }

  /** The first candidate that reaches `maxOfOrNull` is the first with the largest suffix. */
  lemma FirstMaxIsFirstLatest(dates: seq<string>, i: int)
    requires LongEnough(dates) && FirstWith(dates, i, MaxSuffix(dates))
    ensures IsFirstLatest(dates, i)
  {
  }

  /** A lone candidate with a non-zero year suffix is the one selected. */
  lemma OneCandidate(d: string)
    requires |d| >= 2 && SuffixValue(d) != 0
    ensures GetExpiryDate([d]) == d
  {
    var r := GetExpiryDate([d]);
    assert r != "";
  }

  /** At most one position is the first with the largest suffix, so the selection is determined. */
  lemma FirstLatestIsUnique(dates: seq<string>, i: int, j: int)
    requires LongEnough(dates)
    requires IsFirstLatest(dates, i) && IsFirstLatest(dates, j)
    ensures i == j
  {
    assert SuffixValue(dates[i]) == SuffixValue(dates[j]);
  }

  lemma TwoDigitSuffix(d: string, a: char, b: char)
    requires |d| == 5 && d[3] == a && d[4] == b && IsDigit(a) && IsDigit(b)
    ensures SuffixValue(d) == 10 * DigitValue(a) + DigitValue(b)
  {
    assert d[3..] == [a, b];
  }

  /** Ties on the largest year go to the earliest candidate, whatever the months. */
  lemma TieGoesToFirst()
    ensures GetExpiryDate(["05/24", "11/23", "09/24"]) == "05/24"
  {
    var dates := ["05/24", "11/23", "09/24"];
    TwoDigitSuffix(dates[0], '2', '4');
    TwoDigitSuffix(dates[1], '2', '3');
    TwoDigitSuffix(dates[2], '2', '4');
    assert IsFirstLatest(dates, 0);
    var r := GetExpiryDate(dates);
    assert r != "";
    var i :| 0 <= i < |dates| && dates[i] == r && IsFirstLatest(dates, i);
    FirstLatestIsUnique(dates, i, 0);
  }

  /** A year suffix of 00 is indistinguishable from finding no date. */
  lemma AllZeroYearsRejected()
    ensures GetExpiryDate(["12/00", "01/00"]) == ""
    ensures GetExpiryDate([]) == ""
  {
    TwoDigitSuffix("12/00", '0', '0');
    TwoDigitSuffix("01/00", '0', '0');
  }
}
