/**
 * `datetime.strptime` for the two formats the validator uses, `%Y%m%d` and
 * `%Y%m`. CPython turns the format into a regular expression (year `\d\d\d\d`,
 * month `1[0-2]|0[1-9]|[1-9]`, day `3[01]|[12]\d|0[1-9]|[1-9]| [1-9]`), takes
 * the FIRST match at the start of the text in backtracking order, rejects the
 * text when that match does not reach its end ("unconverted data remains"),
 * then builds a date, which fails for year 0 or a day the month does not have.
 */
module PyDates {
  import opened PyText

  predicate IsLeapYear(y: int) {
    y % 4 == 0 && (y % 100 != 0 || y % 400 == 0)
  }

  function DaysInMonth(y: int, m: int): int {
    if m == 2 then (if IsLeapYear(y) then 29 else 28)
    else if m == 4 || m == 6 || m == 9 || m == 11 then 30
    else 31
  }

  /** A date `datetime.date(y, m, d)` accepts. */
  predicate IsValidDate(y: int, m: int, d: int) {
    1 <= y <= 9999 && 1 <= m <= 12 && 1 <= d <= DaysInMonth(y, m)
  }

  predicate DecimalAt(t: string, i: nat) {
    i < |t| && IsDecimal(t[i])
  }

  predicate CharIn(t: string, i: nat, lo: char, hi: char) {
    i < |t| && lo <= t[i] <= hi
  }

  /** Length matched by alternative `alt` of the month group at `i` (0 = no match). */
  function MonthAlternative(t: string, i: nat, alt: nat): (len: nat)
    ensures len <= 2 && (len > 0 ==> i + len <= |t|)
  {
    if alt == 0 then (if CharIn(t, i, '1', '1') && CharIn(t, i + 1, '0', '2') then 2 else 0)
    else if alt == 1 then (if CharIn(t, i, '0', '0') && CharIn(t, i + 1, '1', '9') then 2 else 0)
    else if alt == 2 then (if CharIn(t, i, '1', '9') then 1 else 0)
    else 0
  }

  /** Length matched by alternative `alt` of the day group at `i` (0 = no match). */
  function DayAlternative(t: string, i: nat, alt: nat): (len: nat)
    ensures len <= 2 && (len > 0 ==> i + len <= |t|)
  {
    if alt == 0 then (if CharIn(t, i, '3', '3') && CharIn(t, i + 1, '0', '1') then 2 else 0)
    else if alt == 1 then (if CharIn(t, i, '1', '2') && DecimalAt(t, i + 1) then 2 else 0)
    else if alt == 2 then (if CharIn(t, i, '0', '0') && CharIn(t, i + 1, '1', '9') then 2 else 0)
    else if alt == 3 then (if CharIn(t, i, '1', '9') then 1 else 0)
    else if alt == 4 then (if CharIn(t, i, ' ', ' ') && CharIn(t, i + 1, '1', '9') then 2 else 0)
    else 0
  }

  /** The first day alternative, from `alt` on, that matches at `i`. */
  function FirstDay(t: string, i: nat, alt: nat): (len: nat)
    ensures len <= 2 && (len > 0 ==> i + len <= |t|)
    decreases 5 - alt
  {
    if alt >= 5 then 0
    else if DayAlternative(t, i, alt) > 0 then DayAlternative(t, i, alt)
    else FirstDay(t, i, alt + 1)
  }

  /** The first month alternative, from `alt` on, that matches at `i`. */
  function FirstMonth(t: string, i: nat, alt: nat): (len: nat)
    ensures len <= 2 && (len > 0 ==> i + len <= |t|)
    decreases 3 - alt
  {
    if alt >= 3 then 0
    else if MonthAlternative(t, i, alt) > 0 then MonthAlternative(t, i, alt)
    else FirstMonth(t, i, alt + 1)
  }

  /**
   * The first (month, day) pair of alternatives that both match after the year,
   * trying month alternatives in order and, for each, every day alternative.
   */
  function FirstMonthDay(t: string, alt: nat): (r: (nat, nat))
    ensures r.0 == 0 <==> r.1 == 0
    ensures r.0 > 0 ==> 4 + r.0 + r.1 <= |t|
    decreases 3 - alt
  {
    if alt >= 3 then (0, 0)
    else
      var m := MonthAlternative(t, 4, alt);
      if m > 0 && FirstDay(t, 4 + m, 0) > 0 then (m, FirstDay(t, 4 + m, 0))
      else FirstMonthDay(t, alt + 1)
  }

  /** Value of a matched day group; the ` [1-9]` alternative is read by `int()`, which skips the space. */
  function DayValue(g: string): nat {
    if |g| == 2 && g[0] == ' ' && IsDecimal(g[1]) then DigitValue(g[1])
    else if AllDecimal(g) then DecimalValue(g)
    else 0
  }

  predicate YearMatches(t: string) {
    |t| >= 4 && AllDecimal(t[..4])
  }

  /** `datetime.strptime(t, '%Y%m%d')` does not raise. */
  predicate ParsesAsYmd(t: string) {
    YearMatches(t) &&
    var (m, d) := FirstMonthDay(t, 0);
    m > 0 && 4 + m + d == |t| &&
    assert AllDecimal(t[4..4 + m]) by {
      forall k | 4 <= k < 4 + m ensures IsDecimal(t[k]) {
        assert MonthAlternative(t, 4, 0) == m || MonthAlternative(t, 4, 1) == m || MonthAlternative(t, 4, 2) == m;
      }
    }
    IsValidDate(DecimalValue(t[..4]), DecimalValue(t[4..4 + m]), DayValue(t[4 + m..]))
  }

  /** `datetime.strptime(t, '%Y%m')` does not raise (the day defaults to 1). */
  predicate ParsesAsYm(t: string) {
    YearMatches(t) &&
    var m := FirstMonth(t, 4, 0);
    m > 0 && 4 + m == |t| && DecimalValue(t[..4]) >= 1
  }

  // ---------------------------------------------------------------------------
  // What the two parsers accept on plain digit strings.

  lemma {:induction false} TwoDigitValue(g: string)
    requires |g| == 2 && AllDecimal(g)
    ensures DecimalValue(g) == DigitValue(g[0]) * 10 + DigitValue(g[1])
  {
    var head := g[..1];
    assert head[..0] == [];
    assert DecimalValue(head) == DigitValue(g[0]);
    assert g[..|g| - 1] == head;
  }

  /** On two digits forming a day 1..31, the first matching day alternative takes both. */
  lemma {:induction false} DayTakesTwoDigits(t: string, i: nat)
    requires i + 2 <= |t| && IsDecimal(t[i]) && IsDecimal(t[i + 1])
    requires 1 <= DigitValue(t[i]) * 10 + DigitValue(t[i + 1]) <= 31
    ensures FirstDay(t, i, 0) == 2
  {
    if t[i] == '3' {
      assert DayAlternative(t, i, 0) == 2;
    } else if t[i] == '1' || t[i] == '2' {
      assert DayAlternative(t, i, 0) == 0;
      assert DayAlternative(t, i, 1) == 2;
    } else {
      assert t[i] == '0';
      assert DayAlternative(t, i, 0) == 0 && DayAlternative(t, i, 1) == 0;
      assert DayAlternative(t, i, 2) == 2;
    }
  }

  /**
   * Eight plain digits YYYYMMDD parse as `%Y%m%d` exactly when they name a real
   * calendar date: the regular expression never splits them another way.
   */
  lemma {:induction false} EightDigitDate(t: string)
    requires |t| == 8 && AllDecimal(t)
    ensures ParsesAsYmd(t) <==>
      IsValidDate(DecimalValue(t[..4]), DecimalValue(t[4..6]), DecimalValue(t[6..]))
  {
    if ParsesAsYmd(t) {
      ParsedDateValid(t);
    }
    if IsValidDate(DecimalValue(t[..4]), DecimalValue(t[4..6]), DecimalValue(t[6..])) {
      ValidDateParses(t);
    }
  }

  /** Eight digits that parse as `%Y%m%d` name a real date. */
  lemma {:induction false} ParsedDateValid(t: string)
    requires |t| == 8 && AllDecimal(t) && ParsesAsYmd(t)
    ensures IsValidDate(DecimalValue(t[..4]), DecimalValue(t[4..6]), DecimalValue(t[6..]))
  {
    TwoDigitValue(t[4..6]);
    TwoDigitValue(t[6..]);
    var (m, d) := FirstMonthDay(t, 0);
    assert m == 2 && d == 2;
    assert t[4 + m..] == t[6..];
  }

  /** Eight digits naming a real date parse as `%Y%m%d`: month and day each take two digits. */
  lemma {:induction false} ValidDateParses(t: string)
    requires |t| == 8 && AllDecimal(t)
    requires IsValidDate(DecimalValue(t[..4]), DecimalValue(t[4..6]), DecimalValue(t[6..]))
    ensures ParsesAsYmd(t)
  {
    TwoDigitValue(t[4..6]);
    TwoDigitValue(t[6..]);
    DayTakesTwoDigits(t, 6);
    if t[4] == '1' {
      assert MonthAlternative(t, 4, 0) == 2;
    } else {
      assert t[4] == '0';
      assert MonthAlternative(t, 4, 0) == 0 && MonthAlternative(t, 4, 1) == 2;
      assert FirstMonthDay(t, 0) == FirstMonthDay(t, 1);
    }
    var (m, d) := FirstMonthDay(t, 0);
    assert (m, d) == (2, 2);
    assert DayValue(t[6..]) == DecimalValue(t[6..]);
  }

  /** Six plain digits YYYYMM parse as `%Y%m` exactly when the month is 1..12 and the year is not 0. */
  lemma {:induction false} SixDigitMonth(t: string)
    requires |t| == 6 && AllDecimal(t)
    ensures ParsesAsYm(t) <==> DecimalValue(t[..4]) >= 1 && 1 <= DecimalValue(t[4..6]) <= 12
  {
    TwoDigitValue(t[4..6]);
    var m := FirstMonth(t, 4, 0);
    if t[4] == '1' && '0' <= t[5] <= '2' {
      assert m == 2;
    } else if t[4] == '0' && '1' <= t[5] <= '9' {
      assert MonthAlternative(t, 4, 0) == 0 && MonthAlternative(t, 4, 1) == 2;
    } else {
      assert MonthAlternative(t, 4, 0) == 0 && MonthAlternative(t, 4, 1) == 0;
      assert m <= 1;
    }
  }
}
