/** The parts of JavaScript's `Number` and `Date` that the month keys and the
    end-of-month prediction rely on: `Number(s)` on decimal text,
    `new Date(y, monthIndex)` with its two-digit-year rule and month overflow,
    and `new Date(y, m, 0).getDate()` on the proleptic Gregorian calendar. */
module JsDate {

  import opened Common
  import opened Text

  /** `Number(s)` for decimal text: surrounding white space is ignored and the
      empty string is 0; `None` stands for NaN, and all other text (signs,
      decimal points, exponents included) is read as NaN. */
  function ToNumber(s: string): (r: Option<int>)
    ensures r.Some? <==> AllDigits(Trim(s))
    ensures r.Some? ==> r.value >= 0
  {
    var t := Trim(s);
    if AllDigits(t) then Some(DigitsValue(t)) else None
  }

  lemma TrimOfDigits(s: string)
    requires AllDigits(s)
    ensures Trim(s) == s
  {
    if s != [] {
      DigitIsNotSpace(s[0]);
      DigitIsNotSpace(s[|s| - 1]);
      assert TrimStart(s) == s;
      assert TrimEnd(s) == s;
    }
  }

  lemma DigitIsNotSpace(c: char)
    requires IsDigit(c)
    ensures !IsJsSpace(c)
  {
  }

  lemma {:induction false} DigitsValueOfPadStart2(n: nat)
    ensures AllDigits(PadStart2(NatToString(n)))
    ensures DigitsValue(PadStart2(NatToString(n))) == n
  {
    DigitsValueOfNatToString(n);
    var s := NatToString(n);
    if |s| < 2 {
      var p := PadStart2(s);
      assert p == ['0'] + s;
      assert p[..1] == ['0'];
      assert DigitsValue(['0']) == 0 by {
        assert ['0'][..0] == [];
      }
    }
  }

  /** `const [y, m] = key.split('-').map(Number)`: the numbers before the first
      dash and between the first and second dash; `None` is NaN or undefined. */
  function SplitYearMonth(key: string): (r: (Option<int>, Option<int>))
    ensures '-' !in key ==> r.1.None?
  {
    var y := ToNumber(BeforeFirst(key, '-'));
    var m := match AfterFirst(key, '-')
      case None => None
      case Some(rest) => ToNumber(BeforeFirst(rest, '-'));
    (y, m)
  }

  /** The year `new Date(y, …)` uses: 0..99 stand for 1900..1999. */
  function FullYear(y: int): (r: int)
    ensures 0 <= y <= 99 ==> r == 1900 + y
    ensures (y < 0 || y > 99) ==> r == y
  {
    if 0 <= y <= 99 then 1900 + y else y
  }

  /** `new Date(y, monthIndex)` as (full year, month index 0..11): an index
      outside 0..11 carries into the year. */
  function MakeYearMonth(y: int, monthIndex: int): (r: (int, int))
    ensures 0 <= r.1 < 12
    ensures r.0 * 12 + r.1 == FullYear(y) * 12 + monthIndex
  {
    (FullYear(y) + monthIndex / 12, monthIndex % 12)
  }

  /** `${d.getFullYear()}-${String(d.getMonth() + 1).padStart(2, '0')}`. */
  function YearMonthKey(year: int, monthIndex: int): (r: string)
    requires 0 <= monthIndex < 12
  {
    IntToString(year) + "-" + PadStart2(NatToString(monthIndex + 1))
  }

  predicate IsLeapYear(y: int) {
    (y % 4 == 0 && y % 100 != 0) || y % 400 == 0
  }

  /** Length of calendar month `month` (1..12) of year `y`. */
  function DaysInMonth(y: int, month: int): (r: int)
    requires 1 <= month <= 12
    ensures 28 <= r <= 31
    ensures month == 2 ==> (r == 29 <==> IsLeapYear(y))
  {
    if month == 2 then (if IsLeapYear(y) then 29 else 28)
    else if month == 4 || month == 6 || month == 9 || month == 11 then 30
    else 31
  }

  /** `new Date(y, m, 0).getDate()`: day 0 of month index `m` is the last day
      of month index m - 1, so for 1 <= m <= 12 this is the length of calendar
      month m. */
  function LastDayOfMonth(y: int, m: int): (r: int)
    ensures 28 <= r <= 31
    ensures 1 <= m <= 12 ==> r == DaysInMonth(FullYear(y), m)
  {
    var ym := MakeYearMonth(y, m - 1);
    DaysInMonth(ym.0, ym.1 + 1)
  }

  /** The "YYYY-MM" key of the month before `activeMonth` (page.tsx
      lastMonthKey); text that does not parse gives "NaN-NaN". */
  function LastMonthKey(activeMonth: string): string {
    var parts := SplitYearMonth(activeMonth);
    PreviousMonthKey(parts.0, parts.1)
  }

  /** The key of `new Date(y, m - 2)`, or "NaN-NaN" when y or m is NaN. */
  function PreviousMonthKey(y: Option<int>, m: Option<int>): string {
    if y.None? || m.None? then "NaN-NaN"
    else
      var ym := MakeYearMonth(y.value, m.value - 2);
      YearMonthKey(ym.0, ym.1)
  }

  lemma DigitsHaveNoDash(s: string)
    requires AllDigits(s)
    ensures '-' !in s && BeforeFirst(s, '-') == s
  {
  }

  lemma AfterFirstOfJoin(a: string, c: char, b: string)
    requires c !in a
    ensures AfterFirst(a + [c] + b, c) == Some(b)
  {
    BeforeFirstOfJoin(a, c, b);
    assert (a + [c] + b)[|a| + 1..] == b;
  }

  lemma ToNumberOfDigits(s: string)
    requires AllDigits(s)
    ensures ToNumber(s) == Some(DigitsValue(s))
  {
    TrimOfDigits(s);
  }

  /** Digits, a dash and digits split into their two values. */
  lemma SplitYearMonthOfDigits(ys: string, ms: string)
    requires AllDigits(ys) && AllDigits(ms)
    ensures SplitYearMonth(ys + "-" + ms) == (Some(DigitsValue(ys)), Some(DigitsValue(ms)))
  {
    var key := ys + "-" + ms;
    assert key == ys + ['-'] + ms;
    DigitsHaveNoDash(ys);
    DigitsHaveNoDash(ms);
    BeforeFirstOfJoin(ys, '-', ms);
    AfterFirstOfJoin(ys, '-', ms);
    ToNumberOfDigits(ms);
    ToNumberOfDigits(ys);
  }

  /** A key written by YearMonthKey for a year of three or more digits reads
      back as that year and calendar month. */
  lemma SplitYearMonthOfKey(year: int, monthIndex: int)
    requires year >= 100 && 0 <= monthIndex < 12
    ensures SplitYearMonth(YearMonthKey(year, monthIndex)) == (Some(year), Some(monthIndex + 1))
  {
    var ys := NatToString(year);
    var ms := PadStart2(NatToString(monthIndex + 1));
    assert IntToString(year) == ys;
    DigitsValueOfPadStart2(monthIndex + 1);
    DigitsValueOfNatToString(year);
    SplitYearMonthOfDigits(ys, ms);
  }

  lemma PreviousMonthKeyOfMonth(year: int, month: int)
    requires 1 <= month <= 12
    ensures PreviousMonthKey(Some(year), Some(month)) ==
      if month == 1 then YearMonthKey(FullYear(year) - 1, 11) else YearMonthKey(FullYear(year), month - 2)
  {
    if month == 1 {
      assert MakeYearMonth(year, month - 2) == (FullYear(year) - 1, 11);
    } else {
      assert MakeYearMonth(year, month - 2) == (FullYear(year), month - 2);
    }
  }

  lemma PreviousMonthKeyOfLongYear(year: int, month: int)
    requires year >= 100 && 1 <= month <= 12
    ensures PreviousMonthKey(Some(year), Some(month)) ==
      if month == 1 then YearMonthKey(year - 1, 11) else YearMonthKey(year, month - 2)
  {
    if month == 1 {
      assert MakeYearMonth(year, month - 2) == (year - 1, 11);
    } else {
      assert MakeYearMonth(year, month - 2) == (year, month - 2);
    }
  }

  /** lastMonthKey of "y-MM" is "y-(MM-1)", and January gives "(y-1)-12". */
  lemma LastMonthKeyOfKey(year: int, month: int)
    requires year >= 100 && 1 <= month <= 12
    ensures LastMonthKey(YearMonthKey(year, month - 1)) ==
      if month == 1 then YearMonthKey(year - 1, 11) else YearMonthKey(year, month - 2)
  {
    KeyReadsBack(year, month);
    PreviousMonthKeyOfLongYear(year, month);
  }

  lemma KeyReadsBack(year: int, month: int)
    requires year >= 100 && 1 <= month <= 12
    ensures LastMonthKey(YearMonthKey(year, month - 1)) == PreviousMonthKey(Some(year), Some(month))
  {
    SplitYearMonthOfKey(year, month - 1);
  }

  lemma LastMonthKeyOfDigits(ys: string, month: int)
    requires AllDigits(ys) && 1 <= month <= 12
    ensures LastMonthKey(ys + "-" + PadStart2(NatToString(month))) ==
      PreviousMonthKey(Some(DigitsValue(ys)), Some(month))
  {
    DigitsValueOfPadStart2(month);
    SplitYearMonthOfDigits(ys, PadStart2(NatToString(month)));
  }

  /** A year whose digits read as 0..99 (such as "0050") is taken as
      1900..1999, so the month before "0050-03" is "1950-02". */
  lemma LastMonthKeyOfShortYear(ys: string, y: int, month: int)
    requires AllDigits(ys) && DigitsValue(ys) == y && 0 <= y <= 99 && 1 <= month <= 12
    ensures LastMonthKey(ys + "-" + PadStart2(NatToString(month))) ==
      if month == 1 then YearMonthKey(1900 + y - 1, 11) else YearMonthKey(1900 + y, month - 2)
  {
    LastMonthKeyOfDigits(ys, month);
    PreviousMonthKeyOfMonth(y, month);
    assert FullYear(y) == 1900 + y;
  }

  /** Unparseable text has no previous month: "2024" gives "NaN-NaN". */
  lemma LastMonthKeyWithoutDash(activeMonth: string)
    requires '-' !in activeMonth
    ensures LastMonthKey(activeMonth) == "NaN-NaN"
  {
  }
}
