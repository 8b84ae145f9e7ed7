/** The formatting helpers of lib/format.ts that do not depend on a locale. */
module Format {

  import opened Text

  /** getMonthKey: the first seven characters ("YYYY-MM") of a date string. */
  function MonthKey(date: string): (r: string)
    ensures |r| == if |date| < 7 then |date| else 7
    ensures r == date[..|r|]
  {
    date[..if |date| < 7 then |date| else 7]
  }

  lemma MonthKeyIdempotent(date: string)
    ensures MonthKey(MonthKey(date)) == MonthKey(date)
    ensures MonthKey("") == ""
  {
  }

  /** The month key of "YYYY-MM-DD..." is its "YYYY-MM" part. */
  lemma MonthKeyOfIsoDate(ym: string, rest: string)
    requires |ym| == 7
    ensures MonthKey(ym + rest) == ym
  {
    assert (ym + rest)[..7] == ym;
  }

  /** normalizeDate: the text before the first 'T' (the date part of an ISO timestamp). */
  function NormalizeDate(date: string): (r: string)
    ensures 'T' !in r
    ensures |r| <= |date| && r == date[..|r|]
    ensures 'T' !in date ==> r == date
  {
    BeforeFirst(date, 'T')
  }

  /** Stripping the time from "date T time" gives back the date. */
  lemma NormalizeDateRoundTrip(date: string, time: string)
    requires 'T' !in date
    ensures NormalizeDate(date + "T" + time) == date
    ensures NormalizeDate(NormalizeDate(date + "T" + time)) == date
  {
    BeforeFirstOfJoin(date, 'T', time);
  }

  /** JavaScript's `%`: the remainder takes the sign of the dividend. */
  function JsRem(a: int, b: int): (r: int)
    requires b > 0
    ensures -b < r < b
    ensures a >= 0 ==> r == a % b
  {
    if a >= 0 then a % b else -((-a) % b)
  }

  /** getOrdinalSuffix: "th" for 4..20, otherwise chosen by `day % 10`. */
  function OrdinalSuffix(day: int): (r: string)
    ensures 3 < day < 21 ==> r == "th"
    ensures r == "st" || r == "nd" || r == "rd" || r == "th"
  {
    if 3 < day < 21 then "th"
    else
      var d := JsRem(day, 10);
      if d == 1 then "st" else if d == 2 then "nd" else if d == 3 then "rd" else "th"
  }

  /** Outside 4..20 a non-negative day takes its suffix from its last digit. */
  lemma OrdinalSuffixByLastDigit(day: int)
    requires day >= 0 && !(3 < day < 21)
    ensures OrdinalSuffix(day) ==
      (if day % 10 == 1 then "st" else if day % 10 == 2 then "nd" else if day % 10 == 3 then "rd" else "th")
  {
  }

  /** Because `%` keeps the sign of a negative day, a negative day always takes "th". */
  lemma OrdinalSuffixOfNegativeDay(day: int)
    requires day < 0
    ensures OrdinalSuffix(day) == "th"
  {
  }

  lemma OrdinalSuffixExamples()
    ensures OrdinalSuffix(1) == "st" && OrdinalSuffix(21) == "st"
    ensures OrdinalSuffix(2) == "nd" && OrdinalSuffix(22) == "nd"
    ensures OrdinalSuffix(3) == "rd" && OrdinalSuffix(23) == "rd"
    ensures OrdinalSuffix(4) == "th" && OrdinalSuffix(11) == "th" && OrdinalSuffix(15) == "th"
  {
  }

  const VsLastMonth := "% vs last month"

  /** formatVsLastMonth: a "+" for a rise, the change rounded by toFixed(0), then the suffix. */
  function FormatVsLastMonth(value: real): (r: string)
    ensures |r| > |VsLastMonth| && r[|r| - |VsLastMonth|..] == VsLastMonth
    ensures r[0] == '+' <==> value > 0.0
    ensures r[0] == '-' <==> value < 0.0
  {
    var digits := ToFixed0(value);
    (if value > 0.0 then "+" else "") + digits + VsLastMonth
  }

  lemma FormatVsLastMonthOfRise()
    ensures FormatVsLastMonth(5.0) == "+5% vs last month"
  {
    assert ToFixed0(5.0) == "5" by {
      assert Round(5.0) == 5 && DigitChar(5) == '5';
    }
  }

  lemma FormatVsLastMonthOfFall()
    ensures FormatVsLastMonth(-10.0) == "-10% vs last month"
  {
    assert ToFixed0(-10.0) == "-10" by {
      assert Round(10.0) == 10 && NatToString(10) == "10";
    }
  }

  lemma FormatVsLastMonthOfZero()
    ensures FormatVsLastMonth(0.0) == "0% vs last month"
  {
    assert ToFixed0(0.0) == "0" by {
      assert Round(0.0) == 0 && DigitChar(0) == '0';
    }
  }
}
