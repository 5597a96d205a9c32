/**
 * The command-line validators and the race-card URL builder of
 * hkjc_scraper/utils.py.  `validate_date_format` is `time.strptime(s,
 * "%Y/%m/%d")` succeeding; the model spells out what CPython's strptime
 * accepts for that format: a four-digit year, a month written
 * `1[0-2]|0[1-9]|[1-9]`, a day written `3[01]|[12]\d|0[1-9]|[1-9]| [1-9]`,
 * nothing after the day, and a date that exists in the proleptic Gregorian
 * calendar with a year of at least 1.
 */
module Validate {
  import opened Strings

  datatype Date = Date(year: nat, month: nat, day: nat)

  predicate IsLeapYear(y: nat) { y % 4 == 0 && (y % 100 != 0 || y % 400 == 0) }

  function DaysInMonth(y: nat, m: nat): nat
    requires 1 <= m <= 12
  {
    if m == 2 then (if IsLeapYear(y) then 29 else 28)
    else if m == 4 || m == 6 || m == 9 || m == 11 then 30
    else 31
  }

  function DigitValue(c: char): nat
    requires IsDigit(c)
  {
    c as int - '0' as int
  }

  /** strptime's `%m`: `1[0-2]|0[1-9]|[1-9]`. */
  function MonthToken(t: string): (r: Option<nat>)
    ensures r.Some? ==> 1 <= r.value <= 12
  {
    if |t| == 1 && '1' <= t[0] <= '9' then Some(DigitValue(t[0]))
    else if |t| == 2 && t[0] == '1' && '0' <= t[1] <= '2' then Some(10 + DigitValue(t[1]))
    else if |t| == 2 && t[0] == '0' && '1' <= t[1] <= '9' then Some(DigitValue(t[1]))
    else None
  }

  /** strptime's `%d`: `3[01]|[12]\d|0[1-9]|[1-9]| [1-9]`, which must also end the input. */
  function DayToken(t: string): (r: Option<nat>)
    ensures r.Some? ==> 1 <= r.value <= 31
  {
    if |t| == 1 && '1' <= t[0] <= '9' then Some(DigitValue(t[0]))
    else if |t| == 2 && t[0] == '3' && '0' <= t[1] <= '1' then Some(30 + DigitValue(t[1]))
    else if |t| == 2 && '1' <= t[0] <= '2' && IsDigit(t[1]) then Some(10 * DigitValue(t[0]) + DigitValue(t[1]))
    else if |t| == 2 && (t[0] == '0' || t[0] == ' ') && '1' <= t[1] <= '9' then Some(DigitValue(t[1]))
    else None
  }

  /** What `time.strptime(s, "%Y/%m/%d")` reads from `s`, or None where it raises ValueError. */
  function ParseDate(s: string): (r: Option<Date>)
    ensures r.Some? ==> 1 <= r.value.year <= 9999 && 1 <= r.value.month <= 12
                        && 1 <= r.value.day <= DaysInMonth(r.value.year, r.value.month)
  {
    if |s| < 5 || !AllDigits(s[..4]) || s[4] != '/' then None
    else
      var rest := s[5..];
      var split :=
        if |rest| >= 2 && rest[1] == '/' then 1
        else if |rest| >= 3 && rest[2] == '/' then 2
        else 0;
      if split == 0 then None
      else
        var year := DigitsValue(s[..4]);
        DigitsBound(s[..4]);
        match (MonthToken(rest[..split]), DayToken(rest[split + 1..]))
        case (Some(m), Some(d)) =>
          if 1 <= year && d <= DaysInMonth(year, m) then Some(Date(year, m, d)) else None
        case _ => None
  }

  lemma {:induction false} DigitsBound(s: string)
    requires AllDigits(s)
    ensures DigitsValue(s) < Pow10(|s|)
    decreases |s|
  {
    if |s| > 0 {
      DigitsBound(s[..|s| - 1]);
    }
  }

  function Pow10(n: nat): nat { if n == 0 then 1 else 10 * Pow10(n - 1) }

  /** `validate_date_format` (utils.py:211-217). */
  predicate ValidateDateFormat(s: string)
  {
    ParseDate(s).Some?
  }

  /** `validate_race_number` (utils.py:226-228). */
  predicate ValidateRaceNumber(raceno: int)
  {
    1 <= raceno <= 12
  }

  /** Python's `str.upper()` on one character, for the characters whose upper case contains H, S, T or V. */
  function UpperChar(c: char): (r: string)
    ensures 1 <= |r| <= 2
  {
    if 'a' <= c <= 'z' then [(c as int - 32) as char]
    else if c == '\U{17F}' then "S"
    else if c == '\U{FB05}' || c == '\U{FB06}' then "ST"
    else [c]
  }

  function Upper(s: string): (r: string)
    ensures |r| >= |s|
  {
    if |s| == 0 then "" else UpperChar(s[0]) + Upper(s[1..])
  }

  const ValidCourses: seq<string> := ["HV", "ST"]

  /** `validate_course` (utils.py:220-223): `course.upper() in VALID_COURSES`. */
  predicate ValidateCourse(course: string)
  {
    Upper(course) in ValidCourses
  }

  const RacecardUrlPrefix: string :=
    "https://racing.hkjc.com/racing/information/Chinese/racing/RaceCard.aspx?RaceDate="

  /** `build_racecard_url` with the template of constants.py. */
  function BuildRacecardUrl(date: string, course: string, raceno: int): string
  {
    RacecardUrlPrefix + date + "&Racecourse=" + Upper(course) + "&RaceNo=" + IntToString(raceno)
  }

  // ---------------------------------------------------------------------------
  // Properties

  lemma UpperPair(a: char, b: char)
    ensures Upper([a, b]) == UpperChar(a) + UpperChar(b)
  {
    assert [a, b][1..] == [b];
    assert [b][1..] == [];
    assert Upper([b]) == UpperChar(b) + "";
    assert UpperChar(b) + "" == UpperChar(b);
  }

  /** The characters whose upper case is a single H, V, S or T. */
  lemma UpperCharLetter(c: char)
    ensures UpperChar(c) == "H" <==> c == 'h' || c == 'H'
    ensures UpperChar(c) == "V" <==> c == 'v' || c == 'V'
    ensures UpperChar(c) == "S" <==> c == 's' || c == 'S' || c == '\U{17F}'
    ensures UpperChar(c) == "T" <==> c == 't' || c == 'T'
    ensures UpperChar(c) == "ST" <==> c == '\U{FB05}' || c == '\U{FB06}'
    ensures UpperChar(c) != "HV"
  {
  }

  /** The spellings `validate_course` accepts, in both directions: case-insensitive HV or ST, plus the
      long s (U+017F) and the two "st" ligatures, whose upper case is S or ST. */
  lemma CourseSpellings(course: string)
    ensures ValidateCourse(course) <==>
      course in {"HV", "Hv", "hV", "hv", "ST", "St", "sT", "st", "\U{17F}T", "\U{17F}t", "\U{FB05}", "\U{FB06}"}
  {
    if |course| == 2 {
      assert course == [course[0], course[1]];
      UpperPair(course[0], course[1]);
      UpperCharLetter(course[0]);
      UpperCharLetter(course[1]);
      var x, y := UpperChar(course[0]), UpperChar(course[1]);
      if x + y == "HV" {
        assert |x| == 1 && |y| == 1;
        assert x == [(x + y)[0]] && y == [(x + y)[1]];
        assert x == "H" && y == "V";
      } else if x + y == "ST" {
        assert |x| == 1 && |y| == 1;
        assert x == [(x + y)[0]] && y == [(x + y)[1]];
        assert x == "S" && y == "T";
      }
    } else if |course| == 1 {
      assert course == [course[0]];
      assert Upper(course) == UpperChar(course[0]);
      UpperCharLetter(course[0]);
    } else if |course| == 0 {
      assert Upper(course) == "";
    } else {
      assert |Upper(course)| > 2;
    }
  }

  /** Zero-padded rendering, as in "2025/09/17". */
  function Pad(n: nat, width: nat): (r: string)
    ensures |r| == width
  {
    if width == 0 then "" else Pad(n / 10, width - 1) + [DigitChar(n % 10)]
  }

  lemma {:induction false} PadValue(n: nat, width: nat)
    requires n < Pow10(width)
    ensures AllDigits(Pad(n, width)) && DigitsValue(Pad(n, width)) == n
    decreases width
  {
    if width > 0 {
      PadValue(n / 10, width - 1);
      var p := Pad(n / 10, width - 1);
      var s := p + [DigitChar(n % 10)];
      assert s[..|s| - 1] == p;
      assert DigitsValue(s) == DigitsValue(p) * 10 + n % 10;
    }
  }

  function FormatDate(d: Date): string
  {
    Pad(d.year, 4) + "/" + Pad(d.month, 2) + "/" + Pad(d.day, 2)
  }

  lemma PadTwo(n: nat)
    requires n < 100
    ensures Pad(n, 2) == [DigitChar(n / 10), DigitChar(n % 10)]
  {
    var q := n / 10;
    assert q < 10 && q % 10 == q;
    assert Pad(q, 1) == Pad(q / 10, 0) + [DigitChar(q % 10)];
  }

  lemma MonthTokenPadded(m: nat)
    requires 1 <= m <= 12
    ensures MonthToken(Pad(m, 2)) == Some(m)
  {
    PadTwo(m);
  }

  lemma DayTokenPadded(d: nat)
    requires 1 <= d <= 31
    ensures DayToken(Pad(d, 2)) == Some(d)
  {
    PadTwo(d);
  }

  /** Every calendar date from year 1 to 9999, written YYYY/MM/DD, is accepted and read back unchanged. */
  lemma DateRoundTrip(d: Date)
    requires 1 <= d.year <= 9999 && 1 <= d.month <= 12 && 1 <= d.day <= DaysInMonth(d.year, d.month)
    ensures ParseDate(FormatDate(d)) == Some(d)
  {
    var s := FormatDate(d);
    PadValue(d.year, 4);
    MonthTokenPadded(d.month);
    DayTokenPadded(d.day);
    PadTwo(d.month);
    assert s[..4] == Pad(d.year, 4);
    var rest := s[5..];
    assert rest[..2] == Pad(d.month, 2) && rest[2] == '/' && rest[3..] == Pad(d.day, 2);
    assert rest[1] != '/';
  }

  /** The dates of the unit tests (tests/test_parsing_unit.py:35-42), and the one where the code
      and the test disagree: strptime's `%m` also reads a single digit, so "2025/9/17" is accepted. */
  lemma DigitsFour(s: string)
    requires |s| == 4 && AllDigits(s)
    ensures DigitsValue(s) == 1000 * DigitValue(s[0]) + 100 * DigitValue(s[1]) + 10 * DigitValue(s[2]) + DigitValue(s[3])
  {
    var a, b, c := s[..3], s[..2], s[..1];
    assert s[..|s| - 1] == a && a[..|a| - 1] == b && b[..|b| - 1] == c && c[..|c| - 1] == [];
    assert DigitsValue(c) == DigitValue(s[0]);
    assert DigitsValue(b) == DigitsValue(c) * 10 + DigitValue(s[1]);
    assert DigitsValue(a) == DigitsValue(b) * 10 + DigitValue(s[2]);
  }

  /** How ParseDate reads a string once its year digits and separators are located. */
  lemma ParseDateAt(s: string, split: nat)
    requires |s| >= 5 + split + 1 && AllDigits(s[..4]) && s[4] == '/'
    requires split == 1 || split == 2
    requires s[5 + split] == '/' && (split == 2 ==> s[6] != '/')
    ensures ParseDate(s) ==
      match (MonthToken(s[5..5 + split]), DayToken(s[6 + split..]))
      case (Some(m), Some(d)) =>
        if 1 <= DigitsValue(s[..4]) && d <= DaysInMonth(DigitsValue(s[..4]), m)
        then Some(Date(DigitsValue(s[..4]), m, d)) else None
      case _ => None
  {
    var rest := s[5..];
    assert rest[..split] == s[5..5 + split] && rest[split + 1..] == s[6 + split..];
  }

  /** The well-formed dates of the unit tests (tests/test_parsing_unit.py:35-38). */
  lemma DateExamplesAccepted()
    ensures ValidateDateFormat("2025/09/17") && ValidateDateFormat("2025/12/31") && ValidateDateFormat("2025/01/01")
  {
    AcceptsSeptember17();
    AcceptsDecember31();
    AcceptsNewYear();
  }

  /** A leap day, and a single-digit month, which strptime's `%m` reads although the unit test at
      tests/test_parsing_unit.py:41 expects it to be refused. */
  lemma DateExamplesLenient()
    ensures ValidateDateFormat("2024/02/29") && ValidateDateFormat("2025/9/17")
  {
    AcceptsLeapDay();
    AcceptsSingleDigitMonth();
  }

  /** 17 September 2025. */
  lemma AcceptsSeptember17()
    ensures ValidateDateFormat("2025/09/17")
  {
    var s := "2025/09/17";
    assert s[..4] == "2025";
    DigitsFour("2025");
    ParseDateAt(s, 2);
    assert s[8..] == "17" && s[5..7] == "09";
  }

  /** The last day of 2025. */
  lemma AcceptsDecember31()
    ensures ValidateDateFormat("2025/12/31")
  {
    var s := "2025/12/31";
    assert s[..4] == "2025";
    DigitsFour("2025");
    ParseDateAt(s, 2);
    assert s[8..] == "31" && s[5..7] == "12";
  }

  /** The first day of 2025. */
  lemma AcceptsNewYear()
    ensures ValidateDateFormat("2025/01/01")
  {
    var s := "2025/01/01";
    assert s[..4] == "2025";
    DigitsFour("2025");
    ParseDateAt(s, 2);
    assert s[8..] == "01" && s[5..7] == "01";
  }

  /** 29 February of the leap year 2024. */
  lemma AcceptsLeapDay()
    ensures ValidateDateFormat("2024/02/29")
  {
    var s := "2024/02/29";
    assert s[..4] == "2024";
    DigitsFour("2024");
    ParseDateAt(s, 2);
    assert s[8..] == "29" && s[5..7] == "02";
  }

  lemma AcceptsSingleDigitMonth()
    ensures ValidateDateFormat("2025/9/17")
  {
    var e := "2025/9/17";
    assert e[..4] == "2025";
    DigitsFour("2025");
    ParseDateAt(e, 1);
    assert e[7..] == "17" && e[5..6] == "9";
  }

  lemma DateExamplesRejected()
    ensures !ValidateDateFormat("2025-09-17") && !ValidateDateFormat("25/09/17") && !ValidateDateFormat("invalid")
    ensures !ValidateDateFormat("2025/02/29") && !ValidateDateFormat("0000/01/01")
  {
    assert "2025-09-17"[4] != '/';
    assert "25/09/17"[4] != '/';
    assert !IsDigit("invalid"[..4][0]);
    RejectsNonLeapDay();
    RejectsYearZero();
  }

  /** 29 February of a year that is not a leap year. */
  lemma RejectsNonLeapDay()
    ensures !ValidateDateFormat("2025/02/29")
  {
    var s := "2025/02/29";
    assert s[..4] == "2025";
    DigitsFour("2025");
    ParseDateAt(s, 2);
    assert s[8..] == "29" && s[5..7] == "02";
  }

  /** Year 0, which strptime refuses. */
  lemma RejectsYearZero()
    ensures !ValidateDateFormat("0000/01/01")
  {
    var z := "0000/01/01";
    assert z[..4] == "0000";
    DigitsFour("0000");
    ParseDateAt(z, 2);
    assert z[8..] == "01" && z[5..7] == "01";
  }

  /** For a course and race number the gate accepts, the URL names HV or ST and ends with the race
      number in decimal, from which the number reads back. */
  lemma RacecardUrlShape(date: string, course: string, raceno: int)
    requires ValidateCourse(course) && ValidateRaceNumber(raceno)
    ensures exists c, digits ::
      c in ValidCourses && AllDigits(digits) && DigitsValue(digits) == raceno &&
      BuildRacecardUrl(date, course, raceno) == RacecardUrlPrefix + date + "&Racecourse=" + c + "&RaceNo=" + digits
  {
    NatToStringRoundTrip(raceno);
    assert IntToString(raceno) == NatToString(raceno);
  }
}
