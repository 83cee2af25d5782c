/** The printed times name the day and the second they stand for, by the calendar (`%Y-%m-%dT%H:%M:%SZ`). */
module Calendar {
  import opened Approvals
  import opened Events
  import Decimal
  import EvidenceText

  // ---- The calendar -----------------------------------------------------------------------------------------------

  predicate IsLeap(y: int) { y % 4 == 0 && (y % 100 != 0 || y % 400 == 0) }

  function MonthLength(y: int, m: nat): (days: nat) {
    if m == 2 then if IsLeap(y) then 29 else 28 else if m == 4 || m == 6 || m == 9 || m == 11 then 30 else 31
  }

  /** Days from the start of 1970 to the start of the year. */
  function DaysBeforeYear(y: nat): nat
    requires y >= 1970
  {
    if y == 1970 then 0 else DaysBeforeYear(y - 1) + if IsLeap(y - 1) then 366 else 365
  }

  /** Days from the start of the year to the start of the month. */
  function DaysBeforeMonth(y: int, m: nat): nat
    requires 1 <= m
  {
    if m == 1 then 0 else DaysBeforeMonth(y, m - 1) + MonthLength(y, m - 1)
  }

  // ---- Arithmetic of years ----------------------------------------------------------------------------------------

  function Leaps(y: int): int { (y - 1) / 4 - (y - 1) / 100 + (y - 1) / 400 }

  lemma QuarterStep(y: int)
    ensures y / 4 == (y - 1) / 4 + if y % 4 == 0 then 1 else 0
  {
  }

  lemma CenturyStep(y: int)
    ensures y / 100 == (y - 1) / 100 + if y % 100 == 0 then 1 else 0
  {
  }

  lemma EraStep(y: int)
    ensures y / 400 == (y - 1) / 400 + if y % 400 == 0 then 1 else 0
  {
  }

  lemma Multiples(y: int)
    ensures y % 400 == 0 ==> y % 100 == 0
    ensures y % 100 == 0 ==> y % 4 == 0
  {
  }

  lemma LeapStep(y: int)
    ensures Leaps(y + 1) == Leaps(y) + if IsLeap(y) then 1 else 0
  {
    QuarterStep(y);
    CenturyStep(y);
    EraStep(y);
    Multiples(y);
  }

  lemma {:induction false} DaysBeforeYearIs(y: nat)
    requires y >= 1970
    ensures DaysBeforeYear(y) == 365 * (y - 1970) + Leaps(y) - 477
  {
    if y > 1970 {
      DaysBeforeYearIs(y - 1);
      LeapStep(y - 1);
      hide IsLeap, Leaps;
    }
  }

  lemma Shift(e: int, z: int)
    ensures (400 * e + z) / 4 == 100 * e + z / 4
    ensures (400 * e + z) / 100 == 4 * e + z / 100
    ensures (400 * e + z) / 400 == e + z / 400
  {
  }

  /** The days before year number `y` of an era of 400 years, which starts in March. */
  function Start(y: int): int { 365 * y + y / 4 - y / 100 }

  lemma LeapsOf(e: int, y: int)
    requires 0 <= y <= 399
    ensures Leaps(400 * e + y + 1) == 97 * e + y / 4 - y / 100
  {
    Shift(e, y);
    assert 400 * e + y + 1 - 1 == 400 * e + y;
  }

  /** A year that starts in March ends with a leap day if the next year is a leap year. */
  lemma LongYear(e: int, y: int)
    requires 0 <= y <= 399
    ensures y % 4 == 3 && (y % 100 != 99 || y == 399) ==> IsLeap(400 * e + y + 1)
  {
    Shift(e, y + 1);
    var z := 400 * e + (y + 1);
    assert z == 4 * (z / 4) + z % 4 && z == 100 * (z / 100) + z % 100 && z == 400 * (z / 400) + z % 400;
  }

  function YearOf(r: int): int { (r - r / 1460 + r / 36524 - r / 146096) / 365 }

  lemma YearInCentury(r: int, y: int, b: int)
    requires 0 <= b <= 3 && 36524 * b <= r < 36524 * (b + 1)
    requires y == (r - r / 1460 + b) / 365
    ensures 100 * b <= y <= 100 * b + 99 && 0 <= r - (365 * y + y / 4 - b) <= 365
    ensures r - (365 * y + y / 4 - b) == 365 ==> y % 4 == 3
  {
  }

  lemma LastOfCentury(r: int, y: int, b: int)
    requires 0 <= b < 3 && 36524 * b <= r < 36524 * (b + 1)
    requires y == (r - r / 1460 + b) / 365 && y == 100 * b + 99
    ensures r - (365 * y + y / 4 - b) < 365
  {
  }

  /** The year that a day of the era falls in. */
  lemma YearOfEra(r: int)
    requires 0 <= r < 146097
    ensures var y := YearOf(r);
      && 0 <= y <= 399 && 0 <= r - Start(y) <= 365
      && (r - Start(y) == 365 ==> y % 4 == 3 && (y % 100 != 99 || y == 399))
  {
    if r < 146096 {
      var b := r / 36524;
      var y := YearOf(r);
      assert r / 146096 == 0;
      YearInCentury(r, y, b);
      assert y / 100 == b;
      if b < 3 && y == 100 * b + 99 { LastOfCentury(r, y, b); }
    }
  }

  lemma MonthOf(ofYear: int)
    requires 0 <= ofYear <= 365
    ensures var month := (5 * ofYear + 2) / 153; var d := ofYear - (153 * month + 2) / 5;
      && 0 <= month <= 11 && 0 <= d <= 30
      && (month == 1 || month == 3 || month == 6 || month == 8 ==> d <= 29)
      && (month == 11 ==> d <= 28 && (d == 28 ==> ofYear == 365))
  {
  }

  function LeapDay(y: int): nat { if IsLeap(y) then 1 else 0 }

  lemma Months(y: int)
    ensures DaysBeforeMonth(y, 1) == 0 && DaysBeforeMonth(y, 2) == 31 && DaysBeforeMonth(y, 3) == 59 + LeapDay(y)
    ensures DaysBeforeMonth(y, 4) == 90 + LeapDay(y) && DaysBeforeMonth(y, 5) == 120 + LeapDay(y)
    ensures DaysBeforeMonth(y, 6) == 151 + LeapDay(y) && DaysBeforeMonth(y, 7) == 181 + LeapDay(y)
    ensures DaysBeforeMonth(y, 8) == 212 + LeapDay(y) && DaysBeforeMonth(y, 9) == 243 + LeapDay(y)
    ensures DaysBeforeMonth(y, 10) == 273 + LeapDay(y) && DaysBeforeMonth(y, 11) == 304 + LeapDay(y)
    ensures DaysBeforeMonth(y, 12) == 334 + LeapDay(y)
  {
    assert DaysBeforeMonth(y, 1) == 0;
    assert DaysBeforeMonth(y, 2) == 31;
    assert DaysBeforeMonth(y, 3) == 31 + MonthLength(y, 2);
    assert DaysBeforeMonth(y, 4) == DaysBeforeMonth(y, 3) + 31;
    assert DaysBeforeMonth(y, 5) == DaysBeforeMonth(y, 4) + 30;
    assert DaysBeforeMonth(y, 6) == DaysBeforeMonth(y, 5) + 31;
    assert DaysBeforeMonth(y, 7) == DaysBeforeMonth(y, 6) + 30;
    assert DaysBeforeMonth(y, 8) == DaysBeforeMonth(y, 7) + 31;
    assert DaysBeforeMonth(y, 9) == DaysBeforeMonth(y, 8) + 31;
    assert DaysBeforeMonth(y, 10) == DaysBeforeMonth(y, 9) + 30;
    assert DaysBeforeMonth(y, 11) == DaysBeforeMonth(y, 10) + 31;
    assert DaysBeforeMonth(y, 12) == DaysBeforeMonth(y, 11) + 30;
  }

  /** Where the months of a year from March on begin. */
  lemma MonthStarts(month: int)
    requires 0 <= month <= 11
    ensures (153 * month + 2) / 5 == if month == 0 then 0 else if month == 1 then 31 else if month == 2 then 61 else
      if month == 3 then 92 else if month == 4 then 122 else if month == 5 then 153 else if month == 6 then 184 else
      if month == 7 then 214 else if month == 8 then 245 else if month == 9 then 275 else if month == 10 then 306 else 337
  {
  }

  // ---- Dates ------------------------------------------------------------------------------------------------------

  /** A day of that month, so many days after 1970-01-01. */
  predicate IsDate(y: nat, m: nat, d: nat, day: int) {
    && y >= 1970 && 1 <= m <= 12 && 1 <= d <= MonthLength(y, m)
    && day == DaysBeforeYear(y) + DaysBeforeMonth(y, m) + (d - 1)
  }

  /** March to December. */
  lemma LateDate(e: int, y: int, ofYear: int, day: int)
    requires 0 <= y <= 399 && 0 <= ofYear <= 365 && (5 * ofYear + 2) / 153 < 10
    requires day == e * 146097 + Start(y) + ofYear - 719468 && 400 * e + y >= 1970
    ensures var month := (5 * ofYear + 2) / 153;
      IsDate(400 * e + y, month + 3, ofYear - (153 * month + 2) / 5 + 1, day)
  {
    var civil := 400 * e + y;
    var month := (5 * ofYear + 2) / 153;
    MonthOf(ofYear);
    MonthStarts(month);
    Months(civil);
    DaysBeforeYearIs(civil);
    LeapsOf(e, y);
    LeapStep(civil);
    hide IsLeap, Leaps, DaysBeforeYear, DaysBeforeMonth;
  }

  /** January and February belong to the year before, as March counts the years. */
  lemma EarlyDate(e: int, y: int, ofYear: int, day: int)
    requires 0 <= y <= 399 && 0 <= ofYear <= 365 && (5 * ofYear + 2) / 153 >= 10
    requires ofYear == 365 ==> IsLeap(400 * e + y + 1)
    requires day == e * 146097 + Start(y) + ofYear - 719468 && 400 * e + y + 1 >= 1970
    ensures var month := (5 * ofYear + 2) / 153;
      IsDate(400 * e + y + 1, month - 9, ofYear - (153 * month + 2) / 5 + 1, day)
  {
    var civil := 400 * e + y + 1;
    var month := (5 * ofYear + 2) / 153;
    MonthOf(ofYear);
    MonthStarts(month);
    Months(civil);
    DaysBeforeYearIs(civil);
    LeapsOf(e, y);
    hide IsLeap, Leaps, DaysBeforeYear, DaysBeforeMonth;
  }

  lemma FewLeaps(z: int)
    requires z <= 1969
    ensures 365 * z + Leaps(z + 1) <= 719162
    ensures z <= 1968 ==> 365 * z + Leaps(z + 1) <= 718797
  {
  }

  /** A day from 1970 on falls in a year from 1970 on. */
  lemma SinceThen(e: int, y: int, ofYear: int)
    requires 0 <= y <= 399 && 0 <= ofYear <= 365 && e * 146097 + Start(y) + ofYear >= 719468
    ensures 400 * e + y >= 1969 && ((5 * ofYear + 2) / 153 < 10 ==> 400 * e + y >= 1970)
  {
    LeapsOf(e, y);
    if 400 * e + y <= 1969 { FewLeaps(400 * e + y); }
    MonthOf(ofYear);
    MonthStarts((5 * ofYear + 2) / 153);
    hide Leaps;
  }

  /** Which date a day is. */
  lemma DateExactly(day: nat)
    ensures var (y, m, d) := Date(day); IsDate(y, m, d, day)
  {
    var shifted := day + 719468;
    var e, r := shifted / 146097, shifted % 146097;
    YearOfEra(r);
    var y := YearOf(r);
    var ofYear := r - Start(y);
    SinceThen(e, y, ofYear);
    MonthOf(ofYear);
    if (5 * ofYear + 2) / 153 < 10 {
      LateDate(e, y, ofYear, day);
    } else {
      LongYear(e, y);
      EarlyDate(e, y, ofYear, day);
    }
    DateIs(day, e, r, y, ofYear);
    hide Date, IsDate, Start, IsLeap, YearOf;
  }

  lemma DateIs(day: nat, e: int, r: int, y: int, ofYear: int)
    requires e == (day + 719468) / 146097 && r == (day + 719468) % 146097 && y == YearOf(r) && ofYear == r - Start(y)
    requires 0 <= ofYear <= 365 && 0 <= y <= 399
    ensures var month := (5 * ofYear + 2) / 153;
      Date(day) == (if month < 10 then 400 * e + y else 400 * e + y + 1, if month < 10 then month + 3 else month - 9,
                    ofYear - (153 * month + 2) / 5 + 1)
  {
    MonthOf(ofYear);
  }

  // ---- The text of a time -----------------------------------------------------------------------------------------

  /** So many digits, the units last. */
  lemma {:induction false} DigitsAre(n: nat, width: nat, k: nat)
    requires k < width
    ensures Digits(n, width)[width - 1 - k] as int == '0' as int + EvidenceText.Without(n, k) % 10
  {
    if k > 0 {
      DigitsAre(n / 10, width - 1, k - 1);
    }
  }

  /** The digits of a date and of a time of day, each at its place. */
  predicate Reads(s: string, y: nat, m: nat, d: nat, hour: nat, minute: nat, second: nat) {
    && |s| == 20 && s[4] == '-' && s[7] == '-' && s[10] == 'T' && s[13] == ':' && s[16] == ':' && s[19] == 'Z'
    && s[..4] == Digits(y, 4) && s[5..7] == Digits(m, 2) && s[8..10] == Digits(d, 2)
    && s[11..13] == Digits(hour, 2) && s[14..16] == Digits(minute, 2) && s[17..19] == Digits(second, 2)
  }

  /** The printed time of an instant is its date and its time of day, to the second. */
  lemma TimeExactly(t: Instant) returns (y: nat, m: nat, d: nat, hour: nat, minute: nat, second: nat, day: nat, fraction: nat)
    requires t >= 0
    ensures Reads(TimeText(t), y, m, d, hour, minute, second)
    ensures IsDate(y, m, d, day) && hour < 24 && minute < 60 && second < 60 && fraction < 1_000_000
    ensures t == (((day * 24 + hour) * 60 + minute) * 60 + second) * 1_000_000 + fraction
  {
    fraction := t % SECOND;
    var all := t / SECOND;
    day := all / 86400;
    var clock := all % 86400;
    hour, minute, second := clock / 3600, clock / 60 % 60, clock % 60;
    var date := Date(day);
    y, m, d := date.0, date.1, date.2;
    DateExactly(day);
    ClockIs(clock);
    hide Date, IsDate, Digits;
  }

  lemma ClockIs(clock: nat)
    requires clock < 86400
    ensures clock == (clock / 3600 * 60 + clock / 60 % 60) * 60 + clock % 60
    ensures clock / 3600 < 24
  {
  }
}
