/**
 Business-day arithmetic for the Regulation E deadlines of 12 CFR 1005.11(c), with the holidays of 5 U.S.C. 6103.
 A day is its proleptic Gregorian ordinal, 1 being Monday 1 January of year 1; a moment is a local day and a time of
 day.
 */
module Deadlines {
  import opened WorkingDays

  // ---------------------------------------------------------------------------------------------------------------
  // The calendar
  // ---------------------------------------------------------------------------------------------------------------

  predicate Leap(y: int) {
    y % 4 == 0 && (y % 100 != 0 || y % 400 == 0)
  }

  function YearLength(y: int): nat {
    if Leap(y) then 366 else 365
  }

  function DaysBeforeYear(y: int): int {
    (y - 1) * 365 + (y - 1) / 4 - (y - 1) / 100 + (y - 1) / 400
  }

  function DaysBeforeMonth(y: int, m: int): nat
    requires 1 <= m <= 12
  {
    [0, 31, 59, 90, 120, 151, 181, 212, 243, 273, 304, 334][m - 1] + if m > 2 && Leap(y) then 1 else 0
  }

  function Date(y: int, m: int, d: int): int
    requires 1 <= m <= 12
  {
    DaysBeforeYear(y) + DaysBeforeMonth(y, m) + d
  }

  /** Monday is 0. */
  function Weekday(d: int): nat {
    (d + 6) % 7
  }

  function MonthLength(y: int, m: int): nat {
    if m == 2 then (if Leap(y) then 29 else 28)
    else if m == 4 || m == 6 || m == 9 || m == 11 then 30
    else 31
  }

  /** Months have their lengths, and the twelve make up the year. */
  lemma MonthsAreExact(y: int, m: int)
    requires 1 <= m <= 12
    ensures DaysBeforeMonth(y, 1) == 0 && DaysBeforeMonth(y, 12) + MonthLength(y, 12) == YearLength(y)
    ensures m < 12 ==> DaysBeforeMonth(y, m + 1) == DaysBeforeMonth(y, m) + MonthLength(y, m)
  {
    hide Leap;
  }

  lemma CalendarStarts()
    ensures Date(1, 1, 1) == 1
  {
    hide Leap, DaysBeforeMonth;
    MonthsAreExact(1, 1);
    assert DaysBeforeYear(1) == 0;
  }

  /** The calendar starts on a Monday, and every seventh day from there on is one. */
  lemma WeeksRepeat(weeks: int)
    ensures Weekday(7 * weeks + 1) == 0 && Weekday(7 * weeks + 7) == 6
  {
  }

  lemma FourthYears(y: int)
    ensures y / 4 == (y - 1) / 4 + if y % 4 == 0 then 1 else 0
  {
  }

  lemma Centuries(y: int)
    ensures y / 100 == (y - 1) / 100 + if y % 100 == 0 then 1 else 0
  {
  }

  lemma FourthCenturies(y: int)
    ensures y / 400 == (y - 1) / 400 + if y % 400 == 0 then 1 else 0
  {
  }

  lemma CenturyIsFourth(y: int)
    ensures y % 100 == 0 ==> y % 4 == 0
  {
    var q := y / 100;
    if y % 100 == 0 { assert y == 4 * (25 * q); }
  }

  lemma FourthCenturyIsCentury(y: int)
    ensures y % 400 == 0 ==> y % 100 == 0
  {
    var q := y / 400;
    if y % 400 == 0 { assert y == 100 * (4 * q); }
  }

  lemma YearLengthCounts(y: int)
    ensures YearLength(y) == 365 + (if y % 4 == 0 then 1 else 0) - (if y % 100 == 0 then 1 else 0)
      + (if y % 400 == 0 then 1 else 0)
  {
    CenturyIsFourth(y);
    FourthCenturyIsCentury(y);
  }

  lemma NextYearStarts(y: int)
    ensures DaysBeforeYear(y + 1) == DaysBeforeYear(y) + YearLength(y)
  {
    hide YearLength;
    FourthYears(y);
    Centuries(y);
    FourthCenturies(y);
    YearLengthCounts(y);
  }

  lemma {:induction false} YearsAreOrdered(a: int, b: int)
    requires a <= b
    ensures DaysBeforeYear(b) >= DaysBeforeYear(a) + 365 * (b - a)
    decreases b - a
  {
    if a < b {
      NextYearStarts(b - 1);
      YearsAreOrdered(a, b - 1);
    }
  }

  function YearFrom(d: Day, y: int): (r: int)
    requires DaysBeforeYear(y) < d
    ensures y <= r && DaysBeforeYear(r) < d <= DaysBeforeYear(r + 1)
    decreases d - DaysBeforeYear(y)
  {
    NextYearStarts(y);
    if d <= DaysBeforeYear(y + 1) then y else YearFrom(d, y + 1)
  }

  function YearOf(d: Day): (y: int)
    ensures 1 <= y && DaysBeforeYear(y) < d <= DaysBeforeYear(y + 1)
  {
    YearFrom(d, 1)
  }

  lemma YearIsUnique(d: Day, y: int)
    requires DaysBeforeYear(y) < d <= DaysBeforeYear(y + 1)
    ensures YearOf(d) == y
  {
    var r := YearOf(d);
    if r < y { YearsAreOrdered(r + 1, y); }
    if y < r { YearsAreOrdered(y + 1, r); }
  }

  // ---------------------------------------------------------------------------------------------------------------
  // Holidays
  // ---------------------------------------------------------------------------------------------------------------

  function NthWeekdayOfMonth(y: int, m: int, weekday: nat, occurrence: nat): int
    requires 1 <= m <= 12
  {
    var first := Date(y, m, 1);
    first + (weekday - Weekday(first)) % 7 + 7 * (occurrence - 1)
  }

  function LastWeekdayOfMonth(y: int, m: int, weekday: nat): int
    requires 1 <= m <= 12
  {
    var lastDay := (if m == 12 then Date(y + 1, 1, 1) else Date(y, m + 1, 1)) - 1;
    lastDay - (Weekday(lastDay) - weekday) % 7
  }

  /** A Saturday holiday is observed on Friday, a Sunday one on Monday. */
  function Observed(holiday: int): int {
    if Weekday(holiday) == 5 then holiday - 1 else if Weekday(holiday) == 6 then holiday + 1 else holiday
  }

  /** In calendar order. */
  function Holidays(y: int): (days: seq<int>)
    ensures |days| == 11
  {
    [ Observed(Date(y, 1, 1)),          // New Year's Day
      NthWeekdayOfMonth(y, 1, 0, 3),    // Martin Luther King Jr. Day
      NthWeekdayOfMonth(y, 2, 0, 3),    // Washington's Birthday
      LastWeekdayOfMonth(y, 5, 0),      // Memorial Day
      Observed(Date(y, 6, 19)),         // Juneteenth
      Observed(Date(y, 7, 4)),          // Independence Day
      NthWeekdayOfMonth(y, 9, 0, 1),    // Labor Day
      NthWeekdayOfMonth(y, 10, 0, 2),   // Columbus Day
      Observed(Date(y, 11, 11)),        // Veterans Day
      NthWeekdayOfMonth(y, 11, 3, 4),   // Thanksgiving Day
      Observed(Date(y, 12, 25)) ]       // Christmas Day
  }

  function FederalHolidays(y: int): set<int> {
    set i | 0 <= i < 11 :: Holidays(y)[i]
  }

  // ---------------------------------------------------------------------------------------------------------------
  // The holidays as the statute names them
  // ---------------------------------------------------------------------------------------------------------------

  /** The one day of that weekday in the seven days from the given date on. */
  predicate WeekdayFrom(d: int, weekday: nat, y: int, m: int, from: int)
    requires 1 <= m <= 12
  {
    Weekday(d) == weekday && Date(y, m, from) <= d < Date(y, m, from) + 7
  }

  /** The date itself on a weekday, the Friday before a Saturday, the Monday after a Sunday. */
  predicate ObservedOn(d: int, y: int, m: int, date: int)
    requires 1 <= m <= 12
  {
    var h := Date(y, m, date);
    (d == h && Weekday(h) <= 4) || (d + 1 == h && Weekday(d) == 4) || (d == h + 1 && Weekday(d) == 0)
  }

  /** Five fixed dates, five Mondays and Thanksgiving. */
  predicate StatutoryHoliday(d: int, y: int) {
    || ObservedOn(d, y, 1, 1) || WeekdayFrom(d, 0, y, 1, 15) || WeekdayFrom(d, 0, y, 2, 15)
    || WeekdayFrom(d, 0, y, 5, 25) || ObservedOn(d, y, 6, 19) || ObservedOn(d, y, 7, 4)
    || WeekdayFrom(d, 0, y, 9, 1) || WeekdayFrom(d, 0, y, 10, 8) || ObservedOn(d, y, 11, 11)
    || WeekdayFrom(d, 3, y, 11, 22) || ObservedOn(d, y, 12, 25)
  }

  lemma OneInSevenDays(a: int, b: int)
    requires Weekday(a) == Weekday(b) && a - 7 < b < a + 7
    ensures a == b
  {
  }

  lemma NthWeekdayIs(d: int, y: int, m: int, weekday: nat, occurrence: nat)
    requires 1 <= m <= 12 && weekday < 7
    ensures d == NthWeekdayOfMonth(y, m, weekday, occurrence) <==> WeekdayFrom(d, weekday, y, m, 7 * occurrence - 6)
  {
    NthWeekdayBounds(y, m, weekday, occurrence);
    if WeekdayFrom(d, weekday, y, m, 7 * occurrence - 6) {
      OneInSevenDays(d, NthWeekdayOfMonth(y, m, weekday, occurrence));
    }
  }

  lemma LastMondayOfMayIs(d: int, y: int)
    ensures d == LastWeekdayOfMonth(y, 5, 0) <==> WeekdayFrom(d, 0, y, 5, 25)
  {
    LastWeekdayBounds(y, 5, 0);
    if WeekdayFrom(d, 0, y, 5, 25) { OneInSevenDays(d, LastWeekdayOfMonth(y, 5, 0)); }
  }

  lemma ObservedIs(d: int, y: int, m: int, date: int)
    requires 1 <= m <= 12
    ensures d == Observed(Date(y, m, date)) <==> ObservedOn(d, y, m, date)
  {
    hide Date, Observed;
    ObservedBounds(Date(y, m, date));
    ObservedCases(Date(y, m, date));
  }

  lemma ObservedCases(h: int)
    ensures Weekday(h) <= 4 <==> Observed(h) == h
    ensures Weekday(h - 1) == 4 <==> Observed(h) == h - 1
    ensures Weekday(h + 1) == 0 <==> Observed(h) == h + 1
  {
  }

  /** The computed holidays are exactly the statutory ones. */
  lemma HolidaysAreExact(d: int, y: int)
    ensures d in FederalHolidays(y) <==> StatutoryHoliday(d, y)
  {
    hide Observed, NthWeekdayOfMonth, LastWeekdayOfMonth, ObservedOn, WeekdayFrom, Date;
    ObservedIs(d, y, 1, 1);
    NthWeekdayIs(d, y, 1, 0, 3);
    NthWeekdayIs(d, y, 2, 0, 3);
    LastMondayOfMayIs(d, y);
    ObservedIs(d, y, 6, 19);
    ObservedIs(d, y, 7, 4);
    NthWeekdayIs(d, y, 9, 0, 1);
    NthWeekdayIs(d, y, 10, 0, 2);
    ObservedIs(d, y, 11, 11);
    NthWeekdayIs(d, y, 11, 3, 4);
    ObservedIs(d, y, 12, 25);
    InHolidays(d, y);
  }

  lemma InHolidays(d: int, y: int)
    ensures d in FederalHolidays(y) <==> d in Holidays(y)
  {
  }

  /** The window each holiday falls in, as days after the end of the year before. */
  function Earliest(y: int, i: nat): int
    requires i < 11
  {
    [0, 15, 46, 145, 169, 184, 244, 281, 314, 326, 358][i] + if i >= 3 && Leap(y) then 1 else 0
  }

  function Latest(y: int, i: nat): int
    requires i < 11
  {
    [2, 21, 52, 151, 171, 186, 250, 287, 316, 332, 360][i] + if i >= 3 && Leap(y) then 1 else 0
  }

  lemma ShiftToWeekday(d: int, weekday: nat, weeks: int)
    requires weekday < 7
    ensures Weekday(d + (weekday - Weekday(d)) % 7 + 7 * weeks) == weekday
    ensures Weekday(d - (Weekday(d) - weekday) % 7) == weekday
  {
    var forth, back := (weekday - Weekday(d)) % 7, (Weekday(d) - weekday) % 7;
    assert Weekday(d + forth) == weekday;
    assert (d + forth + 6 + 7 * weeks) % 7 == (d + forth + 6) % 7;
  }

  lemma NthWeekdayBounds(y: int, m: int, weekday: nat, occurrence: nat)
    requires 1 <= m <= 12 && weekday < 7
    ensures var r := NthWeekdayOfMonth(y, m, weekday, occurrence);
      Weekday(r) == weekday && 7 * (occurrence - 1) <= r - Date(y, m, 1) <= 7 * (occurrence - 1) + 6
  {
    ShiftToWeekday(Date(y, m, 1), weekday, occurrence - 1);
  }

  lemma LastWeekdayBounds(y: int, m: int, weekday: nat)
    requires 1 <= m < 12 && weekday < 7
    ensures var r := LastWeekdayOfMonth(y, m, weekday);
      Weekday(r) == weekday && 1 <= Date(y, m + 1, 1) - r <= 7
  {
    ShiftToWeekday(Date(y, m + 1, 1) - 1, weekday, 0);
  }

  lemma ObservedBounds(h: int)
    ensures h - 1 <= Observed(h) <= h + 1 && Weekday(Observed(h)) < 5
    ensures Observed(h) == h - 1 <==> Weekday(h - 1) == 4
  {
  }

  lemma HolidayWindows(y: int, i: nat)
    requires i < 11
    ensures Earliest(y, i) <= Holidays(y)[i] - DaysBeforeYear(y) <= Latest(y, i)
    ensures Weekday(Holidays(y)[i]) < 5
    ensures i == 0 ==> (Holidays(y)[0] == DaysBeforeYear(y) <==> Weekday(DaysBeforeYear(y)) == 4)
  {
    match i
    case 0 => ObservedBounds(Date(y, 1, 1));
    case 1 => NthWeekdayBounds(y, 1, 0, 3);
    case 2 => NthWeekdayBounds(y, 2, 0, 3);
    case 3 => LastWeekdayBounds(y, 5, 0);
    case 4 => ObservedBounds(Date(y, 6, 19));
    case 5 => ObservedBounds(Date(y, 7, 4));
    case 6 => NthWeekdayBounds(y, 9, 0, 1);
    case 7 => NthWeekdayBounds(y, 10, 0, 2);
    case 8 => ObservedBounds(Date(y, 11, 11));
    case 9 => NthWeekdayBounds(y, 11, 3, 4);
    case 10 => ObservedBounds(Date(y, 12, 25));
  }

  lemma WindowsLieInYear(y: int, i: nat)
    requires i < 11
    ensures 0 <= Earliest(y, i) && (i > 0 ==> Earliest(y, i) > 0) && Latest(y, i) <= YearLength(y) - 5
  {
  }

  /** No two holidays of a year are less than ten days apart. */
  lemma HolidaysAreSpaced(y: int, i: nat, j: nat)
    requires i < j < 11
    ensures Holidays(y)[j] >= Holidays(y)[i] + 10
  {
    HolidayWindows(y, i);
    HolidayWindows(y, j);
    assert forall k :: 0 <= k < 10 ==> Earliest(y, k + 1) >= Latest(y, k) + 10;
    WindowsAreOrdered(y, i, j);
  }

  lemma {:induction false} WindowsAreOrdered(y: int, i: nat, j: nat)
    requires i < j < 11
    ensures Earliest(y, j) >= Latest(y, i) + 10
    decreases j - i
  {
    if i + 1 < j { WindowsAreOrdered(y, i + 1, j); }
  }

  // ---------------------------------------------------------------------------------------------------------------
  // Business days
  // ---------------------------------------------------------------------------------------------------------------

  /** Only the holidays of the day's own year are consulted. */
  predicate IsBusinessDay(d: Day) {
    Weekday(d) < 5 && d !in FederalHolidays(YearOf(d))
  }

  predicate ObservedHoliday(d: int, y: int) {
    1 <= y && d in FederalHolidays(y)
  }

  /** A Friday 31 December, on which the Saturday New Year's Day of the next year is observed. */
  predicate EveOfSaturdayNewYear(d: Day) {
    d == DaysBeforeYear(YearOf(d) + 1) && Weekday(d) == 4
  }

  lemma HolidayYear(d: Day, y: int)
    requires ObservedHoliday(d, y)
    ensures (YearOf(d) == y && d < DaysBeforeYear(y + 1) - 4) || (YearOf(d) == y - 1 && EveOfSaturdayNewYear(d))
  {
    hide Holidays, YearOf, Earliest, Latest, DaysBeforeYear;
    var i :| 0 <= i < 11 && Holidays(y)[i] == d;
    HolidayWindows(y, i);
    WindowsLieInYear(y, i);
    NextYearStarts(y);
    if d == DaysBeforeYear(y) {
      NextYearStarts(y - 1);
      YearIsUnique(d, y - 1);
    } else {
      YearIsUnique(d, y);
    }
  }

  /**
   A day is a business day exactly when it is a weekday that is no year's observed holiday, with one family of
   exceptions: 31 December before a Saturday 1 January counts as one although New Year's Day is observed on it.
   */
  lemma BusinessDayIsExact(d: Day)
    ensures IsBusinessDay(d) <==>
      (Weekday(d) < 5 && forall y: int | 1 <= y :: !StatutoryHoliday(d, y)) || EveOfSaturdayNewYear(d)
    ensures EveOfSaturdayNewYear(d) ==> StatutoryHoliday(d, YearOf(d) + 1)
  {
    hide StatutoryHoliday, FederalHolidays, IsBusinessDay, EveOfSaturdayNewYear, Weekday;
    ConsultedHolidaysDecide(d);
    forall y: int ensures StatutoryHoliday(d, y) <==> d in FederalHolidays(y) { HolidaysAreExact(d, y); }
    assert forall y: int | 1 <= y :: ObservedHoliday(d, y) <==> StatutoryHoliday(d, y);
  }

  /** It is enough to look at the day's own year, that one family apart. */
  lemma ConsultedHolidaysDecide(d: Day)
    ensures IsBusinessDay(d) <==> (Weekday(d) < 5 && forall y :: !ObservedHoliday(d, y)) || EveOfSaturdayNewYear(d)
    ensures EveOfSaturdayNewYear(d) ==> ObservedHoliday(d, YearOf(d) + 1)
  {
    var own := YearOf(d);
    forall y | ObservedHoliday(d, y) ensures y == own || EveOfSaturdayNewYear(d) { HolidayYear(d, y); }
    if EveOfSaturdayNewYear(d) {
      HolidayWindows(own + 1, 0);
      assert Holidays(own + 1)[0] == d;
      if ObservedHoliday(d, own) { HolidayYear(d, own); }
    }
    if d in FederalHolidays(own) { assert ObservedHoliday(d, own); }
  }

  lemma SameYearHolidaysCoincide(a: int, b: int, y: int)
    requires a <= b <= a + 3 && a in FederalHolidays(y) && b in FederalHolidays(y)
    ensures a == b
  {
    var i :| 0 <= i < 11 && Holidays(y)[i] == a;
    var j :| 0 <= j < 11 && Holidays(y)[j] == b;
    if i < j { HolidaysAreSpaced(y, i, j); }
    if j < i { HolidaysAreSpaced(y, j, i); }
  }

  lemma CloseHolidaysCoincide(a: Day, b: Day)
    requires a <= b <= a + 3
    requires a in FederalHolidays(YearOf(a)) && b in FederalHolidays(YearOf(b))
    ensures a == b
  {
    var y := YearOf(a);
    assert ObservedHoliday(a, y) && ObservedHoliday(b, YearOf(b));
    HolidayYear(a, y);
    YearIsUnique(b, y);
    SameYearHolidaysCoincide(a, b, y);
  }

  lemma TwoWeekdaysWithinFour(d: Day) returns (a: Day, b: Day)
    ensures d < a < b <= d + 4 && Weekday(a) < 5 && Weekday(b) < 5
  {
    a := if Weekday(d + 1) < 5 then d + 1 else if Weekday(d + 2) < 5 then d + 2 else d + 3;
    b := if Weekday(d + 4) < 5 then d + 4 else if Weekday(d + 3) < 5 then d + 3 else d + 2;
  }

  /** Any four consecutive days contain a business day. */
  lemma BusinessDayWithinFour(d: Day)
    ensures HasNext(IsBusinessDay, d)
  {
    var a, b := TwoWeekdaysWithinFour(d);
    if !IsBusinessDay(a) && !IsBusinessDay(b) { CloseHolidaysCoincide(a, b); }
  }

  lemma BusinessDaysAreFrequent()
    ensures Frequent(IsBusinessDay)
  {
    forall d: Day ensures HasNext(IsBusinessDay, d) { BusinessDayWithinFour(d); }
  }

  function NextBusinessDay(d: Day): (e: Day)
    ensures d < e && IsBusinessDay(e)
  {
    BusinessDaysAreFrequent();
    Next(IsBusinessDay, d)
  }

  lemma NothingBeforeNext(d: Day, j: Day)
    requires d < j < NextBusinessDay(d)
    ensures !IsBusinessDay(j)
  {
    BusinessDaysAreFrequent();
    NextIsFirst(IsBusinessDay, d, j);
  }

  /** n business days on. */
  function AfterBusinessDays(d: Day, n: nat): Day {
    BusinessDaysAreFrequent();
    Add(IsBusinessDay, d, n)
  }

  datatype Moment = Moment(day: Day, time: nat)

  /** Deadline rules of one institution: the local hour a business day ends. */
  class DeadlineRuleSet {
    const cutoff: nat

    constructor (cutoff: nat)
      ensures this.cutoff == cutoff
    {
      this.cutoff := cutoff;
    }

    method AddBusinessDays(start: Moment, businessDays: int) returns (due: Moment)
      ensures due == Moment(AfterBusinessDays(start.day, if businessDays < 0 then 0 else businessDays), cutoff)
    {
      var cursor := start.day;
      var added := 0;
      ghost var last: Day := start.day;
      while added < businessDays
        invariant 0 <= added && (added <= businessDays || added == 0)
        invariant last == AfterBusinessDays(start.day, added) && last <= cursor < NextBusinessDay(last)
        invariant added >= businessDays ==> cursor == last
        decreases businessDays - added, NextBusinessDay(last) - cursor
      {
        cursor := cursor + 1;
        if cursor < NextBusinessDay(last) { NothingBeforeNext(last, cursor); }
        if IsBusinessDay(cursor) {
          added := added + 1;
          last := cursor;
        }
      }
      due := Moment(cursor, cutoff);
    }

    /** Notice, investigation and final resolution of a case opened at `base`, standard or extended. */
    method Calculate(base: Moment, extended: bool) returns (deadlines: map<string, Moment>)
      ensures deadlines == Statutory(base, extended, cutoff)
      ensures deadlines.Keys == if extended
        then {"NOTICE_2_DAY", "INVESTIGATION_20_DAY", "FINAL_RESOLUTION_90_DAY"}
        else {"NOTICE_2_DAY", "INVESTIGATION_10_DAY", "FINAL_RESOLUTION_45_DAY"}
    {
      var notice := AddBusinessDays(base, 2);
      deadlines := map["NOTICE_2_DAY" := notice];
      if extended {
        var investigation := AddBusinessDays(base, 20);
        deadlines := deadlines["INVESTIGATION_20_DAY" := investigation];
        deadlines := deadlines["FINAL_RESOLUTION_90_DAY" := Moment(base.day + 90, base.time)];
      } else {
        var investigation := AddBusinessDays(base, 10);
        deadlines := deadlines["INVESTIGATION_10_DAY" := investigation];
        deadlines := deadlines["FINAL_RESOLUTION_45_DAY" := Moment(base.day + 45, base.time)];
      }
    }
  }

  function Statutory(base: Moment, extended: bool, cutoff: nat): map<string, Moment> {
    if extended then
      map["NOTICE_2_DAY" := Moment(AfterBusinessDays(base.day, 2), cutoff),
          "INVESTIGATION_20_DAY" := Moment(AfterBusinessDays(base.day, 20), cutoff),
          "FINAL_RESOLUTION_90_DAY" := Moment(base.day + 90, base.time)]
    else
      map["NOTICE_2_DAY" := Moment(AfterBusinessDays(base.day, 2), cutoff),
          "INVESTIGATION_10_DAY" := Moment(AfterBusinessDays(base.day, 10), cutoff),
          "FINAL_RESOLUTION_45_DAY" := Moment(base.day + 45, base.time)]
  }

  datatype Standing = Pending | Overdue

  /** Fills in one status for every deadline: overdue from the due instant on. */
  method EvaluateDeadlines(deadlines: map<string, int>, now: int) returns (statuses: map<string, Standing>)
    ensures statuses.Keys == deadlines.Keys
    ensures forall k :: k in deadlines ==> (statuses[k] == Overdue <==> deadlines[k] <= now)
  {
    statuses := map[];
    var left := deadlines.Keys;
    while left != {}
      invariant left <= deadlines.Keys && statuses.Keys == deadlines.Keys - left
      invariant forall k :: k in statuses ==> (statuses[k] == Overdue <==> deadlines[k] <= now)
      decreases |left|
    {
      var k :| k in left;
      statuses := statuses[k := if now >= deadlines[k] then Overdue else Pending];
      left := left - {k};
    }
  }

  /**
   `AddBusinessDays` gives the one day with n business days after the start up to and including it, within 4n days.
   */
  lemma BusinessDeadlineIsUnique(d: Day, n: nat, e: Day)
    ensures e == AfterBusinessDays(d, n) <==> d <= e && Count(IsBusinessDay, d, e) == n && (e == d || IsBusinessDay(e))
    ensures AfterBusinessDays(d, n) <= d + 4 * n
  {
    BusinessDaysAreFrequent();
    AddIsTheUniqueDay(IsBusinessDay, d, n, e);
  }

  /** Later starts and more days never give an earlier deadline, and two steps are one step of the sum. */
  lemma BusinessDeadlinesCompose(d: Day, e: Day, a: nat, b: nat)
    ensures d <= e && a <= b ==> AfterBusinessDays(d, a) <= AfterBusinessDays(e, b)
    ensures AfterBusinessDays(AfterBusinessDays(d, a), b) == AfterBusinessDays(d, a + b)
  {
    BusinessDaysAreFrequent();
    AddComposes(IsBusinessDay, d, a, b);
    if d <= e && a <= b { AddIsMonotone(IsBusinessDay, d, e, a, b); }
  }

  /**
   The notice comes strictly after the opening, no later than the investigation, and that before the final resolution.
   */
  lemma StatutoryOrder(base: Moment, extended: bool, cutoff: nat)
    ensures var s := Statutory(base, extended, cutoff);
      var investigation := s[if extended then "INVESTIGATION_20_DAY" else "INVESTIGATION_10_DAY"].day;
      var final := s[if extended then "FINAL_RESOLUTION_90_DAY" else "FINAL_RESOLUTION_45_DAY"].day;
      base.day + 2 <= s["NOTICE_2_DAY"].day <= investigation <= final - 5
  {
    var n := if extended then 20 else 10;
    BusinessDaysAreFrequent();
    AddLands(IsBusinessDay, base.day, 2);
    AddLands(IsBusinessDay, base.day, n);
    AddIsMonotone(IsBusinessDay, base.day, base.day, 2, n);
  }

  /** Notice and investigation are so many business days after the opening, the resolution so many days. */
  lemma StatutoryCounts(base: Moment, extended: bool, cutoff: nat)
    ensures var s := Statutory(base, extended, cutoff);
      var investigation := s[if extended then "INVESTIGATION_20_DAY" else "INVESTIGATION_10_DAY"];
      var final := s[if extended then "FINAL_RESOLUTION_90_DAY" else "FINAL_RESOLUTION_45_DAY"];
      && InBusinessDays(base, 2, cutoff, s["NOTICE_2_DAY"])
      && InBusinessDays(base, if extended then 20 else 10, cutoff, investigation)
      && final.day == base.day + (if extended then 90 else 45) && final.time == base.time
  {
    BusinessDeadlineIsUnique(base.day, 2, AfterBusinessDays(base.day, 2));
    var n := if extended then 20 else 10;
    BusinessDeadlineIsUnique(base.day, n, AfterBusinessDays(base.day, n));
  }

  /** At the cutoff of the business day that has n business days after the start up to and including it. */
  ghost predicate InBusinessDays(start: Moment, n: nat, cutoff: nat, due: Moment) {
    && due.time == cutoff && start.day <= due.day
    && Count(IsBusinessDay, start.day, due.day) == n && (due.day == start.day || IsBusinessDay(due.day))
  }

  /**
   The exception is real: Friday 31 December 2021 counts as a business day although New Year's Day is observed on it.
   */
  lemma NewYearsEve2021()
    ensures Date(2021, 12, 31) == 738155 && Weekday(738155) == 4 && IsBusinessDay(738155)
    ensures StatutoryHoliday(738155, 2022)
  {
    hide Holidays, YearOf, Earliest, Latest;
    assert DaysBeforeYear(2021) == 737790 && DaysBeforeYear(2022) == 738155 && !Leap(2021);
    assert DaysBeforeMonth(2021, 12) == 334 && Weekday(738155) == 4;
    YearIsUnique(738155, 2021);
    forall i | 0 <= i < 11 ensures Holidays(2021)[i] < 738155 {
      HolidayWindows(2021, i);
      WindowsLieInYear(2021, i);
    }
    HolidayWindows(2022, 0);
    assert Holidays(2022)[0] == 738155;
    HolidaysAreExact(738155, 2022);
    hide StatutoryHoliday;
  }
}
