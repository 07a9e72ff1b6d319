/** The packed date of ZK scanners, and the clock command filled in when it is collected. */
module ClockCodec {
  import opened Text

  const DAY := 86_400
  const MONTH_DAYS := 31
  const YEAR_DAYS := 12 * 31

  /** A civil date and time, as time.Time gives it for its zone. */
  datatype Civil = Civil(year: int, month: int, day: int, hour: int, minute: int, second: int)

  predicate IsLeap(year: int) { year % 4 == 0 && (year % 100 != 0 || year % 400 == 0) }

  function DaysIn(month: int, year: int): int {
    if month == 2 then if IsLeap(year) then 29 else 28
    else if month == 4 || month == 6 || month == 9 || month == 11 then 30
    else 31
  }

  /** A date of the calendar. */
  predicate IsDate(t: Civil) {
    && 1 <= t.month <= 12 && 1 <= t.day <= DaysIn(t.month, t.year)
    && 0 <= t.hour < 24 && 0 <= t.minute < 60 && 0 <= t.second < 60
  }

  /** encodeZKDateTime */
  function Encode(t: Civil): int {
    ((t.year - 2000) * YEAR_DAYS + (t.month - 1) * MONTH_DAYS + (t.day - 1)) * DAY + t.hour * 3600 + t.minute * 60
      + t.second
  }

  /** What a year, a month, a day, an hour, a minute and a second count, and the moment the source works out by
      hand. */
  lemma EncodingUnits(t: Civil)
    ensures Encode(t) == (t.year - 2000) * 32_140_800 + (t.month - 1) * 2_678_400 + (t.day - 1) * 86_400
      + t.hour * 3_600 + t.minute * 60 + t.second
    ensures Encode(Civil(2026, 8, 28, 18, 45, 0)) == 856_809_900
  {
    var y, m, d := t.year - 2000, t.month - 1, t.day - 1;
    assert (y * YEAR_DAYS + m * MONTH_DAYS + d) * DAY == y * 32_140_800 + m * 2_678_400 + d * 86_400;
  }

  /** Division and remainder of Go, which truncate toward zero. */
  function Quot(a: int, b: int): int
    requires b > 0
  {
    if a >= 0 then a / b else -((-a) / b)
  }

  function Rem(a: int, b: int): int
    requires b > 0
  {
    a - b * Quot(a, b)
  }

  /** The fields that decodeZKDateTime hands to time.Date. */
  function Fields(value: int): Civil {
    var days, rest := Quot(value, DAY), Rem(value, DAY);
    Civil(Quot(days, YEAR_DAYS) + 2000, Quot(Rem(days, YEAR_DAYS), MONTH_DAYS) + 1, Rem(days, MONTH_DAYS) + 1,
          Quot(rest, 3600), Quot(Rem(rest, 3600), 60), Rem(rest, 60))
  }

  /** Days past the end of a month run into the next one, and days before its first into the one before. */
  function Settle(year: int, month: int, day: int): (r: (int, int, int))
    requires 1 <= month <= 12
    ensures 1 <= r.1 <= 12 && 1 <= r.2 <= DaysIn(r.1, r.0)
    ensures day < 1 ==> r.0 * 12 + r.1 < year * 12 + month
    decreases if day < 1 then 100 - day else day
  {
    if day < 1 then
      var (y, m) := if month == 1 then (year - 1, 12) else (year, month - 1);
      Settle(y, m, day + DaysIn(m, y))
    else if day > DaysIn(month, year) then
      var (y, m) := if month == 12 then (year + 1, 1) else (year, month + 1);
      Settle(y, m, day - DaysIn(month, year))
    else (year, month, day)
  }

  /** time.Date: each field that is out of range runs over into the next greater one. */
  function Normalized(t: Civil): Civil {
    var minute := t.minute + t.second / 60;
    var hour := t.hour + minute / 60;
    var (year, month, day) := Settle(t.year + (t.month - 1) / 12, (t.month - 1) % 12 + 1, t.day + hour / 24);
    Civil(year, month, day, hour % 24, minute % 60, t.second % 60)
  }

  /** decodeZKDateTime */
  function Decode(value: int): Civil { Normalized(Fields(value)) }

  lemma InRangeStays(t: Civil)
    requires 1 <= t.month <= 12 && 0 <= t.hour < 24 && 0 <= t.minute < 60 && 0 <= t.second < 60
    ensures var (year, month, day) := Settle(t.year, t.month, t.day);
      Normalized(t) == Civil(year, month, day, t.hour, t.minute, t.second)
  {
    hide Settle;
    assert t.second / 60 == 0 && t.second % 60 == t.second && t.minute / 60 == 0 && t.minute % 60 == t.minute;
    assert t.hour / 24 == 0 && t.hour % 24 == t.hour && (t.month - 1) / 12 == 0 && (t.month - 1) % 12 == t.month - 1;
  }

  lemma Product(x: int, b: int)
    requires x >= 1 && b > 0
    ensures x * b >= b
  {}

  lemma Gap(p: int, q: int, b: int)
    requires b > 0
    ensures p < q ==> q * b - p * b >= b
  {
    if p < q {
      Product(q - p, b);
      assert (q - p) * b == q * b - p * b;
    }
  }

  lemma QuotientOf(a: int, q: int, b: int, r: int)
    requires q >= 0 && 0 <= r < b && a == q * b + r
    ensures Quot(a, b) == q && Rem(a, b) == r
  {
    assert q * b >= 0;
    var p := a / b;
    assert a == p * b + a % b;
    Gap(p, q, b);
    Gap(q, p, b);
  }

  lemma DayFields(days: int, year: int, month: int, day: int)
    requires year >= 0 && 0 <= month < 12 && 0 <= day < 31
    requires days == year * YEAR_DAYS + month * MONTH_DAYS + day
    ensures Quot(days, YEAR_DAYS) == year && Quot(Rem(days, YEAR_DAYS), MONTH_DAYS) == month
      && Rem(days, MONTH_DAYS) == day
  {
    QuotientOf(days, year, YEAR_DAYS, month * MONTH_DAYS + day);
    QuotientOf(month * MONTH_DAYS + day, month, MONTH_DAYS, day);
    QuotientOf(days, year * 12 + month, MONTH_DAYS, day);
  }

  lemma TimeFields(rest: int, hour: int, minute: int, second: int)
    requires 0 <= hour && 0 <= minute < 60 && 0 <= second < 60
    requires rest == hour * 3600 + minute * 60 + second
    ensures Quot(rest, 3600) == hour && Quot(Rem(rest, 3600), 60) == minute && Rem(rest, 60) == second
  {
    QuotientOf(rest, hour, 3600, minute * 60 + second);
    QuotientOf(minute * 60 + second, minute, 60, second);
    QuotientOf(rest, hour * 60 + minute, 60, second);
  }

  /** Every date from the year 2000 on decodes to itself. */
  lemma DatesReadBack(t: Civil)
    requires IsDate(t) && t.year >= 2000
    ensures Decode(Encode(t)) == t
  {
    var days := (t.year - 2000) * YEAR_DAYS + (t.month - 1) * MONTH_DAYS + (t.day - 1);
    var rest := t.hour * 3600 + t.minute * 60 + t.second;
    QuotientOf(Encode(t), days, DAY, rest);
    DayFields(days, t.year - 2000, t.month - 1, t.day - 1);
    TimeFields(rest, t.hour, t.minute, t.second);
    hide Quot, Rem, Encode;
    assert Fields(Encode(t)) == t;
    InRangeStays(t);
    hide Normalized, Fields;
  }

  lemma Split(a: int, b: int)
    requires a >= 0 && b > 0
    ensures a == Quot(a, b) * b + Rem(a, b) && Quot(a, b) >= 0 && 0 <= Rem(a, b) < b
  {}

  lemma RemOfMultiple(a: int)
    requires a >= 0
    ensures Rem(a, MONTH_DAYS) == Rem(Rem(a, YEAR_DAYS), MONTH_DAYS)
  {
    Split(a, YEAR_DAYS);
    Split(Rem(a, YEAR_DAYS), MONTH_DAYS);
    var months := Quot(a, YEAR_DAYS) * 12 + Quot(Rem(a, YEAR_DAYS), MONTH_DAYS);
    QuotientOf(a, months, MONTH_DAYS, Rem(Rem(a, YEAR_DAYS), MONTH_DAYS));
  }

  /** The fields of any number are in range, except that a month may have 31 days, and encode to it. */
  lemma FieldsEncodeBack(value: int)
    requires value >= 0
    ensures var t := Fields(value);
      && 1 <= t.month <= 12 && 1 <= t.day <= 31 && 0 <= t.hour < 24 && 0 <= t.minute < 60 && 0 <= t.second < 60
      && Encode(t) == value
  {
    Split(value, DAY);
    var days, rest := Quot(value, DAY), Rem(value, DAY);
    Split(days, YEAR_DAYS);
    Split(Rem(days, YEAR_DAYS), MONTH_DAYS);
    RemOfMultiple(days);
    Split(rest, 3600);
    Split(Rem(rest, 3600), 60);
    var minutes := Quot(rest, 3600) * 60 + Quot(Rem(rest, 3600), 60);
    QuotientOf(rest, minutes, 60, Rem(Rem(rest, 3600), 60));
    hide Quot, Rem;
  }

  /** A day past the end of its month becomes one of the next month, which is encoded by a greater number. */
  lemma NormalizedIsADate(t: Civil)
    requires 1 <= t.month <= 12 && 1 <= t.day <= 31 && 0 <= t.hour < 24 && 0 <= t.minute < 60 && 0 <= t.second < 60
    ensures IsDate(Normalized(t))
    ensures Encode(Normalized(t)) ==
      Encode(t) + (if t.day <= DaysIn(t.month, t.year) then 0 else (31 - DaysIn(t.month, t.year)) * DAY)
  {
    InRangeStays(t);
    hide IsLeap, Normalized;
    if t.day > DaysIn(t.month, t.year) {
      assert 28 <= DaysIn(t.month, t.year) <= 30 && t.month <= 11;
      assert DaysIn(t.month + 1, t.year) >= 28;
      hide DaysIn;
    }
  }

  /** Any number decodes to a date of the calendar. */
  lemma DecodedIsADate(value: int)
    ensures IsDate(Decode(value))
  {
    hide Settle, DaysIn, Fields;
  }

  /** From 0 on the date encodes back to the number exactly if the fields of the number were a date, and
      else to a later number. */
  lemma DecodedEncodesBack(value: int)
    requires value >= 0
    ensures Encode(Decode(value)) >= value
    ensures Encode(Decode(value)) == value <==> IsDate(Fields(value))
  {
    FieldsEncodeBack(value);
    NormalizedIsADate(Fields(value));
    assert 28 <= DaysIn(Fields(value).month, Fields(value).year) <= 31 by { hide IsLeap, Fields; }
    hide Normalized, Encode, Fields, DaysIn;
  }

  predicate EarlierInDay(a: Civil, b: Civil) {
    || a.hour < b.hour
    || (a.hour == b.hour && (a.minute < b.minute || (a.minute == b.minute && a.second < b.second)))
  }

  /** One moment of the calendar before another. */
  predicate Before(a: Civil, b: Civil) {
    || a.year < b.year
    || (a.year == b.year
        && (a.month < b.month || (a.month == b.month && (a.day < b.day || (a.day == b.day && EarlierInDay(a, b))))))
  }

  /** Within a day, seconds order as hours, minutes and seconds do. */
  lemma SecondsOrder(a: Civil, b: Civil)
    requires IsDate(a) && IsDate(b)
    ensures a.hour * 3600 + a.minute * 60 + a.second < b.hour * 3600 + b.minute * 60 + b.second <==> EarlierInDay(a, b)
  {}

  function DayNumber(t: Civil): int { (t.year - 2000) * YEAR_DAYS + (t.month - 1) * MONTH_DAYS + (t.day - 1) }

  /** Two numbers of two digits to a base order as their digits do. */
  lemma DigitsOrder(p: int, r: int, q: int, u: int, b: int)
    requires 0 <= r < b && 0 <= u < b
    ensures p * b + r < q * b + u <==> p < q || (p == q && r < u)
    ensures p * b + r == q * b + u <==> p == q && r == u
  {
    Gap(p, q, b);
    Gap(q, p, b);
  }

  lemma DaysOrder(a: Civil, b: Civil)
    requires 1 <= a.month <= 12 && 1 <= a.day <= 31 && 1 <= b.month <= 12 && 1 <= b.day <= 31
    ensures DayNumber(a) < DayNumber(b) <==>
      a.year < b.year || (a.year == b.year && (a.month < b.month || (a.month == b.month && a.day < b.day)))
    ensures DayNumber(a) == DayNumber(b) <==> a.year == b.year && a.month == b.month && a.day == b.day
  {
    DigitsOrder(a.month - 1, a.day - 1, b.month - 1, b.day - 1, MONTH_DAYS);
    DigitsOrder(a.year - 2000, (a.month - 1) * MONTH_DAYS + (a.day - 1),
                b.year - 2000, (b.month - 1) * MONTH_DAYS + (b.day - 1), YEAR_DAYS);
  }

  /** Encoding keeps the order of the calendar, in both directions and for every year. */
  lemma EncodingIsMonotone(a: Civil, b: Civil)
    requires IsDate(a) && IsDate(b)
    ensures Encode(a) < Encode(b) <==> Before(a, b)
  {
    assert a.day <= 31 && b.day <= 31 by { hide IsLeap; }
    hide DaysIn;
    DaysOrder(a, b);
    SecondsOrder(a, b);
    DigitsOrder(DayNumber(a), a.hour * 3600 + a.minute * 60 + a.second,
                DayNumber(b), b.hour * 3600 + b.minute * 60 + b.second, DAY);
    hide DayNumber;
  }

  // ---------- dates before 2000 ----------

  lemma NegativeQuotient(a: int, q: int, b: int, r: int)
    requires q >= 0 && 0 <= r < b && a == -(q * b + r)
    ensures Quot(a, b) == -q && Rem(a, b) == -r
  {
    QuotientOf(-a, q, b, r);
  }

  lemma NegativeDays(days: int, year: int, month: int, day: int)
    requires year >= 0 && 0 <= month < 12 && 0 <= day < 31
    requires days == -(year * YEAR_DAYS + month * MONTH_DAYS + day)
    ensures Quot(days, YEAR_DAYS) == -year && Quot(Rem(days, YEAR_DAYS), MONTH_DAYS) == -month
    ensures Rem(days, MONTH_DAYS) == -day
  {
    NegativeQuotient(days, year, YEAR_DAYS, month * MONTH_DAYS + day);
    NegativeQuotient(-(month * MONTH_DAYS + day), month, MONTH_DAYS, day);
    NegativeQuotient(days, year * 12 + month, MONTH_DAYS, day);
  }

  lemma NegativeTime(rest: int, hour: int, minute: int, second: int)
    requires 0 <= hour && 0 <= minute < 60 && 0 <= second < 60
    requires rest == -(hour * 3600 + minute * 60 + second)
    ensures Quot(rest, 3600) == -hour && Quot(Rem(rest, 3600), 60) == -minute && Rem(rest, 60) == -second
  {
    NegativeQuotient(rest, hour, 3600, minute * 60 + second);
    NegativeQuotient(-(minute * 60 + second), minute, 60, second);
    NegativeQuotient(rest, hour * 60 + minute, 60, second);
  }

  /** The months before the year 2000 and days before the first of its month that Fields finds. */
  lemma EarlyDayFields(value: int, months: int, day: int, rest: int)
    requires 0 <= months && 0 <= day < 31 && 0 <= rest < DAY && value == -((months * MONTH_DAYS + day) * DAY + rest)
    ensures var t := Fields(value);
      && t.year == 2000 - months / 12 && t.month == 1 - months % 12 && t.day == 1 - day
      && t.hour == Quot(-rest, 3600) && t.minute == Quot(Rem(-rest, 3600), 60) && t.second == Rem(-rest, 60)
  {
    NegativeQuotient(value, months * MONTH_DAYS + day, DAY, rest);
    NegativeDays(-(months * MONTH_DAYS + day), months / 12, months % 12, day);
    hide Quot, Rem;
  }

  lemma HandsOf(rest: int) returns (hour: int, minute: int, second: int)
    requires 0 <= rest < DAY
    ensures 0 <= hour < 24 && 0 <= minute < 60 && 0 <= second < 60
    ensures rest == hour * 3600 + minute * 60 + second
  {
    hour, minute, second := rest / 3600, rest % 3600 / 60, rest % 60;
  }

  /** The time of day whose fields are negative is one of the day before. */
  lemma EarlyTime(rest: int, hour: int, minute: int, second: int)
    requires 0 <= hour < 24 && 0 <= minute < 60 && 0 <= second < 60 && 0 < rest < DAY
    requires DAY - rest == hour * 3600 + minute * 60 + second
    ensures var m := Quot(Rem(-rest, 3600), 60) + Rem(-rest, 60) / 60;
      var h := Quot(-rest, 3600) + m / 60;
      h / 24 == -1 && h % 24 == hour && m % 60 == minute && Rem(-rest, 60) % 60 == second
  {
    var hh, mm, ss := HandsOf(rest);
    hide Quot, Rem;
    NegativeTime(-rest, hh, mm, ss);
    Carries(hh, mm, ss, hour, minute, second);
  }

  lemma Carries(hh: int, mm: int, ss: int, hour: int, minute: int, second: int)
    requires 0 <= hour < 24 && 0 <= minute < 60 && 0 <= second < 60
    requires 0 <= hh < 24 && 0 <= mm < 60 && 0 <= ss < 60 && hh * 3600 + mm * 60 + ss > 0
    requires hh * 3600 + mm * 60 + ss + hour * 3600 + minute * 60 + second == DAY
    ensures var m := -mm + (-ss) / 60;
      var h := -hh + m / 60;
      h / 24 == -1 && h % 24 == hour && m % 60 == minute && (-ss) % 60 == second
  {
    var down := if ss == 0 then 0 else 1;
    assert (-ss) / 60 == -down && (-ss) % 60 == (if ss == 0 then 0 else 60 - ss);
    var m := -mm - down;
    var back := if m == 0 then 0 else 1;
    assert m / 60 == -back && m % 60 == (if m == 0 then 0 else 60 + m);
  }

  predicate IsMidnight(t: Civil) { t.hour == 0 && t.minute == 0 && t.second == 0 }

  /** time.Date on fields whose month and time of day may be negative. */
  lemma BackFields(f: Civil, year: int, month: int, carry: int, hour: int, minute: int, second: int)
    requires -10 <= f.month <= 1 <= month <= 12 && f.year * 12 + f.month == year * 12 + month
    requires var m := f.minute + f.second / 60;
      var h := f.hour + m / 60;
      h / 24 == carry && h % 24 == hour && m % 60 == minute && f.second % 60 == second
    ensures var (y, m, d) := Settle(year, month, f.day + carry);
      Normalized(f) == Civil(y, m, d, hour, minute, second)
  {
    hide Settle;
    assert (f.month - 1) / 12 == (if f.month == 1 then 0 else -1);
    assert f.year + (f.month - 1) / 12 == year && (f.month - 1) % 12 + 1 == month;
  }

  /** The month after that of the date, counted back from January 2000. */
  function MonthsBack(t: Civil): int { (1999 - t.year) * 12 + (12 - t.month) }

  lemma BackDivides(t: Civil)
    requires 1 <= t.month <= 12 && t.year < 2000
    ensures MonthsBack(t) / 12 == 1999 - t.year && MonthsBack(t) % 12 == 12 - t.month
    ensures (MonthsBack(t) + 1) / 12 == (if t.month == 1 then 2000 else 1999) - t.year
    ensures (MonthsBack(t) + 1) % 12 == if t.month == 1 then 0 else 13 - t.month
  {}

  function NextYear(t: Civil): int { if t.month == 12 then t.year + 1 else t.year }

  function NextMonth(t: Civil): int { if t.month == 12 then 1 else t.month + 1 }

  /** Days before the first of the next month are days of the month. */
  lemma BackOneMonth(t: Civil, day: int)
    requires 1 <= t.month <= 12 && day < 1
    ensures Settle(NextYear(t), NextMonth(t), day) == Settle(t.year, t.month, day + DaysIn(t.month, t.year))
  {
    hide DaysIn;
  }

  /** How a date before 2000 is packed, in days before the month after it, or in months before 2000. */
  lemma EarlyPacking(t: Civil)
    requires t.year < 2000
    ensures var n, seconds := MonthsBack(t), t.hour * 3600 + t.minute * 60 + t.second;
      && Encode(t) == -((n * MONTH_DAYS + (31 - t.day)) * DAY + (DAY - seconds))
      && Encode(t) == -((n * MONTH_DAYS + (32 - t.day)) * DAY - seconds)
      && Encode(t) == -(((n + 1) * MONTH_DAYS + (1 - t.day)) * DAY - seconds)
  {}

  lemma FirstMidnight(t: Civil)
    requires IsDate(t) && t.year < 2000 && t.day == 1 && IsMidnight(t)
    ensures Decode(Encode(t)) == t
  {
    hide IsLeap, Quot, Rem;
    var n := MonthsBack(t);
    EarlyPacking(t);
    BackDivides(t);
    hide Fields, Encode, MonthsBack;
    EarlyDayFields(Encode(t), n + 1, 0, 0);
    NegativeTime(0, 0, 0, 0);
    BackFields(Fields(Encode(t)), t.year, t.month, 0, 0, 0, 0);
    hide Normalized;
  }

  /** The fields stand for a day of the next month and a time of the day, with a carry between them. */
  ghost predicate CountedBack(t: Civil, f: Civil, carry: int) {
    var m := f.minute + f.second / 60;
    var h := f.hour + m / 60;
    && -10 <= f.month <= 1 && f.year * 12 + f.month == NextYear(t) * 12 + NextMonth(t)
    && h / 24 == carry && h % 24 == t.hour && m % 60 == t.minute && f.second % 60 == t.second
    && f.day + carry == t.day - 31
  }

  lemma MidnightFields(t: Civil)
    requires 1 <= t.month <= 12 && 1 < t.day <= 31 && t.year < 2000 && IsMidnight(t)
    ensures CountedBack(t, Fields(Encode(t)), 0)
  {
    hide Quot, Rem;
    EarlyPacking(t);
    BackDivides(t);
    hide Fields, Encode;
    EarlyDayFields(Encode(t), MonthsBack(t), 32 - t.day, 0);
    NegativeTime(0, 0, 0, 0);
  }

  lemma TimedFields(t: Civil)
    requires 1 <= t.month <= 12 && 1 <= t.day <= 31 && t.year < 2000 && !IsMidnight(t)
    requires 0 <= t.hour < 24 && 0 <= t.minute < 60 && 0 <= t.second < 60
    ensures CountedBack(t, Fields(Encode(t)), -1)
  {
    hide Quot, Rem;
    var rest := DAY - (t.hour * 3600 + t.minute * 60 + t.second);
    assert 0 < rest < DAY;
    EarlyPacking(t);
    BackDivides(t);
    hide Fields, Encode, MonthsBack;
    EarlyDayFields(Encode(t), MonthsBack(t), 31 - t.day, rest);
    EarlyTime(rest, t.hour, t.minute, t.second);
  }

  /** Any date before 2000 but the first at midnight is taken as so many days before the next month, counted
      as if its own had 31 days. */
  lemma OtherEarlyDates(t: Civil)
    requires IsDate(t) && t.year < 2000 && !(t.day == 1 && IsMidnight(t))
    ensures var (year, month, day) := Settle(t.year, t.month, t.day - 31 + DaysIn(t.month, t.year));
      Decode(Encode(t)) == Civil(year, month, day, t.hour, t.minute, t.second)
  {
    assert t.day <= 31;
    hide DaysIn, Settle, Encode, Fields, Normalized;
    if IsMidnight(t) { MidnightFields(t); } else { TimedFields(t); }
    var carry := if IsMidnight(t) then 0 else -1;
    BackFields(Fields(Encode(t)), NextYear(t), NextMonth(t), carry, t.hour, t.minute, t.second);
    BackOneMonth(t, t.day - 31);
  }

  /** A date before 2000 decodes to itself exactly if its month has 31 days or it is midnight on the first:
      otherwise the days between it and the next month are counted from a 31st that its month does not have. */
  lemma EarlyDatesReadBack(t: Civil)
    requires IsDate(t) && t.year < 2000
    ensures Decode(Encode(t)) == t <==> DaysIn(t.month, t.year) == 31 || (t.day == 1 && IsMidnight(t))
  {
    if t.day == 1 && IsMidnight(t) { FirstMidnight(t); } else { OtherEarlyDates(t); }
    hide Decode, Encode, IsLeap;
  }

  lemma AnEarlyDateThatMoves()
    ensures Decode(Encode(Civil(1999, 2, 28, 0, 0, 0))) == Civil(1999, 2, 25, 0, 0, 0)
  {
    OtherEarlyDates(Civil(1999, 2, 28, 0, 0, 0));
    hide Decode, Encode;
  }

  // ---------- the queued template ----------

  const CLOCK_TEMPLATE := "SET OPTIONS DateTime=%s"

  function ClockCommand(local: Civil): string { "SET OPTIONS DateTime=" + Itoa(Encode(local)) }

  /** fillClockCommand, given the time of collection in the device's zone. */
  function FillClock(command: string, local: Civil): string {
    if command != CLOCK_TEMPLATE then command else ClockCommand(local)
  }

  /** A filled command is no template, and tells the time it was collected at. */
  lemma FilledTellsTheTime(local: Civil)
    requires IsDate(local)
    ensures FillClock(CLOCK_TEMPLATE, local) != CLOCK_TEMPLATE
    ensures forall other: Civil ::
      IsDate(other) && FillClock(CLOCK_TEMPLATE, other) == FillClock(CLOCK_TEMPLATE, local) ==> other == local
  {
    var n := Encode(local);
    NotATemplate(n);
    forall other: Civil | IsDate(other) && FillClock(CLOCK_TEMPLATE, other) == FillClock(CLOCK_TEMPLATE, local)
      ensures other == local {
      hide IsDate, Itoa, Encode;
      SameNumber(Encode(other), n);
      EncodingIsMonotone(other, local);
      EncodingIsMonotone(local, other);
    }
  }

  lemma SameNumber(m: int, n: int)
    requires "SET OPTIONS DateTime=" + Itoa(m) == "SET OPTIONS DateTime=" + Itoa(n)
    ensures m == n
  {
    var p := "SET OPTIONS DateTime=";
    assert (p + Itoa(m))[|p|..] == Itoa(m) && (p + Itoa(n))[|p|..] == Itoa(n);
    SignedReads(m);
    SignedReads(n);
  }

  lemma NotATemplate(n: int)
    ensures "SET OPTIONS DateTime=" + Itoa(n) != CLOCK_TEMPLATE
  {
    var p := "SET OPTIONS DateTime=";
    SignedReads(n);
    if p + Itoa(n) == CLOCK_TEMPLATE {
      assert CLOCK_TEMPLATE[|p|..] == "%s" && (p + Itoa(n))[|p|..] == Itoa(n);
      PercentIsNoNumber();
    }
  }

  lemma PercentIsNoNumber()
    ensures SignedValue("%s").None?
  {
    assert "%s"[0] in "%s";
  }
}
