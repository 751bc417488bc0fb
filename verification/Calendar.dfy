/** Timestamps: the closed-form day count and the parser of `unix_seconds` in crates/pip-control/src/resume.rs. */
module Calendar {
  import opened Prelude

  // ---- the closed form ----

  /** Days since 1970-01-01 of a civil date, counting years from March. */
  function Days(year: int, month: int, day: int): int {
    var monthIndex := (month + 9) % 12;
    var dayOfYear := (153 * monthIndex + 2) / 5 + day - 1;
    YearDays(if month <= 2 then year - 1 else year) + dayOfYear - 719_468
  }

  /** Days before the first of March of a year, by eras of 400 years. */
  function YearDays(y: int): int {
    var era := y / 400;
    var yearOfEra := y - era * 400;
    era * 146_097 + (yearOfEra * 365 + yearOfEra / 4 - yearOfEra / 100)
  }

  // ---- the Gregorian calendar, one day at a time ----

  datatype Date = Date(year: int, month: int, day: int)

  predicate Leap(year: int) { year % 4 == 0 && (year % 100 != 0 || year % 400 == 0) }

  function MonthLength(year: int, month: int): int {
    if month == 2 then (if Leap(year) then 29 else 28)
    else if month == 4 || month == 6 || month == 9 || month == 11 then 30 else 31
  }

  predicate Real(d: Date) { 1 <= d.month <= 12 && 1 <= d.day <= MonthLength(d.year, d.month) }

  function Tomorrow(d: Date): Date {
    if d.day < MonthLength(d.year, d.month) then d.(day := d.day + 1)
    else if d.month < 12 then Date(d.year, d.month + 1, 1)
    else Date(d.year + 1, 1, 1)
  }

  function DaysOf(d: Date): int { Days(d.year, d.month, d.day) }

  predicate Before(a: Date, b: Date) {
    a.year < b.year || (a.year == b.year && (a.month < b.month || (a.month == b.month && a.day < b.day)))
  }

  /** The date n days later, by counting. */
  function Later(d: Date, n: nat): Date {
    if n == 0 then d else Tomorrow(Later(d, n - 1))
  }

  // ---- the closed form counts ----

  lemma EpochIsZero()
    ensures DaysOf(Date(1970, 1, 1)) == 0
  {
  }

  lemma LeapInEra(q: int)
    requires 1 <= q < 400
    ensures q / 4 - q / 100 - ((q - 1) / 4 - (q - 1) / 100) == if q % 4 == 0 && q % 100 != 0 then 1 else 0
  {
  }

  /** A March-based year lasts 366 days exactly when it ends with a leap February. */
  lemma YearDaysStep(y: int)
    ensures YearDays(y) == YearDays(y - 1) + if Leap(y) then 366 else 365
  {
    var b, q := y / 400, y % 400;
    LeapOfEra(y);
    if q == 0 {
      assert (y - 1) / 400 == b - 1 && y - 1 - (b - 1) * 400 == 399;
    } else {
      assert (y - 1) / 400 == b;
      LeapInEra(q);
    }
  }

  /** Leap years repeat every 400 years. */
  lemma LeapOfEra(y: int)
    ensures Leap(y) <==> Leap(y % 400)
  {
  }

  lemma MonthStarts(y: int, m: int)
    requires 1 <= m <= 11
    ensures Days(y, m + 1, 1) == Days(y, m, 1) + MonthLength(y, m)
  {
    hide YearDays;
    YearDaysStep(y);
  }

  /** The closed form advances by one from every real date to the next. */
  lemma TomorrowIsOneMore(d: Date)
    requires Real(d)
    ensures Real(Tomorrow(d)) && DaysOf(Tomorrow(d)) == DaysOf(d) + 1 && Before(d, Tomorrow(d))
  {
    if d.day == MonthLength(d.year, d.month) {
      if d.month < 12 {
        MonthStarts(d.year, d.month);
      } else {
        DecemberEnds(d.year);
      }
    }
  }

  lemma DecemberEnds(y: int)
    ensures Days(y + 1, 1, 1) == Days(y, 12, 1) + 31
  {
  }

  lemma {:induction false} MonthsGrow(y: int, m: int, n: int)
    requires 1 <= m < n <= 12
    ensures Days(y, m, 1) + MonthLength(y, m) <= Days(y, n, 1)
    decreases n
  {
    hide Days;
    MonthStarts(y, n - 1);
    if m < n - 1 {
      MonthsGrow(y, m, n - 1);
    }
  }

  lemma {:induction false} YearsGrow(y: int, z: int)
    requires y < z
    ensures Days(y, 12, 1) + 31 <= Days(z, 1, 1)
    decreases z - y
  {
    hide Days;
    DecemberEnds(z - 1);
    if y < z - 1 {
      YearsGrow(y, z - 1);
      MonthsGrow(z - 1, 1, 12);
    }
  }

  /** The closed form is strictly increasing in the order of real dates. */
  lemma DaysIncrease(a: Date, b: Date)
    requires Real(a) && Real(b) && Before(a, b)
    ensures DaysOf(a) < DaysOf(b)
  {
    DayOfMonth(a);
    DayOfMonth(b);
    hide Days;
    if a.year < b.year {
      if a.month < 12 { MonthsGrow(a.year, a.month, 12); }
      YearsGrow(a.year, b.year);
      if b.month > 1 { MonthsGrow(b.year, 1, b.month); }
    } else if a.month < b.month {
      MonthsGrow(a.year, a.month, b.month);
    }
  }

  lemma DayOfMonth(d: Date)
    ensures DaysOf(d) == Days(d.year, d.month, 1) + d.day - 1
  {
  }

  lemma {:induction false} LaterCounts(d: Date, n: nat)
    requires Real(d)
    ensures Real(Later(d, n)) && DaysOf(Later(d, n)) == DaysOf(d) + n
  {
    hide Days;
    if n == 0 {
    } else {
      LaterCounts(d, n - 1);
      TomorrowIsOneMore(Later(d, n - 1));
    }
  }

  /** The closed form is the number of days counted one at a time from any earlier real date, the epoch included. */
  lemma DaysCount(a: Date, b: Date)
    requires Real(a) && Real(b) && !Before(b, a)
    ensures DaysOf(a) <= DaysOf(b) && Later(a, DaysOf(b) - DaysOf(a)) == b
  {
    hide Days, Real;
    if a != b {
      DaysIncrease(a, b);
    }
    var c := Later(a, DaysOf(b) - DaysOf(a));
    LaterCounts(a, DaysOf(b) - DaysOf(a));
    if Before(c, b) { DaysIncrease(c, b); }
    if Before(b, c) { DaysIncrease(b, c); }
  }

  // ---- times of day ----

  datatype Time = Time(date: Date, hour: int, minute: int, second: int)

  /** A UTC time of day, leap seconds apart. */
  predicate RealTime(t: Time) { Real(t.date) && 0 <= t.hour <= 23 && 0 <= t.minute <= 59 && 0 <= t.second <= 59 }

  function Seconds(t: Time): int { DaysOf(t.date) * 86_400 + t.hour * 3_600 + t.minute * 60 + t.second }

  predicate Earlier(a: Time, b: Time) {
    Before(a.date, b.date) ||
    (a.date == b.date &&
     (a.hour < b.hour || (a.hour == b.hour && (a.minute < b.minute || (a.minute == b.minute && a.second < b.second)))))
  }

  /** Timestamps are ordered exactly as the times they stand for, and no two times share one. */
  lemma SecondsIncrease(a: Time, b: Time)
    requires RealTime(a) && RealTime(b)
    ensures Seconds(a) < Seconds(b) <==> Earlier(a, b)
    ensures Seconds(a) == Seconds(b) <==> a == b
  {
    hide Days;
    if Before(a.date, b.date) {
      DaysIncrease(a.date, b.date);
    }
    if Before(b.date, a.date) {
      DaysIncrease(b.date, a.date);
    }
  }

  // ---- parsing ----

  predicate Digit(c: char) { '0' <= c <= '9' }

  function Value(c: char): int { c as int - '0' as int }

  /** An unsigned decimal number of at least one digit. */
  function Number(s: string): Option<int> {
    if s == "" || !Digit(s[|s| - 1]) then None
    else
      var digit := Value(s[|s| - 1]);
      if |s| == 1 then Some(digit)
      else
        var front := Number(s[..|s| - 1]);
        if front.None? then None else Some(front.value * 10 + digit)
  }

  /** `parse::<i64>` on a short field: an optional sign before the digits. */
  function Field(s: string): Option<int> {
    if s == "" then None
    else if s[0] == '-' then (var n := Number(s[1..]); if n.None? then None else Some(-n.value))
    else if s[0] == '+' then Number(s[1..])
    else Number(s)
  }

  predicate Shape(s: string) {
    |s| == 20 && s[4] == '-' && s[7] == '-' && s[10] == 'T' && s[13] == ':' && s[16] == ':' && s[19] == 'Z'
  }

  function Fields(s: string): Option<Time>
    requires Shape(s)
  {
    var y, mo, d := Field(s[0..4]), Field(s[5..7]), Field(s[8..10]);
    var h, mi, se := Field(s[11..13]), Field(s[14..16]), Field(s[17..19]);
    if y.None? || mo.None? || d.None? || h.None? || mi.None? || se.None? then None
    else Some(Time(Date(y.value, mo.value, d.value), h.value, mi.value, se.value))
  }

  function UnixSeconds(s: string): Option<nat> {
    if !Shape(s) || Fields(s).None? then None
    else
      var t := Fields(s).value;
      if !(1 <= t.date.month <= 12) || !(1 <= t.date.day <= 31) then None
      else if t.hour > 23 || t.minute > 59 || t.second > 60 then None
      else if Seconds(t) < 0 then None
      else Some(Seconds(t))
  }

  // ---- the UTC profile of section 5.6 of RFC 3339 ----

  function DigitOf(n: int): char
    requires 0 <= n < 10
  {
    '0' + n as char
  }

  function Two(n: int): string
    requires 0 <= n < 100
  {
    [DigitOf(n / 10), DigitOf(n % 10)]
  }

  /** Every field fits its width. */
  predicate Writable(t: Time) {
    0 <= t.date.year <= 9999 && 0 <= t.date.month < 100 && 0 <= t.date.day < 100 &&
    0 <= t.hour < 100 && 0 <= t.minute < 100 && 0 <= t.second < 100
  }

  function Written(year: string, month: string, day: string, hour: string, minute: string, second: string): string {
    year + "-" + month + "-" + day + "T" + hour + ":" + minute + ":" + second + "Z"
  }

  function Format(t: Time): string
    requires Writable(t)
  {
    Written(Two(t.date.year / 100) + Two(t.date.year % 100), Two(t.date.month), Two(t.date.day),
            Two(t.hour), Two(t.minute), Two(t.second))
  }

  lemma WrittenFields(year: string, month: string, day: string, hour: string, minute: string, second: string)
    requires |year| == 4 && |month| == |day| == |hour| == |minute| == |second| == 2
    ensures
      var s := Written(year, month, day, hour, minute, second);
      Shape(s) && s[0..4] == year && s[5..7] == month && s[8..10] == day && s[11..13] == hour && s[14..16] == minute &&
      s[17..19] == second
  {
  }

  lemma TwoDigits(s: string)
    requires |s| == 2
    ensures Number(s) == if Digit(s[0]) && Digit(s[1]) then Some(Value(s[0]) * 10 + Value(s[1])) else None
  {
  }

  lemma TwoParses(n: int)
    requires 0 <= n < 100
    ensures Field(Two(n)) == Some(n)
  {
    TwoDigits(Two(n));
  }

  lemma FourParses(n: int)
    requires 0 <= n <= 9999
    ensures Field(Two(n / 100) + Two(n % 100)) == Some(n)
  {
    var s := Two(n / 100) + Two(n % 100);
    assert s[..3][..2] == Two(n / 100) && s[..3] == Two(n / 100) + [s[2]];
    TwoDigits(Two(n / 100));
    assert Number(s[..3]) == Some(n / 100 * 10 + n % 100 / 10);
  }

  /** The only minute that can hold a leap second: the last one of a month. */
  predicate LeapMinute(t: Time) {
    t.hour == 23 && t.minute == 59 && t.date.day == MonthLength(t.date.year, t.date.month)
  }

  /** A time as the profile writes it. */
  predicate Canonical(t: Time) {
    Real(t.date) && 0 <= t.date.year <= 9999 && 0 <= t.hour <= 23 && 0 <= t.minute <= 59 &&
    (0 <= t.second <= 59 || (t.second == 60 && LeapMinute(t)))
  }

  lemma FormatFields(t: Time)
    requires Writable(t)
    ensures Shape(Format(t)) && Fields(Format(t)) == Some(t)
  {
    hide Field, Shape, Written;
    WrittenFields(Two(t.date.year / 100) + Two(t.date.year % 100), Two(t.date.month), Two(t.date.day),
                  Two(t.hour), Two(t.minute), Two(t.second));
    FourParses(t.date.year);
    TwoParses(t.date.month);
    TwoParses(t.date.day);
    TwoParses(t.hour);
    TwoParses(t.minute);
    TwoParses(t.second);
  }

  /** Every canonical time from the epoch on is read back as its own number of seconds. */
  lemma TimestampsRoundTrip(t: Time)
    requires Canonical(t) && t.date.year >= 1970
    ensures UnixSeconds(Format(t)) == Some(Seconds(t)) && Seconds(t) >= 0
  {
    hide Days, Fields, Shape, Format;
    FormatFields(t);
    EpochIsZero();
    DaysCount(Date(1970, 1, 1), t.date);
    MonthAtMost31(t.date);
  }

  lemma MonthAtMost31(d: Date)
    requires Real(d)
    ensures d.day <= 31
  {
  }

  /** The start of the next minute, across the ends of hours, days, months and years. */
  function NextMinute(t: Time): Time {
    if t.minute < 59 then t.(minute := t.minute + 1, second := 0)
    else if t.hour < 23 then t.(hour := t.hour + 1, minute := 0, second := 0)
    else Time(Tomorrow(t.date), 0, 0, 0)
  }

  /** Second 60 of any minute shares its timestamp with the start of the next one. */
  lemma LeapSecondCollides(t: Time)
    requires Real(t.date) && 0 <= t.hour <= 23 && 0 <= t.minute <= 59 && t.second == 60
    ensures Seconds(t) == Seconds(NextMinute(t)) && RealTime(NextMinute(t))
  {
    hide Days;
    TomorrowIsOneMore(t.date);
  }

  /** The first character of every field is a digit, not a sign. */
  predicate Unsigned(s: string)
    requires Shape(s)
  {
    Digit(s[0]) && Digit(s[5]) && Digit(s[8]) && Digit(s[11]) && Digit(s[14]) && Digit(s[17])
  }

  lemma TwoRebuilds(s: string)
    requires |s| == 2 && Digit(s[0]) && Field(s).Some?
    ensures 0 <= Field(s).value < 100 && Two(Field(s).value) == s
  {
    TwoDigits(s);
  }

  lemma FourDigits(s: string)
    requires |s| == 4 && Number(s).Some?
    ensures Digit(s[0]) && Digit(s[1]) && Digit(s[2]) && Digit(s[3])
    ensures Number(s).value == ((Value(s[0]) * 10 + Value(s[1])) * 10 + Value(s[2])) * 10 + Value(s[3])
  {
    var t := s[..3];
    assert t[..2] == s[..2] && t[2] == s[2];
    assert Number(t).Some? && Number(t[..2]).Some?;
    TwoDigits(s[..2]);
  }

  lemma FourRebuilds(s: string)
    requires |s| == 4 && Digit(s[0]) && Field(s).Some?
    ensures 0 <= Field(s).value <= 9999 && Two(Field(s).value / 100) + Two(Field(s).value % 100) == s
  {
    hide Number;
    FourDigits(s);
    var a, b, c, d := Value(s[0]), Value(s[1]), Value(s[2]), Value(s[3]);
    var n := Field(s).value;
    assert n == 100 * (a * 10 + b) + (c * 10 + d);
    assert n / 100 == a * 10 + b && n % 100 == c * 10 + d;
  }

  lemma FieldsRebuild(s: string)
    requires UnixSeconds(s).Some? && Unsigned(s) && Real(Fields(s).value.date)
    requires Fields(s).value.second == 60 ==> LeapMinute(Fields(s).value)
    ensures Canonical(Fields(s).value) && Format(Fields(s).value) == s
  {
    hide Field, Days, Real;
    FourRebuilds(s[0..4]);
    TwoRebuilds(s[5..7]);
    TwoRebuilds(s[8..10]);
    TwoRebuilds(s[11..13]);
    TwoRebuilds(s[14..16]);
    TwoRebuilds(s[17..19]);
    assert s == Written(s[0..4], s[5..7], s[8..10], s[11..13], s[14..16], s[17..19]);
  }

  /** An accepted string is a timestamp of the profile exactly when no field is signed, its day exists, and a
      second 60 ends a month. */
  lemma AcceptedExactly(s: string)
    requires UnixSeconds(s).Some?
    ensures (exists t :: Canonical(t) && Format(t) == s) <==>
            Unsigned(s) && Real(Fields(s).value.date) && (Fields(s).value.second == 60 ==> LeapMinute(Fields(s).value))
  {
    hide Field, Days;
    if t :| Canonical(t) && Format(t) == s {
      FormatFields(t);
    }
    if Unsigned(s) && Real(Fields(s).value.date) && (Fields(s).value.second == 60 ==> LeapMinute(Fields(s).value)) {
      FieldsRebuild(s);
    }
  }

  /** The parser also accepts a signed hour, which lands in the day before. */
  lemma SignedHourAccepted(t: Time)
    requires Canonical(t) && t.date.year >= 1970 && t.date != Date(1970, 1, 1)
    ensures
      var s := Written(Two(t.date.year / 100) + Two(t.date.year % 100), Two(t.date.month), Two(t.date.day),
                       "-1", Two(t.minute), Two(t.second));
      UnixSeconds(s) == Some(Seconds(t.(hour := -1)))
  {
    hide Days, Written, Shape;
    FourParses(t.date.year);
    TwoParses(t.date.month);
    TwoParses(t.date.day);
    TwoParses(t.minute);
    TwoParses(t.second);
    MinusOne();
    hide Field;
    WrittenFields(Two(t.date.year / 100) + Two(t.date.year % 100), Two(t.date.month), Two(t.date.day), "-1",
                  Two(t.minute), Two(t.second));
    EpochIsZero();
    DaysIncrease(Date(1970, 1, 1), t.date);
    MonthAtMost31(t.date);
  }

  lemma MinusOne()
    ensures Field("-1") == Some(-1)
  {
  }

  /** The parser also accepts second 60 in a minute that cannot hold a leap second. */
  lemma AnySixtiethSecondAccepted(t: Time)
    requires Canonical(t) && t.date.year >= 1970 && !LeapMinute(t)
    ensures UnixSeconds(Format(t.(second := 60))) == Some(Seconds(t) - t.second + 60)
  {
    hide Days, Fields, Shape, Format;
    FormatFields(t.(second := 60));
    EpochIsZero();
    DaysCount(Date(1970, 1, 1), t.date);
    MonthAtMost31(t.date);
  }

  /** The parser also accepts a day its month does not have, as a day of the next month. */
  lemma MissingDayAccepted()
    ensures
      var a, b := Time(Date(2023, 2, 31), 0, 0, 0), Time(Date(2023, 3, 3), 0, 0, 0);
      !Real(a.date) && UnixSeconds(Format(a)).Some? && UnixSeconds(Format(a)) == UnixSeconds(Format(b))
  {
    hide Shape, Fields, Format;
    FormatFields(Time(Date(2023, 2, 31), 0, 0, 0));
    FormatFields(Time(Date(2023, 3, 3), 0, 0, 0));
    assert Days(2023, 2, 31) == Days(2023, 3, 3) && Days(2023, 3, 3) > 0;
  }
}
