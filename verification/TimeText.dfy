/** Timestamps as the store writes them: RFC 3339 text in UTC with a fraction whose trailing zeros
    are dropped. SQL compares these texts, so this module relates the order of the texts to the
    order of the times. */
module TimeText {
  import opened Wrappers
  import opened Text

  /** A UTC time in the civil calendar. */
  datatype Time = Time(year: nat, month: nat, day: nat, hour: nat, minute: nat, second: nat, nano: nat)

  const BILLION := 1_000_000_000

  predicate IsLeap(year: nat) {
    year % 4 == 0 && (year % 100 != 0 || year % 400 == 0)
  }

  function DaysInMonth(year: nat, month: nat): nat {
    if month == 2 then (if IsLeap(year) then 29 else 28)
    else if month == 4 || month == 6 || month == 9 || month == 11 then 30
    else 31
  }

  /** The times whose text has a four-digit year. */
  predicate Valid(t: Time) {
    && t.year <= 9999 && 1 <= t.month <= 12 && 1 <= t.day <= DaysInMonth(t.year, t.month)
    && t.hour < 24 && t.minute < 60 && t.second < 60 && t.nano < BILLION
  }

  type UtcTime = t: Time | Valid(t) witness Time(1, 1, 1, 0, 0, 0, 0)

  // ---- Instants ----

  function DaysBeforeYear(year: nat): nat {
    if year == 0 then 0 else DaysBeforeYear(year - 1) + if IsLeap(year - 1) then 366 else 365
  }

  function DaysBeforeMonth(year: nat, month: nat): nat
    requires 1 <= month
  {
    if month == 1 then 0 else DaysBeforeMonth(year, month - 1) + DaysInMonth(year, month - 1)
  }

  function DayNumber(t: Time): nat
    requires Valid(t)
  {
    DaysBeforeYear(t.year) + DaysBeforeMonth(t.year, t.month) + (t.day - 1)
  }

  /** Whole seconds since the start of the year 0. */
  function Seconds(t: Time): nat
    requires Valid(t)
  {
    DayNumber(t) * 86400 + t.hour * 3600 + t.minute * 60 + t.second
  }

  function Nanos(t: Time): nat
    requires Valid(t)
  {
    Seconds(t) * BILLION + t.nano
  }

  // ---- The civil calendar ----

  lemma Quarters(y: nat)
    ensures (y + 4) / 4 == (y + 3) / 4 + if y % 4 == 0 then 1 else 0
  {
  }

  lemma Centuries(y: nat)
    ensures (y + 100) / 100 == (y + 99) / 100 + if y % 100 == 0 then 1 else 0
    ensures (y + 400) / 400 == (y + 399) / 400 + if y % 400 == 0 then 1 else 0
    ensures (y % 100 == 0 ==> y % 4 == 0) && (y % 400 == 0 ==> y % 100 == 0)
  {
  }

  /** How many days the years before a year have: 365 each, one more for every fourth, none for every
      hundredth, but one for every four hundredth, the year 0 first. */
  lemma {:induction false} DaysByFormula(y: nat)
    ensures DaysBeforeYear(y) == 365 * y + (y + 3) / 4 - (y + 99) / 100 + (y + 399) / 400
  {
    if y > 0 {
      DaysByFormula(y - 1);
      Quarters(y - 1);
      Centuries(y - 1);
    }
  }

  /** Which combinations of fields are times. */
  lemma ValidIff(t: Time)
    ensures Valid(t) <==>
            && t.year <= 9999 && t.month in {1, 2, 3, 4, 5, 6, 7, 8, 9, 10, 11, 12} && 1 <= t.day <= 31
            && (t.month in {4, 6, 9, 11} ==> t.day <= 30)
            && (t.month == 2 ==> t.day <= 29 && (t.day == 29 ==> t.year % 4 == 0 && (t.year % 100 != 0 || t.year % 400 == 0)))
            && t.hour <= 23 && t.minute <= 59 && t.second <= 59 && t.nano <= 999_999_999
  {
  }

  /** The first instant of the next day. */
  function Tomorrow(t: Time): Time
    requires Valid(t)
  {
    if t.day < DaysInMonth(t.year, t.month) then Time(t.year, t.month, t.day + 1, 0, 0, 0, 0)
    else if t.month < 12 then Time(t.year, t.month + 1, 1, 0, 0, 0, 0)
    else Time(t.year + 1, 1, 1, 0, 0, 0, 0)
  }

  /** Days follow each other without a gap through months and years, 86400 seconds each. */
  lemma {:induction false} DaysFollow(t: Time)
    requires Valid(t) && t.year < 9999
    ensures Valid(Tomorrow(t)) && DayNumber(Tomorrow(t)) == DayNumber(t) + 1
    ensures Seconds(Tomorrow(t)) == Seconds(t.(hour := 0, minute := 0, second := 0)) + 86400
    ensures Seconds(t) == Seconds(t.(hour := 0, minute := 0, second := 0)) + t.hour * 3600 + t.minute * 60 + t.second
    ensures Nanos(t) == Seconds(t) * 1_000_000_000 + t.nano
  {
    if t.day == DaysInMonth(t.year, t.month) && t.month == 12 {
      YearHasTwelveMonths(t.year);
    }
  }

  /** Where the count begins: Unix time is this many seconds less. */
  lemma {:induction false} UnixEpoch(t: Time)
    requires t == Time(1970, 1, 1, 0, 0, 0, 0)
    ensures Valid(t) && Seconds(t) == 62_167_219_200
  {
    DaysByFormula(1970);
  }

  lemma {:induction false} YearsGrow(y: nat, z: nat)
    requires y < z
    ensures DaysBeforeYear(y) + (if IsLeap(y) then 366 else 365) <= DaysBeforeYear(z)
    decreases z
  {
    if y < z - 1 {
      YearsGrow(y, z - 1);
    }
  }

  lemma {:induction false} MonthsGrow(year: nat, m: nat, n: nat)
    requires 1 <= m < n
    ensures DaysBeforeMonth(year, m) + DaysInMonth(year, m) <= DaysBeforeMonth(year, n)
    decreases n
  {
    if m < n - 1 {
      MonthsGrow(year, m, n - 1);
    }
  }

  lemma {:induction false} YearHasTwelveMonths(year: nat)
    ensures DaysBeforeMonth(year, 12) + 31 == if IsLeap(year) then 366 else 365
  {
    var february := DaysInMonth(year, 2);
    assert DaysBeforeMonth(year, 2) == 31;
    assert DaysBeforeMonth(year, 3) == 31 + february;
    assert DaysBeforeMonth(year, 4) == 62 + february;
    assert DaysBeforeMonth(year, 5) == 92 + february;
    assert DaysBeforeMonth(year, 6) == 123 + february;
    assert DaysBeforeMonth(year, 7) == 153 + february;
    assert DaysBeforeMonth(year, 8) == 184 + february;
    assert DaysBeforeMonth(year, 9) == 215 + february;
    assert DaysBeforeMonth(year, 10) == 245 + february;
    assert DaysBeforeMonth(year, 11) == 276 + february;
  }

  lemma {:induction false} DayFitsYear(t: Time)
    requires Valid(t)
    ensures DaysBeforeMonth(t.year, t.month) + (t.day - 1) < if IsLeap(t.year) then 366 else 365
  {
    YearHasTwelveMonths(t.year);
    if t.month < 12 {
      MonthsGrow(t.year, t.month, 12);
    }
  }

  predicate EarlierDate(a: Time, b: Time) {
    a.year < b.year || (a.year == b.year && (a.month < b.month || (a.month == b.month && a.day < b.day)))
  }

  predicate EarlierClock(a: Time, b: Time) {
    a.hour < b.hour || (a.hour == b.hour && (a.minute < b.minute || (a.minute == b.minute && a.second < b.second)))
  }

  predicate SameDate(a: Time, b: Time) {
    a.year == b.year && a.month == b.month && a.day == b.day
  }

  predicate SameSecond(a: Time, b: Time) {
    SameDate(a, b) && a.hour == b.hour && a.minute == b.minute && a.second == b.second
  }

  /** The fields before the fraction, compared from the left. */
  predicate EarlierSecond(a: Time, b: Time) {
    EarlierDate(a, b) || (SameDate(a, b) && EarlierClock(a, b))
  }

  lemma {:induction false} EarlierDay(a: Time, b: Time)
    requires Valid(a) && Valid(b) && EarlierDate(a, b)
    ensures DayNumber(a) < DayNumber(b)
  {
    if a.year < b.year {
      DayFitsYear(a);
      YearsGrow(a.year, b.year);
    } else if a.month < b.month {
      MonthsGrow(a.year, a.month, b.month);
    }
  }

  lemma {:induction false} SecondsGrow(a: Time, b: Time)
    requires Valid(a) && Valid(b) && EarlierSecond(a, b)
    ensures Seconds(a) < Seconds(b)
  {
    if EarlierDate(a, b) {
      EarlierDay(a, b);
    }
  }

  /** The calendar fields order times as the instants do. */
  lemma {:induction false} FieldsOrderInstants(a: Time, b: Time)
    requires Valid(a) && Valid(b)
    ensures EarlierSecond(a, b) <==> Seconds(a) < Seconds(b)
    ensures SameSecond(a, b) <==> Seconds(a) == Seconds(b)
  {
    if EarlierSecond(a, b) {
      SecondsGrow(a, b);
    } else if EarlierSecond(b, a) {
      SecondsGrow(b, a);
    }
  }

  // ---- Text order ----

  /** `a` and `b` agree before position `i`, and there `a` ends or has the smaller character. */
  predicate LessAt(a: string, b: string, i: nat) {
    i <= |a| && i < |b| && a[..i] == b[..i] && (i == |a| || a[i] < b[i])
  }

  /** The order SQL compares text in. */
  predicate Less(a: string, b: string) {
    exists i :: 0 <= i <= |a| && LessAt(a, b, i)
  }

  lemma LessIsStrict(a: string, b: string)
    requires Less(a, b)
    ensures a != b && !Less(b, a)
  {
  }

  /** Of two texts that differ, one comes first. */
  lemma {:induction false} LessIsTotal(a: string, b: string)
    requires a != b
    ensures Less(a, b) || Less(b, a)
    decreases |a|
  {
    if a == [] {
      assert LessAt(a, b, 0);
    } else if b == [] {
      assert LessAt(b, a, 0);
    } else if a[0] == b[0] {
      LessIsTotal(a[1..], b[1..]);
      assert a == [a[0]] + a[1..] && b == [a[0]] + b[1..];
      LessLate([a[0]], a[1..], b[1..]);
      LessLate([a[0]], b[1..], a[1..]);
    } else {
      assert if a[0] < b[0] then LessAt(a, b, 0) else LessAt(b, a, 0);
    }
  }

  /** A difference in parts of equal length decides. */
  lemma LessEarly(p: string, q: string, x: string, y: string)
    requires |p| == |q| && Less(p, q)
    ensures Less(p + x, q + y)
  {
    var i :| 0 <= i <= |p| && LessAt(p, q, i);
    assert (p + x)[..i] == p[..i] && (q + y)[..i] == q[..i];
    assert LessAt(p + x, q + y, i);
  }

  /** A common beginning does not matter. */
  lemma LessLate(p: string, x: string, y: string)
    ensures Less(p + x, p + y) <==> Less(x, y)
  {
    if Less(x, y) {
      var i :| 0 <= i <= |x| && LessAt(x, y, i);
      assert (p + x)[..|p| + i] == p + x[..i] && (p + y)[..|p| + i] == p + y[..i];
      assert LessAt(p + x, p + y, |p| + i);
    }
    if Less(p + x, p + y) {
      var i :| 0 <= i <= |p + x| && LessAt(p + x, p + y, i);
      assert i >= |p|;
      assert (p + x)[..i] == p + x[..i - |p|] && (p + y)[..i] == p + y[..i - |p|];
      assert x[..i - |p|] == (p + x)[..i][|p|..];
      assert y[..i - |p|] == (p + y)[..i][|p|..];
      assert LessAt(x, y, i - |p|);
    }
  }

  // ---- Numbers of fixed width ----

  function Power(k: nat): nat {
    if k == 0 then 1 else 10 * Power(k - 1)
  }

  /** `n` in `k` digits. */
  function Padded(n: nat, k: nat): (s: string)
    ensures |s| == k && AllDigits(s)
  {
    if k == 0 then "" else Padded(n / 10, k - 1) + [Digit(n % 10)]
  }

  lemma {:induction false} PaddedGrows(m: nat, n: nat, k: nat)
    requires m < n < Power(k)
    ensures Less(Padded(m, k), Padded(n, k))
  {
    if m / 10 < n / 10 {
      PaddedGrows(m / 10, n / 10, k - 1);
      LessEarly(Padded(m / 10, k - 1), Padded(n / 10, k - 1), [Digit(m % 10)], [Digit(n % 10)]);
    } else {
      var p := Padded(m / 10, k - 1);
      assert LessAt([Digit(m % 10)], [Digit(n % 10)], 0);
      LessLate(p, [Digit(m % 10)], [Digit(n % 10)]);
    }
  }

  /** One field and what follows it: the field decides unless it is equal. */
  lemma {:induction false} FieldDecides(m: nat, n: nat, k: nat, x: string, y: string)
    requires m < Power(k) && n < Power(k)
    ensures m < n ==> Less(Padded(m, k) + x, Padded(n, k) + y)
    ensures m == n ==> (Less(Padded(m, k) + x, Padded(n, k) + y) <==> Less(x, y))
  {
    if m < n {
      PaddedGrows(m, n, k);
      LessEarly(Padded(m, k), Padded(n, k), x, y);
    } else if m == n {
      LessLate(Padded(m, k), x, y);
    }
  }

  lemma SeparatorPasses(c: char, x: string, y: string)
    ensures Less([c] + x, [c] + y) <==> Less(x, y)
  {
    LessLate([c], x, y);
  }

  // ---- Formatting ----

  function WithoutTrailingZeros(s: string): string {
    if s != [] && s[|s| - 1] == '0' then WithoutTrailingZeros(s[..|s| - 1]) else s
  }

  /** The digits printed after the point. */
  function FractionDigits(nano: nat): string {
    WithoutTrailingZeros(Padded(nano, 9))
  }

  function Zone(nano: nat): string {
    if nano == 0 then "Z" else "." + FractionDigits(nano) + "Z"
  }

  function Clock(t: Time): string {
    Padded(t.hour, 2) + ([':'] + (Padded(t.minute, 2) + ([':'] + (Padded(t.second, 2) + Zone(t.nano)))))
  }

  /** RFC 3339 in UTC with the fraction as short as it goes. */
  function Format(t: Time): string {
    Padded(t.year, 4) + (['-'] + (Padded(t.month, 2) + (['-'] + (Padded(t.day, 2) + (['T'] + Clock(t))))))
  }

  lemma Widths()
    ensures Power(2) == 100 && Power(4) == 10000
  {
  }

  lemma {:induction false} ClockOrder(a: Time, b: Time)
    requires Valid(a) && Valid(b)
    ensures EarlierClock(a, b) ==> Less(Clock(a), Clock(b))
    ensures a.hour == b.hour && a.minute == b.minute && a.second == b.second ==>
              (Less(Clock(a), Clock(b)) <==> Less(Zone(a.nano), Zone(b.nano)))
  {
    Widths();
    var sa, sb := Padded(a.second, 2) + Zone(a.nano), Padded(b.second, 2) + Zone(b.nano);
    var ma, mb := Padded(a.minute, 2) + ([':'] + sa), Padded(b.minute, 2) + ([':'] + sb);
    FieldDecides(a.second, b.second, 2, Zone(a.nano), Zone(b.nano));
    SeparatorPasses(':', sa, sb);
    FieldDecides(a.minute, b.minute, 2, [':'] + sa, [':'] + sb);
    SeparatorPasses(':', ma, mb);
    FieldDecides(a.hour, b.hour, 2, [':'] + ma, [':'] + mb);
  }

  lemma {:induction false} DateOrder(a: Time, b: Time)
    requires Valid(a) && Valid(b)
    ensures EarlierDate(a, b) ==> Less(Format(a), Format(b))
    ensures SameDate(a, b) ==> (Less(Format(a), Format(b)) <==> Less(Clock(a), Clock(b)))
  {
    Widths();
    var da, db := Padded(a.day, 2) + (['T'] + Clock(a)), Padded(b.day, 2) + (['T'] + Clock(b));
    var ma, mb := Padded(a.month, 2) + (['-'] + da), Padded(b.month, 2) + (['-'] + db);
    SeparatorPasses('T', Clock(a), Clock(b));
    FieldDecides(a.day, b.day, 2, ['T'] + Clock(a), ['T'] + Clock(b));
    SeparatorPasses('-', da, db);
    FieldDecides(a.month, b.month, 2, ['-'] + da, ['-'] + db);
    SeparatorPasses('-', ma, mb);
    FieldDecides(a.year, b.year, 4, ['-'] + ma, ['-'] + mb);
  }

  // ---- Fractions ----

  lemma {:induction false} ZerosTrimmed(s: string)
    ensures var r := WithoutTrailingZeros(s);
            && |r| <= |s| && r == s[..|r|]
            && (r != [] ==> r[|r| - 1] != '0')
            && forall i :: |r| <= i < |s| ==> s[i] == '0'
  {
    if s != [] && s[|s| - 1] == '0' {
      ZerosTrimmed(s[..|s| - 1]);
    }
  }

  /** The earlier fraction's digits begin the later one's. */
  predicate ProperPrefix(x: string, y: string) {
    |x| < |y| && x == y[..|x|]
  }

  /** Trimmed digits of fixed-width numbers: the smaller one is a proper prefix of the larger, or they
      differ first at a place where it has the smaller digit. */
  lemma {:induction false} TrimmedOrder(p: string, q: string)
    requires |p| == |q| && Less(p, q) && forall i :: 0 <= i < |p| ==> '0' <= p[i]
    ensures var x, y := WithoutTrailingZeros(p), WithoutTrailingZeros(q);
            ProperPrefix(x, y) || exists i :: 0 <= i < |x| && i < |y| && x[..i] == y[..i] && x[i] < y[i]
  {
    var x, y := WithoutTrailingZeros(p), WithoutTrailingZeros(q);
    ZerosTrimmed(p);
    ZerosTrimmed(q);
    var i :| 0 <= i <= |p| && LessAt(p, q, i);
    assert i < |y|;
    if i < |x| {
      assert x[..i] == p[..i] && y[..i] == q[..i];
    } else {
      assert x == p[..i][..|x|] && y[..|x|] == q[..i][..|x|];
    }
  }

  lemma PrefixLosesToZone(x: string, y: string)
    requires ProperPrefix(x, y) && forall i :: 0 <= i < |y| ==> y[i] <= '9'
    ensures Less(y + "Z", x + "Z")
  {
    assert (y + "Z")[..|x|] == x && (x + "Z")[..|x|] == x;
    assert LessAt(y + "Z", x + "Z", |x|);
  }

  lemma DifferenceDecides(x: string, y: string, i: nat)
    requires i < |x| && i < |y| && x[..i] == y[..i] && x[i] < y[i]
    ensures Less(x + "Z", y + "Z") && !ProperPrefix(x, y)
  {
    assert (x + "Z")[..i] == x[..i] && (y + "Z")[..i] == y[..i];
    assert LessAt(x + "Z", y + "Z", i);
  }

  lemma {:induction false} PaddedIsPositive(n: nat, k: nat)
    requires 0 < n < Power(k)
    ensures WithoutTrailingZeros(Padded(n, k)) != ""
  {
    if n % 10 == 0 {
      PaddedIsPositive(n / 10, k - 1);
      assert Padded(n, k)[..k - 1] == Padded(n / 10, k - 1);
    }
  }

  lemma Billion()
    ensures Power(9) == BILLION
  {
  }

  lemma {:induction false} FullSecondSortsLast(n: nat)
    requires 0 < n < BILLION
    ensures Less(Zone(n), Zone(0)) && !Less(Zone(0), Zone(n)) && ProperPrefix(FractionDigits(0), FractionDigits(n))
  {
    Billion();
    PaddedIsPositive(n, 9);
    ZeroFraction(9);
    assert LessAt(Zone(n), Zone(0), 0);
    LessIsStrict(Zone(n), Zone(0));
  }

  /** Two trimmed fractions followed by the zone designator. */
  lemma {:induction false} TrimmedZones(p: string, q: string, x: string, y: string)
    requires |p| == |q| && Less(p, q) && AllDigits(p) && AllDigits(q)
    requires x == WithoutTrailingZeros(p) && y == WithoutTrailingZeros(q)
    ensures if ProperPrefix(x, y) then Less(y + "Z", x + "Z") else Less(x + "Z", y + "Z")
  {
    TrimmedOrder(p, q);
    ZerosTrimmed(q);
    if ProperPrefix(x, y) {
      PrefixLosesToZone(x, y);
    } else {
      var i :| 0 <= i < |x| && i < |y| && x[..i] == y[..i] && x[i] < y[i];
      DifferenceDecides(x, y, i);
    }
  }

  /** Within one second: the texts are in the order of the times exactly when the earlier
      fraction's digits do not begin the later one's, and in the opposite order otherwise. */
  lemma {:induction false} ZoneOrder(m: nat, n: nat)
    requires m < n < BILLION
    ensures Less(Zone(m), Zone(n)) <==> !ProperPrefix(FractionDigits(m), FractionDigits(n))
    ensures Less(Zone(n), Zone(m)) <==> ProperPrefix(FractionDigits(m), FractionDigits(n))
  {
    if m == 0 {
      FullSecondSortsLast(n);
    } else {
      var x, y := FractionDigits(m), FractionDigits(n);
      ZonesByDigits(m, n, x, y);
      Billion();
      PaddedGrows(m, n, 9);
      TrimmedZones(Padded(m, 9), Padded(n, 9), x, y);
      if ProperPrefix(x, y) {
        LessIsStrict(y + "Z", x + "Z");
      } else {
        LessIsStrict(x + "Z", y + "Z");
      }
    }
  }

  lemma {:induction false} ZeroFraction(k: nat)
    ensures WithoutTrailingZeros(Padded(0, k)) == ""
  {
    if k > 0 {
      ZeroFraction(k - 1);
      assert Padded(0, k)[..k - 1] == Padded(0, k - 1);
    }
  }

  lemma ZonesByDigits(m: nat, n: nat, x: string, y: string)
    requires 0 < m && 0 < n && x == FractionDigits(m) && y == FractionDigits(n)
    ensures Less(Zone(m), Zone(n)) <==> Less(x + "Z", y + "Z")
    ensures Less(Zone(n), Zone(m)) <==> Less(y + "Z", x + "Z")
  {
    assert Zone(m) == "." + (x + "Z") && Zone(n) == "." + (y + "Z");
    LessLate(".", x + "Z", y + "Z");
    LessLate(".", y + "Z", x + "Z");
  }

  // ---- What SQL may conclude ----

  lemma {:induction false} SecondsDecide(a: Time, b: Time)
    requires Valid(a) && Valid(b) && EarlierSecond(a, b)
    ensures Less(Format(a), Format(b)) && !Less(Format(b), Format(a))
  {
    DateOrder(a, b);
    ClockOrder(a, b);
    LessIsStrict(Format(a), Format(b));
  }

  /** Different whole seconds: text order is time order. */
  lemma {:induction false} TextOrderAcrossSeconds(a: Time, b: Time)
    requires Valid(a) && Valid(b) && Seconds(a) != Seconds(b)
    ensures Less(Format(a), Format(b)) <==> Nanos(a) < Nanos(b)
  {
    FieldsOrderInstants(a, b);
    if EarlierSecond(a, b) {
      SecondsDecide(a, b);
    } else {
      SecondsDecide(b, a);
    }
  }

  /** The same second: the texts of two times are in order exactly when the earlier fraction, as
      printed, does not begin the later one. */
  lemma {:induction false} TextOrderWithinSecond(a: Time, b: Time)
    requires Valid(a) && Valid(b) && Seconds(a) == Seconds(b) && a.nano < b.nano
    ensures Less(Format(a), Format(b)) <==> !ProperPrefix(FractionDigits(a.nano), FractionDigits(b.nano))
    ensures Less(Format(b), Format(a)) <==> ProperPrefix(FractionDigits(a.nano), FractionDigits(b.nano))
  {
    FieldsOrderInstants(a, b);
    DateOrder(a, b);
    ClockOrder(a, b);
    DateOrder(b, a);
    ClockOrder(b, a);
    ZoneOrder(a.nano, b.nano);
  }

  /** A comparison of texts is wrong by less than a second. */
  lemma {:induction false} TextOrderOffBySecond(a: Time, b: Time)
    requires Valid(a) && Valid(b) && Less(Format(a), Format(b))
    ensures Nanos(a) < Nanos(b) + BILLION
  {
    if Seconds(a) != Seconds(b) {
      TextOrderAcrossSeconds(a, b);
    }
  }

  /** Half a second past sorts before the full second it follows. */
  lemma {:induction false} FractionSortsFirst(full: Time, half: Time)
    requires Valid(full) && full.nano == 0 && half == full.(nano := 500_000_000)
    ensures Nanos(full) < Nanos(half) && Less(Format(half), Format(full))
  {
    assert Seconds(full) == Seconds(half);
    Billion();
    ZeroFraction(9);
    PaddedIsPositive(half.nano, 9);
    TextOrderWithinSecond(full, half);
  }

  /** `due <= now` on texts, for a due time on a whole second as cron gives it: never early, and true
      exactly when a later second has begun or `now` is that second on the dot. */
  lemma {:induction false} DueByText(due: Time, now: Time)
    requires Valid(due) && Valid(now) && due.nano == 0
    ensures !Less(Format(now), Format(due)) <==> Seconds(due) < Seconds(now) || due == now
    ensures !Less(Format(now), Format(due)) ==> Nanos(due) <= Nanos(now)
  {
    FieldsOrderInstants(due, now);
    if Seconds(due) == Seconds(now) {
      if now.nano == 0 {
        if Less(Format(now), Format(due)) {
          LessIsStrict(Format(now), Format(due));
        }
      } else {
        Billion();
        ZeroFraction(9);
        PaddedIsPositive(now.nano, 9);
        TextOrderWithinSecond(due, now);
      }
    } else {
      TextOrderAcrossSeconds(now, due);
    }
  }

  /** A session the store accepts (`expires > now` on texts) is expired by less than a second, if at
      all; one it prunes (`expires <= now`) has less than a second left. */
  lemma {:induction false} SessionExpiry(expires: Time, now: Time)
    requires Valid(expires) && Valid(now)
    ensures Less(Format(now), Format(expires)) ==> Nanos(now) < Nanos(expires) + BILLION
    ensures !Less(Format(now), Format(expires)) ==> Nanos(expires) < Nanos(now) + BILLION
  {
    if Less(Format(now), Format(expires)) {
      TextOrderOffBySecond(now, expires);
    } else if Seconds(now) != Seconds(expires) {
      TextOrderAcrossSeconds(now, expires);
    }
  }

  // ---- Parsing ----

  /** Exactly `k` digits, then the rest. */
  function TakeNumber(s: string, k: nat): Option<(nat, string)> {
    if k <= |s| && AllDigits(s[..k]) then Some((NumberOf(s[..k]), s[k..])) else None
  }

  function TakeChar(s: string, c: char): Option<string> {
    if s != [] && s[0] == c then Some(s[1..]) else None
  }

  /** The digits after the point as nanoseconds; digits past the ninth are ignored. */
  function FractionOf(digits: string): nat
    requires AllDigits(digits)
  {
    if |digits| <= 9 then NumberOf(digits) * Power(9 - |digits|) else NumberOf(digits[..9])
  }

  /** The fraction, if there is one, and the zone designator. */
  function ParseZone(s: string): Option<nat> {
    if 2 <= |s| && s[0] == '.' && IsDigit(s[1]) then
      var n := DigitRun(s[1..]);
      if s[1..][n..] == "Z" then Some(FractionOf(s[1..][..n])) else None
    else if s == "Z" then Some(0)
    else None
  }

  datatype ClockTime = ClockTime(hour: nat, minute: nat, second: nat, nano: nat)

  function ParseClock(s: string): Option<ClockTime> {
    var (hour, s1) :- TakeNumber(s, 2);
    var s2 :- TakeChar(s1, ':');
    var (minute, s3) :- TakeNumber(s2, 2);
    var s4 :- TakeChar(s3, ':');
    var (second, s5) :- TakeNumber(s4, 2);
    var nano :- ParseZone(s5);
    Some(ClockTime(hour, minute, second, nano))
  }

  /** RFC 3339 in UTC: every field in range, or nothing. */
  function Parse(s: string): Option<Time> {
    var (year, s1) :- TakeNumber(s, 4);
    var s2 :- TakeChar(s1, '-');
    var (month, s3) :- TakeNumber(s2, 2);
    var s4 :- TakeChar(s3, '-');
    var (day, s5) :- TakeNumber(s4, 2);
    var s6 :- TakeChar(s5, 'T');
    var c :- ParseClock(s6);
    var t := Time(year, month, day, c.hour, c.minute, c.second, c.nano);
    if Valid(t) then Some(t) else None
  }

  lemma {:induction false} NumberOfPadded(n: nat, k: nat)
    requires n < Power(k)
    ensures NumberOf(Padded(n, k)) == n
  {
    if k > 0 {
      NumberOfPadded(n / 10, k - 1);
      assert Padded(n, k)[..k - 1] == Padded(n / 10, k - 1);
    }
  }

  lemma {:induction false} TakePadded(n: nat, k: nat, rest: string)
    requires n < Power(k)
    ensures TakeNumber(Padded(n, k) + rest, k) == Some((n, rest))
  {
    NumberOfPadded(n, k);
    assert (Padded(n, k) + rest)[..k] == Padded(n, k) && (Padded(n, k) + rest)[k..] == rest;
  }

  lemma TakeSeparator(c: char, rest: string)
    ensures TakeChar([c] + rest, c) == Some(rest)
  {
  }

  lemma Scaled(v: nat, k: nat)
    ensures v * Power(k + 1) == 10 * (v * Power(k))
  {
  }

  lemma {:induction false} TrimmedValue(s: string)
    requires AllDigits(s)
    ensures var r := WithoutTrailingZeros(s);
            |r| <= |s| && AllDigits(r) && NumberOf(s) == NumberOf(r) * Power(|s| - |r|)
  {
    ZerosTrimmed(s);
    if s != [] && s[|s| - 1] == '0' {
      var shorter := s[..|s| - 1];
      TrimmedValue(shorter);
      var r := WithoutTrailingZeros(shorter);
      Scaled(NumberOf(r), |shorter| - |r|);
    }
  }

  lemma {:induction false} FractionReadBack(nano: nat)
    requires nano < BILLION
    ensures AllDigits(FractionDigits(nano)) && FractionOf(FractionDigits(nano)) == nano
  {
    Billion();
    NumberOfPadded(nano, 9);
    TrimmedValue(Padded(nano, 9));
  }

  lemma {:induction false} ZoneReadBack(nano: nat)
    requires nano < BILLION
    ensures ParseZone(Zone(nano)) == Some(nano)
  {
    if nano > 0 {
      var x := FractionDigits(nano);
      Billion();
      FractionReadBack(nano);
      PaddedIsPositive(nano, 9);
      DigitRunStops(x, "Z");
      assert Zone(nano)[1..] == x + "Z";
      assert (x + "Z")[..|x|] == x && (x + "Z")[|x|..] == "Z";
    }
  }

  lemma {:induction false} ClockReadBack(t: Time)
    requires Valid(t)
    ensures ParseClock(Clock(t)) == Some(ClockTime(t.hour, t.minute, t.second, t.nano))
  {
    Widths();
    var s5 := Zone(t.nano);
    var s4 := Padded(t.second, 2) + s5;
    var s2 := Padded(t.minute, 2) + ([':'] + s4);
    TakePadded(t.hour, 2, [':'] + s2);
    TakeSeparator(':', s2);
    TakePadded(t.minute, 2, [':'] + s4);
    TakeSeparator(':', s4);
    TakePadded(t.second, 2, s5);
    ZoneReadBack(t.nano);
  }

  /** Parsing undoes formatting. */
  lemma {:induction false} ParseFormat(t: Time)
    requires Valid(t)
    ensures Parse(Format(t)) == Some(t)
  {
    Widths();
    var s6 := Clock(t);
    var s4 := Padded(t.day, 2) + (['T'] + s6);
    var s2 := Padded(t.month, 2) + (['-'] + s4);
    TakePadded(t.year, 4, ['-'] + s2);
    TakeSeparator('-', s2);
    TakePadded(t.month, 2, ['-'] + s4);
    TakeSeparator('-', s4);
    TakePadded(t.day, 2, ['T'] + s6);
    TakeSeparator('T', s6);
    ClockReadBack(t);
  }

  // ---- What can be parsed ----

  lemma {:induction false} PaddedOfNumber(d: string)
    requires AllDigits(d)
    ensures Padded(NumberOf(d), |d|) == d
  {
    if d != [] {
      PaddedOfNumber(d[..|d| - 1]);
      assert d == d[..|d| - 1] + [d[|d| - 1]];
    }
  }

  lemma {:induction false} NumberTaken(s: string, k: nat)
    requires TakeNumber(s, k).Some?
    ensures s == Padded(TakeNumber(s, k).value.0, k) + TakeNumber(s, k).value.1
  {
    PaddedOfNumber(s[..k]);
  }

  lemma CharTaken(s: string, c: char)
    requires TakeChar(s, c).Some?
    ensures s == [c] + TakeChar(s, c).value
  {
  }

  /** What may stand for the fraction and the zone. */
  lemma {:induction false} ZoneIff(z: string, nano: nat)
    ensures ParseZone(z) == Some(nano) <==>
            || (z == "Z" && nano == 0)
            || exists x: string :: x != [] && AllDigits(x) && z == "." + (x + "Z") && nano == FractionOf(x)
  {
    if 2 <= |z| && z[0] == '.' && IsDigit(z[1]) {
      var n := DigitRun(z[1..]);
      if z[1..][n..] == "Z" {
        assert z == "." + (z[1..][..n] + "Z");
      }
    }
    if x: string :| x != [] && AllDigits(x) && z == "." + (x + "Z") && nano == FractionOf(x) {
      DigitRunStops(x, "Z");
      assert z[1..] == x + "Z" && z[1..][|x|..] == "Z" && z[1..][..|x|] == x;
    }
  }

  /** The text of the clock with another end. */
  function ClockWith(c: ClockTime, z: string): string {
    Padded(c.hour, 2) + ([':'] + (Padded(c.minute, 2) + ([':'] + (Padded(c.second, 2) + z))))
  }

  function FormatWith(t: Time, z: string): string {
    Padded(t.year, 4) + (['-'] + (Padded(t.month, 2) + (['-'] + (Padded(t.day, 2) + (['T']
      + ClockWith(ClockTime(t.hour, t.minute, t.second, t.nano), z))))))
  }

  lemma {:induction false} ClockParsed(s: string) returns (z: string)
    requires ParseClock(s).Some?
    ensures s == ClockWith(ParseClock(s).value, z) && ParseZone(z) == Some(ParseClock(s).value.nano)
  {
    NumberTaken(s, 2);
    var s1 := TakeNumber(s, 2).value.1;
    CharTaken(s1, ':');
    var s2 := TakeChar(s1, ':').value;
    NumberTaken(s2, 2);
    var s3 := TakeNumber(s2, 2).value.1;
    CharTaken(s3, ':');
    var s4 := TakeChar(s3, ':').value;
    NumberTaken(s4, 2);
    z := TakeNumber(s4, 2).value.1;
  }

  lemma {:induction false} ParsedForm(s: string) returns (z: string)
    requires Parse(s).Some?
    ensures Valid(Parse(s).value) && s == FormatWith(Parse(s).value, z) && ParseZone(z) == Some(Parse(s).value.nano)
  {
    NumberTaken(s, 4);
    var s1 := TakeNumber(s, 4).value.1;
    CharTaken(s1, '-');
    var s2 := TakeChar(s1, '-').value;
    NumberTaken(s2, 2);
    var s3 := TakeNumber(s2, 2).value.1;
    CharTaken(s3, '-');
    var s4 := TakeChar(s3, '-').value;
    NumberTaken(s4, 2);
    var s5 := TakeNumber(s4, 2).value.1;
    CharTaken(s5, 'T');
    z := ClockParsed(TakeChar(s5, 'T').value);
  }

  /** Whatever can be parsed is the text of its time but for the way its fraction is written. */
  lemma {:induction false} ParsedIsFormatted(s: string)
    requires Parse(s).Some?
    ensures Valid(Parse(s).value) && exists z: string :: s == FormatWith(Parse(s).value, z) && ParseZone(z) == Some(Parse(s).value.nano)
    ensures Format(Parse(s).value) == FormatWith(Parse(s).value, Zone(Parse(s).value.nano))
  {
    var z := ParsedForm(s);
  }
}
