/**
 Stored stamps: `isoformat(timespec="seconds")` of a UTC moment, compared as text by Python and by SQL. The
 calendar is the proleptic Gregorian one of Python's `datetime`.
 */
module Timestamps {
  /** Microseconds since some fixed whole second. */
  type Instant = int

  const SECOND: int := 1_000_000

  /** What a stored stamp keeps of an instant. */
  function Seconds(t: Instant): int { t / SECOND }

  /** The fields of a UTC `datetime`. */
  datatype Moment = Moment(year: nat, month: nat, day: nat, hour: nat, minute: nat, second: nat, micro: nat) {
    predicate Valid() {
      && 1 <= year <= 9999 && 1 <= month <= 12 && 1 <= day <= DaysInMonth(year, month)
      && hour < 24 && minute < 60 && second < 60 && micro < SECOND
    }

    /** Microseconds since the start of year 1. */
    function Instant(): Instant {
      (DayNumber(year, month, day) * 86_400 + hour * 3_600 + minute * 60 + second) * SECOND + micro
    }
  }

  // -- the calendar -------------------------------------------------------------------------------------

  predicate IsLeap(y: nat) { y % 4 == 0 && (y % 100 != 0 || y % 400 == 0) }

  function DaysInMonth(y: nat, m: nat): nat {
    if m == 2 then (if IsLeap(y) then 29 else 28) else if m == 4 || m == 6 || m == 9 || m == 11 then 30 else 31
  }

  function DaysInYear(y: nat): nat { if IsLeap(y) then 366 else 365 }

  /** Days of the years 1 to y - 1. */
  function DaysBeforeYear(y: nat): int
    requires y >= 1
  {
    var p := y - 1;
    p * 365 + p / 4 - p / 100 + p / 400
  }

  function DaysBeforeMonth(y: nat, m: nat): nat
    requires m >= 1
  {
    if m == 1 then 0 else DaysBeforeMonth(y, m - 1) + DaysInMonth(y, m - 1)
  }

  function DayNumber(y: nat, m: nat, d: nat): int {
    if y >= 1 && m >= 1 then DaysBeforeYear(y) + DaysBeforeMonth(y, m) + d else 0
  }

  /** The multiples of 4, of 100 and of 400 up to a year are one more exactly in such a year. */
  lemma MultiplesUpTo(y: nat)
    requires y >= 1
    ensures y / 4 == (y - 1) / 4 + (if y % 4 == 0 then 1 else 0)
    ensures y / 100 == (y - 1) / 100 + (if y % 100 == 0 then 1 else 0)
    ensures y / 400 == (y - 1) / 400 + (if y % 400 == 0 then 1 else 0)
  {
  }

  lemma CenturiesNest(y: nat)
    ensures y % 400 == 0 ==> y % 100 == 0
    ensures y % 100 == 0 ==> y % 4 == 0
  {
    if y % 400 == 0 {
      var k := y / 400;
      assert y == 400 * k && y / 100 == 4 * k;
    }
    if y % 100 == 0 {
      var k := y / 100;
      assert y == 100 * k && y / 4 == 25 * k;
    }
  }

  /** The closed form counts exactly the days of each year. */
  lemma NextYear(y: nat)
    requires y >= 1
    ensures DaysBeforeYear(y + 1) == DaysBeforeYear(y) + DaysInYear(y)
  {
    MultiplesUpTo(y);
    CenturiesNest(y);
  }

  lemma {:induction false} LaterYear(y: nat, z: nat)
    requires 1 <= y < z
    ensures DaysBeforeYear(y) + DaysInYear(y) <= DaysBeforeYear(z)
    decreases z - y
  {
    NextYear(y);
    if y + 1 < z { LaterYear(y + 1, z); }
  }

  lemma {:induction false} LaterMonth(y: nat, m: nat, n: nat)
    requires 1 <= m < n
    ensures DaysBeforeMonth(y, m) + DaysInMonth(y, m) <= DaysBeforeMonth(y, n)
    decreases n - m
  {
    if m + 1 < n { LaterMonth(y, m + 1, n); }
  }

  lemma YearHasItsMonths(y: nat)
    ensures DaysBeforeMonth(y, 13) == DaysInYear(y)
  {
    assert DaysBeforeMonth(y, 2) == 31;
    assert DaysBeforeMonth(y, 3) == 31 + DaysInMonth(y, 2);
    assert DaysBeforeMonth(y, 5) == DaysBeforeMonth(y, 3) + 61;
    assert DaysBeforeMonth(y, 7) == DaysBeforeMonth(y, 5) + 61;
    assert DaysBeforeMonth(y, 9) == DaysBeforeMonth(y, 7) + 62;
    assert DaysBeforeMonth(y, 11) == DaysBeforeMonth(y, 9) + 61;
  }

  predicate EarlierDay(a: Moment, b: Moment) {
    a.year < b.year || (a.year == b.year && (a.month < b.month || (a.month == b.month && a.day < b.day)))
  }

  lemma DayNumberIsOrdered(a: Moment, b: Moment)
    requires a.Valid() && b.Valid() && EarlierDay(a, b)
    ensures DayNumber(a.year, a.month, a.day) < DayNumber(b.year, b.month, b.day)
  {
    if a.year < b.year {
      LaterYear(a.year, b.year);
      LaterMonth(a.year, a.month, 13);
      YearHasItsMonths(a.year);
    } else if a.month < b.month {
      LaterMonth(a.year, a.month, b.month);
    }
  }

  // -- the text -------------------------------------------------------------------------------------------

  function Power(w: nat): nat { if w == 0 then 1 else 10 * Power(w - 1) }

  /** A number printed with leading zeros to a fixed width. */
  function Pad(n: nat, w: nat): (t: string)
    ensures |t| == w
  {
    if w == 0 then "" else Pad(n / 10, w - 1) + [('0' as int + n % 10) as char]
  }

  function IsoDay(m: Moment): string { Pad(m.year, 4) + "-" + (Pad(m.month, 2) + "-" + Pad(m.day, 2)) }

  function IsoTime(m: Moment): string { Pad(m.hour, 2) + ":" + (Pad(m.minute, 2) + ":" + Pad(m.second, 2)) }

  /** `moment.isoformat(timespec="seconds")` */
  function IsoFormat(m: Moment): string { IsoDay(m) + "T" + (IsoTime(m) + "+00:00") }

  /** Days count from the first of January of year 1, as Python's ordinals do. */
  lemma KnownDays()
    ensures DayNumber(1, 1, 1) == 1 && DayNumber(1970, 1, 1) == 719_163 && DayNumber(2000, 2, 29) == 730_179
  {
    assert DaysBeforeMonth(2000, 2) == 31;
  }

  /** The twelve months of any year, and what follows the twenty-eighth of February. */
  lemma KnownMonths(y: nat)
    ensures var days := (m: nat) => DaysInMonth(y, m);
      [days(1), days(3), days(5), days(7), days(8), days(10), days(12)] == [31, 31, 31, 31, 31, 31, 31] &&
      [days(4), days(6), days(9), days(11)] == [30, 30, 30, 30] &&
      days(2) == if y % 400 == 0 || (y % 4 == 0 && y % 100 != 0) then 29 else 28
  {
    CenturiesNest(y);
  }

  /** The text has its fields in this order, padded with zeros. */
  lemma KnownStamp(micro: nat)
    ensures IsoFormat(Moment(2026, 7, 2, 3, 4, 5, micro)) == "2026-07-02T03:04:05+00:00"
  {
    assert Pad(2026, 4) == "2026" by { PadTwo(20); }
    PadTwo(7);
    PadTwo(2);
    PadTwo(3);
    PadTwo(4);
    PadTwo(5);
    assert "2026" + "-" + ("07" + "-" + "02") == "2026-07-02";
    assert "03" + ":" + ("04" + ":" + "05") == "03:04:05";
  }

  lemma PadTwo(n: nat)
    requires n < 100
    ensures Pad(n, 2) == [('0' as int + n / 10) as char, ('0' as int + n % 10) as char]
  {
    assert Pad(n / 10, 1) == Pad(n / 100, 0) + [('0' as int + n / 10) as char];
  }

  /** String comparison in Python and in SQL's binary collation. */
  predicate Less(s: string, t: string) {
    if s == "" || t == "" then s == "" && t != ""
    else s[0] < t[0] || (s[0] == t[0] && Less(s[1..], t[1..]))
  }

  /** The texts agree on their first `k` characters, and then the first one ends or has the smaller character. */
  predicate FirstDifference(s: string, t: string, k: nat) {
    k <= |s| && k < |t| && s[..k] == t[..k] && (k == |s| || s[k] < t[k])
  }

  lemma SameHead(s: string, t: string, k: nat)
    requires s != "" && t != ""
    ensures FirstDifference(s, t, k) && k > 0 ==> s[0] == t[0]
  {
    if FirstDifference(s, t, k) && k > 0 {
      assert s[0] == s[..k][0] && t[0] == t[..k][0];
    }
  }

  /** One text comes before another exactly when it does at the first place where they differ. */
  lemma {:induction false} LessAtFirstDifference(s: string, t: string)
    ensures Less(s, t) <==> exists k :: FirstDifference(s, t, k)
  {
    if s == "" || t == "" {
      assert Less(s, t) ==> FirstDifference(s, t, 0);
    } else {
      LessAtFirstDifference(s[1..], t[1..]);
      if s[0] == t[0] {
        if k: nat :| FirstDifference(s[1..], t[1..], k) {
          assert s[..k + 1] == [s[0]] + s[1..][..k] && t[..k + 1] == [t[0]] + t[1..][..k];
          assert FirstDifference(s, t, k + 1);
        }
        if k: nat :| FirstDifference(s, t, k) {
          assert k > 0;
          assert s[1..][..k - 1] == s[..k][1..] && t[1..][..k - 1] == t[..k][1..];
          assert FirstDifference(s[1..], t[1..], k - 1);
        }
      } else {
        assert s[0] < t[0] ==> FirstDifference(s, t, 0);
        forall k: nat ensures FirstDifference(s, t, k) ==> k == 0 { SameHead(s, t, k); }
      }
    }
  }

  lemma {:induction false} LessPrefix(a: string, x: string, b: string, y: string)
    requires |a| == |b|
    ensures Less(a + x, b + y) <==> Less(a, b) || (a == b && Less(x, y))
    ensures a + x == b + y <==> a == b && x == y
  {
    if a == "" {
      assert a + x == x && b + y == y;
    } else {
      LessPrefix(a[1..], x, b[1..], y);
      assert (a + x)[1..] == a[1..] + x && (b + y)[1..] == b[1..] + y;
      assert a == [a[0]] + a[1..] && b == [b[0]] + b[1..];
    }
  }

  lemma LessBetween(a: string, d: string, x: string, b: string, y: string)
    requires |a| == |b|
    ensures Less(a + d + x, b + d + y) <==> Less(a, b) || (a == b && Less(x, y))
    ensures a + d + x == b + d + y <==> a == b && x == y
  {
    assert a + d + x == a + (d + x) && b + d + y == b + (d + y);
    LessPrefix(a, d + x, b, d + y);
    LessPrefix(d, x, d, y);
    LessIsIrreflexive(d);
  }

  lemma {:induction false} LessIsIrreflexive(s: string)
    ensures !Less(s, s)
  {
    if s != "" { LessIsIrreflexive(s[1..]); }
  }

  lemma {:induction false} PadIsOrdered(m: nat, n: nat, w: nat)
    requires m < Power(w) && n < Power(w)
    ensures Less(Pad(m, w), Pad(n, w)) <==> m < n
    ensures Pad(m, w) == Pad(n, w) <==> m == n
  {
    if w > 0 {
      PadIsOrdered(m / 10, n / 10, w - 1);
      var c, d := ('0' as int + m % 10) as char, ('0' as int + n % 10) as char;
      LessPrefix(Pad(m / 10, w - 1), [c], Pad(n / 10, w - 1), [d]);
    }
  }

  lemma PadsAreOrdered(m: nat, n: nat)
    ensures m < 10_000 && n < 10_000 ==>
      (Less(Pad(m, 4), Pad(n, 4)) <==> m < n) && (Pad(m, 4) == Pad(n, 4) <==> m == n)
    ensures m < 100 && n < 100 ==>
      (Less(Pad(m, 2), Pad(n, 2)) <==> m < n) && (Pad(m, 2) == Pad(n, 2) <==> m == n)
  {
    assert Power(2) == 100 && Power(4) == 100 * Power(2);
    if m < 10_000 && n < 10_000 { PadIsOrdered(m, n, 4); }
    if m < 100 && n < 100 { PadIsOrdered(m, n, 2); }
  }

  lemma IsoDayIsOrdered(a: Moment, b: Moment)
    requires a.Valid() && b.Valid()
    ensures Less(IsoDay(a), IsoDay(b)) <==> EarlierDay(a, b)
    ensures IsoDay(a) == IsoDay(b) <==> a.year == b.year && a.month == b.month && a.day == b.day
  {
    PadsAreOrdered(a.year, b.year);
    PadsAreOrdered(a.month, b.month);
    PadsAreOrdered(a.day, b.day);
    LessBetween(
      Pad(a.year, 4), "-", Pad(a.month, 2) + "-" + Pad(a.day, 2),
      Pad(b.year, 4), Pad(b.month, 2) + "-" + Pad(b.day, 2));
    LessBetween(Pad(a.month, 2), "-", Pad(a.day, 2), Pad(b.month, 2), Pad(b.day, 2));
  }

  predicate EarlierTime(a: Moment, b: Moment) {
    a.hour < b.hour || (a.hour == b.hour && (a.minute < b.minute || (a.minute == b.minute && a.second < b.second)))
  }

  lemma IsoTimeIsOrdered(a: Moment, b: Moment)
    requires a.Valid() && b.Valid()
    ensures Less(IsoTime(a), IsoTime(b)) <==> EarlierTime(a, b)
    ensures IsoTime(a) == IsoTime(b) <==> a.hour == b.hour && a.minute == b.minute && a.second == b.second
  {
    PadsAreOrdered(a.hour, b.hour);
    PadsAreOrdered(a.minute, b.minute);
    PadsAreOrdered(a.second, b.second);
    LessBetween(
      Pad(a.hour, 2), ":", Pad(a.minute, 2) + ":" + Pad(a.second, 2),
      Pad(b.hour, 2), Pad(b.minute, 2) + ":" + Pad(b.second, 2));
    LessBetween(Pad(a.minute, 2), ":", Pad(a.second, 2), Pad(b.minute, 2), Pad(b.second, 2));
  }

  lemma SecondsAreFields(m: Moment)
    requires m.Valid()
    ensures Seconds(m.Instant()) ==
      DayNumber(m.year, m.month, m.day) * 86_400 + m.hour * 3_600 + m.minute * 60 + m.second
  {
  }

  /** Numerically: an earlier day, or the same day and an earlier time. */
  lemma SecondsAreOrdered(a: Moment, b: Moment)
    requires a.Valid() && b.Valid()
    ensures EarlierDay(a, b) ==> Seconds(a.Instant()) < Seconds(b.Instant())
    ensures a.year == b.year && a.month == b.month && a.day == b.day ==>
      (EarlierTime(a, b) <==> Seconds(a.Instant()) < Seconds(b.Instant()))
  {
    SecondsAreFields(a);
    SecondsAreFields(b);
    if EarlierDay(a, b) { DayNumberIsOrdered(a, b); }
  }

  /** For all UTC moments: comparing the stored texts is comparing the moments truncated to seconds. */
  lemma TextOrderIsTimeOrder(a: Moment, b: Moment)
    requires a.Valid() && b.Valid()
    ensures Less(IsoFormat(a), IsoFormat(b)) <==> Seconds(a.Instant()) < Seconds(b.Instant())
    ensures IsoFormat(a) == IsoFormat(b) <==> Seconds(a.Instant()) == Seconds(b.Instant())
  {
    LessBetween(IsoDay(a), "T", IsoTime(a) + "+00:00", IsoDay(b), IsoTime(b) + "+00:00");
    LessPrefix(IsoTime(a), "+00:00", IsoTime(b), "+00:00");
    LessIsIrreflexive("+00:00");
    IsoDayIsOrdered(a, b);
    IsoTimeIsOrdered(a, b);
    SecondsAreOrdered(a, b);
    SecondsAreOrdered(b, a);
  }

  /** `row["expires_at"] <= isoformat(now())`: the test every stored deadline goes through. */
  predicate TextExpired(expiresAt: string, stamp: string) {
    Less(expiresAt, stamp) || expiresAt == stamp
  }

  /** The test is the comparison of whole seconds: never later than the deadline, and less than a second before it. */
  lemma ExpiryTestIsNumeric(deadline: Moment, now: Moment)
    requires deadline.Valid() && now.Valid()
    ensures TextExpired(IsoFormat(deadline), IsoFormat(now)) <==> Seconds(deadline.Instant()) <= Seconds(now.Instant())
    ensures deadline.Instant() <= now.Instant() ==> TextExpired(IsoFormat(deadline), IsoFormat(now))
    ensures TextExpired(IsoFormat(deadline), IsoFormat(now)) ==> deadline.Instant() < now.Instant() + SECOND
  {
    TextOrderIsTimeOrder(deadline, now);
  }
}
