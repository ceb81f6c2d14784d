/**
 * The date helpers and the array rotation of CalendarExtensions.swift.
 *
 * Foundation's `Date` and `Calendar` are modelled with fixed-length days:
 * a date is a whole number of seconds since midnight of Thursday 1 January
 * 1970 in the calendar's own time zone, and there are no daylight-saving
 * shifts. Days are numbered from that midnight, weekdays from 1 (Sunday)
 * to 7 (Saturday), as `Calendar.component(.weekday, from:)` numbers them.
 */
module CalendarExtensions {

  type Date = int

  const SecondsPerDay: int := 86400
  const DaysPerWeek: int := 7

  /** The parts of Foundation's `Calendar` the widget reads. */
  datatype Calendar = Calendar(firstWeekday: int, shortWeekdaySymbols: seq<string>)
  {
    /** Foundation's calendars number the first weekday 1 to 7 and name seven days. */
    predicate Valid() {
      1 <= firstWeekday <= 7 && |shortWeekdaySymbols| == 7
    }
  }

  // ---------------------------------------------------------------------
  // Days and weekdays
  // ---------------------------------------------------------------------

  /** The number of the day a date falls on. */
  function Day(d: Date): int {
    d / SecondsPerDay
  }

  /** Whether a date is the first second (midnight) of its day. */
  predicate IsDayStart(d: Date) {
    d % SecondsPerDay == 0
  }

  /** The midnight that starts day `n`. */
  function Midnight(n: int): (r: Date)
    ensures IsDayStart(r) && Day(r) == n
  {
    n * SecondsPerDay
  }

  /** `calendar.date(byAdding: .day, value: n, to: d)`. */
  function AddingDays(d: Date, n: int): (r: Date)
    ensures Day(r) == Day(d) + n
    ensures IsDayStart(r) <==> IsDayStart(d)
  {
    d + n * SecondsPerDay
  }

  /** `calendar.date(byAdding: .weekOfYear, value: n, to: d)`. */
  function AddingWeeks(d: Date, n: int): (r: Date)
    ensures Day(r) == Day(d) + DaysPerWeek * n
    ensures IsDayStart(r) <==> IsDayStart(d)
  {
    AddingDays(d, DaysPerWeek * n)
  }

  /** `calendar.component(.weekday, from: d)`: 1 is Sunday, 7 is Saturday. */
  function Weekday(d: Date): (w: int)
    ensures 1 <= w <= 7
  {
    (Day(d) + 4) % 7 + 1
  }

  /** The weekday advances by one each day, wrapping from Saturday (7) to Sunday (1), and the
      first day of the count, 1 January 1970, was a Thursday (5). */
  lemma WeekdayProgression(d: Date)
    ensures Weekday(AddingDays(d, 1)) == Weekday(d) % 7 + 1
    ensures Weekday(Midnight(0)) == 5 && Weekday(Midnight(3)) == 1
  {
  }

  /** Two dates have the same weekday exactly when their day numbers differ by whole weeks. */
  lemma {:induction false} SameWeekdayIffWholeWeeks(a: Date, b: Date)
    ensures Weekday(a) == Weekday(b) <==> (Day(a) - Day(b)) % 7 == 0
  {
    var x, y := Day(a) + 4, Day(b) + 4;
    assert x == 7 * (x / 7) + x % 7;
    assert y == 7 * (y / 7) + y % 7;
    assert Day(a) - Day(b) == 7 * (x / 7 - y / 7) + (x % 7 - y % 7);
    ModOfWeeksPlus(x / 7 - y / 7, x % 7 - y % 7);
  }

  /** (7q + s) % 7 is 0 exactly when s is, for -7 < s < 7. */
  lemma ModOfWeeksPlus(q: int, s: int)
    requires -7 < s < 7
    ensures (7 * q + s) % 7 == 0 <==> s == 0
  {
    var n := 7 * q + s;
    if n % 7 == 0 {
      assert 7 * (n / 7 - q) == s;
    }
  }

  // ---------------------------------------------------------------------
  // startOfDay, endOfDay, isLater, dateOnly
  // ---------------------------------------------------------------------

  /** `Date.startOfDay`: midnight of the date's day. */
  function StartOfDay(d: Date): (r: Date)
    ensures IsDayStart(r) && r <= d < r + SecondsPerDay
  {
    d - d % SecondsPerDay
  }

  /** `Date.endOfDay`: one day after the start of the day, less one second. */
  function EndOfDay(d: Date): (r: Date)
    ensures Day(r) == Day(d) && IsDayStart(r + 1)
  {
    StartOfDay(d) + SecondsPerDay - 1
  }

  /** A day starts no later than the date and ends no earlier; both ends are fixed points. */
  lemma DayBoundsAndIdempotence(d: Date)
    ensures StartOfDay(d) <= d <= EndOfDay(d)
    ensures StartOfDay(StartOfDay(d)) == StartOfDay(d)
    ensures EndOfDay(EndOfDay(d)) == EndOfDay(d)
    ensures StartOfDay(d) == Midnight(Day(d))
  {
  }

  /** Comparing end-of-day values compares day numbers: the comparison is day-granular. */
  lemma EndOfDayOrder(a: Date, b: Date)
    ensures EndOfDay(a) <= EndOfDay(b) <==> Day(a) <= Day(b)
    ensures EndOfDay(a) < EndOfDay(b) <==> Day(a) < Day(b)
  {
    DayBoundsAndIdempotence(a);
    DayBoundsAndIdempotence(b);
  }

  /** `Date.isLater(than:)`. */
  predicate IsLater(d: Date, than: Date): (r: bool)
    ensures r <==> EarlierDate(than, d) == than && d != than
  {
    d > than
  }

  /** `isLater(than:)` is the strict order on instants: a date is later exactly when it is not
      the earlier of the two and differs from the other; of two distinct dates exactly one is
      later. */
  lemma IsLaterAgreesWithEarlierDate(d: Date, other: Date)
    ensures IsLater(d, other) <==> EarlierDate(other, d) == other && d != other
    ensures d != other ==> (IsLater(d, other) <==> !IsLater(other, d))
    ensures !IsLater(d, d)
  {
  }

  /** `Date.dateOnly(calendar:)`: the date rebuilt from its year, month and day alone. */
  function DateOnly(d: Date, calendar: Calendar): (r: Date)
    ensures IsDayStart(r) && Day(r) == Day(d)
  {
    Midnight(Day(d))
  }

  /** Normalising twice is normalising once, and the normal form is the start of the day. */
  lemma DateOnlyIsStartOfDay(d: Date, calendar: Calendar)
    ensures DateOnly(DateOnly(d, calendar), calendar) == DateOnly(d, calendar)
    ensures DateOnly(d, calendar) == StartOfDay(d)
  {
    DayBoundsAndIdempotence(d);
  }

  // ---------------------------------------------------------------------
  // earlierDate and days(from:)
  // ---------------------------------------------------------------------

  /** `Date.earlierDate(_:)`: the earlier of two dates, the receiver on a tie. */
  function EarlierDate(d: Date, other: Date): (r: Date)
    ensures r <= d && r <= other
    ensures r == d || r == other
    ensures d <= other ==> r == d
  {
    if d <= other then d else other
  }

  /** `calendar.dateComponents([.day], from: earliest, to: latest).day`: whole days elapsed. */
  function WholeDays(earliest: Date, latest: Date): (r: int)
    requires earliest <= latest
    ensures 0 <= r
    ensures r * SecondsPerDay <= latest - earliest < (r + 1) * SecondsPerDay
  {
    (latest - earliest) / SecondsPerDay
  }

  /** `Date.days(from:calendar:)`: the signed number of whole days from `from` to `d`. */
  function Days(d: Date, from: Date): (r: int)
    ensures r > 0 ==> IsLater(d, from)
    ensures r < 0 ==> IsLater(from, d)
    ensures d >= from ==> r * SecondsPerDay <= d - from < (r + 1) * SecondsPerDay
    ensures d < from ==> -r * SecondsPerDay <= from - d < (-r + 1) * SecondsPerDay
  {
    var earliest := EarlierDate(d, from);
    var latest := if earliest == d then from else d;
    var multiplier := if earliest == d then -1 else 1;
    multiplier * WholeDays(earliest, latest)
  }

  /** Swapping the operands negates the day count. */
  lemma DaysAntisymmetric(a: Date, b: Date)
    ensures Days(a, b) == -Days(b, a)
    ensures a == b ==> Days(a, b) == 0
  {
  }

  /** Between two midnights the day count is the difference of day numbers, positive exactly
      when the first is later. */
  lemma DaysBetweenDayStarts(a: Date, b: Date)
    requires IsDayStart(a) && IsDayStart(b)
    ensures Days(a, b) == Day(a) - Day(b)
    ensures Days(a, b) > 0 <==> IsLater(a, b)
  {
    assert a == Day(a) * SecondsPerDay;
    assert b == Day(b) * SecondsPerDay;
    if a >= b {
      assert Days(a, b) == (Day(a) - Day(b)) * SecondsPerDay / SecondsPerDay;
    } else {
      assert Days(b, a) == (Day(b) - Day(a)) * SecondsPerDay / SecondsPerDay;
      DaysAntisymmetric(a, b);
    }
  }

  // ---------------------------------------------------------------------
  // beginningOfWeek and endOfWeek
  // ---------------------------------------------------------------------

  /** Whether a date is the midnight of a day whose weekday is the calendar's first. */
  predicate IsWeekStart(calendar: Calendar, d: Date) {
    IsDayStart(d) && Weekday(d) == calendar.firstWeekday
  }

  /** How many days of its week (as the calendar begins weeks) precede the date's day. */
  function WeekOffset(calendar: Calendar, d: Date): (r: int)
    ensures 0 <= r < 7
  {
    (Weekday(d) - calendar.firstWeekday) % 7
  }

  /** The midnight, in the week of `d`, of the day numbered `weekday`; a number past 7
      continues into the following days of the same week. */
  function DateInWeek(calendar: Calendar, d: Date, weekday: int): (r: Date)
    requires calendar.Valid()
    ensures IsDayStart(r)
    ensures Day(d) - WeekOffset(calendar, d) <= Day(r) < Day(d) - WeekOffset(calendar, d) + 7
    ensures Weekday(r) == (weekday - 1) % 7 + 1
  {
    var start := Day(d) - WeekOffset(calendar, d);
    var r := Midnight(start + (weekday - calendar.firstWeekday) % 7);
    assert Weekday(r) == (weekday - 1) % 7 + 1 by {
      var x := Day(d) + 4;
      assert Weekday(d) == x % 7 + 1;
      WeekdayAfterOffset(x, calendar.firstWeekday);
      WeekdayOfOffset(x - WeekOffset(calendar, d), calendar.firstWeekday, weekday);
    }
    r
  }

  /** From a day whose weekday is `first`, stepping forward to the day numbered `weekday`
      (wrapped into 1...7) lands on weekday `weekday`. */
  lemma WeekdayOfOffset(y: int, first: int, weekday: int)
    requires 1 <= first <= 7 && y % 7 == first - 1
    ensures (y + (weekday - first) % 7) % 7 == (weekday - 1) % 7
  {
    var m := (weekday - first) % 7;
    var p := (weekday - first) / 7;
    assert weekday - first == 7 * p + m;
    var q := y / 7;
    assert y == 7 * q + (first - 1);
    var w := (weekday - 1) / 7;
    assert weekday - 1 == 7 * w + (weekday - 1) % 7;
    assert y + m == 7 * (q - p + w) + (weekday - 1) % 7;
    DivModUnique(y + m, 7, q - p + w, (weekday - 1) % 7);
  }

  /** `Date.beginningOfWeek(with:)`: midnight of the first day of the date's week. */
  function BeginningOfWeek(calendar: Calendar, d: Date): (r: Date)
    requires calendar.Valid()
    ensures IsWeekStart(calendar, r)
    ensures r <= d < AddingWeeks(r, 1)
  {
    var r := DateInWeek(calendar, d, calendar.firstWeekday);
    assert Day(r) == Day(d) - WeekOffset(calendar, d);
    assert Weekday(r) == calendar.firstWeekday by {
      SameWeekdayIffWholeWeeks(r, d);
      var x := Day(d) + 4;
      assert Weekday(d) == x % 7 + 1;
      assert Weekday(r) == (x - WeekOffset(calendar, d)) % 7 + 1;
      WeekdayAfterOffset(x, calendar.firstWeekday);
    }
    r
  }

  /** Stepping back from day x to the last day numbered `first` lands on weekday `first`. */
  lemma WeekdayAfterOffset(x: int, first: int)
    requires 1 <= first <= 7
    ensures (x - (x % 7 + 1 - first) % 7) % 7 + 1 == first
  {
    var m := x % 7;
    var off := (m + 1 - first) % 7;
    assert x == 7 * (x / 7) + m;
    if m + 1 - first >= 0 {
      assert off == m + 1 - first;
      assert x - off == 7 * (x / 7) + (first - 1);
    } else {
      assert off == m + 1 - first + 7;
      assert x - off == 7 * (x / 7 - 1) + (first - 1);
    }
  }

  /** The beginning of the week is the only week start within the seven days up to the date. */
  lemma {:induction false} BeginningOfWeekUnique(calendar: Calendar, d: Date, w: Date)
    requires calendar.Valid()
    requires IsWeekStart(calendar, w) && w <= d < AddingWeeks(w, 1)
    ensures w == BeginningOfWeek(calendar, d)
  {
    var b := BeginningOfWeek(calendar, d);
    SameWeekdayIffWholeWeeks(w, b);
    assert (Day(w) - Day(b)) % 7 == 0;
    assert Day(d) - 7 < Day(w) <= Day(d);
    assert Day(d) - 7 < Day(b) <= Day(d);
    if Day(w) != Day(b) {
      ModOfWeeksPlus(0, Day(w) - Day(b));
    }
    assert w == Midnight(Day(w)) && b == Midnight(Day(b));
  }

  /** Measured from any week start, the day count to `d` modulo seven is the offset of `d` in
      its own week. */
  lemma {:induction false} OffsetFromAnyWeekStart(calendar: Calendar, w: Date, d: Date)
    requires calendar.Valid() && IsWeekStart(calendar, w)
    ensures (Day(d) - Day(w)) % 7 == Day(d) - Day(BeginningOfWeek(calendar, d))
  {
    var b := BeginningOfWeek(calendar, d);
    SameWeekdayIffWholeWeeks(w, b);
    var k := (Day(b) - Day(w)) / 7;
    assert Day(b) - Day(w) == 7 * k;
    DivModUnique(Day(d) - Day(w), 7, k, Day(d) - Day(b));
  }

  /** The week of a date depends only on its day. */
  lemma SameDaySameWeek(calendar: Calendar, a: Date, b: Date)
    requires calendar.Valid() && Day(a) == Day(b)
    ensures BeginningOfWeek(calendar, a) == BeginningOfWeek(calendar, b)
  {
  }

  /** `Date.endOfWeek(with:)`: midnight of the day numbered `firstWeekday + 6` in the date's week. */
  function EndOfWeek(calendar: Calendar, d: Date): (r: Date)
    requires calendar.Valid()
    ensures IsDayStart(r)
    ensures Day(r) == Day(BeginningOfWeek(calendar, d)) + 6
    ensures Weekday(r) == (calendar.firstWeekday + 5) % 7 + 1
    ensures BeginningOfWeek(calendar, r) == BeginningOfWeek(calendar, d)
  {
    var r := DateInWeek(calendar, d, calendar.firstWeekday + 6);
    var b := BeginningOfWeek(calendar, d);
    assert Day(r) == Day(b) + 6;
    assert r == AddingDays(b, 6);
    BeginningOfWeekUnique(calendar, r, b);
    assert Weekday(r) == (Day(b) + 6 + 4) % 7 + 1;
    WeekdayAfterOffset(Day(b) + 4 + 6 - 6, calendar.firstWeekday);
    r
  }

  // ---------------------------------------------------------------------
  // Array.shift
  // ---------------------------------------------------------------------

  /** The value `Array.shift(_:)` leaves: out-of-range amounts change nothing; otherwise a
      negative amount is taken from the end and the array is rotated left by that much. */
  function Shifted<T>(s: seq<T>, amount: int): (r: seq<T>)
    ensures |r| == |s|
  {
    if !(-|s| <= amount <= |s|) then s
    else
      var k := if amount < 0 then amount + |s| else amount;
      s[k..] + s[..k]
  }

  /** `Array.shift(_:)` on an array, in place. */
  method Shift<T>(a: array<T>, amount: int)
    modifies a
    ensures a[..] == Shifted(old(a[..]), amount)
  {
    var count := a.Length;
    if !(-count <= amount <= count) {
      return;
    }
    var k := amount;
    if k < 0 {
      k := k + count;
    }
    var rotated := a[k..] + a[..k];
    var i := 0;
    while i < count
      invariant 0 <= i <= count
      invariant a[..i] == rotated[..i]
      invariant a[i..] == old(a[i..])
    {
      a[i] := rotated[i];
      i := i + 1;
      assert a[..i] == a[..i - 1] + [rotated[i - 1]];
    }
    assert a[..] == a[..count];
  }

  /** An amount outside `-count...count` leaves the elements as they are. */
  lemma ShiftedOutOfRange<T>(s: seq<T>, amount: int)
    requires amount < -|s| || |s| < amount
    ensures Shifted(s, amount) == s
  {
  }

  /** The quotient and remainder of floored division are the only ones with
      0 <= remainder < divisor. */
  lemma DivModUnique(y: int, d: int, q: int, r: int)
    requires d > 0 && 0 <= r < d && y == d * q + r
    ensures y / d == q && y % d == r
  {
    var q0, r0 := y / d, y % d;
    assert y == d * q0 + r0;
    assert d * (q - q0) == r0 - r;
    if q > q0 {
      MulAtLeast(d, q - q0);
    } else if q < q0 {
      MulAtLeast(d, q0 - q);
    }
  }

  /** A positive number times a positive count is at least the number. */
  lemma {:induction false} MulAtLeast(d: int, k: int)
    requires d > 0 && k >= 1
    ensures d * k >= d
  {
    if k > 1 {
      MulAtLeast(d, k - 1);
      assert d * k == d * (k - 1) + d;
    }
  }

  /** Shifting by an amount in `0...count` rotates left: element i comes from i + amount. */
  lemma {:induction false} ShiftedAt<T>(s: seq<T>, amount: int, i: int)
    requires 0 <= amount <= |s| && 0 <= i < |s|
    ensures Shifted(s, amount)[i] == s[(i + amount) % |s|]
  {
    var r := Shifted(s, amount);
    assert r == s[amount..] + s[..amount];
    if i < |s| - amount {
      assert r[i] == s[i + amount];
      DivModUnique(i + amount, |s|, 0, i + amount);
    } else {
      assert r[i] == s[i - (|s| - amount)];
      DivModUnique(i + amount, |s|, 1, i + amount - |s|);
    }
  }

  /** A shift permutes: the elements and their multiplicities are kept. */
  lemma ShiftedIsPermutation<T>(s: seq<T>, amount: int)
    ensures multiset(Shifted(s, amount)) == multiset(s)
  {
    if -|s| <= amount <= |s| {
      var k := if amount < 0 then amount + |s| else amount;
      assert s == s[..k] + s[k..];
    }
  }

  /** A negative amount is the same shift as that amount plus the length. */
  lemma ShiftedNegative<T>(s: seq<T>, amount: int)
    requires -|s| <= amount < 0
    ensures Shifted(s, amount) == Shifted(s, amount + |s|)
  {
  }

  /** Shifting by 0 or by the length changes nothing. */
  lemma ShiftedIdentity<T>(s: seq<T>)
    ensures Shifted(s, 0) == s && Shifted(s, |s|) == s
  {
    assert s[|s|..] + s[..|s|] == s;
    assert s[0..] + s[..0] == s;
  }
}
