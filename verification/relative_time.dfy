/**
 * `formatRelativeTime` of `src/components/quote-history.tsx`: how long ago a
 * timestamp was, in whole minutes, hours or days, falling back to a calendar
 * date after thirty days. Times are integer milliseconds; the clock reading
 * and the locale's date text are parameters.
 */
module RelativeTime {
  import opened Types

  const MsPerMinute: int := 60000
  const MsPerHour: int := 3600000
  /** Thirty days: the age from which the calendar date is shown instead. */
  const MsPerThirtyDays: int := 2592000000

  /** The bucket an age falls in, with its whole count of units. */
  datatype Ago =
    | JustNow
    | MinutesAgo(minutes: int)
    | HoursAgo(hours: int)
    | DaysAgo(days: int)
    | CalendarDate(timestamp: int)

  /**
   * Successive floors: whole minutes, whole hours of those minutes, whole days
   * of those hours, then the first bucket that fits. A timestamp in the future
   * counts as just now.
   */
  function FormatRelativeTime(createdAt: int, now: int): (r: Ago)
    ensures r == JustNow <==> now - createdAt < MsPerMinute
    ensures r.MinutesAgo? <==> MsPerMinute <= now - createdAt < MsPerHour
    ensures r.HoursAgo? <==> MsPerHour <= now - createdAt < MsPerDay
    ensures r.DaysAgo? <==> MsPerDay <= now - createdAt < MsPerThirtyDays
    ensures r.CalendarDate? <==> MsPerThirtyDays <= now - createdAt
    ensures r.MinutesAgo? ==> r.minutes == (now - createdAt) / MsPerMinute && 1 <= r.minutes <= 59
    ensures r.HoursAgo? ==> r.hours == (now - createdAt) / MsPerHour && 1 <= r.hours <= 23
    ensures r.DaysAgo? ==> r.days == (now - createdAt) / MsPerDay && 1 <= r.days <= 29
    ensures r.CalendarDate? ==> r.timestamp == createdAt
  {
    var diff := now - createdAt;
    var minutes := diff / 60000;
    var hours := minutes / 60;
    var days := hours / 24;
    NestedFloors(diff);
    if minutes < 1 then JustNow
    else if minutes < 60 then MinutesAgo(minutes)
    else if hours < 24 then HoursAgo(hours)
    else if days < 30 then DaysAgo(days)
    else CalendarDate(createdAt)
  }

  /** Whole hours and whole days of a millisecond age, by successive floors. */
  lemma NestedFloors(diff: int)
    ensures diff / MsPerMinute / 60 == diff / MsPerHour
    ensures diff / MsPerMinute / 60 / 24 == diff / MsPerDay
  {
  }

  /** The order of the buckets, from the most recent to the oldest. */
  function BucketRank(a: Ago): int {
    match a
    case JustNow => 0
    case MinutesAgo(_) => 1
    case HoursAgo(_) => 2
    case DaysAgo(_) => 3
    case CalendarDate(_) => 4
  }

  /** An older timestamp never lands in a more recent bucket, nor with a smaller count in the same one. */
  lemma OlderNeverLooksNewer(older: int, newer: int, now: int)
    requires older <= newer
    ensures BucketRank(FormatRelativeTime(newer, now)) <= BucketRank(FormatRelativeTime(older, now))
    ensures var a, b := FormatRelativeTime(older, now), FormatRelativeTime(newer, now);
      && (a.MinutesAgo? && b.MinutesAgo? ==> b.minutes <= a.minutes)
      && (a.HoursAgo? && b.HoursAgo? ==> b.hours <= a.hours)
      && (a.DaysAgo? && b.DaysAgo? ==> b.days <= a.days)
  {
    var d1, d2 := now - older, now - newer;
    assert d2 / MsPerMinute <= d1 / MsPerMinute;
    assert d2 / MsPerHour <= d1 / MsPerHour;
    assert d2 / MsPerDay <= d1 / MsPerDay;
  }

  // ---------------------------------------------------------------- text

  /** The digit character for 0 to 9. */
  function DigitChar(d: int): char
    requires 0 <= d < 10
  {
    "0123456789"[d]
  }

  predicate IsDigit(c: char) {
    '0' <= c <= '9'
  }

  /** The decimal spelling of `n`, as template-literal interpolation writes it. */
  function DecimalString(n: nat): (s: string)
    ensures |s| >= 1
    ensures forall i :: 0 <= i < |s| ==> IsDigit(s[i])
    ensures n > 0 ==> s[0] != '0'
    decreases n
  {
    if n < 10 then [DigitChar(n)]
    else DecimalString(n / 10) + [DigitChar(n % 10)]
  }

  function DigitValue(c: char): int
    requires IsDigit(c)
  {
    c as int - '0' as int
  }

  /** The number a string of decimal digits spells. */
  function DecimalValue(s: string): int
    requires forall i :: 0 <= i < |s| ==> IsDigit(s[i])
  {
    if |s| == 0 then 0
    else DecimalValue(s[..|s| - 1]) * 10 + DigitValue(s[|s| - 1])
  }

  /** Reading the digits back gives the number: the spelling loses nothing. */
  lemma {:induction false} DecimalRoundTrip(n: nat)
    ensures DecimalValue(DecimalString(n)) == n
    decreases n
  {
    var s := DecimalString(n);
    if n >= 10 {
      DecimalRoundTrip(n / 10);
      assert s[..|s| - 1] == DecimalString(n / 10);
      assert s[|s| - 1] == DigitChar(n % 10);
    }
  }

  /**
   * The text shown. `calendarDate` stands for the locale's date string, which
   * the browser supplies.
   */
  function Text(a: Ago, calendarDate: string): string
    requires !a.MinutesAgo? || a.minutes >= 0
    requires !a.HoursAgo? || a.hours >= 0
    requires !a.DaysAgo? || a.days >= 0
  {
    match a
    case JustNow => "Just now"
    case MinutesAgo(m) => DecimalString(m) + "m ago"
    case HoursAgo(h) => DecimalString(h) + "h ago"
    case DaysAgo(d) => DecimalString(d) + "d ago"
    case CalendarDate(_) => calendarDate
  }

  /** The shown text for a timestamp. */
  function RelativeText(createdAt: int, now: int, calendarDate: string): (t: string)
    ensures now - createdAt < MsPerMinute ==> t == "Just now"
    ensures MsPerThirtyDays <= now - createdAt ==> t == calendarDate
  {
    Text(FormatRelativeTime(createdAt, now), calendarDate)
  }

  /** The count in "Nm ago", "Nh ago" or "Nd ago" reads back as the whole number of units elapsed. */
  lemma TextStatesElapsedUnits(createdAt: int, now: int, calendarDate: string)
    requires MsPerMinute <= now - createdAt < MsPerThirtyDays
    ensures var t := RelativeText(createdAt, now, calendarDate);
      var digits := t[..|t| - 5];
      && |t| > 5
      && (forall i :: 0 <= i < |digits| ==> IsDigit(digits[i]))
      && DecimalValue(digits) ==
        (if now - createdAt < MsPerHour then (now - createdAt) / MsPerMinute
         else if now - createdAt < MsPerDay then (now - createdAt) / MsPerHour
         else (now - createdAt) / MsPerDay)
      && t[|t| - 5..] ==
        (if now - createdAt < MsPerHour then "m ago"
         else if now - createdAt < MsPerDay then "h ago"
         else "d ago")
  {
    var a := FormatRelativeTime(createdAt, now);
    var t := RelativeText(createdAt, now, calendarDate);
    var n: nat := if a.MinutesAgo? then a.minutes else if a.HoursAgo? then a.hours else a.days;
    var unit := if a.MinutesAgo? then "m ago" else if a.HoursAgo? then "h ago" else "d ago";
    assert t == DecimalString(n) + unit;
    assert t[..|t| - 5] == DecimalString(n);
    DecimalRoundTrip(n);
  }
}
