/** Instants in nanoseconds since the Unix epoch, and the Beijing calendar at a fixed +8 hours. */
module Clock {

  const SECOND: int := 1_000_000_000
  const MINUTE: int := 60_000_000_000
  const HOUR: int := 3_600_000_000_000
  const DAY: int := 86_400_000_000_000
  const RETENTION_DAYS: int := 7
  const MAX_OFFSET_SECONDS: int := 3600

  function Hours(n: nat): int {
    n * 3_600_000_000_000
  }

  /** The Beijing date, counted in days; the date strings of the code sort in the same order. */
  function BeijingDate(t: int): int {
    (t + 8 * HOUR) / DAY
  }

  /** Beijing midnight at the start of a date. */
  function DayStart(date: int): int {
    date * DAY - 8 * HOUR
  }

  function BeijingHour(t: int): int {
    (t + 8 * HOUR) % DAY / HOUR
  }

  /** The minute of the Beijing day. */
  function MinuteOfDay(t: int): int {
    (t + 28_800_000_000_000) % 86_400_000_000_000 / 60_000_000_000
  }

  /** So many minutes after the start of a date the Beijing clock shows just that minute, at its full beginning. */
  lemma ClockShows(date: int, minutes: nat)
    requires minutes < 1440
    ensures var t := DayStart(date) + minutes * MINUTE;
            && BeijingDate(t) == date && MinuteOfDay(t) == minutes && BeijingHour(t) == minutes / 60
            && t % 60_000_000_000 == 0
  {
    var t := DayStart(date) + minutes * MINUTE;
    assert t + 8 * HOUR == date * DAY + minutes * MINUTE;
    assert (t + 8 * HOUR) % DAY == minutes * MINUTE;
  }

  /** Between two such instants of one date the clock shows a minute between them. */
  lemma ClockBetween(date: int, first: nat, end: nat, t: int)
    requires first < end < 1440 && DayStart(date) + first * MINUTE <= t < DayStart(date) + end * MINUTE
    ensures BeijingDate(t) == date && first <= MinuteOfDay(t) < end
  {
    var r := t + 8 * HOUR - date * DAY;
    assert (t + 8 * HOUR) % DAY == r;
  }

  /** time.Truncate(24h) counts from an instant that is a UTC midnight, so it floors to UTC midnight. */
  function UtcMidnight(t: int): int {
    t / DAY * DAY
  }

  lemma DateBounds(t: int)
    ensures DayStart(BeijingDate(t)) <= t < DayStart(BeijingDate(t) + 1)
    ensures DayStart(BeijingDate(t) + 1) == DayStart(BeijingDate(t)) + DAY
  {}

  lemma DateOf(t: int, date: int)
    requires DayStart(date) <= t < DayStart(date) + DAY
    ensures BeijingDate(t) == date
  {}

  lemma DateIsMonotone(t: int, u: int)
    requires t <= u
    ensures BeijingDate(t) <= BeijingDate(u)
  {}

  // ----- postponing a check-in -----

  /** The guard of the code: next day already, or not before the UTC midnight that ends today. */
  predicate SkipsForToday(now: int) {
    var next := now + HOUR;
    BeijingDate(next) != BeijingDate(now) || next - UtcMidnight(now + DAY) >= 0
  }

  /**
   The comment promises retries until Beijing midnight, but the second half of the guard compares with
   a UTC midnight: the plan is given up exactly in the Beijing hours 23 and 7.
   */
  lemma SkipsExactlyAt23And7(now: int)
    ensures SkipsForToday(now) <==> BeijingHour(now) == 23 || BeijingHour(now) == 7
  {
    var d := (now + 8 * HOUR) / DAY;
    var r := (now + 8 * HOUR) % DAY;
    assert now + 8 * HOUR == d * DAY + r;
    assert (now + HOUR + 8 * HOUR) / DAY == if r + HOUR < DAY then d else d + 1;
    if r < 8 * HOUR {
      assert (now + DAY) / DAY == d by { assert now + DAY == d * DAY + (r + 16 * HOUR); }
    } else {
      assert (now + DAY) / DAY == d + 1 by { assert now + DAY == (d + 1) * DAY + (r - 8 * HOUR); }
    }
  }

  /** A postponement that is made lands one hour later on the Beijing date of the decision. */
  lemma PostponedStaysOnTheDay(now: int)
    requires !SkipsForToday(now)
    ensures BeijingDate(now + HOUR) == BeijingDate(now)
  {}

  /** From 7 o'clock on and not in the hour of 7 means from 8 o'clock on. */
  lemma PastSeven(t: int, date: int)
    requires DayStart(date) + Hours(7) <= t && BeijingHour(t) != 7
    ensures DayStart(date) + Hours(8) <= t
  {}
}
