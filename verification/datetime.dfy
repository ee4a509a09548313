// Time points in nanoseconds since the epoch, as the system clock counts them, and their
// millisecond timestamps.
module DateTime {
  const NS_PER_MS := 1_000_000
  const NS_PER_SECOND := 1_000_000_000
  const SECONDS_PER_DAY := 86_400
  const NS_PER_DAY := SECONDS_PER_DAY * NS_PER_SECOND

  const INT64_MIN := -0x8000_0000_0000_0000
  const INT64_MAX := 0x7FFF_FFFF_FFFF_FFFF
  const TIMESTAMP_LIMIT := 9_223_372_036_854

  predicate Int64(n: int) { INT64_MIN <= n <= INT64_MAX }

  type Ticks = n: int | Int64(n)  // a 64-bit count

  // Two's complement: what is left of n in 64 bits.
  function Wrap64(n: int): int { (n - INT64_MIN) % 0x1_0000_0000_0000_0000 + INT64_MIN }

  // A duration cast truncates toward zero.
  function ToTimestamp(t: int): int {
    if t >= 0 then t / NS_PER_MS else -((-t) / NS_PER_MS)
  }

  function FromTimestamp(m: int): Ticks { Wrap64(m * NS_PER_MS) }

  function Abs(n: int): nat { if n < 0 then -n else n }

  predicate InRange(m: int) { -TIMESTAMP_LIMIT <= m <= TIMESTAMP_LIMIT }

  lemma NoWrap(m: int)
    requires InRange(m)
    ensures FromTimestamp(m) == m * NS_PER_MS && Int64(FromTimestamp(m))
  {
    var n := m * NS_PER_MS;
    assert 0 <= n - INT64_MIN < 0x1_0000_0000_0000_0000;
  }

  // Saving a time point loses less than a millisecond, toward the epoch, and nothing overflows.
  lemma SaveAndRestore(t: int)
    requires Int64(t)
    ensures InRange(ToTimestamp(t))
    ensures var u := FromTimestamp(ToTimestamp(t));
      && Abs(u) <= Abs(t) && Abs(t - u) < NS_PER_MS && (u > 0 ==> t > 0) && (u < 0 ==> t < 0)
  {
    NoWrap(ToTimestamp(t));
  }

  // A restored timestamp is saved as itself.
  lemma RestoreAndSave(m: int)
    requires InRange(m)
    ensures ToTimestamp(FromTimestamp(m)) == m
  {
    NoWrap(m);
  }

  // The range is exact: the next timestamp up or down does not survive the way back.
  lemma RangeIsTight()
    ensures !Int64((TIMESTAMP_LIMIT + 1) * NS_PER_MS) && FromTimestamp(TIMESTAMP_LIMIT + 1) < 0
    ensures !Int64(-(TIMESTAMP_LIMIT + 1) * NS_PER_MS) && FromTimestamp(-(TIMESTAMP_LIMIT + 1)) > 0
  {
    assert Wrap64((TIMESTAMP_LIMIT + 1) * NS_PER_MS) == (TIMESTAMP_LIMIT + 1) * NS_PER_MS - 0x1_0000_0000_0000_0000;
    assert Wrap64(-(TIMESTAMP_LIMIT + 1) * NS_PER_MS) == -(TIMESTAMP_LIMIT + 1) * NS_PER_MS + 0x1_0000_0000_0000_0000;
  }

  // ---- The first expiry of a daily task ----

  // The UTC date of `now`, as the time point at its midnight.
  function Midnight(now: int): int { now / NS_PER_DAY * NS_PER_DAY }

  // The time of day, in a zone `offset` seconds ahead of UTC, on the UTC date of now.
  function ParseTime(now: int, timeOfDay: int, offset: int): int {
    Midnight(now) + (timeOfDay - offset) * NS_PER_SECOND
  }

  function FirstExpiry(now: int, timeOfDay: int, offset: int, days: int): int {
    var t := ParseTime(now, timeOfDay, offset);
    if now > t then t + days * NS_PER_DAY else t
  }

  function Max(a: int, b: int): int { if a < b then b else a }

  // The first expiry misses the wanted window [now, now + days) by less than the offset: it can
  // be early in zones east of UTC and late in zones west of it.
  lemma FirstExpiryWindow(now: int, timeOfDay: int, offset: int, days: int)
    requires 0 <= timeOfDay < SECONDS_PER_DAY && 1 <= days
    ensures var e := FirstExpiry(now, timeOfDay, offset, days);
      && now - Max(0, offset) * NS_PER_SECOND <= e < now + days * NS_PER_DAY + Max(0, -offset) * NS_PER_SECOND
      && (offset > 0 ==> now - offset * NS_PER_SECOND < e)
      && (e - timeOfDay * NS_PER_SECOND + offset * NS_PER_SECOND) % NS_PER_DAY == 0
  {
    var base := Midnight(now);
    assert base <= now < base + NS_PER_DAY;
    var e := FirstExpiry(now, timeOfDay, offset, days);
    var k := if now > ParseTime(now, timeOfDay, offset) then now / NS_PER_DAY + days else now / NS_PER_DAY;
    assert e - timeOfDay * NS_PER_SECOND + offset * NS_PER_SECOND == k * NS_PER_DAY;
  }

  // How long it is until then: what is missing to the wanted time on the UTC day or, when that has
  // passed, the wanted number of days from it, not just to the next day.
  lemma FirstExpiryWait(now: int, timeOfDay: int, offset: int, days: int)
    requires 0 <= timeOfDay < SECONDS_PER_DAY && 1 <= days
    ensures var missing := (timeOfDay - offset) * 1_000_000_000 - now % 86_400_000_000_000;
      FirstExpiry(now, timeOfDay, offset, days) - now ==
        if missing < 0 then missing + days * 86_400_000_000_000 else missing
  {
    assert now == Midnight(now) + now % NS_PER_DAY;
  }

  // Nine o'clock UTC every third day, set up at ten on the first: nine o'clock on the fourth.
  lemma FirstExpiryOnTheFourth()
    ensures FirstExpiry(36_000_000_000_000, 32_400, 0, 3) == 3 * 86_400_000_000_000 + 32_400_000_000_000
  {
  }

  // It lies in the past, so that the task fires at once, exactly when so much of the UTC day has
  // passed that the zone is already days ahead of the wanted time.
  lemma FirstExpiryStale(now: int, timeOfDay: int, offset: int, days: int)
    requires 0 <= timeOfDay < SECONDS_PER_DAY && 1 <= days
    ensures FirstExpiry(now, timeOfDay, offset, days) < now <==>
      now % NS_PER_DAY > (timeOfDay - offset) * NS_PER_SECOND + days * NS_PER_DAY
  {
    assert now == Midnight(now) + now % NS_PER_DAY;
  }

  // It lies days ahead or more, so that a first run is missed, exactly when what is left of the
  // UTC day does not reach the wanted time in the zone.
  lemma FirstExpiryLate(now: int, timeOfDay: int, offset: int, days: int)
    requires 0 <= timeOfDay < SECONDS_PER_DAY && 1 <= days
    ensures FirstExpiry(now, timeOfDay, offset, days) >= now + days * NS_PER_DAY <==>
      now % NS_PER_DAY + days * NS_PER_DAY <= (timeOfDay - offset) * NS_PER_SECOND
  {
    assert now == Midnight(now) + now % NS_PER_DAY;
  }

  // A second before midnight, five hours west of UTC, set up at UTC midnight: the evening that is
  // five hours away is left out.
  lemma FirstExpiryTooLate()
    ensures FirstExpiry(0, 86_399, -18_000, 1) >= NS_PER_DAY
  {
  }

  // Half past midnight, two hours east of UTC, set up a second before UTC midnight.
  lemma FirstExpiryInThePast()
    ensures FirstExpiry(NS_PER_DAY - NS_PER_SECOND, 1800, 7200, 1) < NS_PER_DAY - NS_PER_SECOND
  {
  }
}
