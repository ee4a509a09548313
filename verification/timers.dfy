// The two repeating tasks: one re-arms from its old expiry, the other from the present.
module Timers {
  import opened DateTime

  // Runs of a task armed at e0 with period d, by time t.
  function RunsBy(e0: int, d: int, t: int): nat
    requires d > 0
  {
    if t < e0 then 0 else (t - e0) / d + 1
  }

  lemma {:induction false} OneRunLess(e0: int, d: int, t: int)
    requires d > 0 && e0 <= t
    ensures RunsBy(e0, d, t) == 1 + RunsBy(e0 + d, d, t)
  {
    DivStep(t - e0, d);
  }

  lemma DivStep(n: int, d: int)
    requires d > 0 && n >= 0
    ensures n / d == if n < d then 0 else (n - d) / d + 1
  {
    if n < d {
      assert n / d == 0;
    } else {
      var q := (n - d) / d;
      assert d * q <= n - d < d * q + d;
      assert d * (q + 1) == d * q + d;
      DivUnique(n, d, q + 1);
    }
  }

  lemma DivUnique(n: int, d: int, q: int)
    requires d > 0 && d * q <= n < d * q + d
    ensures n / d == q
  {
    var p := n / d;
    assert d * p <= n < d * p + d;
    if p < q { assert d * (p + 1) <= d * q by { Scale(d, p + 1, q); } }
    if q < p { assert d * (q + 1) <= d * p by { Scale(d, q + 1, p); } }
  }

  lemma {:induction false} Scale(d: int, a: int, b: int)
    requires d > 0 && a <= b
    ensures d * a <= d * b
    decreases b - a
  {
    if a < b {
      Scale(d, a + 1, b);
      assert d * (a + 1) == d * a + d;
    }
  }

  // The expiry once nothing is due at t any more.
  function ExpiryAfter(e: int, d: int, t: int): int
    requires d > 0
  {
    e + RunsBy(e, d, t) * d
  }

  lemma OnePeriodLater(e: int, d: int, t: int)
    requires d > 0 && e <= t
    ensures ExpiryAfter(e, d, t) == ExpiryAfter(e + d, d, t)
  {
    OneRunLess(e, d, t);
    var n := RunsBy(e + d, d, t);
    assert (1 + n) * d == d + n * d;
  }

  class EverydayAtTask {
    const period: int
    var expiry: int
    ghost var origin: int  // the expiry last set from outside
    ghost var runs: nat    // handler runs since then

    // The expiries are the one set and whole periods after it: no drift.
    ghost predicate Valid()
      reads this
    {
      period > 0 && expiry == origin + runs * period
    }

    constructor (now: int, timeOfDay: int, offset: int, days: int)
      requires 0 <= timeOfDay < SECONDS_PER_DAY && 1 <= days
      ensures Valid() && period == days * NS_PER_DAY && runs == 0
      ensures expiry == FirstExpiry(now, timeOfDay, offset, days)
    {
      var at := ParseTime(now, timeOfDay, offset);
      if now > at { at := at + days * NS_PER_DAY; }
      period := days * NS_PER_DAY;
      expiry := at;
      origin := at;
      runs := 0;
    }

    method SetExpiry(t: int)
      requires Valid()
      modifies this
      ensures Valid() && expiry == t && runs == 0
    {
      expiry := t;
      origin := t;
      runs := 0;
    }

    // The timer completes: the handler runs and the timer is re-armed from its old expiry.
    method Fire(now: int)
      requires Valid() && expiry <= now
      modifies this
      ensures Valid() && origin == old(origin) && runs == old(runs) + 1 && expiry == old(expiry) + period
    {
      runs := runs + 1;
      expiry := expiry + period;
      assert runs * period == old(runs) * period + period;
    }

    // The event loop at time now, until no timer is due.
    method Elapse(now: int)
      requires Valid()
      modifies this
      ensures Valid() && origin == old(origin) && now < expiry
      ensures runs == old(runs) + RunsBy(old(expiry), period, now)
      ensures expiry == ExpiryAfter(old(expiry), period, now)
    {
      while expiry <= now
        invariant Valid() && origin == old(origin)
        invariant ExpiryAfter(expiry, period, now) == ExpiryAfter(old(expiry), period, now)
        invariant runs + RunsBy(expiry, period, now) == old(runs) + RunsBy(old(expiry), period, now)
        decreases now - expiry
      {
        OneRunLess(expiry, period, now);
        OnePeriodLater(expiry, period, now);
        Fire(now);
      }
    }
  }

  function TotalRuns(e: int, d: int, times: seq<int>): nat
    requires d > 0
    decreases |times|
  {
    if times == [] then 0
    else RunsBy(e, d, times[0]) + TotalRuns(ExpiryAfter(e, d, times[0]), d, times[1..])
  }

  predicate NonDecreasing(times: seq<int>) {
    forall i :: 0 <= i < |times| - 1 ==> times[i] <= times[i + 1]
  }

  lemma {:induction false} RunsCompose(e: int, d: int, t: int, u: int)
    requires d > 0 && t <= u
    ensures RunsBy(e, d, t) + RunsBy(ExpiryAfter(e, d, t), d, u) == RunsBy(e, d, u)
    decreases if t < e then 0 else t - e + 1
  {
    if e <= t {
      OneRunLess(e, d, t);
      OneRunLess(e, d, u);
      OnePeriodLater(e, d, t);
      RunsCompose(e + d, d, t, u);
    }
  }

  // However often and irregularly the loop gets to run under a non-decreasing clock, by its last
  // turn the handler has run floor((t - e0) / d) + 1 times, missed ones included.
  lemma {:induction false} RunsDoNotDependOnTheLoop(e: int, d: int, times: seq<int>)
    requires d > 0 && times != [] && NonDecreasing(times)
    ensures TotalRuns(e, d, times) == RunsBy(e, d, times[|times| - 1])
    decreases |times|
  {
    if |times| > 1 {
      var rest := times[1..];
      assert NonDecreasing(rest) && times[0] <= times[|times| - 1] by { LastIsLargest(times); }
      RunsDoNotDependOnTheLoop(ExpiryAfter(e, d, times[0]), d, rest);
      RunsCompose(e, d, times[0], times[|times| - 1]);
    } else {
      assert times[1..] == [];
    }
  }

  lemma {:induction false} LastIsLargest(times: seq<int>)
    requires times != [] && NonDecreasing(times)
    ensures NonDecreasing(times[1..]) && times[0] <= times[|times| - 1]
    decreases |times|
  {
    var rest := times[1..];
    forall i | 0 <= i < |rest| - 1
      ensures rest[i] <= rest[i + 1]
    {
      assert times[i + 1] <= times[i + 1 + 1];
    }
    if |times| > 1 {
      LastIsLargest(rest);
      assert times[0] <= times[1];
    }
  }

  // One turn of a generic repeated task: the time at which it fires and the later time at which
  // its handler is done and the timer re-armed.
  datatype Turn = Turn(fired: int, done: int)

  class GenericRepeatedTask {
    const period: int
    var expiry: int
    var turns: seq<Turn>

    ghost predicate Valid()
      reads this
    {
      period > 0 && Spaced(turns, period) && (turns != [] ==> expiry == turns[|turns| - 1].done + period)
    }

    constructor (expiry: int, period: int)
      requires period > 0
      ensures Valid() && this.period == period && this.expiry == expiry && turns == []
    {
      this.period := period;
      this.expiry := expiry;
      this.turns := [];
    }

    // The timer completes at now; the handler is done at done and the timer re-armed from there.
    method Fire(now: int, done: int)
      requires Valid() && expiry <= now <= done
      modifies this
      ensures Valid() && turns == old(turns) + [Turn(now, done)] && expiry == done + period
    {
      turns := turns + [Turn(now, done)];
      expiry := done + period;
    }

    // The event loop from time now, until no timer is due; a handler run takes the given time. A
    // task due however long ago runs once, for the timer armed anew is not due when the handler
    // is done.
    method Elapse(now: int, cost: nat) returns (clock: int)
      requires Valid()
      modifies this
      ensures Valid() && clock < expiry
      ensures clock == if old(expiry) <= now then now + cost else now
      ensures turns == old(turns) + if old(expiry) <= now then [Turn(now, now + cost)] else []
    {
      clock := now;
      while expiry <= clock
        invariant Valid()
        invariant expiry <= clock ==> turns == old(turns) && expiry == old(expiry) && clock == now
        invariant clock < expiry ==> clock == if old(expiry) <= now then now + cost else now
        invariant clock < expiry ==>
          turns == old(turns) + if old(expiry) <= now then [Turn(now, now + cost)] else []
        decreases if expiry <= clock then 1 else 0
      {
        Fire(clock, clock + cost);
        clock := clock + cost;
      }
    }
  }

  predicate Spaced(turns: seq<Turn>, d: int) {
    && (forall i :: 0 <= i < |turns| ==> turns[i].fired <= turns[i].done)
    && (forall i :: 0 <= i < |turns| - 1 ==> turns[i].done + d <= turns[i + 1].fired)
  }

  // Any two runs are at least as many periods apart as there are runs between them; so however
  // stale its start, less than a period later the task has run only once.
  lemma {:induction false} RunsAreApart(turns: seq<Turn>, d: int, i: nat, j: nat)
    requires d > 0 && Spaced(turns, d) && i < j < |turns|
    ensures turns[i].fired + (j - i) * d <= turns[j].fired
    decreases j - i
  {
    assert turns[j - 1].done + d <= turns[j - 1 + 1].fired;
    if i < j - 1 {
      RunsAreApart(turns, d, i, j - 1);
      assert (j - i) * d == (j - 1 - i) * d + d;
    }
  }

  lemma OneRunPerPeriod(turns: seq<Turn>, d: int, t: int, i: nat, j: nat)
    requires d > 0 && Spaced(turns, d) && i < |turns| && j < |turns|
    requires t <= turns[i].fired < t + d && t <= turns[j].fired < t + d
    ensures i == j
  {
    if i < j {
      RunsAreApart(turns, d, i, j);
      Scale(d, 1, j - i);
      assert false;
    } else if j < i {
      RunsAreApart(turns, d, j, i);
      Scale(d, 1, i - j);
      assert false;
    }
  }
}
