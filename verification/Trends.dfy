/**
 * The day histogram of getTrends() (api-gateway/src/analytics/analytics.service.ts:74-109).
 *
 * Times are milliseconds of UTC, days are counted from the epoch, and the
 * server's clock is a fixed number of milliseconds ahead of UTC.  A day stands
 * for the text that toISOString() would show.
 */
module Trends {
  const DAY: int := 86400000

  function UtcDay(time: int): int {
    time / DAY
  }

  /** Local midnight, `days` days before today. */
  function StartOf(now: int, days: nat, offset: int): int {
    ((now + offset) / DAY - days) * DAY - offset
  }

  function CountOn(times: seq<int>, day: int): nat {
    if times == [] then 0 else CountOn(times[..|times| - 1], day) + (if UtcDay(times[|times| - 1]) == day then 1 else 0)
  }

  datatype Point = Point(day: int, applications: nat)

  function Total(points: seq<Point>): nat {
    if points == [] then 0 else Total(points[..|points| - 1]) + points[|points| - 1].applications
  }

  predicate Ascending(times: seq<int>) {
    forall i, j :: 0 <= i < j < |times| ==> times[i] <= times[j]
  }

  /** Every day once, in order. */
  predicate Increasing(points: seq<Point>) {
    forall i, j :: 0 <= i < j < |points| ==> points[i].day < points[j].day
  }

  predicate Has(points: seq<Point>, day: int) {
    exists i :: 0 <= i < |points| && points[i].day == day
  }

  lemma {:induction false} TotalAfterUpdate(points: seq<Point>, i: nat, p: Point)
    requires i < |points|
    ensures Total(points[i := p]) == Total(points) - points[i].applications + p.applications
  {
    var n := |points| - 1;
    if i == n {
      assert points[i := p][..n] == points[..n];
    } else {
      assert points[i := p][..n] == points[..n][i := p];
      TotalAfterUpdate(points[..n], i, p);
    }
  }

  /**
   * The first days + 1 days are consecutive, every later one was applied for
   * on, no day is missing, each count is exact and the counts add up.
   */
  ghost predicate IsHistogram(points: seq<Point>, times: seq<int>, first: int, days: nat) {
    && Increasing(points)
    && |points| >= days + 1
    && (forall i :: 0 <= i <= days ==> points[i].day == first + i)
    && (forall i :: days < i < |points| ==> points[i].applications > 0)
    && (forall i :: 0 <= i < |points| ==> points[i].applications == CountOn(times, points[i].day))
    && (forall k :: 0 <= k < |times| ==> Has(points, UtcDay(times[k])))
    && Total(points) == |times|
  }

  lemma CountOneMore(times: seq<int>, time: int, day: int)
    ensures CountOn(times + [time], day) == CountOn(times, day) + (if UtcDay(time) == day then 1 else 0)
  {
  }

  lemma {:induction false} CountedIsThere(times: seq<int>, day: int) returns (k: nat)
    requires CountOn(times, day) > 0
    ensures k < |times| && UtcDay(times[k]) == day
  {
    k := |times| - 1;
    if UtcDay(times[k]) != day {
      k := CountedIsThere(times[..k], day);
    }
  }

  lemma HasAfter(points: seq<Point>, updated: seq<Point>, times: seq<int>, time: int)
    requires forall k :: 0 <= k < |times| ==> Has(points, UtcDay(times[k]))
    requires |points| <= |updated| && forall i :: 0 <= i < |points| ==> updated[i].day == points[i].day
    requires Has(updated, UtcDay(time))
    ensures var all := times + [time]; forall k :: 0 <= k < |all| ==> Has(updated, UtcDay(all[k]))
  {
  }

  lemma HistogramAfterUpdate(points: seq<Point>, i: nat, times: seq<int>, time: int, first: int, days: nat)
    requires IsHistogram(points, times, first, days) && i < |points| && points[i].day == UtcDay(time)
    ensures IsHistogram(points[i := Point(points[i].day, points[i].applications + 1)], times + [time], first, days)
  {
    var updated := points[i := Point(points[i].day, points[i].applications + 1)];
    TotalAfterUpdate(points, i, updated[i]);
    forall j | 0 <= j < |updated| ensures updated[j].applications == CountOn(times + [time], updated[j].day) {
      CountOneMore(times, time, updated[j].day);
      assert j != i ==> points[j].day != points[i].day;
    }
    assert updated[i].day == UtcDay(time);
    HasAfter(points, updated, times, time);
  }

  lemma {:induction false} NoneOn(times: seq<int>, day: int)
    requires forall k :: 0 <= k < |times| ==> UtcDay(times[k]) != day
    ensures CountOn(times, day) == 0
  {
    if times != [] {
      NoneOn(times[..|times| - 1], day);
    }
  }

  lemma EarlyDaysAreThere(points: seq<Point>, times: seq<int>, day: int, first: int, days: nat)
    requires IsHistogram(points, times, first, days) && first <= day <= first + days
    ensures Has(points, day)
  {
    assert points[day - first].day == day;
  }

  /** A day that is not there yet comes after all that are, because the dates come oldest first. */
  lemma NewDayIsLast(points: seq<Point>, times: seq<int>, day: int, first: int, days: nat)
    requires IsHistogram(points, times, first, days) && first <= day && !Has(points, day)
    requires forall k :: 0 <= k < |times| ==> UtcDay(times[k]) <= day
    ensures forall j :: 0 <= j < |points| ==> points[j].day < day
    ensures CountOn(times, day) == 0
  {
    forall k | 0 <= k < |times| ensures UtcDay(times[k]) != day { assert Has(points, UtcDay(times[k])); }
    NoneOn(times, day);
    if day <= first + days {
      EarlyDaysAreThere(points, times, day, first, days);
    }
    forall j | 0 <= j < |points| ensures points[j].day < day {
      if j > days {
        var k := CountedIsThere(times, points[j].day);
      }
    }
  }

  lemma HistogramAfterAppend(points: seq<Point>, times: seq<int>, time: int, first: int, days: nat)
    requires IsHistogram(points, times, first, days) && first <= UtcDay(time) && !Has(points, UtcDay(time))
    requires forall k :: 0 <= k < |times| ==> UtcDay(times[k]) <= UtcDay(time)
    ensures IsHistogram(points + [Point(UtcDay(time), 1)], times + [time], first, days)
  {
    var updated := points + [Point(UtcDay(time), 1)];
    assert updated[..|points|] == points;
    NewDayIsLast(points, times, UtcDay(time), first, days);
    forall j | 0 <= j < |updated| ensures updated[j].applications == CountOn(times + [time], updated[j].day) {
      CountOneMore(times, time, updated[j].day);
    }
    assert updated[|points|].day == UtcDay(time);
    HasAfter(points, updated, times, time);
  }

  /** dateMap.get() and dateMap.set() on a map that keeps insertion order. */
  method CountOne(points: seq<Point>, time: int, ghost times: seq<int>, ghost first: int, ghost days: nat)
    returns (updated: seq<Point>)
    requires IsHistogram(points, times, first, days)
    requires first <= UtcDay(time) && forall k :: 0 <= k < |times| ==> UtcDay(times[k]) <= UtcDay(time)
    ensures IsHistogram(updated, times + [time], first, days)
  {
    var day := UtcDay(time);
    var i := 0;
    while i < |points| && points[i].day != day
      invariant 0 <= i <= |points|
      invariant forall j :: 0 <= j < i ==> points[j].day != day
    {
      i := i + 1;
    }
    if i < |points| {
      updated := points[i := Point(points[i].day, points[i].applications + 1)];
      HistogramAfterUpdate(points, i, times, time, first, days);
    } else {
      updated := points + [Point(day, 1)];
      HistogramAfterAppend(points, times, time, first, days);
    }
  }

  /** getTrends() on the dates that the query returned: from the start on, oldest first. */
  method GetTrends(days: nat, now: int, offset: int, fetched: seq<int>) returns (points: seq<Point>)
    requires Ascending(fetched) && forall i :: 0 <= i < |fetched| ==> StartOf(now, days, offset) <= fetched[i]
    ensures IsHistogram(points, fetched, UtcDay(StartOf(now, days, offset)), days)
  {
    var startDate := StartOf(now, days, offset);
    ghost var first := UtcDay(startDate);
    points := [];
    for i := 0 to days + 1
      invariant |points| == i && Total(points) == 0
      invariant forall j :: 0 <= j < i ==> points[j] == Point(first + j, 0)
    {
      var key := UtcDay(startDate + i * DAY);
      assert (points + [Point(key, 0)])[..i] == points;
      points := points + [Point(key, 0)];
    }
    for n := 0 to |fetched|
      invariant IsHistogram(points, fetched[..n], first, days)
    {
      assert forall k :: 0 <= k < n ==> fetched[..n][k] <= fetched[n];
      points := CountOne(points, fetched[n], fetched[..n], first, days);
      assert fetched[..n + 1] == fetched[..n] + [fetched[n]];
    }
    assert fetched[..|fetched|] == fetched;
  }

  /**
   * As long as no date lies past the next local midnight, the days are a run
   * without gaps, of days + 2 entries exactly when something was applied for on
   * the UTC day after the last expected one, and of days + 1 otherwise.
   */
  lemma DaysAreConsecutive(points: seq<Point>, days: nat, now: int, offset: int, fetched: seq<int>)
    requires IsHistogram(points, fetched, UtcDay(StartOf(now, days, offset)), days)
    requires forall i :: 0 <= i < |fetched| ==> fetched[i] < StartOf(now, days, offset) + (days + 1) * DAY
    ensures var first := UtcDay(StartOf(now, days, offset));
            && (forall i :: 0 <= i < |points| ==> points[i].day == first + i)
            && |points| == days + (if exists k :: 0 <= k < |fetched| && UtcDay(fetched[k]) == first + days + 1 then 2
                                   else 1)
  {
    var first := UtcDay(StartOf(now, days, offset));
    forall i | days < i < |points| ensures points[i].day == first + days + 1 {
      var k := CountedIsThere(fetched, points[i].day);
      assert points[days].day < points[i].day;
    }
    DaysSpread(points, days, |points| - 1);
    if |points| > days + 1 {
      var k := CountedIsThere(fetched, points[days + 1].day);
    }
    if exists k :: 0 <= k < |fetched| && UtcDay(fetched[k]) == first + days + 1 {
      var k :| 0 <= k < |fetched| && UtcDay(fetched[k]) == first + days + 1;
      assert Has(points, UtcDay(fetched[k]));
    }
  }

  /** A UTC day in milliseconds. */
  lemma UtcDayIff(time: int, day: int)
    ensures UtcDay(time) == day <==> day * 86400000 <= time < (day + 1) * 86400000
  {
  }

  /** The start is the last local midnight that is at least `days` days back. */
  lemma StartIsMidnight(now: int, days: nat, offset: int)
    ensures var start := StartOf(now, days, offset);
            && (start + offset) % 86400000 == 0
            && start <= now - days * 86400000 < start + 86400000
  {
    var local := now + offset;
    assert StartOf(now, days, offset) + offset == (local / DAY - days) * DAY;
    assert local == (local / DAY) * DAY + local % DAY;
    MultipleOfDay(local / DAY - days);
  }

  lemma MultipleOfDay(n: int)
    ensures (n * 86400000) % 86400000 == 0
  {
  }

  /**
   * The last of the days + 1 entries is the UTC day of the last local midnight,
   * and so it is today, as UTC has it, exactly when no more time has passed
   * since local midnight than since UTC midnight.
   */
  lemma LastDayIsTodayIff(points: seq<Point>, days: nat, now: int, offset: int, fetched: seq<int>)
    requires IsHistogram(points, fetched, UtcDay(StartOf(now, days, offset)), days)
    ensures var midnight := now - (now + offset) % 86400000;
            points[days].day * 86400000 <= midnight < (points[days].day + 1) * 86400000
    ensures points[days].day == now / 86400000 <==> (now + offset) % 86400000 <= now % 86400000
  {
    var local, start := now + offset, StartOf(now, days, offset);
    var midnight := now - local % DAY;
    assert local == (local / DAY) * DAY + local % DAY;
    assert start + days * DAY == midnight;
    UtcDayIff(start, UtcDay(start));
    assert points[days].day == UtcDay(start) + days;
    UtcDayIff(midnight, points[days].day);
    UtcDayIff(now, now / DAY);
    assert now == (now / DAY) * DAY + now % DAY;
    SameDayIff(now, local % DAY);
  }

  lemma SameDayIff(now: int, passed: int)
    requires 0 <= passed < DAY
    ensures (now - passed) / DAY == now / DAY <==> passed <= now % DAY
  {
    UtcDayIff(now - passed, now / DAY);
  }

  lemma {:induction false} DaysSpread(points: seq<Point>, i: nat, j: nat)
    requires Increasing(points) && i <= j < |points|
    ensures points[j].day - points[i].day >= j - i
    decreases j
  {
    if i < j {
      DaysSpread(points, i, j - 1);
      assert points[j - 1].day < points[j].day;
    }
  }
}
