/**
 * Daily forecast aggregation (`_fetch_forecast_by_coord`, backend/weather.py:153-182):
 * three-hourly samples are grouped by UTC day, the days are sorted and truncated to
 * the requested count, and each day is reduced to min / max / mean temperature, the
 * most frequent description, and mean wind and humidity over the non-null samples.
 *
 * Days are integer day indices since the epoch; readings are `real`.
 */
module Forecast {
  import opened Wrappers

  const SecondsPerDay := 86400

  /** One entry of the provider's forecast list; absent readings are `None`. */
  datatype Sample = Sample(dt: int, temp: Option<real>, description: Option<string>,
                           wind: Option<real>, humidity: Option<real>)

  /**
   * One item of the provider's forecast list as it arrives; its `dt` may be missing.
   * `time.gmtime(None)` reads the clock, so an item without `dt` is filed under the
   * day of the call (backend/weather.py:155-156).
   */
  datatype Item = Item(dt: Option<int>, temp: Option<real>, description: Option<string>,
                       wind: Option<real>, humidity: Option<real>)

  /** The samples the grouping loop sees: each item with its own `dt`, or the clock `now` without one. */
  function Stamped(items: seq<Item>, now: int): (samples: seq<Sample>)
    ensures |samples| == |items|
  {
    seq(|items|, k requires 0 <= k < |items| =>
      Sample(if items[k].dt.Some? then items[k].dt.value else now,
             items[k].temp, items[k].description, items[k].wind, items[k].humidity))
  }

  /** The UTC day of a timestamp (what `gmtime` + `%Y-%m-%d` identify). */
  function DayOf(dt: int): int {
    dt / SecondsPerDay
  }

  /** The four lists kept per day (`slot` in the source). */
  datatype Bucket = Bucket(temps: seq<Option<real>>, descs: seq<Option<string>>,
                           winds: seq<Option<real>>, hums: seq<Option<real>>)

  const EmptyBucket := Bucket([], [], [], [])

  function AddSample(b: Bucket, s: Sample): Bucket {
    Bucket(b.temps + [s.temp], b.descs + [s.description], b.winds + [s.wind], b.hums + [s.humidity])
  }

  /** The result of the grouping loop over `samples`: `setdefault` then `append`. */
  function GroupByDay(samples: seq<Sample>): map<int, Bucket> {
    if samples == [] then map[]
    else
      var daily := GroupByDay(samples[..|samples| - 1]);
      var s := samples[|samples| - 1];
      var slot := if DayOf(s.dt) in daily then daily[DayOf(s.dt)] else EmptyBucket;
      daily[DayOf(s.dt) := AddSample(slot, s)]
  }

  /** The samples of one day, in input order. */
  function OnDay(samples: seq<Sample>, day: int): (r: seq<Sample>)
    ensures forall s :: s in r <==> s in samples && DayOf(s.dt) == day
  {
    if samples == [] then []
    else
      var last := samples[|samples| - 1];
      OnDay(samples[..|samples| - 1], day) + (if DayOf(last.dt) == day then [last] else [])
  }

  /** The bucket the source builds from a list of samples, independently of grouping. */
  function BucketOf(samples: seq<Sample>): Bucket {
    if samples == [] then EmptyBucket
    else AddSample(BucketOf(samples[..|samples| - 1]), samples[|samples| - 1])
  }

  // ---------------------------------------------------------------------------
  // Sorting and truncating the day keys
  // ---------------------------------------------------------------------------

  predicate StrictlyAscending(xs: seq<int>) {
    forall i, j :: 0 <= i < j < |xs| ==> xs[i] < xs[j]
  }

  /** Adds `x` to an ascending sequence, keeping it ascending and free of repeats. */
  function Insert(x: int, xs: seq<int>): (r: seq<int>)
    requires StrictlyAscending(xs)
    ensures StrictlyAscending(r)
    ensures forall y :: y in r <==> y == x || y in xs
  {
    if xs == [] then [x]
    else if x < xs[0] then [x] + xs
    else if x == xs[0] then xs
    else
      var rest := Insert(x, xs[1..]);
      assert forall y :: y in xs ==> y == xs[0] || y in xs[1..];
      assert forall j :: 0 <= j < |rest| ==> xs[0] < rest[j] by {
        forall j | 0 <= j < |rest| ensures xs[0] < rest[j] {
          assert rest[j] in rest;
        }
      }
      [xs[0]] + rest
  }

  /** `sorted(keys)`: the distinct keys in ascending order. */
  function SortedKeys(keys: seq<int>): (r: seq<int>)
    ensures StrictlyAscending(r)
    ensures forall y :: y in r <==> y in keys
  {
    if keys == [] then []
    else
      var rest := keys[..|keys| - 1];
      assert forall y :: y in keys ==> y in rest || y == keys[|keys| - 1];
      Insert(keys[|keys| - 1], SortedKeys(rest))
  }

  /** Python's `xs[:n]`, including a negative `n` counted from the end. */
  function PyPrefix<T>(xs: seq<T>, n: int): (r: seq<T>)
    ensures |r| <= |xs| && r == xs[..|r|]
    ensures n >= 0 ==> |r| == if n < |xs| then n else |xs|
    ensures n < 0 ==> |r| == if |xs| + n > 0 then |xs| + n else 0
  {
    var k := if n >= 0 then (if n < |xs| then n else |xs|) else (if |xs| + n > 0 then |xs| + n else 0);
    xs[..k]
  }

  /** The keys of `daily` in the order they were first inserted, as a Python dict keeps them. */
  function DayOrder(samples: seq<Sample>): seq<int> {
    if samples == [] then []
    else
      var keys := DayOrder(samples[..|samples| - 1]);
      var day := DayOf(samples[|samples| - 1].dt);
      if day in keys then keys else keys + [day]
  }

  /** `sorted(daily.keys())[:days]` */
  function ForecastDays(samples: seq<Sample>, days: int): seq<int> {
    PyPrefix(SortedKeys(DayOrder(samples)), days)
  }

  // ---------------------------------------------------------------------------
  // Per-day statistics
  // ---------------------------------------------------------------------------

  /** `[x for x in xs if x is not None]` */
  function Present(xs: seq<Option<real>>): (r: seq<real>)
    ensures |r| <= |xs|
    ensures forall x :: x in r <==> Some(x) in xs
    ensures r == [] <==> forall k :: 0 <= k < |xs| ==> xs[k].None?
  {
    if xs == [] then []
    else
      var last := xs[|xs| - 1];
      assert forall k :: 0 <= k < |xs| - 1 ==> xs[..|xs| - 1][k] == xs[k];
      assert forall o :: o in xs <==> o in xs[..|xs| - 1] || o == last;
      Present(xs[..|xs| - 1]) + (if last.Some? then [last.value] else [])
  }

  function Sum(xs: seq<real>): real {
    if xs == [] then 0.0 else Sum(xs[..|xs| - 1]) + xs[|xs| - 1]
  }

  function Minimum(xs: seq<real>): (m: real)
    requires xs != []
    ensures m in xs && forall x :: x in xs ==> m <= x
  {
    if |xs| == 1 then xs[0]
    else
      var rest := Minimum(xs[..|xs| - 1]);
      assert forall x :: x in xs ==> x in xs[..|xs| - 1] || x == xs[|xs| - 1];
      if xs[|xs| - 1] < rest then xs[|xs| - 1] else rest
  }

  function Maximum(xs: seq<real>): (m: real)
    requires xs != []
    ensures m in xs && forall x :: x in xs ==> x <= m
  {
    if |xs| == 1 then xs[0]
    else
      var rest := Maximum(xs[..|xs| - 1]);
      assert forall x :: x in xs ==> x in xs[..|xs| - 1] || x == xs[|xs| - 1];
      if xs[|xs| - 1] > rest then xs[|xs| - 1] else rest
  }

  /** `sum(xs) / len(xs) if xs else None` */
  function MeanOf(xs: seq<real>): Option<real> {
    if xs == [] then None else Some(Sum(xs) / |xs| as real)
  }

  function MinOf(xs: seq<real>): Option<real> {
    if xs == [] then None else Some(Minimum(xs))
  }

  function MaxOf(xs: seq<real>): Option<real> {
    if xs == [] then None else Some(Maximum(xs))
  }

  /** `m` occurs in `xs` and no value occurs more often. */
  predicate IsMode<T(==)>(xs: seq<T>, m: T) {
    m in xs && forall y :: y in xs ==> multiset(xs)[y] <= multiset(xs)[m]
  }

  /** Among `cands`, one whose count in `xs` is largest. */
  lemma {:induction false} MostFrequentAmong<T>(xs: seq<T>, cands: seq<T>) returns (m: T)
    requires cands != []
    ensures m in cands
    ensures forall y :: y in cands ==> multiset(xs)[y] <= multiset(xs)[m]
    decreases |cands|
  {
    if |cands| == 1 {
      m := cands[0];
    } else {
      var best := MostFrequentAmong(xs, cands[1..]);
      assert forall y :: y in cands ==> y == cands[0] || y in cands[1..];
      m := if multiset(xs)[cands[0]] >= multiset(xs)[best] then cands[0] else best;
    }
  }

  /** Every non-empty list has a most frequent element. */
  lemma ModeExists<T>(xs: seq<T>)
    requires xs != []
    ensures exists m :: IsMode(xs, m)
  {
    var m := MostFrequentAmong(xs, xs);
    assert IsMode(xs, m);
  }

  /** One aggregated day, as appended to `result`. */
  datatype DailyForecast = DailyForecast(date: int, tempMin: Option<real>, tempMax: Option<real>,
                                         tempAvg: Option<real>, commonDescription: Option<string>,
                                         windAvg: Option<real>, humidityAvg: Option<real>)

  /** `f` is an aggregate of bucket `b` for `day`; the description is any most frequent one. */
  predicate Summarizes(f: DailyForecast, day: int, b: Bucket) {
    && f.date == day
    && f.tempMin == MinOf(Present(b.temps))
    && f.tempMax == MaxOf(Present(b.temps))
    && f.tempAvg == MeanOf(Present(b.temps))
    && (if b.descs == [] then f.commonDescription == None else IsMode(b.descs, f.commonDescription))
    && f.windAvg == MeanOf(Present(b.winds))
    && f.humidityAvg == MeanOf(Present(b.hums))
  }

  /** `result` is an aggregation of `samples` for `days` days. */
  predicate IsAggregate(samples: seq<Sample>, days: int, result: seq<DailyForecast>) {
    var daily := GroupByDay(samples);
    var keys := ForecastDays(samples, days);
    && |result| == |keys|
    && forall k :: 0 <= k < |result| ==> keys[k] in daily && Summarizes(result[k], keys[k], daily[keys[k]])
  }

  /** The insertion-ordered keys are exactly the keys of the grouped map. */
  lemma {:induction false} DayOrderIsKeys(samples: seq<Sample>)
    ensures forall d :: d in DayOrder(samples) <==> d in GroupByDay(samples)
    decreases |samples|
  {
    if samples != [] {
      DayOrderIsKeys(samples[..|samples| - 1]);
    }
  }

  /** The grouping loop (backend/weather.py:153-164): fills `daily` through `setdefault` and `append`. */
  method GroupSamples(samples: seq<Sample>) returns (daily: map<int, Bucket>, keys: seq<int>)
    ensures daily == GroupByDay(samples)
    ensures keys == DayOrder(samples)
  {
    daily, keys := map[], [];
    var i := 0;
    while i < |samples|
      invariant 0 <= i <= |samples|
      invariant daily == GroupByDay(samples[..i])
      invariant keys == DayOrder(samples[..i])
      invariant forall d :: d in keys <==> d in daily
    {
      var s := samples[i];
      var day := DayOf(s.dt);
      var slot := if day in daily then daily[day] else EmptyBucket;
      if day !in daily {
        keys := keys + [day];
      }
      daily := daily[day := AddSample(slot, s)];
      assert samples[..i + 1][..i] == samples[..i];
      i := i + 1;
    }
    assert samples[..i] == samples;
  }

  /**
   * One day's entry (backend/weather.py:169-182).  Which of several equally frequent
   * descriptions is kept is not determined by the source (`max` over a set), so any
   * of them may be chosen here.
   */
  method SummarizeDay(day: int, e: Bucket) returns (f: DailyForecast)
    ensures Summarizes(f, day, e)
  {
    var temps := Present(e.temps);
    var winds := Present(e.winds);
    var hums := Present(e.hums);
    var desc: Option<string> := None;
    if e.descs != [] {
      ModeExists(e.descs);
      desc :| IsMode(e.descs, desc);
    }
    f := DailyForecast(day, MinOf(temps), MaxOf(temps), MeanOf(temps), desc, MeanOf(winds), MeanOf(hums));
  }

  /** The aggregation of `_fetch_forecast_by_coord` (backend/weather.py:153-182). */
  method AggregateForecast(samples: seq<Sample>, days: int) returns (result: seq<DailyForecast>)
    ensures IsAggregate(samples, days, result)
  {
    var daily, order := GroupSamples(samples);
    DayOrderIsKeys(samples);
    var keys := PyPrefix(SortedKeys(order), days);
    result := [];
    var k := 0;
    while k < |keys|
      invariant 0 <= k <= |keys|
      invariant |result| == k
      invariant forall j :: 0 <= j < k ==> keys[j] in daily && Summarizes(result[j], keys[j], daily[keys[j]])
    {
      assert keys[k] in SortedKeys(order);
      var f := SummarizeDay(keys[k], daily[keys[k]]);
      result := result + [f];
      k := k + 1;
    }
  }

  // ---------------------------------------------------------------------------
  // Properties of the aggregation
  // ---------------------------------------------------------------------------

  /** The forecast days are strictly ascending, hence free of duplicates. */
  lemma ForecastDaysAscending(samples: seq<Sample>, days: int)
    ensures StrictlyAscending(ForecastDays(samples, days))
  {
    var all := SortedKeys(DayOrder(samples));
    var r := ForecastDays(samples, days);
    assert forall i :: 0 <= i < |r| ==> r[i] == all[i];
  }

  /** No more days than requested. */
  lemma ForecastDaysBounded(samples: seq<Sample>, days: int)
    requires days >= 0
    ensures |ForecastDays(samples, days)| <= days
  {
  }

  lemma {:induction false} DayOrderMembers(samples: seq<Sample>, d: int)
    ensures d in DayOrder(samples) <==> exists s :: s in samples && DayOf(s.dt) == d
    decreases |samples|
  {
    if samples != [] {
      var init := samples[..|samples| - 1];
      DayOrderMembers(init, d);
      assert forall s :: s in samples <==> s in init || s == samples[|samples| - 1];
    }
  }
  /** An item without `dt` puts the day of the clock among the grouped days. */
  lemma UndatedItemFiledToday(items: seq<Item>, now: int, k: nat)
    requires k < |items| && items[k].dt.None?
    ensures DayOf(now) in GroupByDay(Stamped(items, now))
  {
    var samples := Stamped(items, now);
    assert samples[k] in samples && samples[k].dt == now;
    DayOrderMembers(samples, DayOf(now));
    DayOrderIsKeys(samples);
  }

  /** When every item carries `dt`, the clock plays no part in the samples. */
  lemma DatedItemsIgnoreClock(items: seq<Item>, now: int, now': int)
    requires forall k :: 0 <= k < |items| ==> items[k].dt.Some?
    ensures Stamped(items, now) == Stamped(items, now')
  {
  }


  /** Every forecast day is the day of some input sample. */
  lemma ForecastDaysFromSamples(samples: seq<Sample>, days: int, d: int)
    requires d in ForecastDays(samples, days)
    ensures exists s :: s in samples && DayOf(s.dt) == d
  {
    var all := SortedKeys(DayOrder(samples));
    assert d in all;
    DayOrderMembers(samples, d);
  }

  /** Grouping in one pass gives, for each day, the bucket of that day's samples in input order. */
  lemma {:induction false} GroupByDayIsOnDay(samples: seq<Sample>, d: int)
    ensures d in GroupByDay(samples) <==> OnDay(samples, d) != []
    ensures d in GroupByDay(samples) ==> GroupByDay(samples)[d] == BucketOf(OnDay(samples, d))
    decreases |samples|
  {
    if samples != [] {
      var init := samples[..|samples| - 1];
      var last := samples[|samples| - 1];
      GroupByDayIsOnDay(init, d);
      if DayOf(last.dt) == d {
        var prev := OnDay(init, d);
        assert OnDay(samples, d) == prev + [last];
        assert (prev + [last])[..|prev|] == prev;
      } else {
        assert OnDay(samples, d) == OnDay(init, d);
      }
    }
  }

  lemma {:induction false} BucketOfDescriptions(ss: seq<Sample>)
    ensures |BucketOf(ss).descs| == |ss|
    ensures forall i :: 0 <= i < |ss| ==> BucketOf(ss).descs[i] == ss[i].description
    decreases |ss|
  {
    if ss != [] {
      BucketOfDescriptions(ss[..|ss| - 1]);
    }
  }

  /** Every grouped day has at least one sample, so its description list is never empty. */
  lemma GroupedDayNonEmpty(samples: seq<Sample>, d: int)
    requires d in GroupByDay(samples)
    ensures GroupByDay(samples)[d].descs != []
  {
    GroupByDayIsOnDay(samples, d);
    BucketOfDescriptions(OnDay(samples, d));
  }

  lemma {:induction false} SumAtLeast(xs: seq<real>, lo: real)
    requires forall i :: 0 <= i < |xs| ==> lo <= xs[i]
    ensures |xs| as real * lo <= Sum(xs)
    decreases |xs|
  {
    if xs != [] {
      SumAtLeast(xs[..|xs| - 1], lo);
    }
  }

  lemma {:induction false} SumAtMost(xs: seq<real>, hi: real)
    requires forall i :: 0 <= i < |xs| ==> xs[i] <= hi
    ensures Sum(xs) <= |xs| as real * hi
    decreases |xs|
  {
    if xs != [] {
      SumAtMost(xs[..|xs| - 1], hi);
    }
  }

  /** Dividing a total of at least `n * lo` by `n` gives at least `lo`. */
  lemma QuotientAtLeast(total: real, n: real, lo: real)
    requires n > 0.0 && n * lo <= total
    ensures lo <= total / n
  {
  }

  lemma QuotientAtMost(total: real, n: real, hi: real)
    requires n > 0.0 && total <= n * hi
    ensures total / n <= hi
  {
  }

  lemma WithinExtremes(xs: seq<real>)
    requires xs != []
    ensures forall i :: 0 <= i < |xs| ==> Minimum(xs) <= xs[i] <= Maximum(xs)
  {
    forall i | 0 <= i < |xs| ensures Minimum(xs) <= xs[i] <= Maximum(xs) {
      assert xs[i] in xs;
    }
  }

  lemma MeanAtLeast(xs: seq<real>, lo: real)
    requires xs != [] && forall i :: 0 <= i < |xs| ==> lo <= xs[i]
    ensures lo <= Sum(xs) / |xs| as real
  {
    SumAtLeast(xs, lo);
    QuotientAtLeast(Sum(xs), |xs| as real, lo);
  }

  lemma MeanAtMost(xs: seq<real>, hi: real)
    requires xs != [] && forall i :: 0 <= i < |xs| ==> xs[i] <= hi
    ensures Sum(xs) / |xs| as real <= hi
  {
    SumAtMost(xs, hi);
    QuotientAtMost(Sum(xs), |xs| as real, hi);
  }

  /** The mean lies between the minimum and the maximum. */
  lemma MeanBetween(xs: seq<real>)
    requires xs != []
    ensures Minimum(xs) <= Sum(xs) / |xs| as real <= Maximum(xs)
  {
    WithinExtremes(xs);
    MeanAtLeast(xs, Minimum(xs));
    MeanAtMost(xs, Maximum(xs));
  }

  /** One day's statistics: consistent presence, absence exactly without readings, and min <= avg <= max. */
  lemma SummaryStatistics(f: DailyForecast, day: int, b: Bucket)
    requires Summarizes(f, day, b)
    ensures f.tempMin.None? <==> forall i :: 0 <= i < |b.temps| ==> b.temps[i].None?
    ensures f.tempMin.None? == f.tempMax.None? == f.tempAvg.None?
    ensures f.tempAvg.Some? ==> f.tempMin.value <= f.tempAvg.value <= f.tempMax.value
    ensures f.windAvg.None? <==> forall i :: 0 <= i < |b.winds| ==> b.winds[i].None?
    ensures f.humidityAvg.None? <==> forall i :: 0 <= i < |b.hums| ==> b.hums[i].None?
  {
    var temps := Present(b.temps);
    if temps != [] {
      MeanBetween(temps);
    }
  }

  /** The statistics of every aggregated day, as `SummaryStatistics` states them. */
  lemma DayStatistics(samples: seq<Sample>, days: int, result: seq<DailyForecast>, k: nat)
    requires IsAggregate(samples, days, result) && k < |result|
    ensures var f := result[k];
      && f.tempMin.None? == f.tempMax.None? == f.tempAvg.None?
      && (f.tempAvg.Some? ==> f.tempMin.value <= f.tempAvg.value <= f.tempMax.value)
  {
    var d := ForecastDays(samples, days)[k];
    SummaryStatistics(result[k], d, GroupByDay(samples)[d]);
  }

  /** The description kept for a day is the description of one of that day's samples, and a most frequent one. */
  lemma DayDescription(samples: seq<Sample>, days: int, result: seq<DailyForecast>, k: nat)
    requires IsAggregate(samples, days, result) && k < |result|
    ensures exists s :: s in samples && DayOf(s.dt) == result[k].date && s.description == result[k].commonDescription
    ensures IsMode(GroupByDay(samples)[result[k].date].descs, result[k].commonDescription)
  {
    var d := result[k].date;
    GroupedDayNonEmpty(samples, d);
    GroupByDayIsOnDay(samples, d);
    var ss := OnDay(samples, d);
    BucketOfDescriptions(ss);
    var descs := BucketOf(ss).descs;
    var i :| 0 <= i < |descs| && descs[i] == result[k].commonDescription;
    assert ss[i] in ss;
  }
}
