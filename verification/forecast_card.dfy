/**
 * The forecast panel of the dashboard: a flat list of 3-hourly samples is
 * grouped by calendar day, the first five days are kept, and each day is
 * summarised by its warmest maximum, its coldest minimum, its mean
 * precipitation probability and the condition of its first sample.
 *
 * The calendar day of a timestamp is a parameter `dayKey`: the dashboard
 * formats the local date of the timestamp as `yyyy-MM-dd`, which depends on
 * the time zone of the browser and is not modelled here.
 */
module ForecastCard {
  import opened Common

  /** One 3-hourly forecast sample, as far as the forecast panel reads it. */
  datatype ForecastItem = ForecastItem(
    dt: int,             // timestamp, seconds since the epoch
    tempMax: real,
    tempMin: real,
    pop: real,           // probability of precipitation
    icon: string,        // condition icon code of the sample's first condition
    description: string  // text of the sample's first condition
  )

  /** A day key with the samples of that day. */
  type Bucket = (string, seq<ForecastItem>)

  /** What the panel shows for one day. */
  datatype DaySummary = DaySummary(
    date: string,
    maxTemp: real,
    minTemp: real,
    avgPop: real,
    icon: string,        // condition icon code of the day's first sample
    glyph: WeatherIcon,  // the icon drawn for that code
    description: string
  )

  /** Number of days the panel shows at most. */
  const DaysShown: nat := 5

  // ---------------------------------------------------------------------------
  // Condition icons
  // ---------------------------------------------------------------------------

  datatype WeatherIcon = Sun | Moon | Cloud | CloudRain | Zap | CloudSnow

  /** The sixteen condition codes the panel knows. */
  const IconTable: map<string, WeatherIcon> := map[
    "01d" := Sun, "01n" := Moon,
    "02d" := Cloud, "02n" := Cloud,
    "03d" := Cloud, "03n" := Cloud,
    "04d" := Cloud, "04n" := Cloud,
    "09d" := CloudRain, "09n" := CloudRain,
    "10d" := CloudRain, "10n" := CloudRain,
    "11d" := Zap, "11n" := Zap,
    "13d" := CloudSnow, "13n" := CloudSnow
  ]

  /** The icon drawn for a condition code; an unknown code falls back to a cloud. */
  function IconFor(code: string): (icon: WeatherIcon)
    ensures icon == Sun <==> code == "01d"
    ensures icon == Moon <==> code == "01n"
    ensures icon == CloudRain <==> code in {"09d", "09n", "10d", "10n"}
    ensures icon == Zap <==> code in {"11d", "11n"}
    ensures icon == CloudSnow <==> code in {"13d", "13n"}
    ensures icon == Cloud <==>
      code !in {"01d", "01n", "09d", "09n", "10d", "10n", "11d", "11n", "13d", "13n"}
  {
    if code in IconTable then IconTable[code] else Cloud
  }

  // ---------------------------------------------------------------------------
  // Grouping by day: the specification
  // ---------------------------------------------------------------------------

  /** The samples of `items` that fall on `day`, in input order. */
  function OnDay(items: seq<ForecastItem>, dayKey: int -> string, day: string): (r: seq<ForecastItem>)
    ensures |r| <= |items|
  {
    if items == [] then []
    else
      var rest := OnDay(items[..|items| - 1], dayKey, day);
      var last := items[|items| - 1];
      if dayKey(last.dt) == day then rest + [last] else rest
  }

  /** The distinct days of `items` in the order in which each is first seen. */
  function DayKeys(items: seq<ForecastItem>, dayKey: int -> string): (days: seq<string>)
    ensures |days| <= |items|
  {
    if items == [] then []
    else
      var days := DayKeys(items[..|items| - 1], dayKey);
      var day := dayKey(items[|items| - 1].dt);
      if day in days then days else days + [day]
  }

  /** One bucket per day of `days`, holding the samples of that day. */
  function BucketsOf(items: seq<ForecastItem>, dayKey: int -> string, days: seq<string>): seq<Bucket>
  {
    seq(|days|, i requires 0 <= i < |days| => (days[i], OnDay(items, dayKey, days[i])))
  }

  /** The grouped forecast: one bucket per distinct day, in first-seen order. */
  function Grouping(items: seq<ForecastItem>, dayKey: int -> string): seq<Bucket>
  {
    BucketsOf(items, dayKey, DayKeys(items, dayKey))
  }

  /** Total number of samples held by `groups`. */
  function TotalSamples(groups: seq<Bucket>): nat
  {
    if groups == [] then 0
    else TotalSamples(groups[..|groups| - 1]) + |groups[|groups| - 1].1|
  }

  /** No element of `s` occurs twice. */
  predicate Distinct(s: seq<string>)
  {
    forall i, j :: 0 <= i < j < |s| ==> s[i] != s[j]
  }

  /** Day `a` has a sample before the first sample of day `b`. */
  ghost predicate SeenBefore(items: seq<ForecastItem>, dayKey: int -> string, a: string, b: string)
  {
    exists p :: 0 <= p < |items| && dayKey(items[p].dt) == a &&
      forall q :: 0 <= q <= p ==> dayKey(items[q].dt) != b
  }

  /** One more sample extends its day's samples and leaves the other days' alone. */
  lemma OnDaySnoc(items: seq<ForecastItem>, x: ForecastItem, dayKey: int -> string, day: string)
    ensures OnDay(items + [x], dayKey, day)
         == if dayKey(x.dt) == day then OnDay(items, dayKey, day) + [x] else OnDay(items, dayKey, day)
  {
    assert (items + [x])[..|items|] == items;
  }

  /** One more sample adds its day at the end, unless that day was already seen. */
  lemma DayKeysSnoc(items: seq<ForecastItem>, x: ForecastItem, dayKey: int -> string)
    ensures DayKeys(items + [x], dayKey)
         == if dayKey(x.dt) in DayKeys(items, dayKey) then DayKeys(items, dayKey)
            else DayKeys(items, dayKey) + [dayKey(x.dt)]
  {
    assert (items + [x])[..|items|] == items;
  }

  // ---------------------------------------------------------------------------
  // Grouping by day: the accumulation the panel performs
  // ---------------------------------------------------------------------------

  /**
   * The `reduce` of the forecast panel: a dictionary from day to samples,
   * created on a day's first sample and appended to afterwards. `days` is the
   * insertion order of the dictionary's keys, which is the order in which a
   * JavaScript object enumerates keys such as `yyyy-MM-dd` that are not
   * array indices.
   */
  method GroupByDay(forecast: seq<ForecastItem>, dayKey: int -> string)
    returns (days: seq<string>, acc: map<string, seq<ForecastItem>>)
    ensures days == DayKeys(forecast, dayKey)
    ensures forall d :: d in acc <==> d in days
    ensures forall d :: d in acc ==> acc[d] == OnDay(forecast, dayKey, d)
  {
    days, acc := [], map[];
    var i := 0;
    while i < |forecast|
      invariant 0 <= i <= |forecast|
      invariant days == DayKeys(forecast[..i], dayKey)
      invariant forall d :: d in acc <==> d in days
      invariant forall d :: d in acc ==> acc[d] == OnDay(forecast[..i], dayKey, d)
    {
      var item := forecast[i];
      var date := dayKey(item.dt);
      ghost var seen := forecast[..i];
      assert forecast[..i + 1] == seen + [item];
      DayKeysSnoc(seen, item, dayKey);
      forall d ensures OnDay(forecast[..i + 1], dayKey, d)
        == if date == d then OnDay(seen, dayKey, d) + [item] else OnDay(seen, dayKey, d)
      {
        OnDaySnoc(seen, item, dayKey, d);
      }
      if date !in acc {
        OnDayOffDays(seen, dayKey, date);
        acc := acc[date := []];
        days := days + [date];
      }
      acc := acc[date := acc[date] + [item]];
      i := i + 1;
    }
    assert forecast[..i] == forecast;
  }

  /** `Object.entries` of the dictionary, in key insertion order. */
  function Entries(days: seq<string>, acc: map<string, seq<ForecastItem>>): (entries: seq<Bucket>)
    requires forall d :: d in days ==> d in acc
    ensures |entries| == |days|
    ensures forall i :: 0 <= i < |days| ==> entries[i] == (days[i], acc[days[i]])
  {
    if days == [] then []
    else Entries(days[..|days| - 1], acc) + [(days[|days| - 1], acc[days[|days| - 1]])]
  }

  /** `slice(0, 5)`: the first five buckets, or all of them when there are fewer. */
  function FirstDays(groups: seq<Bucket>): (shown: seq<Bucket>)
    ensures |shown| == Min(|groups|, DaysShown)
    ensures shown <= groups
  {
    groups[..Min(|groups|, DaysShown)]
  }

  // ---------------------------------------------------------------------------
  // Per-day aggregates
  // ---------------------------------------------------------------------------

  /** `Math.max` over a non-empty list. */
  function MaxOf(xs: seq<real>): (m: real)
    requires xs != []
    ensures forall i :: 0 <= i < |xs| ==> xs[i] <= m
    ensures exists i :: 0 <= i < |xs| && xs[i] == m
  {
    if |xs| == 1 then xs[0]
    else
      var m := MaxOf(xs[..|xs| - 1]);
      if xs[|xs| - 1] > m then xs[|xs| - 1] else m
  }

  /** `Math.min` over a non-empty list. */
  function MinOf(xs: seq<real>): (m: real)
    requires xs != []
    ensures forall i :: 0 <= i < |xs| ==> m <= xs[i]
    ensures exists i :: 0 <= i < |xs| && xs[i] == m
  {
    if |xs| == 1 then xs[0]
    else
      var m := MinOf(xs[..|xs| - 1]);
      if xs[|xs| - 1] < m then xs[|xs| - 1] else m
  }

  /** The left fold `reduce((sum, x) => sum + x, 0)`. */
  function Sum(xs: seq<real>): real
  {
    if xs == [] then 0.0 else Sum(xs[..|xs| - 1]) + xs[|xs| - 1]
  }

  function TempMaxes(samples: seq<ForecastItem>): (r: seq<real>)
    ensures |r| == |samples| && forall i :: 0 <= i < |samples| ==> r[i] == samples[i].tempMax
  {
    seq(|samples|, i requires 0 <= i < |samples| => samples[i].tempMax)
  }

  function TempMins(samples: seq<ForecastItem>): (r: seq<real>)
    ensures |r| == |samples| && forall i :: 0 <= i < |samples| ==> r[i] == samples[i].tempMin
  {
    seq(|samples|, i requires 0 <= i < |samples| => samples[i].tempMin)
  }

  function Pops(samples: seq<ForecastItem>): (r: seq<real>)
    ensures |r| == |samples| && forall i :: 0 <= i < |samples| ==> r[i] == samples[i].pop
  {
    seq(|samples|, i requires 0 <= i < |samples| => samples[i].pop)
  }

  /** A sum of `n` values that all lie in `[lo, hi]` lies in `[n * lo, n * hi]`. */
  lemma {:induction false} SumBounds(xs: seq<real>, lo: real, hi: real)
    requires forall i :: 0 <= i < |xs| ==> lo <= xs[i] <= hi
    ensures |xs| as real * lo <= Sum(xs) <= |xs| as real * hi
  {
    if xs != [] {
      var init := xs[..|xs| - 1];
      assert forall i :: 0 <= i < |init| ==> init[i] == xs[i];
      SumBounds(init, lo, hi);
      assert |xs| as real * lo == |init| as real * lo + lo;
      assert |xs| as real * hi == |init| as real * hi + hi;
    }
  }

  /** The mean of a non-empty list whose values all lie in `[lo, hi]` lies in `[lo, hi]`. */
  lemma MeanBetween(xs: seq<real>, lo: real, hi: real)
    requires xs != []
    requires forall i :: 0 <= i < |xs| ==> lo <= xs[i] <= hi
    ensures lo <= Sum(xs) / |xs| as real <= hi
  {
    SumBounds(xs, lo, hi);
    DivisionBounds(Sum(xs), |xs| as real, lo, hi);
  }

  /** The arithmetic mean of a non-empty list: it lies between the least and the greatest element. */
  function Mean(xs: seq<real>): (m: real)
    requires xs != []
    ensures m * |xs| as real == Sum(xs)
    ensures MinOf(xs) <= m <= MaxOf(xs)
  {
    MeanBetween(xs, MinOf(xs), MaxOf(xs));
    Sum(xs) / |xs| as real
  }

  lemma DivisionBounds(s: real, n: real, lo: real, hi: real)
    requires n > 0.0 && n * lo <= s <= n * hi
    ensures lo <= s / n <= hi
  {
    assert s / n * n == s;
  }

  /** The warmest maximum of a non-empty list of samples bounds every maximum and is one of them. */
  lemma MaxTempAttained(samples: seq<ForecastItem>)
    requires samples != []
    ensures forall x :: x in samples ==> x.tempMax <= MaxOf(TempMaxes(samples))
    ensures exists x :: x in samples && x.tempMax == MaxOf(TempMaxes(samples))
  {
    var temps := TempMaxes(samples);
    var k :| 0 <= k < |temps| && temps[k] == MaxOf(temps);
    assert samples[k] in samples;
  }

  /** The coldest minimum of a non-empty list of samples bounds every minimum and is one of them. */
  lemma MinTempAttained(samples: seq<ForecastItem>)
    requires samples != []
    ensures forall x :: x in samples ==> MinOf(TempMins(samples)) <= x.tempMin
    ensures exists x :: x in samples && x.tempMin == MinOf(TempMins(samples))
  {
    var temps := TempMins(samples);
    var k :| 0 <= k < |temps| && temps[k] == MinOf(temps);
    assert samples[k] in samples;
  }

  /** The summary of one day: its bucket must hold at least one sample. */
  function Summarize(bucket: Bucket): (day: DaySummary)
    requires bucket.1 != []
    ensures day.date == bucket.0
    ensures forall x :: x in bucket.1 ==> x.tempMax <= day.maxTemp && day.minTemp <= x.tempMin
    ensures exists x :: x in bucket.1 && x.tempMax == day.maxTemp
    ensures exists x :: x in bucket.1 && x.tempMin == day.minTemp
    ensures day.avgPop == Mean(Pops(bucket.1))
    ensures day.icon == bucket.1[0].icon && day.description == bucket.1[0].description
    ensures day.glyph == IconFor(bucket.1[0].icon)
  {
    var samples := bucket.1;
    MaxTempAttained(samples);
    MinTempAttained(samples);
    DaySummary(bucket.0, MaxOf(TempMaxes(samples)), MinOf(TempMins(samples)),
               Mean(Pops(samples)), samples[0].icon, IconFor(samples[0].icon),
               samples[0].description)
  }

  function Summaries(groups: seq<Bucket>): (days: seq<DaySummary>)
    requires forall i :: 0 <= i < |groups| ==> groups[i].1 != []
    ensures |days| == |groups|
    ensures forall i :: 0 <= i < |groups| ==> days[i] == Summarize(groups[i])
  {
    seq(|groups|, i requires 0 <= i < |groups| => Summarize(groups[i]))
  }

  // ---------------------------------------------------------------------------
  // The whole panel
  // ---------------------------------------------------------------------------

  /** The days the forecast panel shows, as a function of its input. */
  function DailyForecast(forecast: seq<ForecastItem>, dayKey: int -> string): seq<DaySummary>
  {
    BucketsNonEmpty(forecast, dayKey);
    Summaries(FirstDays(Grouping(forecast, dayKey)))
  }

  /** The forecast panel's computation: the `reduce`, `Object.entries`, `slice(0, 5)`, and one summary per day. */
  method ForecastDays(forecast: seq<ForecastItem>, dayKey: int -> string) returns (shown: seq<DaySummary>)
    ensures shown == DailyForecast(forecast, dayKey)
    ensures |shown| <= DaysShown
  {
    var days, acc := GroupByDay(forecast, dayKey);
    var entries := Entries(days, acc);
    assert entries == Grouping(forecast, dayKey);
    BucketsNonEmpty(forecast, dayKey);
    shown := Summaries(FirstDays(entries));
  }

  // ---------------------------------------------------------------------------
  // Properties of the grouping
  // ---------------------------------------------------------------------------

  /** A sample is in the bucket of `day` exactly when it is in the input and falls on `day`. */
  lemma {:induction false} OnDayMembers(items: seq<ForecastItem>, dayKey: int -> string, day: string)
    ensures forall x :: x in OnDay(items, dayKey, day) <==> x in items && dayKey(x.dt) == day
  {
    if items != [] {
      var init, last := items[..|items| - 1], items[|items| - 1];
      assert items == init + [last];
      OnDayMembers(init, dayKey, day);
      OnDaySnoc(init, last, dayKey, day);
    }
  }

  /** The bucket keys are exactly the days on which some sample falls. */
  lemma {:induction false} DayKeysAreSampleDays(items: seq<ForecastItem>, dayKey: int -> string)
    ensures forall i :: 0 <= i < |items| ==> dayKey(items[i].dt) in DayKeys(items, dayKey)
    ensures forall d :: d in DayKeys(items, dayKey) ==>
      exists i :: 0 <= i < |items| && dayKey(items[i].dt) == d
  {
    if items != [] {
      var init, last := items[..|items| - 1], items[|items| - 1];
      assert items == init + [last];
      DayKeysAreSampleDays(init, dayKey);
      DayKeysSnoc(init, last, dayKey);
      forall d | d in DayKeys(items, dayKey)
        ensures exists i :: 0 <= i < |items| && dayKey(items[i].dt) == d
      {
        if d in DayKeys(init, dayKey) {
          var i :| 0 <= i < |init| && dayKey(init[i].dt) == d;
          assert items[i] == init[i];
        } else {
          assert dayKey(items[|items| - 1].dt) == d;
        }
      }
      forall i | 0 <= i < |items| ensures dayKey(items[i].dt) in DayKeys(items, dayKey) {
        if i < |init| {
          assert items[i] == init[i];
        }
      }
    }
  }

  /** A day that is not a bucket key has no samples. */
  lemma {:induction false} OnDayOffDays(items: seq<ForecastItem>, dayKey: int -> string, day: string)
    requires day !in DayKeys(items, dayKey)
    ensures OnDay(items, dayKey, day) == []
  {
    if items != [] {
      var init, last := items[..|items| - 1], items[|items| - 1];
      assert items == init + [last];
      DayKeysSnoc(init, last, dayKey);
      OnDaySnoc(init, last, dayKey, day);
      OnDayOffDays(init, dayKey, day);
    }
  }

  /** No day is a bucket key twice. */
  lemma {:induction false} DayKeysDistinct(items: seq<ForecastItem>, dayKey: int -> string)
    ensures Distinct(DayKeys(items, dayKey))
  {
    if items != [] {
      var init, last := items[..|items| - 1], items[|items| - 1];
      assert items == init + [last];
      DayKeysDistinct(init, dayKey);
      DayKeysSnoc(init, last, dayKey);
    }
  }

  /** Every bucket holds at least one sample. */
  lemma BucketsNonEmpty(items: seq<ForecastItem>, dayKey: int -> string)
    ensures forall i :: 0 <= i < |Grouping(items, dayKey)| ==> Grouping(items, dayKey)[i].1 != []
  {
    var days := DayKeys(items, dayKey);
    DayKeysAreSampleDays(items, dayKey);
    forall i | 0 <= i < |days| ensures OnDay(items, dayKey, days[i]) != [] {
      assert days[i] in days;
      var p :| 0 <= p < |items| && dayKey(items[p].dt) == days[i];
      OnDayMembers(items, dayKey, days[i]);
      assert items[p] in items;
      assert items[p] in OnDay(items, dayKey, days[i]);
    }
  }

  /** Each bucket key has a sample before the first sample of any later bucket key. */
  lemma {:induction false} DaysInFirstSeenOrder(items: seq<ForecastItem>, dayKey: int -> string)
    ensures var days := DayKeys(items, dayKey);
      forall i, j :: 0 <= i < j < |days| ==> SeenBefore(items, dayKey, days[i], days[j])
  {
    if items != [] {
      var init, last := items[..|items| - 1], items[|items| - 1];
      assert items == init + [last];
      var ks := DayKeys(init, dayKey);
      DaysInFirstSeenOrder(init, dayKey);
      DayKeysSnoc(init, last, dayKey);
      DayKeysAreSampleDays(init, dayKey);
      var days := DayKeys(items, dayKey);
      forall i, j | 0 <= i < j < |days| ensures SeenBefore(items, dayKey, days[i], days[j]) {
        SeenBeforeStep(init, last, dayKey, ks, i, j);
      }
    }
  }

  /** The inductive step of `DaysInFirstSeenOrder`, for one pair of bucket keys. */
  lemma SeenBeforeStep(init: seq<ForecastItem>, last: ForecastItem, dayKey: int -> string, ks: seq<string>, i: nat, j: nat)
    requires ks == DayKeys(init, dayKey)
    requires forall i', j' :: 0 <= i' < j' < |ks| ==> SeenBefore(init, dayKey, ks[i'], ks[j'])
    requires forall q :: 0 <= q < |init| ==> dayKey(init[q].dt) in ks
    requires forall d :: d in ks ==> exists p :: 0 <= p < |init| && dayKey(init[p].dt) == d
    requires i < j < |DayKeys(init + [last], dayKey)|
    requires DayKeys(init + [last], dayKey) == if dayKey(last.dt) in ks then ks else ks + [dayKey(last.dt)]
    ensures var days := DayKeys(init + [last], dayKey); SeenBefore(init + [last], dayKey, days[i], days[j])
  {
    var items := init + [last];
    var days := DayKeys(items, dayKey);
    if j < |ks| {
      assert SeenBefore(init, dayKey, ks[i], ks[j]);
      var p :| 0 <= p < |init| && dayKey(init[p].dt) == ks[i] &&
        forall q :: 0 <= q <= p ==> dayKey(init[q].dt) != ks[j];
      assert items[p] == init[p];
      assert forall q :: 0 <= q <= p ==> items[q] == init[q];
    } else {
      var day := dayKey(last.dt);
      assert day !in ks && days[j] == day;
      assert ks[i] in ks;
      var p :| 0 <= p < |init| && dayKey(init[p].dt) == ks[i];
      assert items[p] == init[p];
      forall q | 0 <= q <= p ensures dayKey(items[q].dt) != day {
        assert items[q] == init[q];
        assert dayKey(init[q].dt) in ks;
      }
    }
  }

  /** Adding one sample to the input adds one sample to the buckets of `days` if its day is among them. */
  lemma {:induction false} TotalSamplesSnoc(items: seq<ForecastItem>, x: ForecastItem, dayKey: int -> string, days: seq<string>)
    requires Distinct(days)
    ensures TotalSamples(BucketsOf(items + [x], dayKey, days))
         == TotalSamples(BucketsOf(items, dayKey, days)) + (if dayKey(x.dt) in days then 1 else 0)
  {
    if days != [] {
      var ds, d := days[..|days| - 1], days[|days| - 1];
      assert days == ds + [d];
      TotalSamplesSnoc(items, x, dayKey, ds);
      assert BucketsOf(items + [x], dayKey, days)[..|ds|] == BucketsOf(items + [x], dayKey, ds);
      assert BucketsOf(items, dayKey, days)[..|ds|] == BucketsOf(items, dayKey, ds);
      OnDaySnoc(items, x, dayKey, d);
    }
  }

  /** Nothing is dropped or duplicated: the bucket sizes add up to the number of samples. */
  lemma {:induction false} GroupingKeepsEverySample(items: seq<ForecastItem>, dayKey: int -> string)
    ensures TotalSamples(Grouping(items, dayKey)) == |items|
  {
    if items != [] {
      var init, x := items[..|items| - 1], items[|items| - 1];
      assert items == init + [x];
      var ks := DayKeys(init, dayKey);
      var d := dayKey(x.dt);
      GroupingKeepsEverySample(init, dayKey);
      DayKeysDistinct(init, dayKey);
      TotalSamplesSnoc(init, x, dayKey, ks);
      DayKeysSnoc(init, x, dayKey);
      if d !in ks {
        var days := ks + [d];
        assert BucketsOf(items, dayKey, days)[..|ks|] == BucketsOf(items, dayKey, ks);
        OnDaySnoc(init, x, dayKey, d);
        OnDayOffDays(init, dayKey, d);
      }
    }
  }

  /** The empty forecast has no days. */
  lemma EmptyForecastHasNoDays(dayKey: int -> string)
    ensures Grouping([], dayKey) == [] && DailyForecast([], dayKey) == []
  {
  }

  /**
   * The panel shows the first min(5, number of distinct days) days, in
   * first-seen order, each summarising exactly the samples of its day.
   */
  lemma DailyForecastShowsFirstDays(forecast: seq<ForecastItem>, dayKey: int -> string)
    ensures var days := DayKeys(forecast, dayKey);
      var shown := DailyForecast(forecast, dayKey);
      && |shown| == Min(|days|, DaysShown)
      && forall i :: 0 <= i < |shown| ==>
           OnDay(forecast, dayKey, days[i]) != [] &&
           shown[i] == Summarize((days[i], OnDay(forecast, dayKey, days[i])))
  {
    BucketsNonEmpty(forecast, dayKey);
  }
}
