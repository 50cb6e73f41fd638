module WeatherReport {
  import opened Wrappers
  import opened WeatherRecommendations

  /** One forecast entry: its date (absent when the entry has no `dt_txt`), its condition and its raw readings. */
  datatype ForecastEntry = ForecastEntry(
    day: Option<int>,
    condition: string,
    tempKelvin: real,
    windSpeed: real,
    humidity: real,
    pop: real)

  /** The rounded figures of one day. */
  datatype DayStats = DayStats(tempMin: int, tempMax: int, wind: real, humidity: int, precipitation: int)

  datatype ReportEntry = ReportEntry(day: int, condition: string, stats: DayStats, recommendation: string)

  /** The forecast entries dated `day`, in forecast order. */
  function EntriesOn(forecast: seq<ForecastEntry>, day: int): (entries: seq<ForecastEntry>)
    ensures |entries| <= |forecast|
    decreases |forecast|
  {
    if |forecast| == 0 then []
    else
      var last := forecast[|forecast| - 1];
      assert forecast == forecast[..|forecast| - 1] + [last];
      EntriesOn(forecast[..|forecast| - 1], day) + (if last.day == Some(day) then [last] else [])
  }

  /** The banded observation of a day with these figures, and its recommendation. */
  function Summary(day: int, condition: string, stats: DayStats, recommend: Observation -> string): (entry: ReportEntry)
    ensures entry.day == day && entry.condition == condition && entry.stats == stats
    ensures entry.recommendation == recommend(Observation(condition, TempBandOf(stats.tempMax), HumidityBandOf(stats.humidity), WindBandOf(stats.wind)))
  {
    var obs := Observation(condition, TempBandOf(stats.tempMax), HumidityBandOf(stats.humidity), WindBandOf(stats.wind));
    ReportEntry(day, condition, stats, recommend(obs))
  }

  /** The entries on a day are exactly the forecast's entries with that date. */
  lemma {:induction false} EntriesOnMembers(forecast: seq<ForecastEntry>, day: int, e: ForecastEntry)
    ensures e in EntriesOn(forecast, day) <==> e in forecast && e.day == Some(day)
    decreases |forecast|
  {
    if |forecast| > 0 {
      var init := forecast[..|forecast| - 1];
      assert forecast == init + [forecast[|forecast| - 1]];
      EntriesOnMembers(init, day, e);
    }
  }

  /** The report entry for one day, or none when the forecast has nothing for that day. */
  function DayEntry(forecast: seq<ForecastEntry>, day: int, summarize: seq<ForecastEntry> -> DayStats, recommend: Observation -> string): (r: Option<ReportEntry>)
    ensures r.Some? <==> |EntriesOn(forecast, day)| > 0
    ensures r.Some? ==> r.value.day == day && r.value.condition == EntriesOn(forecast, day)[0].condition
    ensures r.Some? ==> r.value.stats == summarize(EntriesOn(forecast, day))
    ensures r.Some? ==>
      r.value.recommendation == recommend(Observation(r.value.condition, TempBandOf(r.value.stats.tempMax), HumidityBandOf(r.value.stats.humidity), WindBandOf(r.value.stats.wind)))
  {
    var entries := EntriesOn(forecast, day);
    if |entries| == 0 then None
    else
      Some(Summary(day, entries[0].condition, summarize(entries), recommend))
  }

  /** Position `i` holds the forecast's first entry dated `day`. */
  predicate FirstOnDay(forecast: seq<ForecastEntry>, day: int, i: nat) {
    i < |forecast| && forecast[i].day == Some(day) && forall i' :: 0 <= i' < i ==> forecast[i'].day != Some(day)
  }

  /** The first entry of a day is the first entry of the forecast with that date. */
  lemma {:induction false} FirstEntryOn(forecast: seq<ForecastEntry>, day: int)
    requires |EntriesOn(forecast, day)| > 0
    ensures exists i: nat :: FirstOnDay(forecast, day, i) && forecast[i] == EntriesOn(forecast, day)[0]
    decreases |forecast|
  {
    var init := forecast[..|forecast| - 1];
    if |EntriesOn(init, day)| > 0 {
      FirstEntryOn(init, day);
      var i: nat :| FirstOnDay(init, day, i) && init[i] == EntriesOn(init, day)[0];
      assert FirstOnDay(forecast, day, i);
    } else {
      forall i' | 0 <= i' < |init|
        ensures init[i'].day != Some(day)
      {
        EntriesOnMembers(init, day, init[i']);
      }
      assert FirstOnDay(forecast, day, |forecast| - 1);
    }
  }

  /**
   * The entries of the first `count` days from `startDay`, in day order, where
   * `entryOf` gives each day's entry or none for a day that is skipped.
   */
  function DaysReport(entryOf: int -> Option<ReportEntry>, startDay: int, count: nat): (r: seq<ReportEntry>)
    ensures |r| <= count
    ensures forall k :: 0 <= k < |r| ==> exists d :: startDay <= d < startDay + count && entryOf(d) == Some(r[k])
    decreases count
  {
    if count == 0 then []
    else
      var earlier := DaysReport(entryOf, startDay, count - 1);
      match entryOf(startDay + count - 1)
      case None => earlier
      case Some(entry) => earlier + [entry]
  }

  /** `entryOf` labels each entry it gives with the day it was asked for. */
  ghost predicate DayLabelled(entryOf: int -> Option<ReportEntry>) {
    forall d :: entryOf(d).Some? ==> entryOf(d).value.day == d
  }

  /** Every entry's day lies in `[startDay, startDay + count)`. */
  predicate DaysWithin(r: seq<ReportEntry>, startDay: int, count: nat) {
    forall k :: 0 <= k < |r| ==> startDay <= r[k].day < startDay + count
  }

  /** Days strictly increase along the report. */
  predicate Ascending(r: seq<ReportEntry>) {
    forall a, b :: 0 <= a < b < |r| ==> r[a].day < r[b].day
  }

  /** The report has an entry for `day`. */
  predicate Lists(r: seq<ReportEntry>, day: int) {
    exists k :: 0 <= k < |r| && r[k].day == day
  }

  /** Each entry is the one `entryOf` gives for its day. */
  predicate EntriesOfTheirDays(r: seq<ReportEntry>, entryOf: int -> Option<ReportEntry>) {
    forall k :: 0 <= k < |r| ==> entryOf(r[k].day) == Some(r[k])
  }

  /** Appending the entry of the day after the last one keeps the three report properties. */
  lemma AppendDay(r: seq<ReportEntry>, entry: ReportEntry, startDay: int, count: nat, entryOf: int -> Option<ReportEntry>)
    requires DaysWithin(r, startDay, count) && Ascending(r) && EntriesOfTheirDays(r, entryOf)
    requires entry.day == startDay + count && entryOf(entry.day) == Some(entry)
    ensures DaysWithin(r + [entry], startDay, count + 1)
    ensures Ascending(r + [entry])
    ensures EntriesOfTheirDays(r + [entry], entryOf)
  {
  }

  /** The report's entries are in day order, each inside the trip and each the entry of its own day. */
  lemma {:induction false} DaysReportOrdered(entryOf: int -> Option<ReportEntry>, startDay: int, count: nat)
    requires DayLabelled(entryOf)
    ensures DaysWithin(DaysReport(entryOf, startDay, count), startDay, count)
    ensures Ascending(DaysReport(entryOf, startDay, count))
    ensures EntriesOfTheirDays(DaysReport(entryOf, startDay, count), entryOf)
    decreases count
  {
    if count > 0 {
      DaysReportOrdered(entryOf, startDay, count - 1);
      var earlier := DaysReport(entryOf, startDay, count - 1);
      var entry := entryOf(startDay + count - 1);
      if entry.Some? {
        AppendDay(earlier, entry.value, startDay, count - 1, entryOf);
      }
    }
  }

  /** A day is in the report exactly when it lies inside the range and `entryOf` gives an entry for it. */
  lemma {:induction false} DaysReportCoverage(entryOf: int -> Option<ReportEntry>, startDay: int, count: nat, day: int)
    requires DayLabelled(entryOf)
    ensures Lists(DaysReport(entryOf, startDay, count), day) <==> startDay <= day < startDay + count && entryOf(day).Some?
    decreases count
  {
    var r := DaysReport(entryOf, startDay, count);
    DaysReportOrdered(entryOf, startDay, count);
    if Lists(r, day) {
      var k :| 0 <= k < |r| && r[k].day == day;
      assert entryOf(r[k].day) == Some(r[k]);
    }
    if count > 0 && startDay <= day < startDay + count && entryOf(day).Some? {
      var earlier := DaysReport(entryOf, startDay, count - 1);
      assert |earlier| <= |r| && forall j :: 0 <= j < |earlier| ==> r[j] == earlier[j];
      if day == startDay + count - 1 {
        assert r[|r| - 1].day == day;
      } else {
        DaysReportCoverage(entryOf, startDay, count - 1, day);
        var k :| 0 <= k < |earlier| && earlier[k].day == day;
        assert 0 <= k < |r| && r[k].day == day;

      }
    }
  }

  /** `DayEntry` labels the entry it builds with its day. */
  lemma DayEntryLabelled(forecast: seq<ForecastEntry>, summarize: seq<ForecastEntry> -> DayStats, recommend: Observation -> string)
    ensures DayLabelled(DayEntries(forecast, summarize, recommend))
  {
  }

  /** `DayEntry` as a function of the day. */
  function DayEntries(forecast: seq<ForecastEntry>, summarize: seq<ForecastEntry> -> DayStats, recommend: Observation -> string): int -> Option<ReportEntry> {
    d => DayEntry(forecast, d, summarize, recommend)
  }

  /** The report for the first `count` days from `startDay`, skipping days without forecast entries. */
  function Report(forecast: seq<ForecastEntry>, startDay: int, count: nat, summarize: seq<ForecastEntry> -> DayStats, recommend: Observation -> string): (r: seq<ReportEntry>)
    ensures |r| <= count
  {
    DaysReport(DayEntries(forecast, summarize, recommend), startDay, count)
  }

  /** The trip report lists its days in order, each inside the trip, each with the entry built from that day's forecast. */
  lemma ReportDays(forecast: seq<ForecastEntry>, startDay: int, count: nat, summarize: seq<ForecastEntry> -> DayStats, recommend: Observation -> string)
    ensures var r := Report(forecast, startDay, count, summarize, recommend);
      DaysWithin(r, startDay, count) && Ascending(r) &&
      forall k :: 0 <= k < |r| ==> DayEntry(forecast, r[k].day, summarize, recommend) == Some(r[k])
  {
    var entryOf := DayEntries(forecast, summarize, recommend);
    DayEntryLabelled(forecast, summarize, recommend);
    DaysReportOrdered(entryOf, startDay, count);
  }

  /** A day is in the trip report exactly when it lies inside the trip and the forecast has entries for it. */
  lemma ReportCoverage(forecast: seq<ForecastEntry>, startDay: int, count: nat, summarize: seq<ForecastEntry> -> DayStats, recommend: Observation -> string, day: int)
    ensures Lists(Report(forecast, startDay, count, summarize, recommend), day) <==>
            startDay <= day < startDay + count && |EntriesOn(forecast, day)| > 0
  {
    var entryOf := DayEntries(forecast, summarize, recommend);
    DayEntryLabelled(forecast, summarize, recommend);
    DaysReportCoverage(entryOf, startDay, count, day);
  }

  /** A report is sent exactly when some day of the trip has forecast entries. */
  lemma ReportNonEmpty(forecast: seq<ForecastEntry>, startDay: int, count: nat, summarize: seq<ForecastEntry> -> DayStats, recommend: Observation -> string)
    ensures |Report(forecast, startDay, count, summarize, recommend)| > 0 <==>
      exists day :: startDay <= day < startDay + count && |EntriesOn(forecast, day)| > 0
  {
    var r := Report(forecast, startDay, count, summarize, recommend);
    if |r| > 0 {
      ReportCoverage(forecast, startDay, count, summarize, recommend, r[0].day);
    }
    if exists day :: startDay <= day < startDay + count && |EntriesOn(forecast, day)| > 0 {
      var day :| startDay <= day < startDay + count && |EntriesOn(forecast, day)| > 0;
      ReportCoverage(forecast, startDay, count, summarize, recommend, day);
    }
  }

  /** `trip['duration'] or 1`: a missing or zero duration counts as one day; a negative one as none. */
  function DayCount(duration: Option<int>): (days: nat)
    ensures days == 0 <==> duration.Some? && duration.value < 0
    ensures duration.Some? && duration.value > 0 ==> days == duration.value
    ensures duration.None? || duration == Some(0) ==> days == 1
  {
    if duration.None? || duration.value == 0 then 1
    else if duration.value < 0 then 0
    else duration.value
  }

  /** The scan over the forecast for one day: the matching entries, and the first one's condition. */
  method CollectDay(forecast: seq<ForecastEntry>, day: int) returns (entries: seq<ForecastEntry>, condition: Option<string>)
    ensures entries == EntriesOn(forecast, day)
    ensures condition.Some? <==> |entries| > 0
    ensures condition.Some? ==> condition.value == entries[0].condition
  {
    entries := [];
    condition := None;
    var i := 0;
    while i < |forecast|
      invariant 0 <= i <= |forecast|
      invariant entries == EntriesOn(forecast[..i], day)
      invariant condition.Some? <==> |entries| > 0
      invariant condition.Some? ==> condition.value == entries[0].condition
    {
      var e := forecast[i];
      assert forecast[..i + 1][..i] == forecast[..i];
      if e.day == Some(day) {
        entries := entries + [e];
        if condition.None? {
          condition := Some(e.condition);
        }
      }
      i := i + 1;
    }
    assert forecast[..i] == forecast;
  }

  /**
   * The per-trip part of `handler`: one report entry per trip day that has
   * forecast entries, and whether a message is enqueued (only when the
   * report is not empty).
   */
  method WriteDays(forecast: seq<ForecastEntry>, startDay: int, duration: Option<int>, summarize: seq<ForecastEntry> -> DayStats, recommend: Observation -> string)
    returns (report: seq<ReportEntry>, enqueue: bool)
    ensures report == Report(forecast, startDay, DayCount(duration), summarize, recommend)
    ensures enqueue <==> |report| > 0
  {
    var count := if duration.None? || duration.value == 0 then 1 else duration.value;
    report := [];
    var i := 0;
    while i < count
      invariant 0 <= i && (count >= 0 ==> i <= count)
      invariant i <= DayCount(duration)
      invariant report == Report(forecast, startDay, i, summarize, recommend)
    {
      var day := startDay + i;
      var entries, condition := CollectDay(forecast, day);
      ghost var dayEntry := DayEntry(forecast, day, summarize, recommend);
      if condition.Some? {
        var entry := Summary(day, condition.value, summarize(entries), recommend);
        assert dayEntry == Some(entry);
        report := report + [entry];
      } else {
        assert dayEntry.None?;
      }
      assert report == Report(forecast, startDay, i + 1, summarize, recommend);
      i := i + 1;
    }
    enqueue := |report| > 0;
  }

  /** `handler`'s work for one trip, with the report's recommendation table. */
  method WriteReport(forecast: seq<ForecastEntry>, startDay: int, duration: Option<int>, summarize: seq<ForecastEntry> -> DayStats)
    returns (report: seq<ReportEntry>, enqueue: bool)
    ensures report == Report(forecast, startDay, DayCount(duration), summarize, Recommend)
    ensures enqueue <==> |report| > 0
  {
    report, enqueue := WriteDays(forecast, startDay, duration, summarize, Recommend);
  }
}
