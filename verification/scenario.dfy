/** The three-sample fixture of the repository's tests, pushed through the
    whole pipeline: two hours on 2024-01-01, one hour on 2024-01-02. */
module Scenario {
  import opened Outcomes
  import opened Tables
  import opened Grouping
  import opened Statistics
  import opened Extremes
  import opened Reductions

  const Fixture := RawSeries(
    ["2024-01-01T00:00", "2024-01-01T01:00", "2024-01-02T00:00"],
    [10.0, 12.0, 5.0],
    [2.0, 3.0, 1.0],
    [6.0, 7.0, 3.0])

  const Day1 := "2024-01-01"
  const Day2 := "2024-01-02"

  /** The expected grouping of the fixture. */
  const Buckets := [
    Entry(Day1, Bucket([10.0, 12.0], [2.0, 3.0], [6.0, 7.0])),
    Entry(Day2, Bucket([5.0], [1.0], [3.0]))]

  /** The date of a timestamp in the repository's own test. */
  lemma ExtractDateExample()
    ensures ExtractDate("2024-01-01T12:00") == "2024-01-01"
  {
    assert 'T' !in Day1;
    ExtractDateOfStamp(Day1, "12:00");
    assert Day1 + "T" + "12:00" == "2024-01-01T12:00";
  }

  /** The date of a `day T clock` timestamp. */
  lemma StampOnDay(stamp: string, day: string, clock: string)
    requires 'T' !in day
    requires stamp == day + "T" + clock
    ensures ExtractDate(stamp) == day
  {
    ExtractDateOfStamp(day, clock);
  }

  /** Grouping one more sample is one more pass of the loop body. */
  lemma GroupSnoc(ss: seq<Sample>, n: nat)
    requires n < |ss|
    ensures Group(ss[..n + 1]) == AddSample(Group(ss[..n]), ss[n])
  {
    assert ss[..n + 1][..n] == ss[..n];
  }

  /** A sample on a date not yet seen opens a new bucket at the end. */
  lemma AddNew(g: Table<Bucket>, s: Sample)
    requires forall j :: 0 <= j < |g| ==> g[j].date != s.Date()
    ensures AddSample(g, s) == g + [Entry(s.Date(), Bucket([s.temp], [s.wind], [s.soil]))]
  {
    assert EmptyBucket.Append(s) == Bucket([s.temp], [s.wind], [s.soil]);
  }

  /** A sample on the date of the first bucket extends that bucket. */
  lemma AddToFirst(g: Table<Bucket>, s: Sample)
    requires |g| > 0 && g[0].date == s.Date()
    ensures AddSample(g, s) == g[0 := Entry(g[0].date, g[0].value.Append(s))]
  {
  }

  /** The fixture's readings for any two distinct days: two hours on the
      first day followed by one hour on the second. Stated over variables so
      that the verifier works from `ExtractDate`'s contract. */
  ghost predicate TwoDays(ss: seq<Sample>, d1: string, d2: string) {
    && d1 != d2 && |ss| == 3
    && ss[0].Date() == d1 && ss[1].Date() == d1 && ss[2].Date() == d2
    && ss[0].temp == 10.0 && ss[0].wind == 2.0 && ss[0].soil == 6.0
    && ss[1].temp == 12.0 && ss[1].wind == 3.0 && ss[1].soil == 7.0
    && ss[2].temp == 5.0 && ss[2].wind == 1.0 && ss[2].soil == 3.0
  }

  /** After the first hour: one bucket. */
  lemma TwoDaysFirstHour(ss: seq<Sample>, d1: string, d2: string)
    requires TwoDays(ss, d1, d2)
    ensures Group(ss[..1]) == [Entry(d1, Bucket([10.0], [2.0], [6.0]))]
  {
    GroupSnoc(ss, 0);
    assert ss[..0] == [];
    AddNew([], ss[0]);
  }

  /** Appending a sample to a bucket with one reading per signal. */
  lemma AppendToSingle(t: real, w: real, o: real, s: Sample)
    ensures Bucket([t], [w], [o]).Append(s) == Bucket([t, s.temp], [w, s.wind], [o, s.soil])
  {
  }

  /** A sample on the date of a lone one-reading bucket extends it. */
  lemma ExtendSingle(ss: seq<Sample>, n: nat, d: string, t: real, w: real, o: real)
    requires n < |ss| && ss[n].Date() == d
    requires Group(ss[..n]) == [Entry(d, Bucket([t], [w], [o]))]
    ensures Group(ss[..n + 1]) == [Entry(d, Bucket([t, ss[n].temp], [w, ss[n].wind], [o, ss[n].soil]))]
  {
    GroupSnoc(ss, n);
    AddToFirst(Group(ss[..n]), ss[n]);
    AppendToSingle(t, w, o, ss[n]);
  }

  /** After the second hour: the same bucket, extended. */
  lemma TwoDaysSecondHour(ss: seq<Sample>, d1: string, d2: string)
    requires TwoDays(ss, d1, d2)
    ensures Group(ss[..2]) == [Entry(d1, Bucket([10.0, 12.0], [2.0, 3.0], [6.0, 7.0]))]
  {
    TwoDaysFirstHour(ss, d1, d2);
    ExtendSingle(ss, 1, d1, 10.0, 2.0, 6.0);
  }

  /** After the third hour: a second bucket for the new day. */
  lemma GroupTwoDays(ss: seq<Sample>, d1: string, d2: string)
    requires TwoDays(ss, d1, d2)
    ensures Group(ss) == [
      Entry(d1, Bucket([10.0, 12.0], [2.0, 3.0], [6.0, 7.0])),
      Entry(d2, Bucket([5.0], [1.0], [3.0]))]
  {
    TwoDaysSecondHour(ss, d1, d2);
    var g2 := [Entry(d1, Bucket([10.0, 12.0], [2.0, 3.0], [6.0, 7.0]))];
    GroupSnoc(ss, 2);
    assert ss[..3] == ss;
    AddNew(g2, ss[2]);
  }

  /** `group_by_date` on any series with the fixture's layout. */
  lemma GroupByDateTwoDays(raw: RawSeries, d1: string, d2: string)
    requires 'T' !in d1 && 'T' !in d2 && d1 != d2
    requires raw.time == [d1 + "T" + "00:00", d1 + "T" + "01:00", d2 + "T" + "00:00"]
    requires raw.temperature == Fixture.temperature
    requires raw.windSpeed == Fixture.windSpeed
    requires raw.soilTemperature == Fixture.soilTemperature
    ensures GroupByDate(raw) == Success([
      Entry(d1, Bucket([10.0, 12.0], [2.0, 3.0], [6.0, 7.0])),
      Entry(d2, Bucket([5.0], [1.0], [3.0]))])
  {
    StampOnDay(raw.time[0], d1, "00:00");
    StampOnDay(raw.time[1], d1, "01:00");
    StampOnDay(raw.time[2], d2, "00:00");
    GroupTwoDays(raw.Samples(), d1, d2);
  }

  /** `group_by_date` on the fixture: two buckets in first-seen order. */
  lemma GroupFixture()
    ensures GroupByDate(Fixture) == Success(Buckets)
  {
    assert 'T' !in Day1;
    assert 'T' !in Day2;
    assert Fixture.time[0] == Day1 + "T" + "00:00";
    assert Fixture.time[1] == Day1 + "T" + "01:00";
    assert Fixture.time[2] == Day2 + "T" + "00:00";
    GroupByDateTwoDays(Fixture, Day1, Day2);
  }

  /** The statistics of a two-reading list. */
  lemma SummarizeTwo(a: real, b: real)
    requires a < b
    ensures Summarize([a, b]) == Summary(b, a, (a + b) / 2.0)
  {
    assert [a, b][..1] == [a];
    assert [a][..0] == [];
    assert Sum([a]) == a;
    assert Sum([a, b]) == a + b;
  }

  /** The statistics of a one-reading list. */
  lemma SummarizeOne(a: real)
    ensures Summarize([a]) == Summary(a, a, a)
  {
  }

  /** The expected statistics of the fixture, in exact arithmetic. */
  const Stats := [
    Entry(Day1, DayStats(Summary(12.0, 10.0, 11.0), Summary(3.0, 2.0, 2.5), Summary(7.0, 6.0, 6.5))),
    Entry(Day2, DayStats(Summary(5.0, 5.0, 5.0), Summary(1.0, 1.0, 1.0), Summary(3.0, 3.0, 3.0)))]

  /** `calculate_stats` on the fixture's buckets. The buckets are passed in
      as `g` so that the verifier works from the reducers' contracts. */
  lemma StatsFixture(g: Table<Bucket>)
    requires g == Buckets
    ensures CalculateStats(g) == Success(Stats)
  {
    SummarizeTwo(10.0, 12.0);
    SummarizeTwo(2.0, 3.0);
    SummarizeTwo(6.0, 7.0);
    SummarizeOne(5.0);
    SummarizeOne(1.0);
    SummarizeOne(3.0);
    assert StatsOf(g[0].value) == Stats[0].value;
    assert StatsOf(g[1].value) == Stats[1].value;
    var tail := g[1..];
    assert CalculateStats(tail[1..]) == Success([]) by {
      assert tail[1..] == [];
    }
    assert CalculateStats(tail) == Success([Stats[1]]) by {
      assert [Stats[1]] + [] == [Stats[1]];
    }
    assert g[0].value.Filled();
    assert [Stats[0]] + [Stats[1]] == Stats;
  }

  /** On the fixture's statistics the first day has the highest and the
      second day the lowest mean temperature; the test's spot checks are
      `avg_temp` 11.0 on the first day and `max_soil` 3.0 on the second. */
  lemma ExtremesFixture(t: Table<DayStats>)
    requires t == Stats
    ensures t[0].value.Get(StatKey(Avg, Temp)) == 11.0
    ensures t[1].value.Get(StatKey(Max, Soil)) == 3.0
    ensures ExtremeDates(t, "avg_temp") == Success((Day1, Day2))
  {
  }
}
