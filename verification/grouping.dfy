/** `extract_date` and `group_by_date`: hourly samples are bucketed by the
    calendar date of their timestamp, in first-seen order. */
module Grouping {
  import opened Outcomes
  import opened Tables

  /** `timestamp.split("T")[0]`: the text before the first `T`, or the whole
      timestamp when it holds no `T`. */
  function ExtractDate(timestamp: string): (date: string)
    ensures date <= timestamp
    ensures 'T' !in date
    ensures |date| < |timestamp| ==> timestamp[|date|] == 'T'
  {
    if |timestamp| == 0 || timestamp[0] == 'T' then ""
    else [timestamp[0]] + ExtractDate(timestamp[1..])
  }

  /** The three facts `ExtractDate` ensures single out exactly one prefix. */
  lemma ExtractDateUnique(timestamp: string, p: string)
    requires p <= timestamp
    requires 'T' !in p
    requires |p| < |timestamp| ==> timestamp[|p|] == 'T'
    ensures p == ExtractDate(timestamp)
  {
  }

  /** An ISO-8601 `date T time` stamp yields its date part. */
  lemma ExtractDateOfStamp(date: string, time: string)
    requires 'T' !in date
    ensures ExtractDate(date + "T" + time) == date
  {
    var stamp := date + "T" + time;
    assert stamp[|date|] == 'T';
    assert date <= stamp;
    ExtractDateUnique(stamp, date);
  }

  /** A date has no `T` left, so extracting again changes nothing. */
  lemma ExtractDateIdempotent(timestamp: string)
    ensures ExtractDate(ExtractDate(timestamp)) == ExtractDate(timestamp)
  {
  }

  /** The three measured quantities: `temperature_2m`, `wind_speed_10m`
      and `soil_temperature_0cm`. */
  datatype Signal = Temp | Wind | Soil

  /** Index `i` across the four parallel arrays of the hourly response. */
  datatype Sample = Sample(time: string, temp: real, wind: real, soil: real) {
    function Date(): string {
      ExtractDate(time)
    }

    function Reading(sig: Signal): real {
      match sig
      case Temp => temp
      case Wind => wind
      case Soil => soil
    }
  }

  /** One day's `{"temp": [...], "wind": [...], "soil": [...]}` lists. */
  datatype Bucket = Bucket(temp: seq<real>, wind: seq<real>, soil: seq<real>) {
    function Readings(sig: Signal): seq<real> {
      match sig
      case Temp => temp
      case Wind => wind
      case Soil => soil
    }

    /** Every list has a reading, so `max`, `min` and the mean are defined. */
    predicate Filled() {
      |temp| > 0 && |wind| > 0 && |soil| > 0
    }

    /** The three lists have one entry per sample of the day. */
    ghost predicate Balanced() {
      |temp| == |wind| == |soil|
    }

    /** The three `append` calls for one sample. */
    function Append(s: Sample): (b: Bucket)
      ensures forall sig :: b.Readings(sig) == Readings(sig) + [s.Reading(sig)]
    {
      Bucket(temp + [s.temp], wind + [s.wind], soil + [s.soil])
    }
  }

  /** The bucket created on a date's first encounter. */
  const EmptyBucket := Bucket([], [], [])

  /** The `hourly` object: four parallel arrays indexed by hour. */
  datatype RawSeries = RawSeries(
    time: seq<string>,
    temperature: seq<real>,
    windSpeed: seq<real>,
    soilTemperature: seq<real>)
  {
    /** Every index of `time` can be looked up in the value arrays (longer
        value arrays are fine: their tails are never read). */
    predicate Covered() {
      |time| <= |temperature| && |time| <= |windSpeed| && |time| <= |soilTemperature|
    }

    /** The array a signal's readings come from. */
    function Column(sig: Signal): seq<real> {
      match sig
      case Temp => temperature
      case Wind => windSpeed
      case Soil => soilTemperature
    }

    /** Sample `i` gathers index `i` of every array. */
    function Samples(): (ss: seq<Sample>)
      requires Covered()
      ensures |ss| == |time|
      ensures forall i, sig :: 0 <= i < |time| ==>
        ss[i].time == time[i] && ss[i].Reading(sig) == Column(sig)[i]
    {
      seq(|time|, i requires 0 <= i < |time| =>
        Sample(time[i], temperature[i], windSpeed[i], soilTemperature[i]))
    }
  }

  /** The dates of `ss`, one per sample, in sample order. */
  function SampleDates(ss: seq<Sample>): (ds: seq<string>)
    ensures |ds| == |ss|
    ensures forall i :: 0 <= i < |ss| ==> ds[i] == ss[i].Date()
  {
    seq(|ss|, i requires 0 <= i < |ss| => ss[i].Date())
  }

  /** The readings of `sig` taken on date `d`, in sample order: the
      reference a bucket is compared against. */
  function Select(ss: seq<Sample>, d: string, sig: Signal): seq<real> {
    if |ss| == 0 then []
    else
      var last := ss[|ss| - 1];
      Select(ss[..|ss| - 1], d, sig) + (if last.Date() == d then [last.Reading(sig)] else [])
  }

  /** Position of the first occurrence of `d` in `ds`. */
  function FirstIndex(ds: seq<string>, d: string): (i: nat)
    requires d in ds
    ensures i < |ds| && ds[i] == d
    ensures d !in ds[..i]
  {
    if ds[0] == d then 0
    else
      var i := FirstIndex(ds[1..], d);
      assert ds[..i + 1] == [ds[0]] + ds[1..][..i];
      1 + i
  }

  /** Total number of `sig` readings held across all buckets. */
  function Count(g: Table<Bucket>, sig: Signal): nat {
    if |g| == 0 then 0
    else Count(g[..|g| - 1], sig) + |g[|g| - 1].value.Readings(sig)|
  }

  /** One pass of the loop body of `group_by_date`: append the sample's
      three readings to its date's bucket, creating the bucket at the end
      on first encounter. */
  function AddSample(g: Table<Bucket>, s: Sample): (g': Table<Bucket>)
    ensures |g'| == if Find(g, s.Date()) < |g| then |g| else |g| + 1
    ensures forall j :: 0 <= j < |g| && j != Find(g, s.Date()) ==> g'[j] == g[j]
    ensures Find(g, s.Date()) < |g'| && g'[Find(g, s.Date())].date == s.Date()
    ensures forall sig :: (g'[Find(g, s.Date())].value.Readings(sig) ==
      (if Find(g, s.Date()) < |g| then g[Find(g, s.Date())].value.Readings(sig) else []) + [s.Reading(sig)])
  {
    var k := Find(g, s.Date());
    if k < |g| then g[k := Entry(g[k].date, g[k].value.Append(s))]
    else g + [Entry(s.Date(), EmptyBucket.Append(s))]
  }

  /** `group_by_date` over samples already zipped from the four arrays. */
  function Group(ss: seq<Sample>): (g: Table<Bucket>)
    ensures DistinctDates(g)
    ensures forall k :: 0 <= k < |g| ==> g[k].value.Filled() && g[k].value.Balanced()
  {
    if |ss| == 0 then []
    else AddSample(Group(ss[..|ss| - 1]), ss[|ss| - 1])
  }

  /** `group_by_date(data)`. Indexing a value array shorter than `time`
      raises, so the whole call fails; otherwise every sample lands in a
      bucket whose date occurs in `time`, and every date of `time` has one. */
  function GroupByDate(raw: RawSeries): (r: Result<Table<Bucket>>)
    ensures r.Failure? <==> !raw.Covered()
    ensures r.Failure? ==> r.error == ShortColumn
    ensures r.Success? ==> DistinctDates(r.value)
    ensures r.Success? ==> forall k :: 0 <= k < |r.value| ==> r.value[k].value.Filled()
    ensures r.Success? ==> forall d :: d in Dates(r.value) <==> d in SampleDates(raw.Samples())
    ensures r.Success? ==> forall sig :: Count(r.value, sig) == |raw.time|
    ensures r.Success? ==> r.value == Group(raw.Samples())
  {
    if !raw.Covered() then Failure(ShortColumn)
    else
      var ss := raw.Samples();
      GroupDates(ss);
      GroupCount(ss);
      Success(Group(ss))
  }

  // ---------------------------------------------------------------------
  // Properties of the grouping

  /** Prefix facts the inductive proofs below share. */
  lemma SampleDatesSnoc(ss: seq<Sample>)
    requires |ss| > 0
    ensures SampleDates(ss) == SampleDates(ss[..|ss| - 1]) + [ss[|ss| - 1].Date()]
  {
  }

  lemma DatesSnoc<V>(t: Table<V>, e: Entry<V>)
    ensures Dates(t + [e]) == Dates(t) + [e.date]
  {
  }

  /** A date that no sample carries selects no readings. */
  lemma {:induction false} SelectAbsent(ss: seq<Sample>, d: string, sig: Signal)
    requires d !in SampleDates(ss)
    ensures Select(ss, d, sig) == []
  {
    if |ss| > 0 {
      SampleDatesSnoc(ss);
      SelectAbsent(ss[..|ss| - 1], d, sig);
    }
  }

  /** The bucket keys are exactly the dates occurring in the samples. */
  lemma {:induction false} GroupDates(ss: seq<Sample>)
    ensures forall d :: d in Dates(Group(ss)) <==> d in SampleDates(ss)
  {
    if |ss| > 0 {
      var init, s := ss[..|ss| - 1], ss[|ss| - 1];
      GroupDates(init);
      SampleDatesSnoc(ss);
      var g := Group(init);
      var k := Find(g, s.Date());
      if k < |g| {
        assert Dates(Group(ss)) == Dates(g);
      } else {
        DatesSnoc(g, Entry(s.Date(), EmptyBucket.Append(s)));
      }
    }
  }

  /** Extending a sequence does not move an existing first occurrence. */
  lemma {:induction false} FirstIndexSnoc(ds: seq<string>, x: string, d: string)
    requires d in ds
    ensures FirstIndex(ds + [x], d) == FirstIndex(ds, d)
  {
    if ds[0] != d {
      assert (ds + [x])[1..] == ds[1..] + [x];
      FirstIndexSnoc(ds[1..], x, d);
    }
  }

  /** Entries of `g` appear in the order their dates first occur in `ds`. */
  ghost predicate OrderedByFirst(g: Table<Bucket>, ds: seq<string>) {
    forall p, q :: 0 <= p < q < |g| ==>
      && g[p].date in ds
      && g[q].date in ds
      && FirstIndex(ds, g[p].date) < FirstIndex(ds, g[q].date)
  }

  /** One loop pass keeps the buckets in first-occurrence order. */
  lemma AddSampleOrder(g: Table<Bucket>, ds: seq<string>, s: Sample)
    requires forall d :: d in Dates(g) <==> d in ds
    requires OrderedByFirst(g, ds)
    ensures OrderedByFirst(AddSample(g, s), ds + [s.Date()])
  {
    var g', ds' := AddSample(g, s), ds + [s.Date()];
    forall p, q | 0 <= p < q < |g'|
      ensures g'[p].date in ds' && g'[q].date in ds'
      ensures FirstIndex(ds', g'[p].date) < FirstIndex(ds', g'[q].date)
    {
      assert g'[p].date == g[p].date == Dates(g)[p];
      FirstIndexSnoc(ds, s.Date(), g[p].date);
      if q < |g| {
        assert g'[q].date == g[q].date == Dates(g)[q];
        FirstIndexSnoc(ds, s.Date(), g[q].date);
      } else {
        assert Find(g, s.Date()) == |g|;
        assert s.Date() !in Dates(g);
        assert g'[q].date == s.Date() == ds'[|ds|];
        assert FirstIndex(ds', s.Date()) == |ds|;
      }
    }
  }

  /** Buckets are ordered by the first occurrence of their date. */
  lemma {:induction false} GroupOrder(ss: seq<Sample>)
    ensures OrderedByFirst(Group(ss), SampleDates(ss))
  {
    if |ss| > 0 {
      var init, s := ss[..|ss| - 1], ss[|ss| - 1];
      GroupOrder(init);
      GroupDates(init);
      SampleDatesSnoc(ss);
      AddSampleOrder(Group(init), SampleDates(init), s);
    }
  }

  /** Each bucket holds, for every signal, exactly the readings taken on its
      date, in sample order: nothing added, dropped or reordered. */
  lemma {:induction false} GroupContents(ss: seq<Sample>)
    ensures forall k, sig :: 0 <= k < |Group(ss)| ==>
      Group(ss)[k].value.Readings(sig) == Select(ss, Group(ss)[k].date, sig)
  {
    if |ss| > 0 {
      var init, s := ss[..|ss| - 1], ss[|ss| - 1];
      GroupContents(init);
      GroupDates(init);
      var g, g' := Group(init), Group(ss);
      var k := Find(g, s.Date());
      assert init == ss[..|ss| - 1];
      forall j, sig | 0 <= j < |g'|
        ensures g'[j].value.Readings(sig) == Select(ss, g'[j].date, sig)
      {
        if k < |g| && j == k {
          assert g'[j] == Entry(g[k].date, g[k].value.Append(s));
        } else if j < |g| {
          assert g'[j] == g[j];
          assert g[j].date != s.Date();
          assert Select(ss, g[j].date, sig) == Select(init, g[j].date, sig) + [];
        } else {
          assert s.Date() !in Dates(g);
          SelectAbsent(init, s.Date(), sig);
          assert g'[j] == Entry(s.Date(), EmptyBucket.Append(s));
        }
      }
    }
  }

  /** Replacing one entry changes the count by the difference in its size. */
  lemma {:induction false} CountUpdate(g: Table<Bucket>, k: nat, e: Entry<Bucket>, sig: Signal)
    requires k < |g|
    ensures Count(g[k := e], sig) + |g[k].value.Readings(sig)| == Count(g, sig) + |e.value.Readings(sig)|
  {
    var n := |g| - 1;
    if k < n {
      assert g[k := e][..n] == g[..n][k := e];
      CountUpdate(g[..n], k, e, sig);
    } else {
      assert g[k := e][..n] == g[..n];
    }
  }

  /** Every sample is counted once: each signal's readings across all
      buckets number exactly the samples. */
  lemma {:induction false} GroupCount(ss: seq<Sample>)
    ensures forall sig :: Count(Group(ss), sig) == |ss|
  {
    if |ss| > 0 {
      var init, s := ss[..|ss| - 1], ss[|ss| - 1];
      GroupCount(init);
      var g := Group(init);
      var k := Find(g, s.Date());
      forall sig | true
        ensures Count(Group(ss), sig) == |ss|
      {
        if k < |g| {
          CountUpdate(g, k, Entry(g[k].date, g[k].value.Append(s)), sig);
        } else {
          var g' := g + [Entry(s.Date(), EmptyBucket.Append(s))];
          assert g'[..|g'| - 1] == g;
        }
      }
    }
  }

  /** Grouping partitions the samples: every sample's date names exactly one
      bucket. */
  lemma GroupPartition(ss: seq<Sample>)
    ensures forall i :: 0 <= i < |ss| ==>
      && Find(Group(ss), ss[i].Date()) < |Group(ss)|
      && forall j :: 0 <= j < |Group(ss)| && Group(ss)[j].date == ss[i].Date() ==>
           j == Find(Group(ss), ss[i].Date())
  {
    GroupDates(ss);
    var g := Group(ss);
    forall i | 0 <= i < |ss|
      ensures Find(g, ss[i].Date()) < |g|
    {
      var d := ss[i].Date();
      assert d == SampleDates(ss)[i];
      assert d in Dates(g);
      var p :| 0 <= p < |g| && Dates(g)[p] == d;
    }
  }
}
