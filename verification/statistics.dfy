/** `calculate_stats`: each day's bucket becomes nine numbers, the maximum,
    minimum and mean of each signal, under keys such as `max_temp`. */
module Statistics {
  import opened Outcomes
  import opened Tables
  import opened Reductions
  import opened Grouping

  datatype Reducer = Max | Min | Avg

  /** One of the nine statistic names of a day record. */
  datatype StatKey = StatKey(reducer: Reducer, signal: Signal)

  /** The maximum, minimum and mean of one signal on one day. */
  datatype Summary = Summary(max: real, min: real, avg: real)

  /** One day's record of the nine statistics. */
  datatype DayStats = DayStats(temp: Summary, wind: Summary, soil: Summary) {
    function Of(sig: Signal): Summary {
      match sig
      case Temp => temp
      case Wind => wind
      case Soil => soil
    }

    /** `stats[date][key]`. */
    function Get(key: StatKey): real {
      var s := Of(key.signal);
      match key.reducer
      case Max => s.max
      case Min => s.min
      case Avg => s.avg
    }
  }

  /** The reducer part of a statistic name. */
  function ReducerName(reducer: Reducer): string {
    match reducer
    case Max => "max"
    case Min => "min"
    case Avg => "avg"
  }

  /** The signal part of a statistic name. */
  function SignalName(sig: Signal): string {
    match sig
    case Temp => "temp"
    case Wind => "wind"
    case Soil => "soil"
  }

  /** The dictionary key under which `key` is stored, e.g. `avg_wind`. */
  function KeyName(key: StatKey): string {
    match key
    case StatKey(Max, Temp) => "max_temp"
    case StatKey(Min, Temp) => "min_temp"
    case StatKey(Avg, Temp) => "avg_temp"
    case StatKey(Max, Wind) => "max_wind"
    case StatKey(Min, Wind) => "min_wind"
    case StatKey(Avg, Wind) => "avg_wind"
    case StatKey(Max, Soil) => "max_soil"
    case StatKey(Min, Soil) => "min_soil"
    case StatKey(Avg, Soil) => "avg_soil"
  }

  /** Every statistic name is `<reducer>_<signal>`. */
  lemma KeyNameParts(key: StatKey)
    ensures KeyName(key) == ReducerName(key.reducer) + "_" + SignalName(key.signal)
  {
  }

  /** Looking a statistic name up in a day record: exactly the nine names
      `KeyName` produces are found. */
  function ParseKey(name: string): (r: Option<StatKey>)
    ensures r.Some? ==> KeyName(r.value) == name
    ensures r.None? ==> forall key: StatKey :: KeyName(key) != name
  {
    if name == "max_temp" then Some(StatKey(Max, Temp))
    else if name == "min_temp" then Some(StatKey(Min, Temp))
    else if name == "avg_temp" then Some(StatKey(Avg, Temp))
    else if name == "max_wind" then Some(StatKey(Max, Wind))
    else if name == "min_wind" then Some(StatKey(Min, Wind))
    else if name == "avg_wind" then Some(StatKey(Avg, Wind))
    else if name == "max_soil" then Some(StatKey(Max, Soil))
    else if name == "min_soil" then Some(StatKey(Min, Soil))
    else if name == "avg_soil" then Some(StatKey(Avg, Soil))
    else None
  }

  /** Every statistic can be looked up by its own name. */
  lemma ParseKeyName(key: StatKey)
    ensures ParseKey(KeyName(key)) == Some(key)
  {
  }

  /** `v` is what statistic `reducer` means for the readings `xs`. */
  ghost predicate Describes(reducer: Reducer, v: real, xs: seq<real>) {
    match reducer
    case Max => IsMax(v, xs)
    case Min => IsMin(v, xs)
    case Avg => |xs| > 0 && v * |xs| as real == Sum(xs)
  }

  /** The three statistics of one signal. */
  function Summarize(xs: seq<real>): (s: Summary)
    requires |xs| > 0
    ensures Describes(Max, s.max, xs) && Describes(Min, s.min, xs) && Describes(Avg, s.avg, xs)
    ensures s.min <= s.avg <= s.max
  {
    Summary(MaxOf(xs), MinOf(xs), Mean(xs))
  }

  /** The dictionary literal built for one date. */
  function StatsOf(b: Bucket): (s: DayStats)
    requires b.Filled()
    ensures forall key: StatKey :: Describes(key.reducer, s.Get(key), b.Readings(key.signal))
  {
    DayStats(Summarize(b.temp), Summarize(b.wind), Summarize(b.soil))
  }

  /** `calculate_stats(grouped_data)`: one record per date, same dates in the
      same order. A bucket with an empty reading list makes `max` raise, and
      the whole call fails. */
  function CalculateStats(g: Table<Bucket>): (r: Result<Table<DayStats>>)
    ensures r.Failure? <==> exists k :: 0 <= k < |g| && !g[k].value.Filled()
    ensures r.Failure? ==> r.error == EmptySignal
    ensures r.Success? ==> Dates(r.value) == Dates(g)
    ensures r.Success? ==> forall k, key: StatKey :: 0 <= k < |g| ==>
      Describes(key.reducer, r.value[k].value.Get(key), g[k].value.Readings(key.signal))
  {
    if |g| == 0 then Success([])
    else if !g[0].value.Filled() then Failure(EmptySignal)
    else
      match CalculateStats(g[1..])
      case Failure(e) => Failure(e)
      case Success(rest) => Success([Entry(g[0].date, StatsOf(g[0].value))] + rest)
  }

  /** Statistics computed from grouped samples always succeed, and each
      day's value is the reducer applied directly to that day's raw
      readings. */
  lemma DailyStats(ss: seq<Sample>)
    ensures CalculateStats(Group(ss)).Success?
    ensures forall k, key: StatKey :: 0 <= k < |Group(ss)| ==>
      Describes(key.reducer, CalculateStats(Group(ss)).value[k].value.Get(key),
                Select(ss, Group(ss)[k].date, key.signal))
  {
    GroupContents(ss);
  }

  /** Per day and signal the mean lies between the minimum and the maximum;
      for a one-reading day all three equal that reading. */
  lemma StatsBounds(b: Bucket, sig: Signal)
    requires b.Filled()
    ensures StatsOf(b).Get(StatKey(Min, sig)) <= StatsOf(b).Get(StatKey(Avg, sig)) <= StatsOf(b).Get(StatKey(Max, sig))
    ensures |b.Readings(sig)| == 1 ==>
      && StatsOf(b).Get(StatKey(Min, sig)) == b.Readings(sig)[0]
      && StatsOf(b).Get(StatKey(Avg, sig)) == b.Readings(sig)[0]
      && StatsOf(b).Get(StatKey(Max, sig)) == b.Readings(sig)[0]
  {
  }
}
