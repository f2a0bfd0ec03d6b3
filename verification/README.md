# Weather aggregation pipeline — Dafny model

This project models the aggregation core of a small weather-reporting tool.
The tool fetches hourly readings from Open-Meteo: temperature at 2 m, wind speed at 10 m and soil temperature at 0 cm. The core then does four things:

- It cuts every ISO-8601 timestamp down to its calendar date (`extract_date`).
- It buckets the hourly readings by date, in first-seen order (`group_by_date`).
- It reduces each day's bucket to nine statistics: the max, min and mean of each signal (`calculate_stats`).
- It finds the date with the largest and the date with the smallest value of one statistic (`extreme_dates`).

Python's insertion-ordered `dict` is modelled as an association list `Table<V> = seq<Entry<V>>` (module `Tables`).
Readings are `real`, so `sum / len` is exact.
Where Python would raise an exception, the model returns a `Result` failure:

- `ShortColumn` (IndexError): a value array is shorter than `time`.
- `EmptySignal` (ValueError): `max` of an empty reading list.
- `EmptyTable` (ValueError): `max` over a statistics table with no dates.
- `UnknownKey` (KeyError): a statistic name no day record holds.

Modules, leaf first:
- `Outcomes`: the error kinds and `Result`/`Option`.
- `Tables`: the ordered dictionary and key lookup.
- `Reductions`: Python's `max`, `min`, `sum` and the mean.
- `Grouping`: `extract_date` and `group_by_date`, with partition, order and contents lemmas.
- `Statistics`: the nine statistic keys and `calculate_stats`.
- `Extremes`: `extreme_dates` with first-extremum tie-breaking.
- `Scenario`: the three-sample fixture of the repository's tests, taken end to end.

Open-Meteo returns four hourly arrays of equal length.
The code only needs each value array to be at least as long as `time`, and it never reads the extra tail (main.py:56-63).
The model keeps that weaker condition as `RawSeries.Covered`.

## Model

| member | source | states |
|---|---|---|
| Grouping.ExtractDate | main.py:34-43 | The result is a prefix of the timestamp that contains no `T`. Either it is the whole timestamp or a `T` follows it, so it is the text before the first `T`. |
| Grouping.ExtractDateUnique | main.py:43 | Exactly one prefix has those three properties, so `ExtractDate` is fully characterised by its contract. |
| Grouping.ExtractDateOfStamp | main.py:34-43 | For a `date T time` stamp whose date has no `T`, the date part comes back unchanged. |
| Grouping.ExtractDateIdempotent | main.py:43 | Extracting the date of a date changes nothing. |
| Scenario.ExtractDateExample | tests/test_main.py:22-27 | `2024-01-01T12:00` gives `2024-01-01`. |
| Tables.Find | main.py:65 | The lookup behind `date not in grouped` returns the first entry with that date, or the table length when no entry has it. |
| Grouping.Group | main.py:55-72 | The grouped table never repeats a date. Every bucket has at least one reading per signal, and its three lists have equal length. |
| Grouping.RawSeries.Samples | main.py:56-63 | Sample `i` carries `time[i]`, and for each signal the reading at index `i` of that signal's array. There is one sample per timestamp. |
| Grouping.Bucket.Append | main.py:68-70 | Each of the bucket's three lists grows by exactly that sample's reading of its signal, at the end. |
| Grouping.AddSample | main.py:57-70 | One loop pass. If the sample's date already has a bucket, that bucket's lists each gain the sample's reading at the end and the table keeps its length. Otherwise a new last bucket holds just that reading. Every other bucket is unchanged. |
| Grouping.GroupByDate | main.py:46-72 | Fails with `ShortColumn` exactly when a value array is shorter than `time`. On success: distinct dates, non-empty buckets, and the bucket dates are exactly the dates of the timestamps. Each signal's readings across all buckets number exactly `len(time)`. The result is the fold of the loop body over the samples, so the order and contents lemmas below apply to it. |
| Grouping.GroupDates | main.py:56-66 | A date is a bucket key if and only if some sample carries that date. |
| Grouping.GroupOrder | main.py:56-66 | Buckets appear in the order in which their dates first occur among the samples. |
| Grouping.GroupContents | main.py:65-70 | For every signal, each bucket's list is the subsequence of that signal's readings taken on the bucket's date, in sample order. Nothing is added, dropped or reordered. |
| Grouping.GroupCount | main.py:56-70 | For every signal, the list lengths summed over all buckets equal the number of samples. |
| Grouping.GroupPartition | main.py:57-70 | Every sample's date names exactly one bucket. |
| Reductions.MaxOf | main.py:90-98 | Python's `max` of a non-empty list returns an element that no element exceeds. |
| Reductions.MinOf | main.py:91-99 | Python's `min` of a non-empty list returns an element that no element is below. |
| Reductions.SumFromFront | main.py:92 | Python's left-to-right `sum` equals the first reading plus the sum of the rest, so the total does not depend on the folding direction. |
| Reductions.SumAtMost | main.py:92-100 | A sum of `n` readings, each at most `c`, is at most `n * c`. |
| Reductions.SumAtLeast | main.py:92-100 | A sum of `n` readings, each at least `c`, is at least `n * c`. |
| Reductions.Mean | main.py:92-100 | `sum / len` times the length gives back the sum. The mean lies between the min and the max, and a one-reading mean equals that reading. |
| Statistics.KeyNameParts | main.py:90-100 | Each of the nine dictionary keys is a reducer name (`max`, `min`, `avg`), an underscore and a signal name (`temp`, `wind`, `soil`). |
| Statistics.ParseKey | main.py:89-101 | A name is found in a day record if and only if it is one of the nine `reducer_signal` names, and the key found is the one with that name. |
| Statistics.ParseKeyName | main.py:89-101 | Each of the nine statistics is found under its own name. |
| Statistics.Summarize | main.py:90-92 | One signal's max and min are members of the readings and bound every reading. Its mean is `sum / len`, and min ≤ mean ≤ max. |
| Statistics.StatsOf | main.py:89-101 | Each of the nine keys of a day record is its reducer applied to its signal's readings. |
| Statistics.CalculateStats | main.py:75-102 | Fails with `EmptySignal` exactly when some bucket has an empty reading list. On success the dates are the same, in the same order, and each of the nine values describes the reducer over that bucket's list. |
| Statistics.DailyStats | main.py:88-101 | On grouped data the statistics always succeed. Each day's value is the reducer applied directly to that day's raw readings: a reference recomputation. |
| Statistics.StatsBounds | main.py:90-100 | Per day and signal, min ≤ avg ≤ max. For a one-reading day all three equal the reading. |
| Extremes.ArgMax | main.py:147 | `max` with a key returns a position of the largest value, and every earlier position holds a strictly smaller value. |
| Extremes.ArgMin | main.py:148 | `min` with a key returns a position of the smallest value, and every earlier position holds a strictly larger value. |
| Extremes.ArgMaxIsFirstMax | main.py:147 | A position is the first maximum if and only if it is the one `ArgMax` picks, so the selection is deterministic. |
| Extremes.ArgMinIsFirstMin | main.py:148 | A position is the first minimum if and only if it is the one `ArgMin` picks. |
| Extremes.ExtremeDates | main.py:132-149 | An empty table fails with `EmptyTable` before any key lookup, and an unknown name fails with `UnknownKey`. Otherwise the result pairs the date of the first maximal value with the date of the first minimal value. |
| Extremes.ExtremeDatesPick | main.py:147-149 | Whenever `i` is the first maximum and `j` the first minimum, the result is exactly the dates at `i` and `j`. Among tied values the earliest-inserted date wins. |
| Scenario.GroupFixture | tests/test_main.py:29-36 | The three-sample fixture groups into `2024-01-01` with temps `[10, 12]` and `2024-01-02` with soil `[3]`, in that order. |
| Scenario.StatsFixture | tests/test_main.py:38-45 | On the fixture's buckets, `calculate_stats` gives exactly the expected nine numbers per day. For `2024-01-01`, `avg_temp` is 11. For `2024-01-02`, `max_soil` is 3. |
| Scenario.ExtremesFixture | tests/test_main.py:47-55 | On the fixture's statistics, `extreme_dates(..., "avg_temp")` returns `("2024-01-01", "2024-01-02")`. |

## Left out

- `fetch_data` (main.py:11-31): an HTTP request and JSON decoding. The model starts from the decoded `hourly` arrays (`RawSeries`).
- `write_to_csv` (main.py:105-129) and `plot_graph` (main.py:152-180): file, CSV and chart output.
- `main` (main.py:183-215): orchestration and printing only. It ignores `--action`, `--start-date` and `--end-date`, so the code has no single-statistic mode or action dispatch to model.
- `arg_parser.py`: a thin command-line parser with no logic of its own.
- Missing keys in the decoded JSON object (KeyError on `data["time"]` and friends): `RawSeries` always has all four arrays.
- `null` readings in the JSON response (Python's `None`), which would make `max` or `sum` raise a TypeError: readings are always numbers.
- Reductions.Mean: readings are exact reals, not IEEE doubles. Rounding in `sum / len`, NaN and infinities are not modelled.
- Reductions.MaxOf: states the value of Python's `max`, not which of several equal elements it returns. For numbers this is the same value.
