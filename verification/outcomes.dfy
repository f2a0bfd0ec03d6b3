/** Failure-carrying results for the aggregation pipeline. Each error kind
    stands for the Python exception the pipeline would raise at that point. */
module Outcomes {

  /** Why a pipeline stage gave up. */
  datatype Error =
    | ShortColumn   // IndexError: a value column is shorter than `time`
    | EmptySignal   // ValueError: `max` of an empty per-day reading list
    | EmptyTable    // ValueError: `max` over a statistics table with no dates
    | UnknownKey    // KeyError: a statistic name that no day record holds

  datatype Result<+T> = Success(value: T) | Failure(error: Error)

  datatype Option<+T> = None | Some(value: T)
}
