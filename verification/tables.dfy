/** An insertion-ordered dictionary keyed by calendar date, written as an
    association list: the order of the entries is the order in which each
    date was first inserted, as Python's `dict` iterates. */
module Tables {

  datatype Entry<+V> = Entry(date: string, value: V)

  type Table<V> = seq<Entry<V>>

  /** The keys of `t`, in iteration order. */
  function Dates<V>(t: Table<V>): (ds: seq<string>)
    ensures |ds| == |t|
    ensures forall i :: 0 <= i < |t| ==> ds[i] == t[i].date
  {
    seq(|t|, i requires 0 <= i < |t| => t[i].date)
  }

  /** A dictionary never holds the same key twice. */
  ghost predicate DistinctDates<V>(t: Table<V>) {
    forall i, j :: 0 <= i < j < |t| ==> t[i].date != t[j].date
  }

  /** Position of the entry keyed `d`, or `|t|` when there is none. */
  function Find<V>(t: Table<V>, d: string): (k: nat)
    ensures k <= |t|
    ensures k < |t| ==> t[k].date == d
    ensures forall j :: 0 <= j < k ==> t[j].date != d
  {
    if |t| == 0 then 0
    else if t[0].date == d then 0
    else 1 + Find(t[1..], d)
  }
}
