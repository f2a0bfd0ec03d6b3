/** `extreme_dates`: the date with the largest and the date with the
    smallest value of one statistic. Python's `max`/`min` keep the first
    extremal element, so ties go to the earliest-inserted date. */
module Extremes {
  import opened Outcomes
  import opened Tables
  import opened Statistics

  /** `i` holds the largest value of `vs`, and every earlier value is
      strictly smaller: `i` is the first position of the maximum. */
  ghost predicate IsFirstMax(vs: seq<real>, i: int) {
    && 0 <= i < |vs|
    && (forall j :: 0 <= j < |vs| ==> vs[j] <= vs[i])
    && (forall j :: 0 <= j < i ==> vs[j] < vs[i])
  }

  /** The mirror image of `IsFirstMax`. */
  ghost predicate IsFirstMin(vs: seq<real>, i: int) {
    && 0 <= i < |vs|
    && (forall j :: 0 <= j < |vs| ==> vs[i] <= vs[j])
    && (forall j :: 0 <= j < i ==> vs[i] < vs[j])
  }

  /** `max(range(len(vs)), key=vs.__getitem__)`: scan left to right and
      move to a later position only when its value is strictly greater. */
  function ArgMax(vs: seq<real>): (i: nat)
    requires |vs| > 0
    ensures IsFirstMax(vs, i)
  {
    if |vs| == 1 then 0
    else
      var j := ArgMax(vs[..|vs| - 1]);
      if vs[|vs| - 1] > vs[j] then |vs| - 1 else j
  }

  /** `min(range(len(vs)), key=vs.__getitem__)`. */
  function ArgMin(vs: seq<real>): (i: nat)
    requires |vs| > 0
    ensures IsFirstMin(vs, i)
  {
    if |vs| == 1 then 0
    else
      var j := ArgMin(vs[..|vs| - 1]);
      if vs[|vs| - 1] < vs[j] then |vs| - 1 else j
  }

  /** The first maximum is unique, so the selection is deterministic:
      `ArgMax` picks exactly the index `IsFirstMax` describes. */
  lemma ArgMaxIsFirstMax(vs: seq<real>, i: int)
    requires |vs| > 0
    ensures IsFirstMax(vs, i) <==> i == ArgMax(vs)
  {
  }

  /** `ArgMin` picks exactly the index `IsFirstMin` describes. */
  lemma ArgMinIsFirstMin(vs: seq<real>, i: int)
    requires |vs| > 0
    ensures IsFirstMin(vs, i) <==> i == ArgMin(vs)
  {
  }

  /** The values of statistic `key`, one per date, in table order. */
  function Column(t: Table<DayStats>, key: StatKey): (vs: seq<real>)
    ensures |vs| == |t|
    ensures forall i :: 0 <= i < |t| ==> vs[i] == t[i].value.Get(key)
  {
    seq(|t|, i requires 0 <= i < |t| => t[i].value.Get(key))
  }

  /** `extreme_dates(stats, key)`. `max` of an empty table raises before the
      key is ever looked up; an unknown name raises on the first lookup. */
  function ExtremeDates(t: Table<DayStats>, name: string): (r: Result<(string, string)>)
    ensures |t| == 0 ==> r == Failure(EmptyTable)
    ensures |t| > 0 && ParseKey(name).None? ==> r == Failure(UnknownKey)
    ensures |t| > 0 && ParseKey(name).Some? ==>
      && r.Success?
      && (exists i :: IsFirstMax(Column(t, ParseKey(name).value), i) && t[i].date == r.value.0)
      && (exists i :: IsFirstMin(Column(t, ParseKey(name).value), i) && t[i].date == r.value.1)
  {
    if |t| == 0 then Failure(EmptyTable)
    else
      match ParseKey(name)
      case None => Failure(UnknownKey)
      case Some(key) =>
        var vs := Column(t, key);
        Success((t[ArgMax(vs)].date, t[ArgMin(vs)].date))
  }

  /** The result is fully determined: whenever `i` is the first maximum and
      `j` the first minimum of the column, the dates of `i` and `j` are
      returned, so among equal values the earliest-inserted date wins. */
  lemma ExtremeDatesPick(t: Table<DayStats>, name: string, i: int, j: int)
    requires ParseKey(name).Some?
    requires IsFirstMax(Column(t, ParseKey(name).value), i)
    requires IsFirstMin(Column(t, ParseKey(name).value), j)
    ensures ExtremeDates(t, name) == Success((t[i].date, t[j].date))
  {
  }
}
