/**
 * The pothole page: the fetched potholes (newest first) split into carriageway and footway by
 * road category, each with its severity breakdown, and the six most recent.
 */
module PotholeDetails {
  import opened Wrappers
  import opened Schema
  import Seqs
  import RowViews

  /** `road_category === 'footway' || road_category === 'pedestrian'` (case-sensitive). */
  predicate IsFootway(d: DamageRow) { d.roadCategory == "footway" || d.roadCategory == "pedestrian" }

  /** The carriageway filter, written in the source as the two negated comparisons. */
  predicate IsCarriageway(d: DamageRow) { d.roadCategory != "footway" && d.roadCategory != "pedestrian" }

  datatype PotholeStats = PotholeStats(
    carriageway: RowViews.Breakdown,
    footway: RowViews.Breakdown,
    recentPotholes: seq<DamageRow>)

  const EmptyBreakdown := RowViews.Breakdown(0, RowViews.SeverityCounts(0, 0, 0))
  const InitialStats := PotholeStats(EmptyBreakdown, EmptyBreakdown, [])

  const RecentCount: nat := 6

  /**
   * The statistics of the fetched potholes. The two categories partition the rows, so their
   * totals add up to the number of rows; per category the severity counts never exceed the
   * category's total; the recent list is the first min(6, n) rows.
   */
  function Summarize(rows: seq<DamageRow>): (s: PotholeStats)
    ensures s.carriageway.total + s.footway.total == |rows|
    ensures s.carriageway.bySeverity.high + s.carriageway.bySeverity.medium + s.carriageway.bySeverity.low <= s.carriageway.total
    ensures s.footway.bySeverity.high + s.footway.bySeverity.medium + s.footway.bySeverity.low <= s.footway.total
    ensures |s.recentPotholes| == (if |rows| < RecentCount then |rows| else RecentCount)
    ensures s.recentPotholes == rows[..|s.recentPotholes|]
  {
    Seqs.FilterPartition(rows, IsFootway, IsCarriageway);
    PotholeStats(
      RowViews.BreakdownOf(Seqs.Filter(rows, IsCarriageway)),
      RowViews.BreakdownOf(Seqs.Filter(rows, IsFootway)),
      Seqs.Take(rows, RecentCount))
  }

  /** A failed fetch leaves the statistics as they were; a null result counts as no rows. */
  function LoadStats(prev: PotholeStats, fetch: Result<Option<seq<DamageRow>>, string>): (s: PotholeStats)
    ensures fetch.Err? ==> s == prev
    ensures fetch.Ok? && fetch.value.None? ==> s == InitialStats
    ensures fetch.Ok? && fetch.value.Some? ==> s == Summarize(fetch.value.value)
  {
    if fetch.Err? then prev
    else if fetch.value.None? then Summarize([])
    else Summarize(fetch.value.value)
  }

  /** The label shown for each recent pothole. */
  function RowLabel(d: DamageRow): (shown: string)
    ensures shown == "Footway" || shown == "Carriageway"
  {
    if d.roadCategory == "footway" || d.roadCategory == "pedestrian" then "Footway" else "Carriageway"
  }

  /**
   * The label agrees with the partition: a fetched row is labelled 'Footway' exactly when it is
   * counted in the footway category, and 'Carriageway' exactly when it is counted in the other.
   */
  lemma LabelAgreesWithPartition(rows: seq<DamageRow>, d: DamageRow)
    requires d in rows
    ensures RowLabel(d) == "Footway" <==> d in Seqs.Filter(rows, IsFootway)
    ensures RowLabel(d) == "Carriageway" <==> d in Seqs.Filter(rows, IsCarriageway)
  {
    Seqs.FilterMembership(rows, IsFootway, d);
    Seqs.FilterMembership(rows, IsCarriageway, d);
  }
}
