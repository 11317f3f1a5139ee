/**
 * The statistics page: one fetch of the visible `road_damage` rows (newest first), then type
 * totals, severity totals, per-type severity breakdowns and the four most recent rows.
 */
module Statistics {
  import opened Wrappers
  import opened Schema
  import Seqs
  import RowViews

  predicate IsPothole(d: DamageRow) { d.damageType == "pothole" }
  predicate IsCrack(d: DamageRow) { d.damageType == "crack" }
  predicate IsPotholeOrCrack(d: DamageRow) { IsPothole(d) || IsCrack(d) }
  predicate IsHighPothole(d: DamageRow) { IsPothole(d) && RowViews.IsHigh(d) }
  predicate IsHighCrack(d: DamageRow) { IsCrack(d) && RowViews.IsHigh(d) }
  predicate IsHighPotholeOrCrack(d: DamageRow) { IsPotholeOrCrack(d) && RowViews.IsHigh(d) }

  datatype Stats = Stats(
    totalPotholes: nat,
    totalCracks: nat,
    highSeverity: nat,
    mediumSeverity: nat,
    recentDetections: seq<DamageRow>,
    potholesBySeverity: RowViews.SeverityCounts,
    cracksBySeverity: RowViews.SeverityCounts)

  /** The state the page starts with. */
  const InitialStats := Stats(0, 0, 0, 0, [], RowViews.SeverityCounts(0, 0, 0), RowViews.SeverityCounts(0, 0, 0))

  /** How many recent rows the page lists. */
  const RecentCount: nat := 4

  /** The counting in `loadStats` over fetched rows. */
  function Summarize(rows: seq<DamageRow>): (s: Stats)
    ensures |s.recentDetections| == (if |rows| < RecentCount then |rows| else RecentCount)
    ensures s.recentDetections == rows[..|s.recentDetections|]
  {
    Stats(
      |Seqs.Filter(rows, IsPothole)|,
      |Seqs.Filter(rows, IsCrack)|,
      |Seqs.Filter(rows, RowViews.IsHigh)|,
      |Seqs.Filter(rows, RowViews.IsMedium)|,
      Seqs.Take(rows, RecentCount),
      RowViews.CountBySeverity(Seqs.Filter(rows, IsPothole)),
      RowViews.CountBySeverity(Seqs.Filter(rows, IsCrack)))
  }

  /**
   * `loadStats`: a failed fetch is thrown and caught, so the displayed statistics stay as they
   * were; a null result counts as no rows.
   */
  function LoadStats(prev: Stats, fetch: Result<Option<seq<DamageRow>>, string>): (s: Stats)
    ensures fetch.Err? ==> s == prev
    ensures fetch.Ok? && fetch.value.None? ==> s == InitialStats
    ensures fetch.Ok? && fetch.value.Some? ==> s == Summarize(fetch.value.value)
  {
    if fetch.Err? then prev
    else if fetch.value.None? then Summarize([])
    else Summarize(fetch.value.value)
  }

  /** No rows give all-zero statistics, the same as the page's initial state. */
  lemma SummarizeEmpty()
    ensures Summarize([]) == InitialStats
  {
    assert Seqs.Filter([], IsPothole) == [];
  }

  /**
   * "Total Detections" (potholes plus cracks) never exceeds the number of fetched rows, and the
   * per-type severity counts never exceed the type's total.
   */
  lemma TotalsBounded(rows: seq<DamageRow>)
    ensures var s := Summarize(rows);
      && s.totalPotholes + s.totalCracks <= |rows|
      && s.potholesBySeverity.high + s.potholesBySeverity.medium + s.potholesBySeverity.low <= s.totalPotholes
      && s.cracksBySeverity.high + s.cracksBySeverity.medium + s.cracksBySeverity.low <= s.totalCracks
  {
    Seqs.FilterDisjointBound(rows, IsPothole, IsCrack);
  }

  /**
   * `highSeverity` counts high rows of every type, so it is at least the high potholes plus the
   * high cracks, and equal to that sum when every row is a pothole or a crack.
   */
  lemma HighSeverityCoversTypes(rows: seq<DamageRow>)
    ensures var s := Summarize(rows);
      s.highSeverity >= s.potholesBySeverity.high + s.cracksBySeverity.high
    ensures (forall d :: d in rows ==> IsPotholeOrCrack(d)) ==>
      var s := Summarize(rows);
      s.highSeverity == s.potholesBySeverity.high + s.cracksBySeverity.high
  {
    Seqs.FilterFilter(rows, IsPothole, RowViews.IsHigh, IsHighPothole);
    Seqs.FilterFilter(rows, IsCrack, RowViews.IsHigh, IsHighCrack);
    Seqs.FilterDisjoint(rows, IsHighPothole, IsHighCrack, IsHighPotholeOrCrack);
    Seqs.FilterMonotone(rows, IsHighPotholeOrCrack, RowViews.IsHigh);
    if forall d :: d in rows ==> IsPotholeOrCrack(d) {
      Seqs.FilterExt(rows, IsHighPotholeOrCrack, RowViews.IsHigh);
    }
  }
}
