/**
 * The crack page: the fetched cracks (newest first) bucketed by `metadata.subtype`, compared
 * case-insensitively with four subtype names, each bucket with its severity breakdown, and the
 * five most recent.
 */
module CrackDetails {
  import opened Wrappers
  import opened Schema
  import Text
  import Seqs
  import RowViews

  /** The row filter of `categorizeBySubtype(name)`. */
  function SubtypeIs(name: string): (p: DamageRow -> bool)
    ensures forall d :: p(d) <==> RowViews.SubtypeLower(d.metadata) == Some(Text.Lower(name))
  {
    (d: DamageRow) => RowViews.SubtypeLower(d.metadata) == Some(Text.Lower(name))
  }

  /** `categorizeBySubtype(name)`: the rows of one subtype and their severity breakdown. */
  function CategorizeBySubtype(rows: seq<DamageRow>, name: string): (b: RowViews.Breakdown)
    ensures b.total <= |rows|
    ensures b.bySeverity.high + b.bySeverity.medium + b.bySeverity.low <= b.total
  {
    RowViews.BreakdownOf(Seqs.Filter(rows, SubtypeIs(name)))
  }

  datatype CrackStats = CrackStats(
    longitudinal: RowViews.Breakdown,
    transverse: RowViews.Breakdown,
    block: RowViews.Breakdown,
    fatigue: RowViews.Breakdown,
    recentDetections: seq<DamageRow>)

  const EmptyBreakdown := RowViews.Breakdown(0, RowViews.SeverityCounts(0, 0, 0))
  const InitialStats := CrackStats(EmptyBreakdown, EmptyBreakdown, EmptyBreakdown, EmptyBreakdown, [])

  const RecentCount: nat := 5

  function Summarize(rows: seq<DamageRow>): (s: CrackStats)
    ensures |s.recentDetections| == (if |rows| < RecentCount then |rows| else RecentCount)
    ensures s.recentDetections == rows[..|s.recentDetections|]
  {
    CrackStats(
      CategorizeBySubtype(rows, "longitudinal"),
      CategorizeBySubtype(rows, "transverse"),
      CategorizeBySubtype(rows, "block"),
      CategorizeBySubtype(rows, "fatigue"),
      Seqs.Take(rows, RecentCount))
  }

  /** A failed fetch leaves the statistics as they were; a null result counts as no rows. */
  function LoadStats(prev: CrackStats, fetch: Result<Option<seq<DamageRow>>, string>): (s: CrackStats)
    ensures fetch.Err? ==> s == prev
    ensures fetch.Ok? && fetch.value.None? ==> s == InitialStats
    ensures fetch.Ok? && fetch.value.Some? ==> s == Summarize(fetch.value.value)
  {
    if fetch.Err? then prev
    else if fetch.value.None? then Summarize([])
    else Summarize(fetch.value.value)
  }

  /**
   * A row lands in a bucket exactly when its subtype, lower-cased, is the bucket's name; in
   * particular a row without a string subtype is in no bucket.
   */
  lemma BucketMembership(rows: seq<DamageRow>, name: string, d: DamageRow)
    ensures d in Seqs.Filter(rows, SubtypeIs(name)) <==>
              d in rows && RowViews.SubtypeLower(d.metadata) == Some(Text.Lower(name))
    ensures RowViews.SubtypeLower(d.metadata).None? ==> d !in Seqs.Filter(rows, SubtypeIs(name))
  {
    Seqs.FilterMembership(rows, SubtypeIs(name), d);
  }

  /**
   * The four subtype names are different, so no row is in two buckets and the four totals add
   * up to at most the number of rows.
   */
  lemma BucketsDisjoint(rows: seq<DamageRow>)
    ensures var s := Summarize(rows);
      s.longitudinal.total + s.transverse.total + s.block.total + s.fatigue.total <= |rows|
  {
    var names := ["longitudinal", "transverse", "block", "fatigue"];
    forall i | 0 <= i < 4
      ensures |Text.Lower(names[i])| > 0 && Text.Lower(names[i])[0] == names[i][0]
    {
    }
    Seqs.FilterDisjoint4Bound(rows, SubtypeIs(names[0]), SubtypeIs(names[1]), SubtypeIs(names[2]), SubtypeIs(names[3]));
  }

  /** `metadata?.subtype || 'Unknown'`: the subtype text when it is a non-empty string. */
  function SubtypeLabel(metadata: Json): (shown: string)
    ensures Field(metadata, "subtype").None? ==> shown == "Unknown"
    ensures shown != "Unknown" ==> Field(metadata, "subtype") == Some(JStr(shown))
  {
    match Field(metadata, "subtype")
    case Some(JStr(s)) => if s == "" then "Unknown" else s
    case _ => "Unknown"
  }

  /** Every row counted in a bucket is labelled with a text that lower-cases to the bucket's name. */
  lemma LabelAgreesWithBucket(rows: seq<DamageRow>, name: string, d: DamageRow)
    requires d in Seqs.Filter(rows, SubtypeIs(name)) && name != ""
    ensures Text.Lower(SubtypeLabel(d.metadata)) == Text.Lower(name)
  {
    BucketMembership(rows, name, d);
  }
}
