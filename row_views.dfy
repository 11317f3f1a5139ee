/**
 * What the dashboard pages derive from fetched `road_damage` rows in common: the
 * `{ high, medium, low }` breakdown built with three `severity === ...` filters, and the
 * `metadata?.subtype?.toLowerCase()` lookup used for crack subtypes.
 */
module RowViews {
  import opened Wrappers
  import opened Schema
  import Text
  import Seqs

  predicate IsHigh(d: DamageRow) { d.severity == "high" }
  predicate IsMedium(d: DamageRow) { d.severity == "medium" }
  predicate IsLow(d: DamageRow) { d.severity == "low" }

  /** A severity the pages count: exactly one of the three lower-case labels. */
  predicate HasKnownSeverity(d: DamageRow) { IsHigh(d) || IsMedium(d) || IsLow(d) }

  datatype SeverityCounts = SeverityCounts(high: nat, medium: nat, low: nat)

  /**
   * The three severity counts of `rows`. The labels exclude each other, so the counts never add
   * up to more than the rows; rows with any other severity (a different case included) are in
   * none of them.
   */
  function CountBySeverity(rows: seq<DamageRow>): (c: SeverityCounts)
    ensures c.high + c.medium + c.low <= |rows|
  {
    Seqs.FilterDisjoint3Bound(rows, IsHigh, IsMedium, IsLow);
    SeverityCounts(|Seqs.Filter(rows, IsHigh)|, |Seqs.Filter(rows, IsMedium)|, |Seqs.Filter(rows, IsLow)|)
  }

  /** When every row carries one of the three labels, the counts add up to the number of rows. */
  lemma CountBySeverityKnown(rows: seq<DamageRow>)
    requires forall d :: d in rows ==> HasKnownSeverity(d)
    ensures var c := CountBySeverity(rows); c.high + c.medium + c.low == |rows|
  {
    Seqs.FilterCover3(rows, IsHigh, IsMedium, IsLow);
  }

  /** `{ total, high, medium, low }` for one category of rows. */
  datatype Breakdown = Breakdown(total: nat, bySeverity: SeverityCounts)

  function BreakdownOf(rows: seq<DamageRow>): (b: Breakdown)
    ensures b.total == |rows|
    ensures b.bySeverity.high + b.bySeverity.medium + b.bySeverity.low <= b.total
  {
    Breakdown(|rows|, CountBySeverity(rows))
  }

  /**
   * `meta?.subtype?.toLowerCase()`: the lower-cased subtype when the metadata object has a
   * string `subtype`, absent (undefined) when there is no metadata, no such field, or a null.
   */
  function SubtypeLower(metadata: Json): (r: Option<string>)
    ensures r.Some? <==> Field(metadata, "subtype").Some? && Field(metadata, "subtype").value.JStr?
    ensures r.Some? ==> r.value == Text.Lower(Field(metadata, "subtype").value.s)
    ensures r.Some? ==> Text.Lower(r.value) == r.value
  {
    match Field(metadata, "subtype")
    case Some(JStr(s)) => Text.LowerIdempotent(s); Some(Text.Lower(s))
    case _ => None
  }
}
