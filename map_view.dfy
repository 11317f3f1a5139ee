/**
 * The map page's pure parts: the filter predicate over the fetched points, the five filter
 * checkboxes and their toggles, the highlight test and the severity colour.
 */
module MapView {
  import opened Wrappers
  import opened Schema
  import Text
  import Seqs
  import RowViews

  /** The five checkboxes: three severities and two damage types. */
  datatype Filters = Filters(high: bool, medium: bool, low: bool, pothole: bool, crack: bool)

  datatype SeverityKey = High | Medium | Low
  datatype TypeKey = Pothole | Crack

  function SeverityName(k: SeverityKey): string
  {
    match k
    case High => "high"
    case Medium => "medium"
    case Low => "low"
  }

  function TypeName(k: TypeKey): string
  {
    match k
    case Pothole => "pothole"
    case Crack => "crack"
  }

  /** The initial state, and the state `resetFilters` restores: every box ticked. */
  const AllOn := Filters(true, true, true, true, true)

  /** `filters.severity[key]` looking only at the object's own three keys; any other key is off. */
  function SeverityFlag(f: Filters, key: string): (on: bool)
    ensures on <==> exists k: SeverityKey :: SeverityName(k) == key && SeverityOn(f, k)
  {
    if key == "high" then assert SeverityName(High) == key; f.high
    else if key == "medium" then assert SeverityName(Medium) == key; f.medium
    else if key == "low" then assert SeverityName(Low) == key; f.low
    else assert forall k: SeverityKey :: SeverityName(k) != key; false
  }

  /** `filters.damageType[key]` looking only at the object's own two keys. */
  function TypeFlag(f: Filters, key: string): (on: bool)
    ensures on <==> exists k: TypeKey :: TypeName(k) == key && TypeOn(f, k)
  {
    if key == "pothole" then assert TypeName(Pothole) == key; f.pothole
    else if key == "crack" then assert TypeName(Crack) == key; f.crack
    else assert forall k: TypeKey :: TypeName(k) != key; false
  }

  function SeverityOn(f: Filters, k: SeverityKey): bool
  {
    match k
    case High => f.high
    case Medium => f.medium
    case Low => f.low
  }

  function TypeOn(f: Filters, k: TypeKey): bool
  {
    match k
    case Pothole => f.pothole
    case Crack => f.crack
  }

  /**
   * Property names every plain JavaScript object inherits from Object.prototype. Indexing the
   * filter objects with one of them yields a function (or the prototype), which is truthy.
   */
  const InheritedKeys: set<string> := {
    "constructor", "__proto__", "__defineGetter__", "__defineSetter__", "__lookupGetter__",
    "__lookupSetter__", "hasOwnProperty", "isPrototypeOf", "propertyIsEnumerable",
    "toLocaleString", "toString", "valueOf"}

  /** The two lookups as the page performs them: own keys, and inherited names, which read as on. */
  function SeverityFlagAsWritten(f: Filters, key: string): bool
  {
    SeverityFlag(f, key) || key in InheritedKeys
  }

  function TypeFlagAsWritten(f: Filters, key: string): bool
  {
    TypeFlag(f, key) || key in InheritedKeys
  }

  /** `crackSubtypeFilter && ...`: the URL parameter counts only when present and non-empty. */
  predicate SubtypeActive(crackSubtype: Option<string>)
  {
    crackSubtype.Some? && crackSubtype.value != ""
  }

  /** The filter callback, given the outcome of the two flag lookups. */
  predicate KeepWith(severityMatch: bool, typeMatch: bool, crackSubtype: Option<string>, point: DamageRow)
  {
    if SubtypeActive(crackSubtype) && point.damageType == "crack" then
      severityMatch && typeMatch && RowViews.SubtypeLower(point.metadata) == Some(Text.Lower(crackSubtype.value))
    else
      severityMatch && typeMatch
  }

  /** The filter callback as written, with the inherited-name lookups. */
  predicate KeepAsWritten(f: Filters, crackSubtype: Option<string>, point: DamageRow)
  {
    KeepWith(SeverityFlagAsWritten(f, Text.Lower(point.severity)), TypeFlagAsWritten(f, point.damageType),
             crackSubtype, point)
  }

  /** The filter callback with own-key lookups only; the rest of the model uses this one. */
  predicate Keep(f: Filters, crackSubtype: Option<string>, point: DamageRow)
  {
    KeepWith(SeverityFlag(f, Text.Lower(point.severity)), TypeFlag(f, point.damageType), crackSubtype, point)
  }

  function KeepFn(f: Filters, crackSubtype: Option<string>): DamageRow -> bool
  {
    (point: DamageRow) => Keep(f, crackSubtype, point)
  }

  /** `filteredDamagePoints`: the points that pass, in fetched order. */
  function FilteredPoints(points: seq<DamageRow>, f: Filters, crackSubtype: Option<string>): (r: seq<DamageRow>)
    ensures |r| <= |points|
    ensures forall p :: p in r ==> p in points && Keep(f, crackSubtype, p)
  {
    Seqs.Filter(points, KeepFn(f, crackSubtype))
  }

  /**
   * A point passes exactly when it is one of the fetched points, the box for its lower-cased
   * severity is ticked, the box for its exact damage type is ticked, and, for a crack under an
   * active subtype parameter, its lower-cased subtype equals the lower-cased parameter. Any
   * other severity or type is excluded.
   */
  lemma FilteredMembership(points: seq<DamageRow>, f: Filters, crackSubtype: Option<string>, p: DamageRow)
    ensures p in FilteredPoints(points, f, crackSubtype) <==>
      && p in points
      && (exists k: SeverityKey :: SeverityName(k) == Text.Lower(p.severity) && SeverityOn(f, k))
      && (exists k: TypeKey :: TypeName(k) == p.damageType && TypeOn(f, k))
      && (SubtypeActive(crackSubtype) && p.damageType == "crack" ==>
            RowViews.SubtypeLower(p.metadata) == Some(Text.Lower(crackSubtype.value)))
  {
    Seqs.FilterMembership(points, KeepFn(f, crackSubtype), p);
  }

  /** Filtering never reorders: the points kept from `a + b` are those kept from `a`, then from `b`. */
  lemma FilteredPreservesOrder(a: seq<DamageRow>, b: seq<DamageRow>, f: Filters, crackSubtype: Option<string>)
    ensures FilteredPoints(a + b, f, crackSubtype) == FilteredPoints(a, f, crackSubtype) + FilteredPoints(b, f, crackSubtype)
  {
    Seqs.FilterConcat(a, b, KeepFn(f, crackSubtype));
  }

  /** A severity the boxes know, in any letter case, and a damage type the boxes know. */
  predicate Recognized(p: DamageRow)
  {
    Text.Lower(p.severity) in {"high", "medium", "low"} && p.damageType in {"pothole", "crack"}
  }

  /** With every box ticked and no subtype parameter, every recognized point is shown. */
  lemma AllOnKeepsRecognized(points: seq<DamageRow>, crackSubtype: Option<string>)
    requires !SubtypeActive(crackSubtype)
    requires forall p :: p in points ==> Recognized(p)
    ensures FilteredPoints(points, AllOn, crackSubtype) == points
  {
    Seqs.FilterAll(points, KeepFn(AllOn, crackSubtype));
  }

  /** The subtype parameter only narrows cracks: for every other point it changes nothing. */
  lemma SubtypeOnlyAffectsCracks(f: Filters, crackSubtype: Option<string>, p: DamageRow)
    requires p.damageType != "crack"
    ensures Keep(f, crackSubtype, p) == Keep(f, None, p)
  {
  }

  /** `toggleSeverityFilter(k)`: flips the one box, keeps the other four. */
  function ToggleSeverity(f: Filters, k: SeverityKey): (g: Filters)
    ensures SeverityOn(g, k) == !SeverityOn(f, k)
    ensures forall j :: j != k ==> SeverityOn(g, j) == SeverityOn(f, j)
    ensures g.pothole == f.pothole && g.crack == f.crack
  {
    match k
    case High => f.(high := !f.high)
    case Medium => f.(medium := !f.medium)
    case Low => f.(low := !f.low)
  }

  /** `toggleDamageTypeFilter(k)`: flips the one box, keeps the other four. */
  function ToggleType(f: Filters, k: TypeKey): (g: Filters)
    ensures TypeOn(g, k) == !TypeOn(f, k)
    ensures forall j :: j != k ==> TypeOn(g, j) == TypeOn(f, j)
    ensures g.high == f.high && g.medium == f.medium && g.low == f.low
  {
    match k
    case Pothole => f.(pothole := !f.pothole)
    case Crack => f.(crack := !f.crack)
  }

  /** Toggling the same box twice restores the filters. */
  lemma ToggleTwice(f: Filters, s: SeverityKey, t: TypeKey)
    ensures ToggleSeverity(ToggleSeverity(f, s), s) == f
    ensures ToggleType(ToggleType(f, t), t) == f
  {
  }

  /** Unticking a severity box hides exactly the points of that severity (in any letter case). */
  lemma UntickSeverityHides(f: Filters, k: SeverityKey, crackSubtype: Option<string>, p: DamageRow)
    requires SeverityOn(f, k)
    ensures Keep(ToggleSeverity(f, k), crackSubtype, p) <==>
              Keep(f, crackSubtype, p) && Text.Lower(p.severity) != SeverityName(k)
  {
  }

  /** Unticking a type box hides exactly the points of that type. */
  lemma UntickTypeHides(f: Filters, k: TypeKey, crackSubtype: Option<string>, p: DamageRow)
    requires TypeOn(f, k)
    ensures Keep(ToggleType(f, k), crackSubtype, p) <==> Keep(f, crackSubtype, p) && p.damageType != TypeName(k)
  {
  }

  /** `resetFilters`: whatever was toggled before, every box is ticked again. */
  function ResetFilters(f: Filters): (g: Filters)
    ensures forall k :: SeverityOn(g, k)
    ensures forall k :: TypeOn(g, k)
  {
    AllOn
  }

  /**
   * The highlight parameters of the URL: the `highlight` id, and `lat`/`lng` as the numbers
   * they parse to, absent when missing, empty or not a number.
   */
  datatype HighlightTarget = HighlightTarget(id: Option<string>, lat: Option<real>, lng: Option<real>)

  const HighlightTolerance: real := 0.0001

  /**
   * `isHighlighted`: never under an active subtype parameter; otherwise when the point's id is
   * the `highlight` id, or both coordinates lie strictly within 0.0001 of `lat`/`lng`.
   */
  predicate IsHighlighted(point: DamageRow, crackSubtype: Option<string>, target: HighlightTarget)
  {
    !SubtypeActive(crackSubtype) &&
    (target.id == Some(point.id) ||
     (target.lat.Some? && target.lng.Some? &&
      Abs(point.latitude - target.lat.value) < HighlightTolerance &&
      Abs(point.longitude - target.lng.value) < HighlightTolerance))
  }

  /** A subtype parameter switches highlighting off for every point. */
  lemma SubtypeSuppressesHighlight(points: seq<DamageRow>, crackSubtype: Option<string>, target: HighlightTarget)
    requires SubtypeActive(crackSubtype)
    ensures forall p :: p in points ==> !IsHighlighted(p, crackSubtype, target)
  {
  }

  /**
   * Without a subtype parameter the point the URL names is highlighted (by id, or by its own
   * coordinates), and with neither an id nor both coordinates nothing is.
   */
  lemma HighlightTargets(p: DamageRow, crackSubtype: Option<string>, target: HighlightTarget)
    requires !SubtypeActive(crackSubtype)
    ensures target.id == Some(p.id) ==> IsHighlighted(p, crackSubtype, target)
    ensures target.lat == Some(p.latitude) && target.lng == Some(p.longitude) ==> IsHighlighted(p, crackSubtype, target)
    ensures target.id.None? && (target.lat.None? || target.lng.None?) ==> !IsHighlighted(p, crackSubtype, target)
  {
  }

  const UnknownColor := "#6b7280"

  /** `getSeverityColor`: the colour of a lower-cased severity label, grey for anything else. */
  function SeverityColor(severity: string): (color: string)
    ensures Text.Lower(severity) !in {"high", "medium", "low"} <==> color == UnknownColor
  {
    match Text.Lower(severity)
    case "high" => "#ef4444"
    case "medium" => "#f59e0b"
    case "low" => "#10b981"
    case _ => UnknownColor
  }

  /** The colour ignores letter case: a severity and its lower-cased form get the same colour. */
  lemma SeverityColorCaseInsensitive(severity: string)
    ensures SeverityColor(severity) == SeverityColor(Text.Lower(severity))
  {
    Text.LowerIdempotent(severity);
  }

  /** Points the severity boxes can select are exactly those drawn in one of the three colours. */
  lemma ColorMatchesSeverityBoxes(f: Filters, p: DamageRow)
    requires f == AllOn
    ensures SeverityFlag(f, Text.Lower(p.severity)) <==> SeverityColor(p.severity) != UnknownColor
  {
  }

  // ---------------------------------------------------------------------------------------------
  // Inherited property names

  /**
   * As written, a point whose damage type is an inherited property name such as "constructor"
   * passes the filter even with both type boxes unticked, while the own-key lookup drops it.
   */
  lemma InheritedTypeShownAsWritten(f: Filters, p: DamageRow)
    requires f.high && !f.pothole && !f.crack
    requires p.severity == "high" && p.damageType == "constructor"
    ensures KeepAsWritten(f, None, p)
    ensures !Keep(f, None, p)
  {
    assert Text.Lower(p.severity) == "high";
  }

  /** Corrected: every shown point is a pothole or a crack whose box is ticked. */
  lemma ShownTypesAreTicked(points: seq<DamageRow>, f: Filters, crackSubtype: Option<string>, p: DamageRow)
    requires p in FilteredPoints(points, f, crackSubtype)
    ensures (p.damageType == "pothole" && f.pothole) || (p.damageType == "crack" && f.crack)
  {
  }

  /** As written and corrected agree on every point whose severity and type are not inherited names. */
  lemma AsWrittenAgreesOnOwnKeys(f: Filters, crackSubtype: Option<string>, p: DamageRow)
    requires Text.Lower(p.severity) !in InheritedKeys && p.damageType !in InheritedKeys
    ensures KeepAsWritten(f, crackSubtype, p) == Keep(f, crackSubtype, p)
  {
  }
}
