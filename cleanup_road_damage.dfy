/**
 * The reconciliation edge function: it fetches the `road_damage` table once, rewrites the
 * location fields of every fetched row near one of twelve canonical locations (tolerance 0.01
 * degrees), relocates rows near one of two fix points (tolerance 0.001 degrees), inserts four new
 * rows unconditionally, and reports counters and per-item errors. The store is a table of rows
 * keyed by id whose update and insert calls may fail; which calls fail, the random draws, the
 * current time and the ids the store gives new rows are inputs.
 */
module CleanupRoadDamage {
  import opened Wrappers
  import opened Schema
  import Seqs

  /** A canonical location: coordinates and the nine location fields a row is given. */
  datatype NominatimLocation = NominatimLocation(
    lat: real, lon: real, roadName: string, city: string, state: string, district: string,
    municipality: string, roadCategory: string, autobahnRegion: Option<string>)

  /** A rewrite rule: rows near (`oldLat`, `oldLon`) get the fields of `newLocation`. */
  datatype Fix = Fix(oldLat: real, oldLon: real, newLocation: NominatimLocation)

  const LocationsToCorrect: seq<NominatimLocation> := [
    NominatimLocation(49.64662, 11.02193, "A 73", "Baiersdorf", "Bayern", "Landkreis Erlangen-Höchstadt", "Baiersdorf", "autobahn", Some("Süd")),
    NominatimLocation(49.77658, 10.30691, "A 3", "Großlangheim", "Bayern", "Landkreis Kitzingen", "Großlangheim", "autobahn", Some("Süd")),
    NominatimLocation(49.984847, 9.808871, "Karlstadterstraße", "Eußenheim", "Bayern", "Landkreis Main-Spessart", "Eußenheim", "municipal", None),
    NominatimLocation(48.15492, 11.58334, "Leopoldstraße", "München", "Bayern", "München", "München", "municipal", None),
    NominatimLocation(48.15465, 11.57925, "Georgenstraße", "München", "Bayern", "München", "München", "municipal", None),
    NominatimLocation(48.15297, 11.58489, "Kaulbachstraße", "München", "Bayern", "München", "München", "municipal", None),
    NominatimLocation(48.265419, 11.646162, "A 9", "Garching bei München", "Bayern", "Landkreis München", "Garching bei München", "autobahn", Some("Süd")),
    NominatimLocation(52.56762, 12.97082, "A 10", "Wustermark", "Brandenburg", "Havelland", "Wustermark", "autobahn", Some("Ost")),
    NominatimLocation(52.49322, 12.96267, "A 10", "Potsdam", "Brandenburg", "Potsdam", "Potsdam", "autobahn", Some("Ost")),
    NominatimLocation(52.45712, 12.93760, "A 10", "Potsdam", "Brandenburg", "Potsdam", "Potsdam", "autobahn", Some("Ost")),
    NominatimLocation(52.393444, 12.833920, "A 10", "Werder (Havel)", "Brandenburg", "Potsdam-Mittelmark", "Werder (Havel)", "autobahn", Some("Ost")),
    NominatimLocation(52.36697, 12.81572, "A 10", "Kloster Lehnin", "Brandenburg", "Potsdam-Mittelmark", "Kloster Lehnin", "autobahn", Some("Ost"))
  ]

  const NewEntries: seq<NominatimLocation> := [
    NominatimLocation(52.32869, 12.82362, "A 10", "Kloster Lehnin", "Brandenburg", "Potsdam-Mittelmark", "Kloster Lehnin", "autobahn", Some("Ost")),
    NominatimLocation(52.236135, 12.917283, "A 9", "Beelitz", "Brandenburg", "Potsdam-Mittelmark", "Beelitz", "autobahn", Some("Ost")),
    NominatimLocation(52.17525, 12.83180, "A 9", "Niemegk", "Brandenburg", "Potsdam-Mittelmark", "Niemegk", "autobahn", Some("Ost")),
    NominatimLocation(52.087087, 12.676528, "A 9", "Niemegk", "Brandenburg", "Potsdam-Mittelmark", "Niemegk", "autobahn", Some("Ost"))
  ]

  const Fixes: seq<Fix> := [
    Fix(48.0700, 11.4500,
        NominatimLocation(48.05215, 11.45625, "A 95", "Forstenrieder Park", "Bayern", "Landkreis München", "Landkreis München", "autobahn", Some("Süd"))),
    Fix(48.2500, 11.5500,
        NominatimLocation(48.27005, 11.54133, "A 92", "Unterschleißheim", "Bayern", "Landkreis München", "Unterschleißheim", "autobahn", Some("Süd")))
  ]

  /** Phase A matches each canonical location against its own coordinates. */
  function AsRules(locs: seq<NominatimLocation>): (rules: seq<Fix>)
    ensures |rules| == |locs|
    ensures forall i :: 0 <= i < |locs| ==> rules[i] == Fix(locs[i].lat, locs[i].lon, locs[i])
  {
    if locs == [] then [] else [Fix(locs[0].lat, locs[0].lon, locs[0])] + AsRules(locs[1..])
  }

  const CorrectionRules: seq<Fix> := AsRules(LocationsToCorrect)

  const CorrectionTolerance: real := 0.01
  const FixTolerance: real := 0.001

  /** `Math.abs(entry.latitude - lat) < tol && Math.abs(entry.longitude - lon) < tol`. */
  predicate Near(row: DamageRow, lat: real, lon: real, tolerance: real)
  {
    Abs(row.latitude - lat) < tolerance && Abs(row.longitude - lon) < tolerance
  }

  /** `autobahn_region || null`: an absent or empty region is written as null. */
  function RegionValue(region: Option<string>): (r: Option<string>)
    ensures r.None? <==> region.None? || region.value == ""
    ensures r.Some? ==> r == region
  {
    if region.None? || region.value == "" then None else region
  }

  /** The update payload of Phases A and B applied to a row: the nine location fields, nothing else. */
  function Relocate(row: DamageRow, loc: NominatimLocation): DamageRow
  {
    row.(latitude := loc.lat, longitude := loc.lon, roadName := Some(loc.roadName), city := Some(loc.city),
         state := Some(loc.state), district := Some(loc.district), municipality := Some(loc.municipality),
         roadCategory := loc.roadCategory, autobahnRegion := RegionValue(loc.autobahnRegion))
  }

  /**
   * A rewrite replaces every field a rewrite writes, so of two rewrites only the second is
   * visible; the row keeps its id and detection fields, and the region is null whenever the
   * location has none.
   */
  lemma RelocateOverwrites(row: DamageRow, a: NominatimLocation, b: NominatimLocation)
    ensures Relocate(Relocate(row, a), b) == Relocate(row, b)
    ensures var r := Relocate(row, b);
      && r.latitude == b.lat && r.longitude == b.lon && r.roadName == Some(b.roadName)
      && r.roadCategory == b.roadCategory
      && (b.autobahnRegion.None? ==> r.autobahnRegion.None?)
      && r.id == row.id && r.damageType == row.damageType && r.severity == row.severity
      && r.confidenceScore == row.confidenceScore && r.detectedAt == row.detectedAt
      && r.imageUrl == row.imageUrl && r.metadata == row.metadata
  {
  }

  /** The fetched rows a rule selects, in fetched order. */
  function Matches(snapshot: seq<DamageRow>, rule: Fix, tolerance: real): seq<DamageRow>
  {
    Seqs.Filter(snapshot, (e: DamageRow) => Near(e, rule.oldLat, rule.oldLon, tolerance))
  }

  datatype Phase = Correcting | Fixing

  /** One entry of `results.errors`: which call failed and the store's message. */
  datatype ItemError =
    | UpdateError(phase: Phase, id: RowId, message: string)
    | InsertError(lat: real, lon: real, message: string)

  /** The table, a counter and the error list, as they evolve through a phase. */
  datatype Progress = Progress(rows: map<RowId, DamageRow>, count: nat, errors: seq<ItemError>)

  /**
   * One update call for a matched row. Failures are keyed by (rule index, row id); a failure is
   * logged and leaves the table alone, a success is counted, even when the row already holds the
   * values or is no longer in the table.
   */
  function UpdateOne(pr: Progress, entry: DamageRow, rule: Fix, ruleIndex: nat, phase: Phase,
                     failures: map<(nat, RowId), string>): Progress
  {
    var key := (ruleIndex, entry.id);
    if key in failures then Progress(pr.rows, pr.count, pr.errors + [UpdateError(phase, entry.id, failures[key])])
    else
      var rows := if entry.id in pr.rows then pr.rows[entry.id := Relocate(pr.rows[entry.id], rule.newLocation)] else pr.rows;
      Progress(rows, pr.count + 1, pr.errors)
  }

  /** The inner loop: one update per matched row, in order. */
  function UpdateEach(pr: Progress, entries: seq<DamageRow>, rule: Fix, ruleIndex: nat, phase: Phase,
                      failures: map<(nat, RowId), string>): Progress
    decreases |entries|
  {
    if entries == [] then pr
    else
      var last := |entries| - 1;
      UpdateOne(UpdateEach(pr, entries[..last], rule, ruleIndex, phase, failures), entries[last], rule, ruleIndex, phase, failures)
  }

  /** A whole match phase over the rules in order, every rule matched against the same snapshot. */
  function PhaseSpec(pr: Progress, snapshot: seq<DamageRow>, rules: seq<Fix>, tolerance: real, phase: Phase,
                     failures: map<(nat, RowId), string>): Progress
    decreases |rules|
  {
    if rules == [] then pr
    else
      var last := |rules| - 1;
      var before := PhaseSpec(pr, snapshot, rules[..last], tolerance, phase, failures);
      UpdateEach(before, Matches(snapshot, rules[last], tolerance), rules[last], last, phase, failures)
  }

  /** The three values Phase C draws from `Math.random()` for one new row, in evaluation order. */
  datatype Draw = Draw(damageType: real, severity: real, confidence: real)

  predicate ValidDraw(d: Draw)
  {
    0.0 <= d.damageType < 1.0 && 0.0 <= d.severity < 1.0 && 0.0 <= d.confidence < 1.0
  }

  const Severities: seq<string> := ["low", "medium", "high"]
  const DamageTypes: seq<string> := ["crack", "pothole"]
  const PlaceholderImage := "/images/sample-pothole.jpg"
  const CleanupMetadata := JObj(map["source" := JStr("nominatim_cleanup"), "added_by" := JStr("cleanup_function")])

  /** `arr[Math.floor(r * arr.length)]`. */
  function Pick(arr: seq<string>, r: real): (s: string)
    requires |arr| > 0 && 0.0 <= r < 1.0
    ensures s in arr
  {
    var k := (r * |arr| as real).Floor;
    assert 0 <= k < |arr| by {
      assert 0.0 <= r * |arr| as real < |arr| as real;
    }
    arr[k]
  }

  /** The row Phase C inserts for one location, with the id the store gives it. */
  function NewRow(loc: NominatimLocation, draw: Draw, now: string, id: RowId): DamageRow
    requires ValidDraw(draw)
  {
    DamageRow(id, RegionValue(loc.autobahnRegion), Some(loc.city), Some(draw.confidence * 0.2 + 0.8),
              Pick(DamageTypes, draw.damageType), now, Some(loc.district), Some(PlaceholderImage),
              loc.lat, loc.lon, CleanupMetadata, Some(loc.municipality), loc.roadCategory, Some(loc.roadName),
              Pick(Severities, draw.severity), Some(loc.state))
  }

  /**
   * Every inserted row is a crack or a pothole of low, medium or high severity, with a confidence
   * in [0.8, 1.0), the placeholder image, the cleanup provenance tag, and the location's fields.
   */
  lemma NewRowRanges(loc: NominatimLocation, draw: Draw, now: string, id: RowId)
    requires ValidDraw(draw)
    ensures var r := NewRow(loc, draw, now, id);
      && (r.damageType == "crack" || r.damageType == "pothole")
      && (r.severity == "low" || r.severity == "medium" || r.severity == "high")
      && r.confidenceScore.Some? && 0.8 <= r.confidenceScore.value < 1.0
      && r.imageUrl == Some(PlaceholderImage)
      && Field(r.metadata, "source") == Some(JStr("nominatim_cleanup"))
      && Field(r.metadata, "added_by") == Some(JStr("cleanup_function"))
      && r.latitude == loc.lat && r.longitude == loc.lon && r.detectedAt == now
      && (loc.autobahnRegion.None? ==> r.autobahnRegion.None?)
  {
    var r := NewRow(loc, draw, now, id);
    assert r.damageType in DamageTypes;
    assert r.severity in Severities;
  }

  /** Phase C over the first `|locs|` new entries: one insert each, no existence check. */
  function InsertSpec(pr: Progress, locs: seq<NominatimLocation>, draws: seq<Draw>, ids: seq<RowId>, nows: seq<string>,
                      failures: map<nat, string>): Progress
    requires |locs| <= |draws| && |locs| <= |ids| && |locs| <= |nows|
    requires forall k :: 0 <= k < |draws| ==> ValidDraw(draws[k])
    decreases |locs|
  {
    if locs == [] then pr
    else
      var k := |locs| - 1;
      InsertOne(InsertSpec(pr, locs[..k], draws, ids, nows, failures), locs[k], draws[k], ids[k], nows[k], k, failures)
  }

  /** The insert call for new entry `k`: logged when it fails, otherwise the row is added and counted. */
  function InsertOne(pr: Progress, loc: NominatimLocation, draw: Draw, id: RowId, now: string, k: nat,
                     failures: map<nat, string>): Progress
    requires ValidDraw(draw)
  {
    if k in failures then Progress(pr.rows, pr.count, pr.errors + [InsertError(loc.lat, loc.lon, failures[k])])
    else Progress(pr.rows[id := NewRow(loc, draw, now, id)], pr.count + 1, pr.errors)
  }

  /** Which store calls fail, and with what message. */
  datatype Failures = Failures(correct: map<(nat, RowId), string>, fix: map<(nat, RowId), string>, insert: map<nat, string>)

  datatype Results = Results(corrected: nat, added: nat, fixed: nat, errors: seq<ItemError>)

  /** The JSON body: the report with the final table, or a failure (sent with status 500). */
  datatype CleanupResponse =
    | Success(results: Results, totalEntries: nat, data: map<RowId, DamageRow>)
    | Failure

  function StatusCode(resp: CleanupResponse): int
  {
    if resp.Success? then 200 else 500
  }

  /** The ids the store gives the new rows: distinct, and not yet in the table. */
  predicate FreshIds(ids: seq<RowId>, rows: map<RowId, DamageRow>)
  {
    && (forall k :: 0 <= k < |ids| ==> ids[k] !in rows)
    && (forall k, m :: 0 <= k < m < |ids| ==> ids[k] != ids[m])
  }

  /** The three reference lists the handler works through. */
  datatype ReferenceLists = ReferenceLists(corrections: seq<Fix>, fixes: seq<Fix>, newEntries: seq<NominatimLocation>)

  const Reference := ReferenceLists(CorrectionRules, Fixes, NewEntries)

  /** The whole handler, for given reference lists: the final table and the response. */
  function CleanupSpec(lists: ReferenceLists, rows: map<RowId, DamageRow>, fetch: Result<seq<DamageRow>, string>,
                       failures: Failures, draws: seq<Draw>, ids: seq<RowId>, nows: seq<string>,
                       finalFetch: Option<string>): (map<RowId, DamageRow>, CleanupResponse)
    requires |draws| == |lists.newEntries| && |ids| == |lists.newEntries| && |nows| == |lists.newEntries|
    requires forall k :: 0 <= k < |draws| ==> ValidDraw(draws[k])
  {
    if fetch.Err? then (rows, Failure)
    else
      var a := PhaseSpec(Progress(rows, 0, []), fetch.value, lists.corrections, CorrectionTolerance, Correcting, failures.correct);
      var b := PhaseSpec(Progress(a.rows, 0, a.errors), fetch.value, lists.fixes, FixTolerance, Fixing, failures.fix);
      var c := InsertSpec(Progress(b.rows, 0, b.errors), lists.newEntries, draws, ids, nows, failures.insert);
      if finalFetch.Some? then (c.rows, Failure)
      else (c.rows, Success(Results(a.count, c.count, b.count, c.errors), |c.rows|, c.rows))
  }

  class RoadDamageTable {
    var rows: map<RowId, DamageRow>

    constructor (rows: map<RowId, DamageRow>)
      ensures this.rows == rows
    {
      this.rows := rows;
    }

    /**
     * `update(fields).eq('id', id)` with a location's fields: a failing call changes nothing and
     * returns its message; an id no row has matches nothing and is no error.
     */
    method Update(id: RowId, loc: NominatimLocation, failure: Option<string>) returns (err: Option<string>)
      modifies this
      ensures err == failure
      ensures rows == if failure.None? && id in old(rows) then old(rows)[id := Relocate(old(rows)[id], loc)] else old(rows)
    {
      if failure.Some? {
        return failure;
      }
      if id in rows {
        rows := rows[id := Relocate(rows[id], loc)];
      }
      return None;
    }

    /** `insert([row])`: a failing call changes nothing and returns its message. */
    method Insert(row: DamageRow, failure: Option<string>) returns (err: Option<string>)
      requires row.id !in rows
      modifies this
      ensures err == failure
      ensures rows == if failure.None? then old(rows)[row.id := row] else old(rows)
    {
      if failure.Some? {
        return failure;
      }
      rows := rows[row.id := row];
      return None;
    }
  }

  /**
   * One match phase: for each rule in order, every snapshot row near it is updated, each success
   * counted and each failure logged.
   */
  method RunPhase(table: RoadDamageTable, snapshot: seq<DamageRow>, rules: seq<Fix>, tolerance: real, phase: Phase,
                  failures: map<(nat, RowId), string>, errors: seq<ItemError>)
    returns (count: nat, errorsOut: seq<ItemError>)
    modifies table
    ensures Progress(table.rows, count, errorsOut)
         == PhaseSpec(Progress(old(table.rows), 0, errors), snapshot, rules, tolerance, phase, failures)
  {
    count, errorsOut := 0, errors;
    ghost var start := Progress(table.rows, 0, errors);
    var i := 0;
    while i < |rules|
      invariant 0 <= i <= |rules|
      invariant Progress(table.rows, count, errorsOut) == PhaseSpec(start, snapshot, rules[..i], tolerance, phase, failures)
    {
      var rule := rules[i];
      count, errorsOut := UpdateMatches(table, Matches(snapshot, rule, tolerance), rule, i, phase, failures, count, errorsOut);
      PhaseSpecStep(start, snapshot, rules, tolerance, phase, failures, i);
      i := i + 1;
    }
    assert rules[..i] == rules;
  }

  /** Running one more rule extends a phase's specification by that rule's updates. */
  lemma PhaseSpecStep(pr: Progress, snapshot: seq<DamageRow>, rules: seq<Fix>, tolerance: real, phase: Phase,
                      failures: map<(nat, RowId), string>, i: nat)
    requires i < |rules|
    ensures PhaseSpec(pr, snapshot, rules[..i + 1], tolerance, phase, failures)
         == UpdateEach(PhaseSpec(pr, snapshot, rules[..i], tolerance, phase, failures), Matches(snapshot, rules[i], tolerance),
                       rules[i], i, phase, failures)
  {
    assert rules[..i + 1][..i] == rules[..i];
  }

  /** The inner loop of a phase: one update call per matched row, in order. */
  method UpdateMatches(table: RoadDamageTable, matching: seq<DamageRow>, rule: Fix, ruleIndex: nat, phase: Phase,
                       failures: map<(nat, RowId), string>, count: nat, errors: seq<ItemError>)
    returns (countOut: nat, errorsOut: seq<ItemError>)
    modifies table
    ensures Progress(table.rows, countOut, errorsOut)
         == UpdateEach(Progress(old(table.rows), count, errors), matching, rule, ruleIndex, phase, failures)
  {
    countOut, errorsOut := count, errors;
    ghost var before := Progress(table.rows, count, errors);
    var j := 0;
    while j < |matching|
      invariant 0 <= j <= |matching|
      invariant Progress(table.rows, countOut, errorsOut) == UpdateEach(before, matching[..j], rule, ruleIndex, phase, failures)
    {
      var entry := matching[j];
      var key := (ruleIndex, entry.id);
      var failure := if key in failures then Some(failures[key]) else None;
      var err := table.Update(entry.id, rule.newLocation, failure);
      if err.Some? {
        errorsOut := errorsOut + [UpdateError(phase, entry.id, err.value)];
      } else {
        countOut := countOut + 1;
      }
      assert matching[..j + 1][..j] == matching[..j];
      j := j + 1;
    }
    assert matching[..j] == matching;
  }

  /** Running one more insert call extends the specification by one step. */
  lemma InsertSpecStep(pr: Progress, locs: seq<NominatimLocation>, draws: seq<Draw>, ids: seq<RowId>, nows: seq<string>,
                       failures: map<nat, string>, k: nat)
    requires k < |locs| && |locs| <= |draws| && |locs| <= |ids| && |locs| <= |nows|
    requires forall m :: 0 <= m < |draws| ==> ValidDraw(draws[m])
    ensures InsertSpec(pr, locs[..k + 1], draws, ids, nows, failures)
         == InsertOne(InsertSpec(pr, locs[..k], draws, ids, nows, failures), locs[k], draws[k], ids[k], nows[k], k, failures)
  {
    assert locs[..k + 1][..k] == locs[..k];
  }

  /**
   * Phase C: one insert per new entry, each success counted and each failure logged. Entry `k`
   * is stamped with `nows[k]`, the clock read when its row is built, after the earlier inserts.
   */
  method AddNewEntries(table: RoadDamageTable, locs: seq<NominatimLocation>, draws: seq<Draw>, ids: seq<RowId>,
                       nows: seq<string>, failures: map<nat, string>, errors: seq<ItemError>)
    returns (count: nat, errorsOut: seq<ItemError>)
    requires |draws| == |locs| && |ids| == |locs| && |nows| == |locs|
    requires forall k :: 0 <= k < |draws| ==> ValidDraw(draws[k])
    requires FreshIds(ids, table.rows)
    modifies table
    ensures Progress(table.rows, count, errorsOut)
         == InsertSpec(Progress(old(table.rows), 0, errors), locs, draws, ids, nows, failures)
  {
    count, errorsOut := 0, errors;
    ghost var start := Progress(table.rows, 0, errors);
    var k := 0;
    while k < |locs|
      invariant 0 <= k <= |locs|
      invariant Progress(table.rows, count, errorsOut) == InsertSpec(start, locs[..k], draws, ids, nows, failures)
      invariant forall m :: k <= m < |ids| ==> ids[m] !in table.rows
    {
      var loc := locs[k];
      var row := NewRow(loc, draws[k], nows[k], ids[k]);
      var failure := if k in failures then Some(failures[k]) else None;
      var err := table.Insert(row, failure);
      if err.Some? {
        errorsOut := errorsOut + [InsertError(loc.lat, loc.lon, err.value)];
      } else {
        count := count + 1;
      }
      InsertSpecStep(start, locs, draws, ids, nows, failures, k);
      k := k + 1;
    }
    assert locs[..k] == locs;
  }

  /**
   * The handler: a failed initial fetch aborts before any write; otherwise the three phases run
   * against the one snapshot, and a failed final fetch turns the report into a failure although
   * every write stays.
   */
  method Cleanup(table: RoadDamageTable, fetch: Result<seq<DamageRow>, string>, failures: Failures,
                 draws: seq<Draw>, ids: seq<RowId>, nows: seq<string>, finalFetch: Option<string>)
    returns (resp: CleanupResponse)
    requires |draws| == |NewEntries| && |ids| == |NewEntries| && |nows| == |NewEntries|
    requires forall k :: 0 <= k < |draws| ==> ValidDraw(draws[k])
    requires FreshIds(ids, table.rows)
    modifies table
    ensures (table.rows, resp) == CleanupSpec(Reference, old(table.rows), fetch, failures, draws, ids, nows, finalFetch)
  {
    if fetch.Err? {
      return Failure;
    }
    var snapshot := fetch.value;
    var corrected, errors := RunPhase(table, snapshot, CorrectionRules, CorrectionTolerance, Correcting, failures.correct, []);
    ghost var afterA := table.rows;
    PhaseKeys(Progress(old(table.rows), 0, []), snapshot, CorrectionRules, CorrectionTolerance, Correcting, failures.correct);
    var fixed, errorsB := RunPhase(table, snapshot, Fixes, FixTolerance, Fixing, failures.fix, errors);
    PhaseKeys(Progress(afterA, 0, errors), snapshot, Fixes, FixTolerance, Fixing, failures.fix);
    var added, errorsC := AddNewEntries(table, NewEntries, draws, ids, nows, failures.insert, errorsB);
    if finalFetch.Some? {
      return Failure;
    }
    return Success(Results(corrected, added, fixed, errorsC), |table.rows|, table.rows);
  }

  // ---------------------------------------------------------------------------------------------
  // Properties of the phases

  /** Updates never add or remove rows. */
  lemma {:induction false} UpdateEachKeys(pr: Progress, entries: seq<DamageRow>, rule: Fix, ruleIndex: nat, phase: Phase,
                                          failures: map<(nat, RowId), string>)
    ensures UpdateEach(pr, entries, rule, ruleIndex, phase, failures).rows.Keys == pr.rows.Keys
    decreases |entries|
  {
    if entries != [] {
      UpdateEachKeys(pr, entries[..|entries| - 1], rule, ruleIndex, phase, failures);
    }
  }

  lemma {:induction false} PhaseKeys(pr: Progress, snapshot: seq<DamageRow>, rules: seq<Fix>, tolerance: real, phase: Phase,
                                     failures: map<(nat, RowId), string>)
    ensures PhaseSpec(pr, snapshot, rules, tolerance, phase, failures).rows.Keys == pr.rows.Keys
    decreases |rules|
  {
    if rules != [] {
      var last := |rules| - 1;
      PhaseKeys(pr, snapshot, rules[..last], tolerance, phase, failures);
      UpdateEachKeys(PhaseSpec(pr, snapshot, rules[..last], tolerance, phase, failures),
                     Matches(snapshot, rules[last], tolerance), rules[last], last, phase, failures);
    }
  }

  /** Every update call is either counted or logged, and the error list only grows. */
  lemma {:induction false} UpdateEachCounts(pr: Progress, entries: seq<DamageRow>, rule: Fix, ruleIndex: nat, phase: Phase,
                                            failures: map<(nat, RowId), string>)
    ensures var r := UpdateEach(pr, entries, rule, ruleIndex, phase, failures);
      && |pr.errors| <= |r.errors| && r.errors[..|pr.errors|] == pr.errors
      && (r.count - pr.count) + (|r.errors| - |pr.errors|) == |entries|
      && (failures == map[] ==> r.errors == pr.errors)
    decreases |entries|
  {
    if entries != [] {
      var last := |entries| - 1;
      var mid := UpdateEach(pr, entries[..last], rule, ruleIndex, phase, failures);
      UpdateEachCounts(pr, entries[..last], rule, ruleIndex, phase, failures);
      var r := UpdateOne(mid, entries[last], rule, ruleIndex, phase, failures);
      assert r.errors[..|mid.errors|] == mid.errors;
      assert r.errors[..|pr.errors|] == mid.errors[..|pr.errors|];
    }
  }

  /** The number of (rule, matching snapshot row) pairs of a phase. */
  function MatchPairs(snapshot: seq<DamageRow>, rules: seq<Fix>, tolerance: real): nat
    decreases |rules|
  {
    if rules == [] then 0
    else MatchPairs(snapshot, rules[..|rules| - 1], tolerance) + |Matches(snapshot, rules[|rules| - 1], tolerance)|
  }

  /**
   * A phase's counter plus the errors it logs is the number of (rule, matching row) pairs: one
   * update call per pair, none skipped and none repeated.
   */
  lemma {:induction false} PhaseCounts(pr: Progress, snapshot: seq<DamageRow>, rules: seq<Fix>, tolerance: real, phase: Phase,
                                       failures: map<(nat, RowId), string>)
    ensures var r := PhaseSpec(pr, snapshot, rules, tolerance, phase, failures);
      && |pr.errors| <= |r.errors| && r.errors[..|pr.errors|] == pr.errors
      && (r.count - pr.count) + (|r.errors| - |pr.errors|) == MatchPairs(snapshot, rules, tolerance)
      && (failures == map[] ==> r.errors == pr.errors)
    decreases |rules|
  {
    if rules != [] {
      var last := |rules| - 1;
      var mid := PhaseSpec(pr, snapshot, rules[..last], tolerance, phase, failures);
      PhaseCounts(pr, snapshot, rules[..last], tolerance, phase, failures);
      UpdateEachCounts(mid, Matches(snapshot, rules[last], tolerance), rules[last], last, phase, failures);
      var r := PhaseSpec(pr, snapshot, rules, tolerance, phase, failures);
      assert r.errors[..|pr.errors|] == mid.errors[..|pr.errors|];
    }
  }

  /** Some fetched row with this id lies near the rule's point. */
  predicate Hit(snapshot: seq<DamageRow>, id: RowId, rule: Fix, tolerance: real)
  {
    exists e :: e in snapshot && e.id == id && Near(e, rule.oldLat, rule.oldLon, tolerance)
  }

  /** The last rule whose update of row `id` succeeds, if any. */
  function LastSuccess(snapshot: seq<DamageRow>, id: RowId, rules: seq<Fix>, tolerance: real,
                       failures: map<(nat, RowId), string>): (r: Option<nat>)
    ensures r.Some? ==> r.value < |rules| && Hit(snapshot, id, rules[r.value], tolerance) && (r.value, id) !in failures
    ensures forall m :: (if r.Some? then r.value else -1) < m < |rules| ==>
              !(Hit(snapshot, id, rules[m], tolerance) && (m, id) !in failures)
    decreases |rules|
  {
    if rules == [] then None
    else
      var last := |rules| - 1;
      if Hit(snapshot, id, rules[last], tolerance) && (last, id) !in failures then Some(last)
      else
        var r := LastSuccess(snapshot, id, rules[..last], tolerance, failures);
        assert forall m :: 0 <= m < last ==> rules[..last][m] == rules[m];
        r
  }

  /** What one rule's inner loop does to one row. */
  lemma {:induction false} UpdateEachEffect(pr: Progress, entries: seq<DamageRow>, rule: Fix, ruleIndex: nat, phase: Phase,
                                            failures: map<(nat, RowId), string>, id: RowId)
    requires id in pr.rows
    ensures var r := UpdateEach(pr, entries, rule, ruleIndex, phase, failures).rows;
      id in r && r[id] == if (exists e :: e in entries && e.id == id) && (ruleIndex, id) !in failures
                          then Relocate(pr.rows[id], rule.newLocation) else pr.rows[id]
    decreases |entries|
  {
    if entries != [] {
      var last := |entries| - 1;
      UpdateEachKeys(pr, entries[..last], rule, ruleIndex, phase, failures);
      UpdateEachEffect(pr, entries[..last], rule, ruleIndex, phase, failures, id);
      var prev := UpdateEach(pr, entries[..last], rule, ruleIndex, phase, failures);
      assert UpdateEach(pr, entries, rule, ruleIndex, phase, failures) == UpdateOne(prev, entries[last], rule, ruleIndex, phase, failures);
      assert forall e :: e in entries <==> e in entries[..last] || e == entries[last] by {
        assert entries == entries[..last] + [entries[last]];
      }
      if entries[last].id == id && (ruleIndex, id) !in failures {
        RelocateOverwrites(pr.rows[id], rule.newLocation, rule.newLocation);
      }
    }
  }

  /**
   * A row matched by several rules of a phase ends with the fields of the last rule whose update
   * succeeded; a row no update succeeded on is unchanged. Updates are keyed by id, so this holds
   * for every row of the table whatever the snapshot holds.
   */
  lemma {:induction false} PhaseLastMatchWins(pr: Progress, snapshot: seq<DamageRow>, rules: seq<Fix>, tolerance: real,
                                              phase: Phase, failures: map<(nat, RowId), string>, id: RowId)
    requires id in pr.rows
    ensures var r := PhaseSpec(pr, snapshot, rules, tolerance, phase, failures).rows;
      id in r && r[id] == match LastSuccess(snapshot, id, rules, tolerance, failures)
                          case None => pr.rows[id]
                          case Some(m) => Relocate(pr.rows[id], rules[m].newLocation)
    decreases |rules|
  {
    if rules != [] {
      var last := |rules| - 1;
      var mid := PhaseSpec(pr, snapshot, rules[..last], tolerance, phase, failures);
      PhaseKeys(pr, snapshot, rules[..last], tolerance, phase, failures);
      PhaseLastMatchWins(pr, snapshot, rules[..last], tolerance, phase, failures, id);
      var matches := Matches(snapshot, rules[last], tolerance);
      UpdateEachEffect(mid, matches, rules[last], last, phase, failures, id);
      var matched := exists e :: e in matches && e.id == id;
      assert matched <==> Hit(snapshot, id, rules[last], tolerance) by {
        forall e
          ensures e in matches <==> e in snapshot && Near(e, rules[last].oldLat, rules[last].oldLon, tolerance)
        {
          Seqs.FilterMembership(snapshot, (e: DamageRow) => Near(e, rules[last].oldLat, rules[last].oldLon, tolerance), e);
        }
      }
      var prev := LastSuccess(snapshot, id, rules[..last], tolerance, failures);
      if prev.Some? {
        assert rules[..last][prev.value] == rules[prev.value];
        if matched && (last, id) !in failures {
          RelocateOverwrites(pr.rows[id], rules[prev.value].newLocation, rules[last].newLocation);
        }
      }
    }
  }

  /** How many of the calls `0 .. n-1` are not in `failures`. */
  function Successes(n: nat, failures: map<nat, string>): (r: nat)
    ensures r <= n
  {
    if n == 0 then 0 else Successes(n - 1, failures) + (if n - 1 in failures then 0 else 1)
  }

  /** Phase C makes one insert call per new entry: each is counted or logged. */
  lemma {:induction false} InsertCounts(pr: Progress, locs: seq<NominatimLocation>, draws: seq<Draw>, ids: seq<RowId>,
                                        nows: seq<string>, failures: map<nat, string>)
    requires |locs| <= |draws| && |locs| <= |ids| && |locs| <= |nows|
    requires forall k :: 0 <= k < |draws| ==> ValidDraw(draws[k])
    ensures var r := InsertSpec(pr, locs, draws, ids, nows, failures);
      && |pr.errors| <= |r.errors| && r.errors[..|pr.errors|] == pr.errors
      && (r.count - pr.count) + (|r.errors| - |pr.errors|) == |locs|
      && r.count - pr.count == Successes(|locs|, failures)
      && (failures == map[] ==> r.errors == pr.errors)
    decreases |locs|
  {
    if locs != [] {
      var k := |locs| - 1;
      var prev := InsertSpec(pr, locs[..k], draws, ids, nows, failures);
      InsertCounts(pr, locs[..k], draws, ids, nows, failures);
      var r := InsertOne(prev, locs[k], draws[k], ids[k], nows[k], k, failures);
      assert InsertSpec(pr, locs, draws, ids, nows, failures) == r;
      if k in failures {
        var e := InsertError(locs[k].lat, locs[k].lon, failures[k]);
        assert r.errors == prev.errors + [e] && r.count == prev.count;
        assert r.errors[..|prev.errors|] == prev.errors;
        assert r.errors[..|pr.errors|] == prev.errors[..|pr.errors|];
      } else {
        assert r.errors == prev.errors && r.count == prev.count + 1;
      }
    }
  }

  /** The ids of the rows the first `n` inserts add. */
  function InsertedIds(ids: seq<RowId>, n: nat, failures: map<nat, string>): (r: set<RowId>)
    requires n <= |ids|
    ensures forall id :: id in r ==> id in ids[..n]
  {
    if n == 0 then {}
    else InsertedIds(ids, n - 1, failures) + (if n - 1 in failures then {} else {ids[n - 1]})
  }

  /** Phase C adds exactly the ids of the successful inserts to the table. */
  lemma {:induction false} InsertKeys(pr: Progress, locs: seq<NominatimLocation>, draws: seq<Draw>, ids: seq<RowId>,
                                      nows: seq<string>, failures: map<nat, string>)
    requires |locs| <= |draws| && |locs| <= |ids| && |locs| <= |nows|
    requires forall k :: 0 <= k < |draws| ==> ValidDraw(draws[k])
    ensures InsertSpec(pr, locs, draws, ids, nows, failures).rows.Keys == pr.rows.Keys + InsertedIds(ids, |locs|, failures)
    decreases |locs|
  {
    if locs != [] {
      var k := |locs| - 1;
      var prev := InsertSpec(pr, locs[..k], draws, ids, nows, failures);
      InsertKeys(pr, locs[..k], draws, ids, nows, failures);
      assert InsertSpec(pr, locs, draws, ids, nows, failures) == InsertOne(prev, locs[k], draws[k], ids[k], nows[k], k, failures);
      assert InsertedIds(ids, |locs|, failures) == InsertedIds(ids, k, failures) + (if k in failures then {} else {ids[k]});
    }
  }

  /** With fresh ids, Phase C leaves an existing row as it was. */
  lemma {:induction false} InsertKeepsRow(pr: Progress, locs: seq<NominatimLocation>, draws: seq<Draw>, ids: seq<RowId>,
                                          nows: seq<string>, failures: map<nat, string>, id: RowId)
    requires |locs| <= |draws| && |locs| <= |ids| && |locs| <= |nows|
    requires forall k :: 0 <= k < |draws| ==> ValidDraw(draws[k])
    requires FreshIds(ids, pr.rows)
    requires id in pr.rows
    ensures var r := InsertSpec(pr, locs, draws, ids, nows, failures);
      id in r.rows && r.rows[id] == pr.rows[id]
    decreases |locs|
  {
    if locs != [] {
      var k := |locs| - 1;
      InsertKeepsRow(pr, locs[..k], draws, ids, nows, failures, id);
      assert ids[k] != id;
    }
  }

  /** Each successful insert's row is in the table under its new id once Phase C is done. */
  lemma {:induction false} InsertAddsRow(pr: Progress, locs: seq<NominatimLocation>, draws: seq<Draw>, ids: seq<RowId>,
                                         nows: seq<string>, failures: map<nat, string>, m: nat)
    requires |locs| <= |draws| && |locs| <= |ids| && |locs| <= |nows|
    requires forall k :: 0 <= k < |draws| ==> ValidDraw(draws[k])
    requires FreshIds(ids, pr.rows)
    requires m < |locs| && m !in failures
    ensures var r := InsertSpec(pr, locs, draws, ids, nows, failures);
      ids[m] in r.rows && r.rows[ids[m]] == NewRow(locs[m], draws[m], nows[m], ids[m])
    decreases |locs|
  {
    var k := |locs| - 1;
    if m < k {
      InsertAddsRow(pr, locs[..k], draws, ids, nows, failures, m);
      assert locs[..k][m] == locs[m];
      assert ids[m] != ids[k];
    }
  }

  /** One insert with an id not yet in the table grows it by one row exactly when it succeeds. */
  lemma InsertOneSize(prev: Progress, loc: NominatimLocation, draw: Draw, id: RowId, now: string, k: nat,
                      failures: map<nat, string>)
    requires ValidDraw(draw) && id !in prev.rows
    ensures |InsertOne(prev, loc, draw, id, now, k, failures).rows| == |prev.rows| + (if k in failures then 0 else 1)
  {
    if k !in failures {
      var row := NewRow(loc, draw, now, id);
      assert prev.rows[id := row].Keys == prev.rows.Keys + {id};
    }
  }

  /** A fresh id is neither in the table nor among the ids inserted before it. */
  lemma FreshNotInserted(ids: seq<RowId>, rows: map<RowId, DamageRow>, k: nat, failures: map<nat, string>)
    requires FreshIds(ids, rows) && k < |ids|
    ensures ids[k] !in rows && ids[k] !in InsertedIds(ids, k, failures)
  {
    assert forall m :: 0 <= m < k ==> ids[..k][m] == ids[m] && ids[m] != ids[k];
  }

  /** With fresh ids, the table grows by exactly the number of successful inserts. */
  lemma {:induction false} InsertSize(pr: Progress, locs: seq<NominatimLocation>, draws: seq<Draw>, ids: seq<RowId>,
                                      nows: seq<string>, failures: map<nat, string>)
    requires |locs| <= |draws| && |locs| <= |ids| && |locs| <= |nows|
    requires forall k :: 0 <= k < |draws| ==> ValidDraw(draws[k])
    requires FreshIds(ids, pr.rows)
    ensures var r := InsertSpec(pr, locs, draws, ids, nows, failures);
      |r.rows| == |pr.rows| + Successes(|locs|, failures)
    decreases |locs|
  {
    if locs != [] {
      var k := |locs| - 1;
      var prev := InsertSpec(pr, locs[..k], draws, ids, nows, failures);
      InsertSize(pr, locs[..k], draws, ids, nows, failures);
      InsertKeys(pr, locs[..k], draws, ids, nows, failures);
      FreshNotInserted(ids, pr.rows, k, failures);
      assert ids[k] !in prev.rows;
      assert InsertSpec(pr, locs, draws, ids, nows, failures) == InsertOne(prev, locs[k], draws[k], ids[k], nows[k], k, failures);
      InsertOneSize(prev, locs[k], draws[k], ids[k], nows[k], k, failures);
    }
  }

  /** With no failing call every one of the first `n` calls succeeds. */
  lemma {:induction false} SuccessesAll(n: nat)
    ensures Successes(n, map[]) == n
  {
    if n > 0 {
      SuccessesAll(n - 1);
    }
  }

  // ---------------------------------------------------------------------------------------------
  // Properties of the handler

  /**
   * A failed initial fetch writes nothing, and a failed final fetch loses the report but not the
   * writes: the table ends as it would have with a good final fetch.
   */
  lemma CleanupFailures(lists: ReferenceLists, rows: map<RowId, DamageRow>, fetch: Result<seq<DamageRow>, string>, failures: Failures,
                        draws: seq<Draw>, ids: seq<RowId>, nows: seq<string>, finalFetch: Option<string>)
    requires |draws| == |lists.newEntries| && |ids| == |lists.newEntries| && |nows| == |lists.newEntries|
    requires forall k :: 0 <= k < |draws| ==> ValidDraw(draws[k])
    ensures fetch.Err? ==> CleanupSpec(lists, rows, fetch, failures, draws, ids, nows, finalFetch) == (rows, Failure)
    ensures finalFetch.Some? ==> CleanupSpec(lists, rows, fetch, failures, draws, ids, nows, finalFetch).1 == Failure
    ensures CleanupSpec(lists, rows, fetch, failures, draws, ids, nows, finalFetch).0
         == CleanupSpec(lists, rows, fetch, failures, draws, ids, nows, None).0
  {
  }

  /**
   * Phases A and B together: every (rule, matching row) pair gives one counted update or one
   * error, the keys of the table stay the same, and with no failing update there is no error.
   */
  lemma PhasesAB(lists: ReferenceLists, rows: map<RowId, DamageRow>, snapshot: seq<DamageRow>, failures: Failures)
    ensures
      var pa := PhaseSpec(Progress(rows, 0, []), snapshot, lists.corrections, CorrectionTolerance, Correcting, failures.correct);
      var pb := PhaseSpec(Progress(pa.rows, 0, pa.errors), snapshot, lists.fixes, FixTolerance, Fixing, failures.fix);
      var a := MatchPairs(snapshot, lists.corrections, CorrectionTolerance);
      var b := MatchPairs(snapshot, lists.fixes, FixTolerance);
      && pb.rows.Keys == rows.Keys && |pb.rows| == |rows|
      && pa.count + pb.count + |pb.errors| == a + b
      && pa.count <= a && pb.count <= b
      && (failures.correct == map[] && failures.fix == map[] ==> pb.errors == [] && pa.count == a && pb.count == b)
  {
    var pa := PhaseSpec(Progress(rows, 0, []), snapshot, lists.corrections, CorrectionTolerance, Correcting, failures.correct);
    var pb := PhaseSpec(Progress(pa.rows, 0, pa.errors), snapshot, lists.fixes, FixTolerance, Fixing, failures.fix);
    PhaseCounts(Progress(rows, 0, []), snapshot, lists.corrections, CorrectionTolerance, Correcting, failures.correct);
    PhaseCounts(Progress(pa.rows, 0, pa.errors), snapshot, lists.fixes, FixTolerance, Fixing, failures.fix);
    PhaseKeys(Progress(rows, 0, []), snapshot, lists.corrections, CorrectionTolerance, Correcting, failures.correct);
    PhaseKeys(Progress(pa.rows, 0, pa.errors), snapshot, lists.fixes, FixTolerance, Fixing, failures.fix);
    assert |pb.rows| == |rows| by {
      assert pb.rows.Keys == rows.Keys;
    }
  }

  /**
   * The report of a run whose fetches succeed: every (rule, matching row) pair of Phases A and B
   * and every new entry gives exactly one counted success or one error, and Phase C adds its rows
   * to the table. With no failing call there are no errors and the counters are the full pair
   * counts and the number of new entries.
   */
  lemma CleanupReport(lists: ReferenceLists, rows: map<RowId, DamageRow>, snapshot: seq<DamageRow>, failures: Failures,
                      draws: seq<Draw>, ids: seq<RowId>, nows: seq<string>)
    requires |draws| == |lists.newEntries| && |ids| == |lists.newEntries| && |nows| == |lists.newEntries|
    requires forall k :: 0 <= k < |draws| ==> ValidDraw(draws[k])
    requires FreshIds(ids, rows)
    ensures
      var resp := CleanupSpec(lists, rows, Ok(snapshot), failures, draws, ids, nows, None).1;
      var a := MatchPairs(snapshot, lists.corrections, CorrectionTolerance);
      var b := MatchPairs(snapshot, lists.fixes, FixTolerance);
      && resp.Success?
      && resp.results.corrected <= a && resp.results.fixed <= b && resp.results.added <= |lists.newEntries|
      && resp.results.corrected + resp.results.fixed + resp.results.added + |resp.results.errors| == a + b + |lists.newEntries|
      && resp.totalEntries == |rows| + resp.results.added
      && (failures == NoFailures ==> resp.results == Results(a, |lists.newEntries|, b, []))
  {
    var pa := PhaseSpec(Progress(rows, 0, []), snapshot, lists.corrections, CorrectionTolerance, Correcting, failures.correct);
    var pb := PhaseSpec(Progress(pa.rows, 0, pa.errors), snapshot, lists.fixes, FixTolerance, Fixing, failures.fix);
    var pc := InsertSpec(Progress(pb.rows, 0, pb.errors), lists.newEntries, draws, ids, nows, failures.insert);
    assert CleanupSpec(lists, rows, Ok(snapshot), failures, draws, ids, nows, None).1
        == Success(Results(pa.count, pc.count, pb.count, pc.errors), |pc.rows|, pc.rows);
    PhasesAB(lists, rows, snapshot, failures);
    InsertCounts(Progress(pb.rows, 0, pb.errors), lists.newEntries, draws, ids, nows, failures.insert);
    InsertSize(Progress(pb.rows, 0, pb.errors), lists.newEntries, draws, ids, nows, failures.insert);
    if failures == NoFailures {
      SuccessesAll(|lists.newEntries|);
    }
  }

  /**
   * Where a row ends up: with the fields of the last fix whose update succeeded if there is one
   * (Phase B overrides Phase A), else with those of the last canonical location whose update
   * succeeded, else unchanged. The inserts never touch an existing row.
   */
  lemma CleanupRow(lists: ReferenceLists, rows: map<RowId, DamageRow>, snapshot: seq<DamageRow>, failures: Failures,
                   draws: seq<Draw>, ids: seq<RowId>, nows: seq<string>, finalFetch: Option<string>, id: RowId)
    requires |draws| == |lists.newEntries| && |ids| == |lists.newEntries| && |nows| == |lists.newEntries|
    requires forall k :: 0 <= k < |draws| ==> ValidDraw(draws[k])
    requires FreshIds(ids, rows)
    requires id in rows
    ensures var r := CleanupSpec(lists, rows, Ok(snapshot), failures, draws, ids, nows, finalFetch).0;
      id in r && r[id] == match LastSuccess(snapshot, id, lists.fixes, FixTolerance, failures.fix)
                          case Some(m) => Relocate(rows[id], lists.fixes[m].newLocation)
                          case None =>
                            match LastSuccess(snapshot, id, lists.corrections, CorrectionTolerance, failures.correct)
                            case Some(m) => Relocate(rows[id], lists.corrections[m].newLocation)
                            case None => rows[id]
  {
    var pa := PhaseSpec(Progress(rows, 0, []), snapshot, lists.corrections, CorrectionTolerance, Correcting, failures.correct);
    var pb := PhaseSpec(Progress(pa.rows, 0, pa.errors), snapshot, lists.fixes, FixTolerance, Fixing, failures.fix);
    PhaseKeys(Progress(rows, 0, []), snapshot, lists.corrections, CorrectionTolerance, Correcting, failures.correct);
    PhaseKeys(Progress(pa.rows, 0, pa.errors), snapshot, lists.fixes, FixTolerance, Fixing, failures.fix);
    PhaseLastMatchWins(Progress(rows, 0, []), snapshot, lists.corrections, CorrectionTolerance, Correcting, failures.correct, id);
    PhaseLastMatchWins(Progress(pa.rows, 0, pa.errors), snapshot, lists.fixes, FixTolerance, Fixing, failures.fix, id);
    InsertKeepsRow(Progress(pb.rows, 0, pb.errors), lists.newEntries, draws, ids, nows, failures.insert, id);
    var fix := LastSuccess(snapshot, id, lists.fixes, FixTolerance, failures.fix);
    var cor := LastSuccess(snapshot, id, lists.corrections, CorrectionTolerance, failures.correct);
    if fix.Some? && cor.Some? {
      RelocateOverwrites(rows[id], lists.corrections[cor.value].newLocation, lists.fixes[fix.value].newLocation);
    }
  }

  /** For a one-row snapshot, the pairs of a phase are the rules the row is near. */
  lemma {:induction false} MatchPairsSingle(row: DamageRow, rules: seq<Fix>, tolerance: real, near: set<nat>)
    requires forall j :: j in near ==> j < |rules|
    requires forall j :: 0 <= j < |rules| ==> (Near(row, rules[j].oldLat, rules[j].oldLon, tolerance) <==> j in near)
    ensures MatchPairs([row], rules, tolerance) == |near|
    decreases |rules|
  {
    if rules == [] {
      assert near == {};
    } else {
      var last := |rules| - 1;
      var rest := near - {last};
      forall j | 0 <= j < last
        ensures Near(row, rules[..last][j].oldLat, rules[..last][j].oldLon, tolerance) <==> j in rest
      {
        assert rules[..last][j] == rules[j];
      }
      MatchPairsSingle(row, rules[..last], tolerance, rest);
      var p := (e: DamageRow) => Near(e, rules[last].oldLat, rules[last].oldLon, tolerance);
      assert Matches([row], rules[last], tolerance) == (if p(row) then [row] else []) + Seqs.Filter([row][1..], p);
      assert [row][1..] == [];
      if last in near {
        assert near == rest + {last};
      } else {
        assert near == rest;
      }
    }
  }

  /** For a one-row snapshot, hitting a rule is being near it. */
  lemma HitSingle(row: DamageRow, rule: Fix, tolerance: real)
    ensures Hit([row], row.id, rule, tolerance) <==> Near(row, rule.oldLat, rule.oldLon, tolerance)
  {
    if Near(row, rule.oldLat, rule.oldLon, tolerance) {
      assert row in [row];
    }
  }

  /** The table, snapshot and failure-free inputs of the worked scenarios: one row, fetched as it is. */
  lemma SingleRowRun(lists: ReferenceLists, row: DamageRow, draws: seq<Draw>, ids: seq<RowId>, nows: seq<string>, nearA: set<nat>, nearB: set<nat>)
    requires |draws| == |lists.newEntries| && |ids| == |lists.newEntries| && |nows| == |lists.newEntries|
    requires forall k :: 0 <= k < |draws| ==> ValidDraw(draws[k])
    requires FreshIds(ids, map[row.id := row])
    requires forall j :: j in nearA ==> j < |lists.corrections|
    requires forall j :: 0 <= j < |lists.corrections| ==>
               (Near(row, lists.corrections[j].oldLat, lists.corrections[j].oldLon, CorrectionTolerance) <==> j in nearA)
    requires forall j :: j in nearB ==> j < |lists.fixes|
    requires forall j :: 0 <= j < |lists.fixes| ==> (Near(row, lists.fixes[j].oldLat, lists.fixes[j].oldLon, FixTolerance) <==> j in nearB)
    ensures var (r, resp) := CleanupSpec(lists, map[row.id := row], Ok([row]), Failures(map[], map[], map[]), draws, ids, nows, None);
      && resp == Success(Results(|nearA|, |lists.newEntries|, |nearB|, []), 1 + |lists.newEntries|, r)
      && row.id in r
      && r[row.id] == match LastSuccess([row], row.id, lists.fixes, FixTolerance, map[])
                      case Some(m) => Relocate(row, lists.fixes[m].newLocation)
                      case None =>
                        match LastSuccess([row], row.id, lists.corrections, CorrectionTolerance, map[])
                        case Some(m) => Relocate(row, lists.corrections[m].newLocation)
                        case None => row
  {
    var failures := Failures(map[], map[], map[]);
    MatchPairsSingle(row, lists.corrections, CorrectionTolerance, nearA);
    MatchPairsSingle(row, lists.fixes, FixTolerance, nearB);
    CleanupReport(lists, map[row.id := row], [row], failures, draws, ids, nows);
    CleanupRow(lists, map[row.id := row], [row], failures, draws, ids, nows, None, row.id);
  }

  /** The last rule a lone row is near, when the rules after `m` are all out of reach. */
  lemma LastSuccessSingle(row: DamageRow, rules: seq<Fix>, tolerance: real, m: nat)
    requires m < |rules| && Near(row, rules[m].oldLat, rules[m].oldLon, tolerance)
    requires forall j :: m < j < |rules| ==> !Near(row, rules[j].oldLat, rules[j].oldLon, tolerance)
    ensures LastSuccess([row], row.id, rules, tolerance, map[]) == Some(m)
  {
    HitSingle(row, rules[m], tolerance);
    var r := LastSuccess([row], row.id, rules, tolerance, map[]);
    assert r.Some? && r.value >= m;
    HitSingle(row, rules[r.value], tolerance);
  }

  /** A lone row near none of the rules is left alone by the phase. */
  lemma LastSuccessNone(row: DamageRow, rules: seq<Fix>, tolerance: real)
    requires forall j :: 0 <= j < |rules| ==> !Near(row, rules[j].oldLat, rules[j].oldLon, tolerance)
    ensures LastSuccess([row], row.id, rules, tolerance, map[]) == None
  {
    var r := LastSuccess([row], row.id, rules, tolerance, map[]);
    if r.Some? {
      HitSingle(row, rules[r.value], tolerance);
      assert false;
    }
  }

  // ---------------------------------------------------------------------------------------------
  // The reference lists themselves

  const NoFailures := Failures(map[], map[], map[])

  /** Phase A's rule `j` sits on location `j`, so a row is near the rule exactly when it is near the location. */
  lemma NearRules(row: DamageRow, locs: seq<NominatimLocation>, near: set<nat>, tolerance: real)
    requires forall j :: 0 <= j < |locs| ==> (Near(row, locs[j].lat, locs[j].lon, tolerance) <==> j in near)
    ensures forall j :: 0 <= j < |AsRules(locs)| ==>
              (Near(row, AsRules(locs)[j].oldLat, AsRules(locs)[j].oldLon, tolerance) <==> j in near)
  {
  }

  /**
   * A lone row near the corrections in `nearA` (the last of them `last`) and near no fix point:
   * the run counts |nearA| corrections and the row ends with the fields of correction `last`.
   */
  lemma CorrectedOnly(lists: ReferenceLists, row: DamageRow, draws: seq<Draw>, ids: seq<RowId>, nows: seq<string>,
                      nearA: set<nat>, last: nat)
    requires |draws| == |lists.newEntries| && |ids| == |lists.newEntries| && |nows| == |lists.newEntries|
    requires forall k :: 0 <= k < |draws| ==> ValidDraw(draws[k])
    requires FreshIds(ids, map[row.id := row])
    requires last in nearA && forall j :: j in nearA ==> j <= last
    requires forall j :: j in nearA ==> j < |lists.corrections|
    requires forall j :: 0 <= j < |lists.corrections| ==>
               (Near(row, lists.corrections[j].oldLat, lists.corrections[j].oldLon, CorrectionTolerance) <==> j in nearA)
    requires forall j :: 0 <= j < |lists.fixes| ==> !Near(row, lists.fixes[j].oldLat, lists.fixes[j].oldLon, FixTolerance)
    ensures var (r, resp) := CleanupSpec(lists, map[row.id := row], Ok([row]), NoFailures, draws, ids, nows, None);
      && resp == Success(Results(|nearA|, |lists.newEntries|, 0, []), 1 + |lists.newEntries|, r)
      && row.id in r && r[row.id] == Relocate(row, lists.corrections[last].newLocation)
  {
    SingleRowRun(lists, row, draws, ids, nows, nearA, {});
    LastSuccessNone(row, lists.fixes, FixTolerance);
    LastSuccessSingle(row, lists.corrections, CorrectionTolerance, last);
  }

  /** A row near none of the locations is near none of Phase A's rules. */
  lemma FarFromRules(row: DamageRow, locs: seq<NominatimLocation>, tolerance: real)
    requires forall j :: 0 <= j < |locs| ==> !Near(row, locs[j].lat, locs[j].lon, tolerance)
    ensures forall j :: 0 <= j < |AsRules(locs)| ==> !Near(row, AsRules(locs)[j].oldLat, AsRules(locs)[j].oldLon, tolerance)
  {
  }

  /** `CorrectedOnly` for the handler's own lists, with the near facts stated on its locations. */
  lemma CorrectedOnlyReference(row: DamageRow, draws: seq<Draw>, ids: seq<RowId>, nows: seq<string>, nearA: set<nat>, last: nat)
    requires |draws| == |NewEntries| && |ids| == |NewEntries| && |nows| == |NewEntries|
    requires forall k :: 0 <= k < |draws| ==> ValidDraw(draws[k])
    requires FreshIds(ids, map[row.id := row])
    requires last in nearA && forall j :: j in nearA ==> j <= last
    requires forall j :: j in nearA ==> j < |LocationsToCorrect|
    requires forall j :: 0 <= j < |LocationsToCorrect| ==>
               (Near(row, LocationsToCorrect[j].lat, LocationsToCorrect[j].lon, CorrectionTolerance) <==> j in nearA)
    requires forall j :: 0 <= j < |Fixes| ==> !Near(row, Fixes[j].oldLat, Fixes[j].oldLon, FixTolerance)
    ensures var (r, resp) := CleanupSpec(Reference, map[row.id := row], Ok([row]), NoFailures, draws, ids, nows, None);
      && resp == Success(Results(|nearA|, |NewEntries|, 0, []), 1 + |NewEntries|, r)
      && row.id in r && r[row.id] == Relocate(row, LocationsToCorrect[last])
  {
    NearRules(row, LocationsToCorrect, nearA, CorrectionTolerance);
    CorrectedOnly(Reference, row, draws, ids, nows, nearA, last);
    assert Reference.corrections[last].newLocation == LocationsToCorrect[last];
  }

  /** `FixedOnly` for the handler's own lists, with the near facts stated on its locations. */
  lemma FixedOnlyReference(row: DamageRow, draws: seq<Draw>, ids: seq<RowId>, nows: seq<string>, m: nat)
    requires |draws| == |NewEntries| && |ids| == |NewEntries| && |nows| == |NewEntries|
    requires forall k :: 0 <= k < |draws| ==> ValidDraw(draws[k])
    requires FreshIds(ids, map[row.id := row])
    requires m < |Fixes|
    requires forall j :: 0 <= j < |LocationsToCorrect| ==>
               !Near(row, LocationsToCorrect[j].lat, LocationsToCorrect[j].lon, CorrectionTolerance)
    requires forall j :: 0 <= j < |Fixes| ==> (Near(row, Fixes[j].oldLat, Fixes[j].oldLon, FixTolerance) <==> j == m)
    ensures var (r, resp) := CleanupSpec(Reference, map[row.id := row], Ok([row]), NoFailures, draws, ids, nows, None);
      && resp == Success(Results(0, |NewEntries|, 1, []), 1 + |NewEntries|, r)
      && row.id in r && r[row.id] == Relocate(row, Fixes[m].newLocation)
  {
    FarFromRules(row, LocationsToCorrect, CorrectionTolerance);
    FixedOnly(Reference, row, draws, ids, nows, m);
  }

  /**
   * The three München locations lie within 0.01 degrees of each other on both axes: a row at
   * Leopoldstraße's point matches all three, is rewritten three times, ends with the fields of
   * Kaulbachstraße (the last of them), and counts three corrections.
   */
  lemma MuenchenTripleOverlap(row: DamageRow, draws: seq<Draw>, ids: seq<RowId>, nows: seq<string>)
    requires row.latitude == 48.15492 && row.longitude == 11.58334
    requires |draws| == |NewEntries| && |ids| == |NewEntries| && |nows| == |NewEntries|
    requires forall k :: 0 <= k < |draws| ==> ValidDraw(draws[k])
    requires FreshIds(ids, map[row.id := row])
    ensures var (r, resp) := CleanupSpec(Reference, map[row.id := row], Ok([row]), NoFailures, draws, ids, nows, None);
      && resp.Success? && resp.results.corrected == 3 && resp.results.fixed == 0 && resp.results.errors == []
      && row.id in r && r[row.id] == Relocate(row, LocationsToCorrect[5])
  {
    var nearA: set<nat> := {3, 4, 5};
    assert |nearA| == 3 by { assert nearA == {3, 4} + {5}; }
    MuenchenNear(row);
    CorrectedOnlyReference(row, draws, ids, nows, nearA, 5);
  }

  /**
   * The rewrite is not idempotent in what it reports: a row that already holds Kaulbachstraße's
   * fields (what the first run leaves) still lies near all three München locations, so a second
   * run counts three corrections again while leaving the row as it is.
   */
  lemma MuenchenRerunRecounts(row: DamageRow, draws: seq<Draw>, ids: seq<RowId>, nows: seq<string>)
    requires row == Relocate(row, LocationsToCorrect[5])
    requires |draws| == |NewEntries| && |ids| == |NewEntries| && |nows| == |NewEntries|
    requires forall k :: 0 <= k < |draws| ==> ValidDraw(draws[k])
    requires FreshIds(ids, map[row.id := row])
    ensures var (r, resp) := CleanupSpec(Reference, map[row.id := row], Ok([row]), NoFailures, draws, ids, nows, None);
      && resp.Success? && resp.results.corrected == 3 && resp.results.fixed == 0
      && row.id in r && r[row.id] == row
  {
    var nearA: set<nat> := {3, 4, 5};
    assert |nearA| == 3 by { assert nearA == {3, 4} + {5}; }
    KaulbachNear(row);
    CorrectedOnlyReference(row, draws, ids, nows, nearA, 5);
  }

  /**
   * A lone row near the fix point `m` of Phase B and near no canonical location: the run counts
   * one fix and the row ends with the fix's new location.
   */
  lemma FixedOnly(lists: ReferenceLists, row: DamageRow, draws: seq<Draw>, ids: seq<RowId>, nows: seq<string>, m: nat)
    requires |draws| == |lists.newEntries| && |ids| == |lists.newEntries| && |nows| == |lists.newEntries|
    requires forall k :: 0 <= k < |draws| ==> ValidDraw(draws[k])
    requires FreshIds(ids, map[row.id := row])
    requires m < |lists.fixes|
    requires forall j :: 0 <= j < |lists.corrections| ==>
               !Near(row, lists.corrections[j].oldLat, lists.corrections[j].oldLon, CorrectionTolerance)
    requires forall j :: 0 <= j < |lists.fixes| ==> (Near(row, lists.fixes[j].oldLat, lists.fixes[j].oldLon, FixTolerance) <==> j == m)
    ensures var (r, resp) := CleanupSpec(lists, map[row.id := row], Ok([row]), NoFailures, draws, ids, nows, None);
      && resp == Success(Results(0, |lists.newEntries|, 1, []), 1 + |lists.newEntries|, r)
      && row.id in r && r[row.id] == Relocate(row, lists.fixes[m].newLocation)
  {
    var nearB: set<nat> := {m};
    SingleRowRun(lists, row, draws, ids, nows, {}, nearB);
    LastSuccessSingle(row, lists.fixes, FixTolerance, m);
  }

  /**
   * The Baiersdorf report: a row at (49.6466, 11.0219) on an empty table is moved onto the A 73
   * with region "Süd"; the response counts one correction, no fix and the four new entries.
   */
  lemma BaiersdorfCorrected(row: DamageRow, draws: seq<Draw>, ids: seq<RowId>, nows: seq<string>)
    requires row.latitude == 49.6466 && row.longitude == 11.0219
    requires |draws| == |NewEntries| && |ids| == |NewEntries| && |nows| == |NewEntries|
    requires forall k :: 0 <= k < |draws| ==> ValidDraw(draws[k])
    requires FreshIds(ids, map[row.id := row])
    ensures var (r, resp) := CleanupSpec(Reference, map[row.id := row], Ok([row]), NoFailures, draws, ids, nows, None);
      && resp.Success? && resp.results == Results(1, 4, 0, []) && resp.totalEntries == 5
      && row.id in r && r[row.id] == Relocate(row, LocationsToCorrect[0])
      && r[row.id].roadName == Some("A 73") && r[row.id].autobahnRegion == Some("Süd")
  {
    var nearA: set<nat> := {0};
    assert |nearA| == 1;
    BaiersdorfNear(row);
    CorrectedOnlyReference(row, draws, ids, nows, nearA, 0);
  }

  /**
   * The Forstenrieder Park report: a row at (48.07, 11.45) is near no canonical location and
   * within 0.001 of the first fix point, so it is moved onto the A 95 at (48.05215, 11.45625).
   */
  lemma ForstenriedFixed(row: DamageRow, draws: seq<Draw>, ids: seq<RowId>, nows: seq<string>)
    requires row.latitude == 48.07 && row.longitude == 11.45
    requires |draws| == |NewEntries| && |ids| == |NewEntries| && |nows| == |NewEntries|
    requires forall k :: 0 <= k < |draws| ==> ValidDraw(draws[k])
    requires FreshIds(ids, map[row.id := row])
    ensures var (r, resp) := CleanupSpec(Reference, map[row.id := row], Ok([row]), NoFailures, draws, ids, nows, None);
      && resp.Success? && resp.results == Results(0, 4, 1, [])
      && row.id in r && r[row.id] == Relocate(row, Fixes[0].newLocation)
      && r[row.id].latitude == 48.05215 && r[row.id].longitude == 11.45625 && r[row.id].roadName == Some("A 95")
  {
    ForstenriedNear(row);
    FixedOnlyReference(row, draws, ids, nows, 0);
  }

  /**
   * Phase C never looks at what is already stored: every successful run adds the four new
   * entries again, so the table grows by four rows per run even when they are already there.
   */
  lemma NewEntriesAddedEveryRun(rows: map<RowId, DamageRow>, snapshot: seq<DamageRow>, draws: seq<Draw>,
                                ids: seq<RowId>, nows: seq<string>)
    requires |draws| == |NewEntries| && |ids| == |NewEntries| && |nows| == |NewEntries|
    requires forall k :: 0 <= k < |draws| ==> ValidDraw(draws[k])
    requires FreshIds(ids, rows)
    ensures var (r, resp) := CleanupSpec(Reference, rows, Ok(snapshot), NoFailures, draws, ids, nows, None);
      && resp.Success? && resp.results.added == 4 && resp.results.errors == []
      && |r| == |rows| + 4 && resp.totalEntries == |rows| + 4
  {
    NewEntriesAdded(Reference, rows, snapshot, draws, ids, nows);
  }

  /** With no failing call, Phase C adds every new entry of the lists, whatever the table holds. */
  lemma NewEntriesAdded(lists: ReferenceLists, rows: map<RowId, DamageRow>, snapshot: seq<DamageRow>, draws: seq<Draw>,
                        ids: seq<RowId>, nows: seq<string>)
    requires |draws| == |lists.newEntries| && |ids| == |lists.newEntries| && |nows| == |lists.newEntries|
    requires forall k :: 0 <= k < |draws| ==> ValidDraw(draws[k])
    requires FreshIds(ids, rows)
    ensures var (r, resp) := CleanupSpec(lists, rows, Ok(snapshot), NoFailures, draws, ids, nows, None);
      && resp.Success? && resp.results.added == |lists.newEntries| && resp.results.errors == []
      && |r| == |rows| + |lists.newEntries| && resp.totalEntries == |rows| + |lists.newEntries|
  {
    CleanupReport(lists, rows, snapshot, NoFailures, draws, ids, nows);
    var (r, resp) := CleanupSpec(lists, rows, Ok(snapshot), NoFailures, draws, ids, nows, None);
    assert resp.Success? && resp.totalEntries == |r|;
  }

  /**
   * No point lies both within 0.01 of a canonical location and within 0.001 of a fix point, so
   * Phases A and B never rewrite the same row in one run.
   */
  lemma PhasesDisjoint(row: DamageRow)
    ensures forall j, k :: 0 <= j < |Reference.corrections| && 0 <= k < |Reference.fixes| ==>
              !(Near(row, Reference.corrections[j].oldLat, Reference.corrections[j].oldLon, CorrectionTolerance)
                && Near(row, Reference.fixes[k].oldLat, Reference.fixes[k].oldLon, FixTolerance))
  {
    forall j, k | 0 <= j < |LocationsToCorrect| && 0 <= k < |Fixes|
      ensures !(Near(row, LocationsToCorrect[j].lat, LocationsToCorrect[j].lon, CorrectionTolerance)
                && Near(row, Fixes[k].oldLat, Fixes[k].oldLon, FixTolerance))
    {
      FarApart(LocationsToCorrect[j], Fixes[k]);
    }
  }

  /** Every canonical location is more than 0.011 degrees from every fix point on some axis. */
  lemma FarApart(loc: NominatimLocation, fix: Fix)
    requires loc in LocationsToCorrect && fix in Fixes
    ensures Abs(loc.lat - fix.oldLat) >= 0.011 || Abs(loc.lon - fix.oldLon) >= 0.011
  {
  }

  lemma MuenchenNear(row: DamageRow)
    requires row.latitude == 48.15492 && row.longitude == 11.58334
    ensures forall j :: 0 <= j < |LocationsToCorrect| ==>
              (Near(row, LocationsToCorrect[j].lat, LocationsToCorrect[j].lon, CorrectionTolerance) <==> j in {3, 4, 5})
    ensures forall j :: 0 <= j < |Fixes| ==> !Near(row, Fixes[j].oldLat, Fixes[j].oldLon, FixTolerance)
  {
    forall j | 0 <= j < |LocationsToCorrect|
      ensures Near(row, LocationsToCorrect[j].lat, LocationsToCorrect[j].lon, CorrectionTolerance) <==> j in {3, 4, 5}
    {
      if j < 3 {
      } else if j < 6 {
      } else {
      }
    }
  }

  lemma KaulbachNear(row: DamageRow)
    requires row == Relocate(row, LocationsToCorrect[5])
    ensures forall j :: 0 <= j < |LocationsToCorrect| ==>
              (Near(row, LocationsToCorrect[j].lat, LocationsToCorrect[j].lon, CorrectionTolerance) <==> j in {3, 4, 5})
    ensures forall j :: 0 <= j < |Fixes| ==> !Near(row, Fixes[j].oldLat, Fixes[j].oldLon, FixTolerance)
  {
    assert row.latitude == 48.15297 && row.longitude == 11.58489;
    forall j | 0 <= j < |LocationsToCorrect|
      ensures Near(row, LocationsToCorrect[j].lat, LocationsToCorrect[j].lon, CorrectionTolerance) <==> j in {3, 4, 5}
    {
      if j < 3 {
      } else if j < 6 {
      } else {
      }
    }
  }

  lemma BaiersdorfNear(row: DamageRow)
    requires row.latitude == 49.6466 && row.longitude == 11.0219
    ensures forall j :: 0 <= j < |LocationsToCorrect| ==>
              (Near(row, LocationsToCorrect[j].lat, LocationsToCorrect[j].lon, CorrectionTolerance) <==> j in {0})
    ensures forall j :: 0 <= j < |Fixes| ==> !Near(row, Fixes[j].oldLat, Fixes[j].oldLon, FixTolerance)
  {
    forall j | 0 <= j < |LocationsToCorrect|
      ensures Near(row, LocationsToCorrect[j].lat, LocationsToCorrect[j].lon, CorrectionTolerance) <==> j in {0}
    {
      if j < 1 {
      } else if j < 6 {
      } else {
      }
    }
  }

  lemma ForstenriedNear(row: DamageRow)
    requires row.latitude == 48.07 && row.longitude == 11.45
    ensures forall j :: 0 <= j < |LocationsToCorrect| ==>
              !Near(row, LocationsToCorrect[j].lat, LocationsToCorrect[j].lon, CorrectionTolerance)
    ensures forall j :: 0 <= j < |Fixes| ==> (Near(row, Fixes[j].oldLat, Fixes[j].oldLon, FixTolerance) <==> j == 0)
  {
    forall j | 0 <= j < |LocationsToCorrect|
      ensures !Near(row, LocationsToCorrect[j].lat, LocationsToCorrect[j].lon, CorrectionTolerance)
    {
      if j < 6 {
      } else {
      }
    }
  }
}
