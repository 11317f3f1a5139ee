/**
 * Persisting detections: the class-id to damage-name mapping, the `road_damage` record built
 * for a detection, the upload-then-insert order of `store_detection`, and the mapping of the
 * latest rows to API responses. The storage bucket and table are abstract: each call's outcome
 * is an input.
 */
module StorageService {
  import opened Wrappers
  import opened Models
  import opened Schema
  import Seqs

  const DamageTypeMapping: map<int, string> := map[0 := "crack", 1 := "pothole", 2 := "patch", 3 := "manhole"]

  /** `DAMAGE_TYPE_MAPPING.get(class_id, "unknown")`. */
  function DamageTypeName(classId: int): (name: string)
    ensures 0 <= classId <= 3 ==> name == ["crack", "pothole", "patch", "manhole"][classId]
    ensures !(0 <= classId <= 3) ==> name == "unknown"
  {
    if classId in DamageTypeMapping then DamageTypeMapping[classId] else "unknown"
  }

  /** The record `insert_damage_record` sends to the `road_damage` table. */
  datatype NewDamageRecord = NewDamageRecord(
    damageType: string,
    severity: string,
    latitude: real,
    longitude: real,
    confidenceScore: real,
    detectedAt: string,
    imageUrl: string,
    metadata: Json)

  function BoxJson(b: BoundingBox): Json
  {
    JObj(map["x1" := JNum(b.x1 as real), "y1" := JNum(b.y1 as real), "x2" := JNum(b.x2 as real), "y2" := JNum(b.y2 as real)])
  }

  /**
   * The record for one detection: mapped damage name, placeholder severity "medium" and
   * coordinates 0.0, the detection's confidence, and frame, file name and box in `metadata`.
   * `detectedAt` stands for the UTC timestamp taken at the call.
   */
  function BuildRecord(d: Detection, imageUrl: string, frameNumber: int, videoFilename: string, detectedAt: string): NewDamageRecord
  {
    NewDamageRecord(
      DamageTypeName(d.classId), "medium", 0.0, 0.0, d.confidence, detectedAt, imageUrl,
      JObj(map["frame_number" := JNum(frameNumber as real), "video_filename" := JStr(videoFilename), "bbox" := BoxJson(d.bbox)]))
  }

  /** Reads an integer back out of a JSON number. */
  function IntOf(j: Option<Json>): Option<int>
  {
    if j.Some? && j.value.JNum? && j.value.n == j.value.n.Floor as real then Some(j.value.n.Floor) else None
  }

  /** Reads the box back out of a record's `metadata.bbox`. */
  function RecordBox(rec: NewDamageRecord): Option<BoundingBox>
  {
    var box := Field(rec.metadata, "bbox");
    if box.None? then None
    else
      var x1, y1, x2, y2 := IntOf(Field(box.value, "x1")), IntOf(Field(box.value, "y1")), IntOf(Field(box.value, "x2")), IntOf(Field(box.value, "y2"));
      if x1.Some? && y1.Some? && x2.Some? && y2.Some? then Some(BoundingBox(x1.value, y1.value, x2.value, y2.value)) else None
  }

  /**
   * The record keeps what the detection and the call supplied: the box can be read back from
   * the metadata, the frame number and file name are stored unchanged, the confidence is
   * copied, and severity and coordinates are the fixed placeholders.
   */
  lemma BuildRecordRoundTrip(d: Detection, imageUrl: string, frameNumber: int, videoFilename: string, detectedAt: string)
    ensures var rec := BuildRecord(d, imageUrl, frameNumber, videoFilename, detectedAt);
      && RecordBox(rec) == Some(d.bbox)
      && IntOf(Field(rec.metadata, "frame_number")) == Some(frameNumber)
      && Field(rec.metadata, "video_filename") == Some(JStr(videoFilename))
      && rec.confidenceScore == d.confidence && rec.imageUrl == imageUrl
      && rec.severity == "medium" && rec.latitude == 0.0 && rec.longitude == 0.0
      && rec.damageType in {"crack", "pothole", "patch", "manhole", "unknown"}
  {
    var rec := BuildRecord(d, imageUrl, frameNumber, videoFilename, detectedAt);
    var box := BoxJson(d.bbox);
    assert Field(rec.metadata, "bbox") == Some(box);
    assert (d.bbox.x1 as real).Floor == d.bbox.x1;
    assert (d.bbox.y1 as real).Floor == d.bbox.y1;
    assert (d.bbox.x2 as real).Floor == d.bbox.x2;
    assert (d.bbox.y2 as real).Floor == d.bbox.y2;
    assert (frameNumber as real).Floor == frameNumber;
  }

  /** The storage bucket and the `road_damage` table, as far as this service writes to them. */
  class StorageBackend {
    var uploaded: seq<string>
    var inserted: seq<NewDamageRecord>

    constructor ()
      ensures uploaded == [] && inserted == []
    {
      uploaded, inserted := [], [];
    }

    /**
     * `upload_image`: on success the file `<detection_id>.jpg` is in the bucket and its public
     * URL is returned; a failure becomes a StorageError and uploads nothing.
     */
    method UploadImage(detectionId: string, outcome: Result<string, string>) returns (r: Result<string, ProcessingError>)
      modifies this
      ensures inserted == old(inserted)
      ensures outcome.Ok? ==> r == Ok(outcome.value) && uploaded == old(uploaded) + [detectionId + ".jpg"]
      ensures outcome.Err? ==> r == Err(StorageError("Image upload failed: " + outcome.error)) && uploaded == old(uploaded)
    {
      if outcome.Err? {
        return Err(StorageError("Image upload failed: " + outcome.error));
      }
      uploaded := uploaded + [detectionId + ".jpg"];
      return Ok(outcome.value);
    }

    /** `insert_damage_record`: inserts the built record and returns the id the table gives it. */
    method InsertDamageRecord(d: Detection, imageUrl: string, frameNumber: int, videoFilename: string,
                              detectedAt: string, outcome: Result<RowId, string>)
      returns (r: Result<RowId, ProcessingError>)
      modifies this
      ensures uploaded == old(uploaded)
      ensures outcome.Ok? ==>
                r == Ok(outcome.value)
                && inserted == old(inserted) + [BuildRecord(d, imageUrl, frameNumber, videoFilename, detectedAt)]
      ensures outcome.Err? ==> r == Err(StorageError("Database insertion failed: " + outcome.error)) && inserted == old(inserted)
    {
      var record := BuildRecord(d, imageUrl, frameNumber, videoFilename, detectedAt);
      if outcome.Err? {
        return Err(StorageError("Database insertion failed: " + outcome.error));
      }
      inserted := inserted + [record];
      return Ok(outcome.value);
    }

    /**
     * `store_detection`: uploads the frame image first and inserts the record, carrying the
     * image's URL, only after the upload succeeded; either failure is re-raised.
     */
    method StoreDetection(d: Detection, frameNumber: int, videoFilename: string, detectionId: string,
                          detectedAt: string, upload: Result<string, string>, insert: Result<RowId, string>)
      returns (r: Result<RowId, ProcessingError>)
      modifies this
      ensures upload.Err? ==>
                r == Err(StorageError("Image upload failed: " + upload.error))
                && inserted == old(inserted) && uploaded == old(uploaded)
      ensures upload.Ok? ==> uploaded == old(uploaded) + [detectionId + ".jpg"]
      ensures upload.Ok? && insert.Err? ==>
                r == Err(StorageError("Database insertion failed: " + insert.error))
                && inserted == old(inserted)
      ensures upload.Ok? && insert.Ok? ==>
                r == Ok(insert.value)
                && inserted == old(inserted) + [BuildRecord(d, upload.value, frameNumber, videoFilename, detectedAt)]
    {
      var url := UploadImage(detectionId, upload);
      if url.Err? {
        return Err(url.error);
      }
      r := InsertDamageRecord(d, url.value, frameNumber, videoFilename, detectedAt, insert);
    }
  }

  /** One entry of the latest-damages response. */
  datatype DamageResponse = DamageResponse(
    id: RowId, damageType: string, severity: string, latitude: real, longitude: real,
    confidenceScore: real, detectedAt: string, imageUrl: string)

  /**
   * The response model for one row; pydantic rejects a row whose `confidence_score` or
   * `image_url` is null, since the response declares both as required.
   */
  function ToResponse(row: DamageRow): Option<DamageResponse>
  {
    if row.confidenceScore.None? || row.imageUrl.None? then None
    else Some(DamageResponse(row.id, row.damageType, row.severity, row.latitude, row.longitude,
                             row.confidenceScore.value, row.detectedAt, row.imageUrl.value))
  }

  /**
   * `get_latest_damages(limit)`: the query returns the first `limit` rows of the table ordered
   * newest first (`ordered`); each becomes one response, in order. A failed query or a row the
   * response model rejects raises a StorageError.
   */
  method GetLatestDamages(ordered: Result<seq<DamageRow>, string>, limit: nat)
    returns (r: Result<seq<DamageResponse>, ProcessingError>)
    ensures ordered.Err? ==> r.Err?
    ensures r.Ok? ==>
              && ordered.Ok?
              && |r.value| == |Seqs.Take(ordered.value, limit)| <= limit
              && forall k :: 0 <= k < |r.value| ==> Some(r.value[k]) == ToResponse(ordered.value[k])
    ensures ordered.Ok? && r.Err? ==> exists k :: 0 <= k < |Seqs.Take(ordered.value, limit)| && ToResponse(ordered.value[k]).None?
    ensures r.Err? ==> r.error.StorageError?
  {
    if ordered.Err? {
      return Err(StorageError("Failed to retrieve damages: " + ordered.error));
    }
    var rows := Seqs.Take(ordered.value, limit);
    var damages: seq<DamageResponse> := [];
    var i := 0;
    while i < |rows|
      invariant 0 <= i <= |rows|
      invariant |damages| == i
      invariant forall k :: 0 <= k < i ==> Some(damages[k]) == ToResponse(rows[k])
    {
      var damage := ToResponse(rows[i]);
      if damage.None? {
        return Err(StorageError("Failed to retrieve damages: response validation error"));
      }
      damages := damages + [damage.value];
      i := i + 1;
    }
    return Ok(damages);
  }
}
