/**
 * The HTTP routes of the backend: the upload endpoint, the per-job processing pipeline (infer,
 * filter by confidence, drop duplicates, store, count), the job status lookup and the latest
 * damages listing. The job registry is the module-level dictionary of the source, held here by
 * a class whose methods update it in place. Files, the video decoder and the ONNX runtime are
 * inputs: the outcome of loading the model, the outcome of validating the video, and for every
 * frame the outcome of the inference run and the positions at which storing a detection fails.
 */
module Routes {
  import opened Wrappers
  import opened Models
  import opened DetectionTracker
  import Seqs
  import Text
  import Config
  import OnnxService
  import StorageService
  import Schema

  /** One entry of the job registry. */
  datatype JobStatus = JobStatus(status: string, processedFrames: nat, detectionsFound: nat, errorMessage: Option<string>)

  /** A job as `process_video` registers it, before the pipeline runs. */
  const InitialJob := JobStatus("processing", 0, 0, None)

  /**
   * One decoded frame, as far as the pipeline's outcome depends on it: what the inference run
   * returns for it, and the positions in the confidence-filtered list at which `store_detection`
   * raises. Frames are numbered by their position in the video.
   */
  datatype FrameInput = FrameInput(run: Result<OnnxService.Tensor, string>, storeFailures: set<nat>)

  /** A detection that `store_detection` persisted, with the number of its frame. */
  datatype StoredDetection = StoredDetection(detection: Detection, frameNumber: int)

  /** The settings the pipeline reads. */
  datatype PipelineParams = PipelineParams(confidenceThreshold: real, iouThreshold: real, windowSize: nat)

  /** Everything one job's pipeline changes: the tracker, the job's entry and the stored detections. */
  datatype Run = Run(tracker: TrackerState, job: JobStatus, stored: seq<StoredDetection>)

  /** The detections of a frame that pass `d.confidence > confidence_threshold`, in order. */
  function Confident(dets: seq<Detection>, threshold: real): seq<Detection>
  {
    Seqs.Filter(dets, (d: Detection) => d.confidence > threshold)
  }

  /** Storing a detection that is not a duplicate: persist it, add it to the tracker, count it. */
  function Store(run: Run, d: Detection, frameNumber: int, n: nat): Run
  {
    Run(AddSpec(run.tracker, d, frameNumber, n),
        run.job.(detectionsFound := run.job.detectionsFound + 1),
        run.stored + [StoredDetection(d, frameNumber)])
  }

  /**
   * The inner loop over a frame's filtered detections from position `k` on. The flag is true when
   * a store call raised: the rest of the frame is abandoned, keeping what was stored before it.
   */
  function StoreFrom(run: Run, dets: seq<Detection>, k: nat, frame: FrameInput, frameNumber: int, p: PipelineParams): (Run, bool)
    decreases |dets| - k
  {
    if k >= |dets| then (run, false)
    else if OverlapsWindow(run.tracker.window, dets[k].bbox, p.iouThreshold) then
      StoreFrom(run, dets, k + 1, frame, frameNumber, p)
    else if k in frame.storeFailures then (run, true)
    else StoreFrom(Store(run, dets[k], frameNumber, p.windowSize), dets, k + 1, frame, frameNumber, p)
  }

  /**
   * One iteration of the frame loop. A failed inference or a failed store skips the rest of the
   * frame; a frame that finishes is counted and old frames are pruned from the tracker.
   */
  function FrameStep(run: Run, frame: FrameInput, frameNumber: int, session: OnnxService.Session, p: PipelineParams): Run
  {
    var inferred := OnnxService.InferOutcome(Some(session), frame.run);
    if inferred.Err? then run
    else
      var (after, failed) := StoreFrom(run, Confident(inferred.value, p.confidenceThreshold), 0, frame, frameNumber, p);
      if failed then after
      else Run(CleanupSpec(after.tracker, frameNumber, p.windowSize),
               after.job.(processedFrames := after.job.processedFrames + 1),
               after.stored)
  }

  /** The frame loop over a whole video; frame `i` has number `i`. */
  function FramesSpec(run: Run, frames: seq<FrameInput>, session: OnnxService.Session, p: PipelineParams): Run
    decreases |frames|
  {
    if frames == [] then run
    else
      var last := |frames| - 1;
      FrameStep(FramesSpec(run, frames[..last], session, p), frames[last], last, session, p)
  }

  /** A run extends another: the store only grows, and the found counter grows with it. */
  predicate Extends(r: Run, run: Run)
  {
    && |run.stored| <= |r.stored|
    && r.stored[..|run.stored|] == run.stored
    && r.job.detectionsFound - run.job.detectionsFound == |r.stored| - |run.stored|
    && r.job.status == run.job.status
    && r.job.errorMessage == run.job.errorMessage
  }

  /**
   * The inner loop only appends detections of the current frame taken from the list it walks,
   * counts each one it stores, and leaves the processed-frame counter alone.
   */
  lemma {:induction false} StoreFromEffects(run: Run, dets: seq<Detection>, k: nat, frame: FrameInput, frameNumber: int, p: PipelineParams)
    ensures Extends(StoreFrom(run, dets, k, frame, frameNumber, p).0, run)
    ensures StoreFrom(run, dets, k, frame, frameNumber, p).0.job.processedFrames == run.job.processedFrames
    ensures var r := StoreFrom(run, dets, k, frame, frameNumber, p).0;
      forall i :: |run.stored| <= i < |r.stored| ==> r.stored[i].frameNumber == frameNumber && r.stored[i].detection in dets
    decreases |dets| - k
  {
    if k >= |dets| {
    } else if OverlapsWindow(run.tracker.window, dets[k].bbox, p.iouThreshold) {
      StoreFromEffects(run, dets, k + 1, frame, frameNumber, p);
    } else if k in frame.storeFailures {
    } else {
      var next := Store(run, dets[k], frameNumber, p.windowSize);
      StoreFromEffects(next, dets, k + 1, frame, frameNumber, p);
      var r := StoreFrom(next, dets, k + 1, frame, frameNumber, p).0;
      assert r.stored[..|next.stored|] == next.stored;
      assert next.stored[..|run.stored|] == run.stored;
      assert r.stored[..|run.stored|] == next.stored[..|run.stored|];
    }
  }

  /**
   * One frame: every detection it stores belongs to this frame and passed the confidence
   * threshold; the found counter moves with the store; the frame is counted exactly when its
   * inference succeeds and none of its stores fails; a failed inference changes nothing.
   */
  lemma FrameStepEffects(run: Run, frame: FrameInput, frameNumber: int, session: OnnxService.Session, p: PipelineParams)
    ensures Extends(FrameStep(run, frame, frameNumber, session, p), run)
    ensures var r := FrameStep(run, frame, frameNumber, session, p);
      && run.job.processedFrames <= r.job.processedFrames <= run.job.processedFrames + 1
      && forall i :: |run.stored| <= i < |r.stored| ==>
           r.stored[i].frameNumber == frameNumber && r.stored[i].detection.confidence > p.confidenceThreshold
    ensures OnnxService.InferOutcome(Some(session), frame.run).Err? ==> FrameStep(run, frame, frameNumber, session, p) == run
    ensures var inferred := OnnxService.InferOutcome(Some(session), frame.run);
      FrameStep(run, frame, frameNumber, session, p).job.processedFrames == run.job.processedFrames + 1
      <==> inferred.Ok? && !StoreFrom(run, Confident(inferred.value, p.confidenceThreshold), 0, frame, frameNumber, p).1
  {
    var inferred := OnnxService.InferOutcome(Some(session), frame.run);
    if inferred.Ok? {
      var dets := Confident(inferred.value, p.confidenceThreshold);
      StoreFromEffects(run, dets, 0, frame, frameNumber, p);
    }
  }

  /**
   * A whole video: the store only grows, every stored detection passed the confidence threshold
   * and comes from a frame of the video, `detections_found` rises by exactly the number stored,
   * `processed_frames` by at most the number of frames, and the status is untouched.
   */
  lemma {:induction false} FramesEffects(run: Run, frames: seq<FrameInput>, session: OnnxService.Session, p: PipelineParams)
    ensures Extends(FramesSpec(run, frames, session, p), run)
    ensures var r := FramesSpec(run, frames, session, p);
      && run.job.processedFrames <= r.job.processedFrames <= run.job.processedFrames + |frames|
      && forall i :: |run.stored| <= i < |r.stored| ==>
           0 <= r.stored[i].frameNumber < |frames| && r.stored[i].detection.confidence > p.confidenceThreshold
    decreases |frames|
  {
    if frames != [] {
      var last := |frames| - 1;
      var mid := FramesSpec(run, frames[..last], session, p);
      FramesEffects(run, frames[..last], session, p);
      FrameStepEffects(mid, frames[last], last, session, p);
      var r := FrameStep(mid, frames[last], last, session, p);
      assert r.stored[..|mid.stored|] == mid.stored;
      assert r.stored[..|run.stored|] == mid.stored[..|run.stored|];
      forall i | |run.stored| <= i < |r.stored|
        ensures 0 <= r.stored[i].frameNumber < |frames| && r.stored[i].detection.confidence > p.confidenceThreshold
      {
        if i < |mid.stored| {
          assert r.stored[i] == mid.stored[i];
        }
      }
    }
  }

  /** Every detection in the tracker's window has been stored. */
  predicate WindowInStore(run: Run)
  {
    forall i :: 0 <= i < |run.tracker.window| ==>
      StoredDetection(run.tracker.window[i].detection, run.tracker.window[i].frameNumber) in run.stored
  }

  lemma StorePreservesWindowInStore(run: Run, d: Detection, frameNumber: int, n: nat)
    requires WindowInStore(run)
    ensures WindowInStore(Store(run, d, frameNumber, n))
  {
    var t := TrackedDetection(d, frameNumber);
    var s := run.tracker.window + [t];
    var r := Store(run, d, frameNumber, n);
    forall i | 0 <= i < |r.tracker.window|
      ensures StoredDetection(r.tracker.window[i].detection, r.tracker.window[i].frameNumber) in r.stored
    {
      var j := |s| - |r.tracker.window| + i;
      assert r.tracker.window[i] == s[j];
      if j < |run.tracker.window| {
        assert s[j] == run.tracker.window[j];
        assert StoredDetection(s[j].detection, s[j].frameNumber) in run.stored;
      } else {
        assert s[j] == t;
        assert r.stored[|r.stored| - 1] == StoredDetection(d, frameNumber);
      }
    }
  }

  lemma {:induction false} StoreFromPreservesWindowInStore(run: Run, dets: seq<Detection>, k: nat, frame: FrameInput, frameNumber: int, p: PipelineParams)
    requires WindowInStore(run)
    ensures WindowInStore(StoreFrom(run, dets, k, frame, frameNumber, p).0)
    decreases |dets| - k
  {
    if k >= |dets| {
    } else if OverlapsWindow(run.tracker.window, dets[k].bbox, p.iouThreshold) {
      StoreFromPreservesWindowInStore(run, dets, k + 1, frame, frameNumber, p);
    } else if k in frame.storeFailures {
    } else {
      StorePreservesWindowInStore(run, dets[k], frameNumber, p.windowSize);
      StoreFromPreservesWindowInStore(Store(run, dets[k], frameNumber, p.windowSize), dets, k + 1, frame, frameNumber, p);
    }
  }

  /** The duplicate check only ever compares against detections that were actually stored. */
  lemma {:induction false} FramesPreserveWindowInStore(run: Run, frames: seq<FrameInput>, session: OnnxService.Session, p: PipelineParams)
    requires WindowInStore(run)
    ensures WindowInStore(FramesSpec(run, frames, session, p))
    decreases |frames|
  {
    if frames != [] {
      var last := |frames| - 1;
      FramesPreserveWindowInStore(run, frames[..last], session, p);
      var mid := FramesSpec(run, frames[..last], session, p);
      var inferred := OnnxService.InferOutcome(Some(session), frames[last].run);
      if inferred.Ok? {
        StoreFromPreservesWindowInStore(mid, Confident(inferred.value, p.confidenceThreshold), 0, frames[last], last, p);
      }
    }
  }

  /**
   * Two copies of one (non-degenerate) box in the same frame: the first is stored, the second
   * overlaps it completely and is dropped as a duplicate, provided the window keeps at least one
   * entry and the IoU threshold is below 1.
   */
  lemma SameFrameDuplicate(run: Run, d: Detection, frame: FrameInput, frameNumber: int, p: PipelineParams)
    requires run.tracker.window == [] && frame.storeFailures == {}
    requires d.bbox.x1 < d.bbox.x2 && d.bbox.y1 < d.bbox.y2
    requires p.windowSize >= 1 && p.iouThreshold < 1.0
    ensures StoreFrom(run, [d, d], 0, frame, frameNumber, p) == (Store(run, d, frameNumber, p.windowSize), false)
  {
    var once := Store(run, d, frameNumber, p.windowSize);
    assert once.tracker.window == [TrackedDetection(d, frameNumber)];
    var dets := [d, d];
    assert !OverlapsWindow(run.tracker.window, dets[0].bbox, p.iouThreshold);
    assert StoreFrom(run, dets, 0, frame, frameNumber, p) == StoreFrom(once, dets, 1, frame, frameNumber, p);
    IouIdentical(d.bbox);
    assert Iou(dets[1].bbox, once.tracker.window[0].detection.bbox) > p.iouThreshold;
    assert OverlapsWindow(once.tracker.window, dets[1].bbox, p.iouThreshold);
    assert StoreFrom(once, dets, 1, frame, frameNumber, p) == StoreFrom(once, dets, 2, frame, frameNumber, p);
  }

  /**
   * With a window of size 0 nothing is ever a duplicate: the same box twice in a frame is stored twice.
   */
  lemma ZeroWindowKeepsDuplicates(run: Run, d: Detection, frame: FrameInput, frameNumber: int, p: PipelineParams)
    requires run.tracker.window == [] && frame.storeFailures == {}
    requires p.windowSize == 0
    ensures StoreFrom(run, [d, d], 0, frame, frameNumber, p).0.stored
         == run.stored + [StoredDetection(d, frameNumber), StoredDetection(d, frameNumber)]
  {
    var once := Store(run, d, frameNumber, 0);
    var twice := Store(once, d, frameNumber, 0);
    var dets := [d, d];
    assert once.tracker.window == [];
    assert !OverlapsWindow(run.tracker.window, dets[0].bbox, p.iouThreshold);
    assert StoreFrom(run, dets, 0, frame, frameNumber, p) == StoreFrom(once, dets, 1, frame, frameNumber, p);
    assert !OverlapsWindow(once.tracker.window, dets[1].bbox, p.iouThreshold);
    assert StoreFrom(once, dets, 1, frame, frameNumber, p) == StoreFrom(twice, dets, 2, frame, frameNumber, p);
  }

  /** An HTTP error response: status code and `detail`. */
  datatype HttpError = HttpError(statusCode: int, detail: string)

  /** The message `deque(maxlen=n)` raises for a negative window size. */
  const NegativeWindowMessage := "maxlen must be non-negative"

  /** What `process_video_task` leaves in the job's entry and in the store. */
  function TaskSpec(job: JobStatus, stored: seq<StoredDetection>, settings: Config.Settings,
                    model: Result<OnnxService.Session, string>, video: Result<seq<FrameInput>, string>): (JobStatus, seq<StoredDetection>)
  {
    var loaded := OnnxService.LoadModel(model);
    if loaded.Err? then (job.(status := "failed", errorMessage := Some(loaded.error.message)), stored)
    else if settings.trackingWindowSize < 0 then (job.(status := "failed", errorMessage := Some(NegativeWindowMessage)), stored)
    else if video.Err? then (job.(status := "failed", errorMessage := Some("Video validation failed: " + video.error)), stored)
    else
      var p := PipelineParams(settings.confidenceThreshold, settings.iouThreshold, settings.trackingWindowSize);
      var r := FramesSpec(Run(TrackerState([], map[]), job, stored), video.value, loaded.value, p);
      (r.job.(status := "completed"), r.stored)
  }

  /**
   * A job always ends completed or failed; it completes exactly when the model loads, the window
   * size is valid and the video opens, and then its counters agree with what was stored.
   */
  lemma TaskOutcome(job: JobStatus, stored: seq<StoredDetection>, settings: Config.Settings,
                    model: Result<OnnxService.Session, string>, video: Result<seq<FrameInput>, string>)
    ensures var (j, s) := TaskSpec(job, stored, settings, model, video);
      && (j.status == "completed" || j.status == "failed")
      && (j.status == "completed" <==> model.Ok? && settings.trackingWindowSize >= 0 && video.Ok?)
      && (j.status == "failed" ==> s == stored && j.errorMessage.Some?
                                   && j.processedFrames == job.processedFrames
                                   && j.detectionsFound == job.detectionsFound)
      && (j.status == "completed" ==>
            && |stored| <= |s| && s[..|stored|] == stored
            && j.detectionsFound - job.detectionsFound == |s| - |stored|
            && job.processedFrames <= j.processedFrames <= job.processedFrames + |video.value|
            && j.errorMessage == job.errorMessage
            && forall i :: |stored| <= i < |s| ==> s[i].detection.confidence > settings.confidenceThreshold)
  {
    if model.Ok? && settings.trackingWindowSize >= 0 && video.Ok? {
      var p := PipelineParams(settings.confidenceThreshold, settings.iouThreshold, settings.trackingWindowSize);
      FramesEffects(Run(TrackerState([], map[]), job, stored), video.value, model.value, p);
    }
  }

  /** The detail of the 400 the size check raises; the handler around it re-raises it as a 500. */
  function OversizeDetail(maxVideoSizeMb: int): string
  {
    "400: Video size exceeds maximum allowed size of " + Text.IntToDecimal(maxVideoSizeMb) + "MB"
  }

  /** `len(content) / (1024 * 1024) > max_video_size_mb`, in true division. */
  predicate Oversize(contentLength: nat, maxVideoSizeMb: int)
  {
    contentLength as real / 1048576.0 > maxVideoSizeMb as real
  }

  /** The size check compares whole bytes: an upload is too large exactly when it exceeds the limit times 2^20 bytes. */
  lemma OversizeBytes(contentLength: nat, maxVideoSizeMb: int)
    ensures Oversize(contentLength, maxVideoSizeMb) <==> contentLength > maxVideoSizeMb * 1048576
  {
    var size := contentLength as real / 1048576.0;
    assert contentLength as real == size * 1048576.0;
    if Oversize(contentLength, maxVideoSizeMb) {
      assert size * 1048576.0 > (maxVideoSizeMb as real) * 1048576.0;
      assert (contentLength as real) > (maxVideoSizeMb * 1048576) as real;
    } else {
      assert size * 1048576.0 <= (maxVideoSizeMb as real) * 1048576.0;
      assert (contentLength as real) <= (maxVideoSizeMb * 1048576) as real;
    }
  }

  /** The body `process_video` returns. */
  datatype UploadResponse = UploadResponse(jobId: string, status: string)

  /** The body `get_processing_status` returns. */
  datatype StatusResponse = StatusResponse(jobId: string, status: string, processedFrames: nat, detectionsFound: nat, errorMessage: Option<string>)

  /** The `limit` query parameter's default, used when the request leaves it out. */
  const DefaultLimit := 10

  /** The `limit` the handler sees: the given one, or the default, which the range check accepts. */
  function QueryLimit(given: Option<int>): (r: int)
    ensures given.Some? ==> r == given.value
    ensures given.None? ==> LimitError(r).None? && r == DefaultLimit
  {
    if given.Some? then given.value else DefaultLimit
  }

  /** The query validation of `limit`: an integer between 1 and 100. */
  function LimitError(limit: int): (r: Option<HttpError>)
    ensures r.None? <==> 1 <= limit <= 100
    ensures r.Some? ==> r.value.statusCode == 422
  {
    if limit < 1 then Some(HttpError(422, "Input should be greater than or equal to 1"))
    else if limit > 100 then Some(HttpError(422, "Input should be less than or equal to 100"))
    else None
  }

  class JobRegistry {
    /** `job_status`: job id to its entry. */
    var jobs: map<string, JobStatus>
    /** The detections `store_detection` persisted, in order. */
    var stored: seq<StoredDetection>

    constructor ()
      ensures jobs == map[] && stored == []
    {
      jobs := map[];
      stored := [];
    }

    /** One job's part of the state, with a tracker. */
    function RunOf(jobId: string, tracker: Tracker): Run
      requires jobId in jobs
      reads this, tracker
    {
      Run(tracker.State(), jobs[jobId], stored)
    }

    /** One iteration of the frame loop of `process_video_task`. */
    method ProcessFrame(jobId: string, tracker: Tracker, session: OnnxService.Session, frame: FrameInput,
                        frameNumber: int, p: PipelineParams)
      requires jobId in jobs && tracker.Valid()
      requires tracker.windowSize == p.windowSize && tracker.iouThreshold == p.iouThreshold
      modifies this, tracker
      ensures tracker.Valid()
      ensures jobs.Keys == old(jobs.Keys)
      ensures forall j :: j in jobs && j != jobId ==> jobs[j] == old(jobs[j])
      ensures RunOf(jobId, tracker) == FrameStep(old(RunOf(jobId, tracker)), frame, frameNumber, session, p)
    {
      var inferred := OnnxService.Infer(Some(session), frame.run);
      if inferred.Err? {
        return;
      }
      var filtered := Confident(inferred.value, p.confidenceThreshold);
      var failed := StoreFrame(jobId, tracker, filtered, frame, frameNumber, p);
      if failed {
        return;
      }
      jobs := jobs[jobId := jobs[jobId].(processedFrames := jobs[jobId].processedFrames + 1)];
      tracker.CleanupOldFrames(frameNumber);
    }

    /**
     * The detection loop of one frame: duplicates are skipped, the others stored in order; a store
     * that raises abandons the rest of the frame and is reported.
     */
    method StoreFrame(jobId: string, tracker: Tracker, filtered: seq<Detection>, frame: FrameInput,
                      frameNumber: int, p: PipelineParams) returns (failed: bool)
      requires jobId in jobs && tracker.Valid()
      requires tracker.windowSize == p.windowSize && tracker.iouThreshold == p.iouThreshold
      modifies this, tracker
      ensures tracker.Valid()
      ensures jobs.Keys == old(jobs.Keys)
      ensures forall j :: j in jobs && j != jobId ==> jobs[j] == old(jobs[j])
      ensures (RunOf(jobId, tracker), failed) == StoreFrom(old(RunOf(jobId, tracker)), filtered, 0, frame, frameNumber, p)
    {
      ghost var start := RunOf(jobId, tracker);
      var k := 0;
      while k < |filtered|
        invariant 0 <= k <= |filtered|
        invariant jobId in jobs && jobs.Keys == old(jobs.Keys)
        invariant forall j :: j in jobs && j != jobId ==> jobs[j] == old(jobs[j])
        invariant tracker.Valid()
        invariant StoreFrom(RunOf(jobId, tracker), filtered, k, frame, frameNumber, p)
               == StoreFrom(start, filtered, 0, frame, frameNumber, p)
      {
        ghost var cur := RunOf(jobId, tracker);
        var d := filtered[k];
        var dup := tracker.IsDuplicate(d, frameNumber);
        if !dup {
          if k in frame.storeFailures {
            assert StoreFrom(cur, filtered, k, frame, frameNumber, p) == (cur, true);
            return true;
          }
          StoreDetection(jobId, tracker, d, frameNumber);
          assert StoreFrom(cur, filtered, k, frame, frameNumber, p)
              == StoreFrom(Store(cur, d, frameNumber, p.windowSize), filtered, k + 1, frame, frameNumber, p);
        } else {
          assert StoreFrom(cur, filtered, k, frame, frameNumber, p) == StoreFrom(cur, filtered, k + 1, frame, frameNumber, p);
        }
        k := k + 1;
      }
      assert StoreFrom(RunOf(jobId, tracker), filtered, k, frame, frameNumber, p) == (RunOf(jobId, tracker), false);
      return false;
    }

    /** A detection that is not a duplicate and stores successfully: persisted, tracked, counted. */
    method StoreDetection(jobId: string, tracker: Tracker, d: Detection, frameNumber: int)
      requires jobId in jobs && tracker.Valid()
      modifies this, tracker
      ensures tracker.Valid()
      ensures jobs.Keys == old(jobs.Keys)
      ensures forall j :: j in jobs && j != jobId ==> jobs[j] == old(jobs[j])
      ensures RunOf(jobId, tracker) == Store(old(RunOf(jobId, tracker)), d, frameNumber, tracker.windowSize)
    {
      stored := stored + [StoredDetection(d, frameNumber)];
      tracker.AddDetection(d, frameNumber);
      jobs := jobs[jobId := jobs[jobId].(detectionsFound := jobs[jobId].detectionsFound + 1)];
    }

    /** The frame loop of `process_video_task`. */
    method ProcessFrames(jobId: string, tracker: Tracker, session: OnnxService.Session, frames: seq<FrameInput>, p: PipelineParams)
      requires jobId in jobs && tracker.Valid()
      requires tracker.windowSize == p.windowSize && tracker.iouThreshold == p.iouThreshold
      modifies this, tracker
      ensures tracker.Valid()
      ensures jobs.Keys == old(jobs.Keys)
      ensures forall j :: j in jobs && j != jobId ==> jobs[j] == old(jobs[j])
      ensures RunOf(jobId, tracker) == FramesSpec(old(RunOf(jobId, tracker)), frames, session, p)
    {
      ghost var start := RunOf(jobId, tracker);
      var i := 0;
      while i < |frames|
        invariant 0 <= i <= |frames|
        invariant jobId in jobs && jobs.Keys == old(jobs.Keys)
        invariant forall j :: j in jobs && j != jobId ==> jobs[j] == old(jobs[j])
        invariant tracker.Valid()
        invariant RunOf(jobId, tracker) == FramesSpec(start, frames[..i], session, p)
      {
        ProcessFrame(jobId, tracker, session, frames[i], i, p);
        assert frames[..i + 1][..i] == frames[..i];
        i := i + 1;
      }
      assert frames[..i] == frames;
    }

    /**
     * `process_video_task`: load the model, build the tracker, validate the video, run the frame
     * loop; any exception outside the loop marks the job failed with its message.
     */
    method ProcessVideoTask(jobId: string, settings: Config.Settings,
                            model: Result<OnnxService.Session, string>, video: Result<seq<FrameInput>, string>)
      requires jobId in jobs
      modifies this
      ensures jobs.Keys == old(jobs.Keys)
      ensures forall j :: j in jobs && j != jobId ==> jobs[j] == old(jobs[j])
      ensures (jobs[jobId], stored) == TaskSpec(old(jobs[jobId]), old(stored), settings, model, video)
    {
      var loaded := OnnxService.LoadModel(model);
      if loaded.Err? {
        jobs := jobs[jobId := jobs[jobId].(status := "failed", errorMessage := Some(loaded.error.message))];
        return;
      }
      if settings.trackingWindowSize < 0 {
        jobs := jobs[jobId := jobs[jobId].(status := "failed", errorMessage := Some(NegativeWindowMessage))];
        return;
      }
      var tracker := new Tracker(settings.trackingWindowSize, settings.iouThreshold);
      if video.Err? {
        jobs := jobs[jobId := jobs[jobId].(status := "failed", errorMessage := Some("Video validation failed: " + video.error))];
        return;
      }
      var p := PipelineParams(settings.confidenceThreshold, settings.iouThreshold, settings.trackingWindowSize);
      ProcessFrames(jobId, tracker, loaded.value, video.value, p);
      jobs := jobs[jobId := jobs[jobId].(status := "completed")];
    }

    /**
     * `process_video`: an upload over the size limit is refused (the 400 is caught by the
     * endpoint's own handler and re-raised as a 500) and registers no job; otherwise the job is
     * registered as processing, the pipeline runs to its end, and the job's final status is returned.
     */
    method ProcessVideo(jobId: string, contentLength: nat, settings: Config.Settings,
                        model: Result<OnnxService.Session, string>, video: Result<seq<FrameInput>, string>)
      returns (r: Result<UploadResponse, HttpError>)
      modifies this
      ensures Oversize(contentLength, settings.maxVideoSizeMb) ==>
                r == Err(HttpError(500, OversizeDetail(settings.maxVideoSizeMb)))
                && jobs == old(jobs) && stored == old(stored)
      ensures !Oversize(contentLength, settings.maxVideoSizeMb) ==>
                jobs.Keys == old(jobs.Keys) + {jobId}
                && (forall j :: j in jobs && j != jobId ==> jobs[j] == old(jobs[j]))
                && (jobs[jobId], stored) == TaskSpec(InitialJob, old(stored), settings, model, video)
                && r == Ok(UploadResponse(jobId, jobs[jobId].status))
    {
      if Oversize(contentLength, settings.maxVideoSizeMb) {
        return Err(HttpError(500, OversizeDetail(settings.maxVideoSizeMb)));
      }
      jobs := jobs[jobId := InitialJob];
      ProcessVideoTask(jobId, settings, model, video);
      return Ok(UploadResponse(jobId, jobs[jobId].status));
    }

    /** `get_processing_status`: the job's entry, or 404 for an unknown id. */
    function GetProcessingStatus(jobId: string): (r: Result<StatusResponse, HttpError>)
      reads this
      ensures r.Err? <==> jobId !in jobs
      ensures r.Err? ==> r.error == HttpError(404, "Job not found")
      ensures r.Ok? ==>
                && r.value.jobId == jobId
                && r.value.status == jobs[jobId].status
                && r.value.processedFrames == jobs[jobId].processedFrames
                && r.value.detectionsFound == jobs[jobId].detectionsFound
                && r.value.errorMessage == jobs[jobId].errorMessage
    {
      if jobId !in jobs then Err(HttpError(404, "Job not found"))
      else
        var s := jobs[jobId];
        Ok(StatusResponse(jobId, s.status, s.processedFrames, s.detectionsFound, s.errorMessage))
    }
  }

  /**
   * `get_latest_damages`: a limit outside 1..100 is refused with 422 before the handler runs; a
   * StorageError from the service becomes a 500 carrying its message.
   */
  method LatestDamages(limit: int, ordered: Result<seq<Schema.DamageRow>, string>)
    returns (r: Result<seq<StorageService.DamageResponse>, HttpError>)
    ensures !(1 <= limit <= 100) ==> r.Err? && r.error.statusCode == 422
    ensures 1 <= limit <= 100 && ordered.Err? ==> r.Err? && r.error.statusCode == 500
    ensures r.Err? && 1 <= limit <= 100 ==> r.error.statusCode == 500
    ensures 1 <= limit <= 100 && ordered.Ok?
            && (exists k :: 0 <= k < |Seqs.Take(ordered.value, limit)| && StorageService.ToResponse(ordered.value[k]).None?)
            ==> r.Err? && r.error.statusCode == 500
    ensures 1 <= limit <= 100 && ordered.Ok?
            && (forall k :: 0 <= k < |Seqs.Take(ordered.value, limit)| ==> StorageService.ToResponse(ordered.value[k]).Some?)
            ==> r.Ok?
    ensures r.Ok? ==>
              && 1 <= limit <= 100 && ordered.Ok?
              && |r.value| == |Seqs.Take(ordered.value, limit)|
              && forall k :: 0 <= k < |r.value| ==> Some(r.value[k]) == StorageService.ToResponse(ordered.value[k])
  {
    var refused := LimitError(limit);
    if refused.Some? {
      return Err(refused.value);
    }
    var damages := StorageService.GetLatestDamages(ordered, limit);
    if damages.Err? {
      return Err(HttpError(500, damages.error.message));
    }
    return Ok(damages.value);
  }
}
