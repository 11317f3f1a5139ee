# Road damage detection: a Dafny model of its core

The system finds road damage (cracks, potholes, patches, manholes) in dashcam videos, keeps the
detections in a Supabase table `road_damage` and shows them to road authorities. This project
models its core in Dafny and proves properties of the model.

- **Video pipeline (Python backend).** `process_video` checks the upload size and registers a
  job. `process_video_task` then runs the ONNX model on every frame. It keeps the detections
  above the confidence threshold. It drops those that overlap (IoU) a detection of the
  tracker's sliding window. It stores the rest (image upload, then row insert) and counts
  them. Failures of one frame are skipped. Failures of the model or the video mark the job
  `failed`. Modelled in `Routes`, `DetectionTracker`, `OnnxService`, `StorageService`,
  `Config`, with the shared records in `Models` and `Schema`.
- **Cleanup function (Supabase edge function).** One request runs three phases over a
  snapshot of the table:
  - phase A rewrites every row within 0.01 degrees of one of 12 canonical locations;
  - phase B moves rows within 0.001 degrees of two wrongly placed points;
  - phase C inserts 4 new rows with randomly drawn type, severity and confidence.

  The response reports the counts, the errors and the final table. Modelled in
  `CleanupRoadDamage`.
- **Frontend pages (TypeScript).** These are pure views over fetched rows:
  - the map filter (severity and type check boxes, crack subtype parameter, highlight, marker
    colour) in `MapView`;
  - the statistics, pothole and crack dashboards in `Statistics`, `PotholeDetails` and
    `CrackDetails`, over the shared counting of `RowViews`;
  - the sign-up / sign-in handler in `Auth`.

The model takes the source's own form:

- Objects whose methods update fields are classes:
  - `DetectionTracker.Tracker` (the deque and the per-frame map);
  - `Routes.JobRegistry` (the `job_status` dictionary and the stored detections);
  - `StorageService.StorageBackend`;
  - `CleanupRoadDamage.RoadDamageTable`;
  - `Auth.Backend` (the request log).
- Loops become methods with invariants, proved against specification functions (`AddSpec`,
  `CleanupSpec`, `StoreFrom`, `FramesSpec`, `TaskSpec`, `PhaseSpec`, `InsertSpec`,
  `AuthSpec`). Lemmas about those functions state what the source promises.
- Pure computations are functions.
- Everything the code receives from outside is a parameter:
  - results of Supabase calls, with their failures;
  - ONNX runs;
  - decoded frames;
  - `Math.random()` draws;
  - `new Date()`;
  - database-generated ids.

Where the written description of the system and the code disagree, the model follows the code:

- Phase A of the cleanup counts a correction for every matching row on every run, including
  rows that already hold the canonical values. The three München locations lie within 0.01
  degrees of each other, so one row there is rewritten and counted three times; the last
  rewrite wins (`MuenchenTripleOverlap`, `MuenchenRerunRecounts`).
- Inserted confidence scores are `Math.random() * 0.2 + 0.8`, in [0.8, 1.0), not a
  percentage. The metadata of inserted rows is `{source: 'nominatim_cleanup', added_by:
  'cleanup_function'}`.
- An oversize upload raises a 400 inside the handler's `try`. The handler's catch-all turns
  it into a 500 with the same detail (`Routes.JobRegistry.ProcessVideo`).

## Model

| member | source | states |
|---|---|---|
| Schema.Field | src/pages/CrackDetails.tsx:63-64 | `value?.key` is present exactly when the value is an object holding that key |
| Schema.ParseRole | src/integrations/supabase/types.ts:171 | a parsed role name is the name of the role it returns |
| Schema.ParseRoleName | src/integrations/supabase/types.ts:171 | every `app_role` value parses back from its name (round trip) |
| Text.LowerChar | src/pages/MapView.tsx:66 | upper-case letters map to their lower-case letter, everything else is unchanged, the result is never upper case |
| Text.Lower | src/pages/MapView.tsx:66 | `toLowerCase` keeps the length and lowers each character independently |
| Text.LowerIdempotent | src/pages/MapView.tsx:119 | lower-casing twice equals lower-casing once |
| Text.FirstNonSpace | backend/app/config.py:20 | the first non-whitespace index at or after i; everything skipped is whitespace |
| Text.EndNonSpace | backend/app/config.py:20 | the end of the last non-whitespace run; everything cut is whitespace |
| Text.Strip | backend/app/config.py:20 | `strip()` is a slice of the input with only whitespace removed at both ends, and neither starts nor ends with whitespace |
| Text.Split | backend/app/config.py:20 | `split(sep)` yields at least one piece, none containing the separator |
| Text.SplitLength | backend/app/config.py:20 | the number of pieces is the number of separators plus one |
| Text.JoinSplit | backend/app/config.py:20 | joining the pieces of a split with the separator gives back the string |
| Text.SplitJoin | backend/app/config.py:20 | splitting a join of separator-free pieces gives back the pieces |
| Text.SplitPrefix | backend/app/config.py:20 | a separator after a separator-free prefix splits the prefix off as the first piece |
| Text.SplitNoSeparator | backend/app/config.py:20 | a string without the separator splits into itself |
| Text.NatToDecimal | backend/app/api/routes.py:47 | the decimal rendering of a number is a non-empty string of digits, with no leading zero except for 0 itself, which is "0" |
| Text.DecimalRoundTrip | backend/app/api/routes.py:47 | the rendered digits denote the number: reading them back gives it |
| Seqs.Filter | src/pages/Statistics.tsx:73-92 | `filter` keeps only elements of the input that satisfy the predicate, never more than the input |
| Seqs.Take | src/pages/Statistics.tsx:99 | `slice(0, n)` is the first min(n, length) elements |
| Seqs.FilterMembership | src/pages/Statistics.tsx:73-92 | an element is in the filtered list exactly when it is in the input and satisfies the predicate |
| Seqs.FilterConcat | src/pages/MapView.tsx:65-76 | filtering distributes over concatenation, so the order of the input is kept |
| Seqs.FilterPartition | src/pages/PotholeDetails.tsx:67-72 | a predicate and its complement split the input: their counts add up to its length |
| Seqs.FilterDisjoint4Bound | src/pages/CrackDetails.tsx:74-78 | four pairwise exclusive predicates select at most the input's length between them |
| Seqs.FilterCover3 | src/pages/Statistics.tsx:80-84 | three exclusive predicates covering every element split the input exactly |
| Config.CorsOriginsList | backend/app/config.py:18-20 | one origin per comma-separated piece, each the stripped piece |
| Config.CorsOriginsShape | backend/app/config.py:18-20 | there is one origin more than there are commas; no origin holds a comma or starts or ends with whitespace |
| Config.CorsOriginsJoin | backend/app/config.py:18-20 | a comma-joined list of stripped, comma-free origins is read back unchanged |
| Config.DefaultCorsOrigins | backend/app/config.py:13 | the default setting yields exactly the one local development origin |
| Config.DefaultThresholds | backend/app/config.py:8-12 | the defaults: model path, confidence and IoU thresholds 0.5, window 30 frames, 500 MB limit |
| DetectionTracker.IouSymmetric | backend/app/services/detection_tracker.py:23-44 | IoU does not depend on the order of the two boxes |
| DetectionTracker.IouZeroCases | backend/app/services/detection_tracker.py:30-41 | boxes apart on either axis have IoU 0, and so do overlapping boxes whose union area is 0 (a degenerate box against itself among them) |
| DetectionTracker.IouBounds | backend/app/services/detection_tracker.py:23-44 | for well-formed boxes IoU lies in [0, 1] |
| DetectionTracker.IouIdentical | backend/app/services/detection_tracker.py:33-43 | a box with positive area has IoU 1 with itself |
| DetectionTracker.LastN | backend/app/services/detection_tracker.py:20 | the window holds the last min(n, length) elements, in order |
| DetectionTracker.LastNAppend | backend/app/services/detection_tracker.py:61 | appending to a `deque(maxlen=n)` that holds the last n elements keeps it holding the last n |
| DetectionTracker.AppendAllFrom | backend/app/services/detection_tracker.py:61 | a sequence of appends leaves the last n elements of everything appended |
| DetectionTracker.WindowAfterAppends | backend/app/services/detection_tracker.py:20 | from an empty deque, the window is the last min(n, k) of k appended detections |
| DetectionTracker.PruneTwice | backend/app/services/detection_tracker.py:68-74 | pruning with two cutoffs is pruning with the larger one |
| DetectionTracker.Tracker.constructor | backend/app/services/detection_tracker.py:17-21 | a new tracker has the given window size and threshold, an empty window and no frames |
| DetectionTracker.Tracker.IsDuplicate | backend/app/services/detection_tracker.py:46-57 | a detection is a duplicate exactly when some window entry overlaps it with IoU above the threshold |
| DetectionTracker.Tracker.AddDetection | backend/app/services/detection_tracker.py:59-66 | the window gets the detection as its newest entry, bounded to the window size; the frame's list gets it appended; other frames are unchanged |
| DetectionTracker.Tracker.CleanupOldFrames | backend/app/services/detection_tracker.py:68-74 | exactly the frames below `current - window_size` are removed; the rest and the window are unchanged |
| OnnxService.Trunc | backend/app/services/onnx_service.py:82-90 | Python's `int()` on a float truncates toward zero |
| OnnxService.ParseIsFilteredRows | backend/app/services/onnx_service.py:74-93 | detections are the rows with six values, in order, each converted; other rows are skipped |
| OnnxService.PostprocessOutput | backend/app/services/onnx_service.py:66-95 | fails exactly on a rank-3 output with no batch; otherwise drops the batch axis and parses the rows |
| OnnxService.InferErrorsAreModelErrors | backend/app/services/onnx_service.py:97-105 | `infer` succeeds exactly with a loaded session, a successful run and a non-empty batch; every failure is a ModelError |
| OnnxService.Infer | backend/app/services/onnx_service.py:97-105 | the method's result is the specified outcome, and its errors are ModelErrors |
| OnnxService.ValidateModel | backend/app/services/onnx_service.py:28-40 | fails with "Model not loaded" exactly when no session exists; otherwise reports the session's shapes and names |
| OnnxService.LoadModel | backend/app/services/onnx_service.py:19-26 | loading succeeds exactly when the session opens; failure is a ModelError prefixed "Failed to load ONNX model: " |
| StorageService.DamageTypeName | backend/app/services/storage_service.py:14-19 | class ids 0..3 name crack, pothole, patch, manhole; every other id is "unknown" |
| StorageService.BuildRecordRoundTrip | backend/app/services/storage_service.py:63-83 | the inserted record holds the detection's box, frame number, file name, confidence and image URL, and the placeholders (medium, 0.0, 0.0) |
| StorageService.StorageBackend.constructor | backend/app/services/storage_service.py:23-25 | a new backend has stored nothing |
| StorageService.StorageBackend.UploadImage | backend/app/services/storage_service.py:27-53 | on success the image `<id>.jpg` is stored and its URL returned; on failure a StorageError "Image upload failed: ..." and nothing stored |
| StorageService.StorageBackend.InsertDamageRecord | backend/app/services/storage_service.py:55-95 | on success exactly the built record is appended and its id returned; on failure a StorageError "Database insertion failed: ..." and no row |
| StorageService.StorageBackend.StoreDetection | backend/app/services/storage_service.py:97-122 | upload comes first; a failed upload inserts nothing; a successful one stores the image and then inserts the record with the image's URL |
| StorageService.GetLatestDamages | backend/app/services/storage_service.py:124-152 | at most `limit` responses, one per latest row in order; a failed query or an unconvertible row is a StorageError |
| Routes.StoreFromEffects | backend/app/api/routes.py:103-114 | storing a frame's detections only appends stored detections of that frame, drawn from the frame's list, and does not count a processed frame |
| Routes.FrameStepEffects | backend/app/api/routes.py:92-121 | a frame is counted as processed exactly when its inference succeeds and none of its stores fails, and otherwise not at all; stored detections all belong to it and pass the confidence threshold; an inference failure changes nothing |
| Routes.FramesEffects | backend/app/api/routes.py:91-121 | over all frames, the processed count grows by at most the frame count and every new stored detection passes the confidence threshold |
| Routes.StorePreservesWindowInStore | backend/app/api/routes.py:106-113 | every detection in the tracker window was stored, before and after storing one more |
| Routes.StoreFromPreservesWindowInStore | backend/app/api/routes.py:103-114 | the same holds across one frame's detections |
| Routes.FramesPreserveWindowInStore | backend/app/api/routes.py:91-121 | the same holds across the whole video |
| Routes.SameFrameDuplicate | backend/app/api/routes.py:103-114 | two identical boxes in one frame are stored once when the window is non-empty and the threshold is below 1 |
| Routes.ZeroWindowKeepsDuplicates | backend/app/api/routes.py:81-84 | with a window size of 0, the tracker remembers nothing and both identical boxes are stored |
| Routes.TaskOutcome | backend/app/api/routes.py:75-133 | a job ends completed exactly when the model loads, the window size is valid and the video opens; a failed job keeps its counters and the store; a completed one counts each stored detection once |
| Routes.OversizeBytes | backend/app/api/routes.py:42-44 | an upload is refused exactly when its bytes exceed max_video_size_mb * 1048576 |
| Routes.QueryLimit | backend/app/api/routes.py:153 | a request without `limit` uses the default 10, which the range check accepts; a given limit is used as it is |
| Routes.LimitError | backend/app/api/routes.py:153 | `limit` is accepted exactly when 1 <= limit <= 100, otherwise 422 |
| Routes.JobRegistry.constructor | backend/app/api/routes.py:24 | no jobs and nothing stored at start |
| Routes.JobRegistry.StoreDetection | backend/app/api/routes.py:106-114 | storing one unique detection updates store, tracker and counter as specified; other jobs are unchanged |
| Routes.JobRegistry.StoreFrame | backend/app/api/routes.py:103-114 | the loop over a frame's filtered detections has exactly the specified effect, and stops at the first store failure |
| Routes.JobRegistry.ProcessFrame | backend/app/api/routes.py:92-121 | one frame's inference, filtering, storing, counting and cleanup have exactly the specified effect |
| Routes.JobRegistry.ProcessFrames | backend/app/api/routes.py:91-121 | the frame loop has exactly the specified effect on the job, the tracker and the store |
| Routes.JobRegistry.ProcessVideoTask | backend/app/api/routes.py:75-133 | the task leaves the job's entry and the store as specified; other jobs are unchanged |
| Routes.JobRegistry.ProcessVideo | backend/app/api/routes.py:28-72 | an oversize upload is a 500 carrying the size message and changes nothing; otherwise a new job runs and its final status is returned |
| Routes.JobRegistry.GetProcessingStatus | backend/app/api/routes.py:136-149 | unknown job ids are a 404 "Job not found"; known ones report the job's fields |
| Routes.LatestDamages | backend/app/api/routes.py:152-160 | an out-of-range limit is a 422; with a limit in range every error is a 500, a failed query or a row among the first `limit` that the response model rejects gives one, and otherwise the call succeeds with the responses of those rows in order |
| RowViews.CountBySeverity | src/pages/Statistics.tsx:81-83 | the three severity counts never add up to more than the rows |
| RowViews.CountBySeverityKnown | src/pages/Statistics.tsx:81-83 | when every row has a known lower-case severity, the counts add up to the rows |
| RowViews.BreakdownOf | src/pages/PotholeDetails.tsx:75-80 | a category's total is its number of rows and bounds its severity counts |
| RowViews.SubtypeLower | src/pages/CrackDetails.tsx:63-64 | `metadata?.subtype?.toLowerCase()` is defined exactly for string subtypes, and is the lower-cased subtype |
| Statistics.Summarize | src/pages/Statistics.tsx:73-102 | the recent list is the first min(4, n) fetched rows |
| Statistics.LoadStats | src/pages/Statistics.tsx:63-108 | a failed fetch keeps the previous stats, no data gives zeros, data gives its summary |
| Statistics.SummarizeEmpty | src/pages/Statistics.tsx:26-34 | summarising no rows gives the initial state |
| Statistics.TotalsBounded | src/pages/Statistics.tsx:73-92 | potholes plus cracks (the "Total Detections" figure) never exceed the rows; per type, the severity counts never exceed the type's total |
| Statistics.HighSeverityCoversTypes | src/pages/Statistics.tsx:75-91 | the high-severity figure is at least the sum of the high potholes and high cracks, and equal when every row is a pothole or a crack |
| PotholeDetails.Summarize | src/pages/PotholeDetails.tsx:66-88 | carriageway and footway partition the potholes; per category the severity counts never exceed the total; the recent list is the first min(6, n) |
| PotholeDetails.LoadStats | src/pages/PotholeDetails.tsx:56-94 | a failed fetch keeps the previous stats, no data gives zeros, data gives its summary |
| PotholeDetails.RowLabel | src/pages/PotholeDetails.tsx:208-210 | every pothole is labelled Footway or Carriageway |
| PotholeDetails.LabelAgreesWithPartition | src/pages/PotholeDetails.tsx:67-72 | a row's label names the category whose count includes it |
| CrackDetails.SubtypeIs | src/pages/CrackDetails.tsx:62-65 | a crack is in a bucket exactly when its lower-cased string subtype equals the lower-cased bucket name |
| CrackDetails.CategorizeBySubtype | src/pages/CrackDetails.tsx:61-72 | a bucket never holds more than the rows, and its severity counts never exceed its total |
| CrackDetails.Summarize | src/pages/CrackDetails.tsx:74-80 | the recent list is the first min(5, n) fetched cracks |
| CrackDetails.LoadStats | src/pages/CrackDetails.tsx:51-86 | a failed fetch keeps the previous stats, no data gives zeros, data gives its summary |
| CrackDetails.BucketMembership | src/pages/CrackDetails.tsx:62-65 | membership in a bucket is membership in the rows plus a matching subtype; a row without a string subtype is in no bucket |
| CrackDetails.BucketsDisjoint | src/pages/CrackDetails.tsx:74-78 | the four bucket totals never add up to more than the fetched cracks |
| CrackDetails.SubtypeLabel | src/pages/CrackDetails.tsx:224 | a crack without a subtype is shown "Unknown"; any other label is the stored subtype string |
| CrackDetails.LabelAgreesWithBucket | src/pages/CrackDetails.tsx:62-65 | a crack in a bucket is labelled with the bucket's name up to case |
| MapView.SeverityFlag | src/pages/MapView.tsx:66 | in the corrected filter, the severity box of a key is on exactly when the key names a ticked severity |
| MapView.TypeFlag | src/pages/MapView.tsx:67 | in the corrected filter, the type box of a key is on exactly when the key names a ticked type |
| MapView.FilteredPoints | src/pages/MapView.tsx:65-76 | in the corrected filter, the shown points are input points that pass it, never more than the input |
| MapView.FilteredMembership | src/pages/MapView.tsx:65-76 | in the corrected filter, a point is shown exactly when its lower-cased severity and its type are ticked and, under a subtype parameter, a crack's subtype matches it |
| MapView.FilteredPreservesOrder | src/pages/MapView.tsx:65 | filtering keeps the order of the points |
| MapView.AllOnKeepsRecognized | src/pages/MapView.tsx:49-59 | in the corrected filter, with every box ticked and no subtype, every recognised point is shown |
| MapView.SubtypeOnlyAffectsCracks | src/pages/MapView.tsx:70-73 | in the corrected filter, the subtype parameter never changes whether a non-crack is shown |
| MapView.ToggleSeverity | src/pages/MapView.tsx:238-246 | toggling flips exactly one severity box |
| MapView.ToggleType | src/pages/MapView.tsx:248-256 | toggling flips exactly one type box |
| MapView.ToggleTwice | src/pages/MapView.tsx:238-256 | toggling a box twice restores the filters |
| MapView.UntickSeverityHides | src/pages/MapView.tsx:238-246 | in the corrected filter, unticking a severity hides exactly the points of that severity |
| MapView.UntickTypeHides | src/pages/MapView.tsx:248-256 | in the corrected filter, unticking a type hides exactly the points of that type |
| MapView.ResetFilters | src/pages/MapView.tsx:258-263 | reset ticks every box |
| MapView.SubtypeSuppressesHighlight | src/pages/MapView.tsx:172-173 | under a subtype parameter no point is highlighted |
| MapView.HighlightTargets | src/pages/MapView.tsx:172-178 | the point with the highlight id, or at the highlight coordinates, is highlighted; with no id and no pair of coordinates none is |
| MapView.SeverityColor | src/pages/MapView.tsx:118-130 | the grey fallback is used exactly for severities that are not high, medium or low in any case |
| MapView.SeverityColorCaseInsensitive | src/pages/MapView.tsx:119 | the colour depends on the lower-cased severity only |
| MapView.ColorMatchesSeverityBoxes | src/pages/MapView.tsx:66 | with every box ticked, a point has a severity colour exactly when the corrected filter finds a ticked own check box for its lower-cased severity |
| MapView.InheritedTypeShownAsWritten | src/pages/MapView.tsx:66-67 | as written, a point of type "constructor" passes with both type boxes unticked |
| MapView.ShownTypesAreTicked | src/pages/MapView.tsx:67 | in the corrected filter, every shown point is a pothole or a crack whose box is ticked |
| MapView.AsWrittenAgreesOnOwnKeys | src/pages/MapView.tsx:66-67 | as written and corrected filters agree on every point whose keys are not inherited object members |
| Auth.OfferedTypesAreRoles | src/pages/Auth.tsx:124-130 | every offered authority type is an `app_role` label other than admin, so the role insert sends a role the store accepts |
| Auth.ListedChoicesPass | src/pages/Auth.tsx:24-42 | choosing a listed authority type and organization always passes the sign-up check |
| Auth.FederalOptionsLackOst | src/pages/Auth.tsx:25 | the federal choices omit the "Ost" region that the cleanup writes into rows |
| Auth.ProfileUpdateJurisdiction | src/pages/Auth.tsx:103-115 | the profile update carries the type and organization, plus exactly the jurisdiction field the type names |
| Auth.BuildProfileUpdate | src/pages/Auth.tsx:103-115 | the built update is the specified one |
| Auth.Backend.constructor | src/pages/Auth.tsx:60 | a new backend has seen no request |
| Auth.Backend.Call | src/pages/Auth.tsx:76-130 | each call is logged in order and returns its response |
| Auth.HandleAuth | src/pages/Auth.tsx:60-149 | the handler's calls and toast are exactly the specified ones |
| Auth.MissingInfoMakesNoCall | src/pages/Auth.tsx:63-70 | missing sign-up information makes no call and shows the missing-information toast, and only then |
| Auth.LoginSkipsCheck | src/pages/Auth.tsx:75-86 | login makes only the sign-in call and welcomes back exactly when it succeeds |
| Auth.RoleAfterProfile | src/pages/Auth.tsx:117-132 | the role insert is the third call, after a successful profile update for the same user, with the chosen type as role |
| Auth.ErrorStopsSequence | src/pages/Auth.tsx:88-145 | the first failing call ends the sequence with an error toast; "Account created" shows exactly when every call made succeeded |
| CleanupRoadDamage.AsRules | supabase/functions/cleanup-road-damage/index.ts:270-275 | phase A matches each canonical location against its own coordinates |
| CleanupRoadDamage.RegionValue | supabase/functions/cleanup-road-damage/index.ts:290 | `autobahn_region \|\| null` is null exactly for a missing or empty region |
| CleanupRoadDamage.RelocateOverwrites | supabase/functions/cleanup-road-damage/index.ts:279-292 | an update writes the nine location fields and nothing else; a second update overwrites the first |
| CleanupRoadDamage.Pick | supabase/functions/cleanup-road-damage/index.ts:347-348 | `arr[Math.floor(r * arr.length)]` is an element of the array for r in [0, 1) |
| CleanupRoadDamage.NewRowRanges | supabase/functions/cleanup-road-damage/index.ts:346-365 | a new row is a crack or pothole with a known severity, confidence in [0.8, 1.0), the placeholder image and the cleanup metadata |
| CleanupRoadDamage.RoadDamageTable.constructor | supabase/functions/cleanup-road-damage/index.ts:237-245 | the table holds the given rows |
| CleanupRoadDamage.RoadDamageTable.Update | supabase/functions/cleanup-road-damage/index.ts:279-292 | an update by id rewrites that row's location when it succeeds and the row exists, and changes nothing otherwise |
| CleanupRoadDamage.RoadDamageTable.Insert | supabase/functions/cleanup-road-damage/index.ts:367-369 | a successful insert adds the row under its id; a failed one changes nothing |
| CleanupRoadDamage.UpdateMatches | supabase/functions/cleanup-road-damage/index.ts:278-301 | the loop over one rule's matches has exactly the specified effect on rows, count and errors |
| CleanupRoadDamage.RunPhase | supabase/functions/cleanup-road-damage/index.ts:270-303 | the loop over a phase's rules has exactly the specified effect on rows, count and errors |
| CleanupRoadDamage.PhaseSpecStep | supabase/functions/cleanup-road-damage/index.ts:270-303 | one more rule extends a phase by that rule's update loop over its matches |
| CleanupRoadDamage.AddNewEntries | supabase/functions/cleanup-road-damage/index.ts:342-378 | the insert loop has exactly the specified effect on rows, count and errors |
| CleanupRoadDamage.InsertSpecStep | supabase/functions/cleanup-road-damage/index.ts:342-378 | one more location extends phase C by one insert |
| CleanupRoadDamage.Cleanup | supabase/functions/cleanup-road-damage/index.ts:231-418 | the handler leaves the table and returns the response as specified |
| CleanupRoadDamage.UpdateEachKeys | supabase/functions/cleanup-road-damage/index.ts:278-301 | updates never add or remove rows |
| CleanupRoadDamage.PhaseKeys | supabase/functions/cleanup-road-damage/index.ts:270-339 | a phase never adds or removes rows |
| CleanupRoadDamage.UpdateEachCounts | supabase/functions/cleanup-road-damage/index.ts:294-300 | each match is either counted or logged as an error; earlier errors are kept; without failures no error is added |
| CleanupRoadDamage.PhaseCounts | supabase/functions/cleanup-road-damage/index.ts:270-339 | over a phase, counts plus new errors equal the number of (rule, matching row) pairs |
| CleanupRoadDamage.LastSuccess | supabase/functions/cleanup-road-damage/index.ts:270-339 | the last rule that matches a row and whose update succeeds; no later rule matches and succeeds |
| CleanupRoadDamage.UpdateEachEffect | supabase/functions/cleanup-road-damage/index.ts:278-292 | after one rule, a row is relocated exactly when it matched and its update succeeded |
| CleanupRoadDamage.PhaseLastMatchWins | supabase/functions/cleanup-road-damage/index.ts:270-339 | after a phase, each row holds the location of the last rule that matched and succeeded, or is unchanged |
| CleanupRoadDamage.Successes | supabase/functions/cleanup-road-damage/index.ts:371-377 | the successful inserts never exceed the attempts |
| CleanupRoadDamage.InsertCounts | supabase/functions/cleanup-road-damage/index.ts:342-378 | each new entry is counted as added or logged as an error, and the count is the successful inserts |
| CleanupRoadDamage.InsertedIds | supabase/functions/cleanup-road-damage/index.ts:367-369 | inserted ids are ids handed out for the attempted inserts |
| CleanupRoadDamage.InsertKeys | supabase/functions/cleanup-road-damage/index.ts:342-378 | phase C adds exactly the ids of the successful inserts |
| CleanupRoadDamage.InsertKeepsRow | supabase/functions/cleanup-road-damage/index.ts:342-378 | phase C never changes an existing row |
| CleanupRoadDamage.InsertAddsRow | supabase/functions/cleanup-road-damage/index.ts:346-369 | each successful insert adds the row built from its location, its draws and its own clock reading |
| CleanupRoadDamage.InsertOneSize | supabase/functions/cleanup-road-damage/index.ts:367-377 | a successful insert under a fresh id grows the table by one, a failed one by none |
| CleanupRoadDamage.FreshNotInserted | supabase/functions/cleanup-road-damage/index.ts:367-369 | a fresh id is neither an existing row nor an earlier insert |
| CleanupRoadDamage.InsertSize | supabase/functions/cleanup-road-damage/index.ts:342-378 | phase C grows the table by the number of successful inserts |
| CleanupRoadDamage.SuccessesAll | supabase/functions/cleanup-road-damage/index.ts:342-378 | without failures every insert succeeds |
| CleanupRoadDamage.CleanupFailures | supabase/functions/cleanup-road-damage/index.ts:255-258 | a failed first fetch changes nothing and answers 500; a failed final fetch answers 500 after the phases have run |
| CleanupRoadDamage.PhasesAB | supabase/functions/cleanup-road-damage/index.ts:270-339 | phases A and B keep the rows; corrected plus fixed plus errors equals the matching pairs; without failures all are counted |
| CleanupRoadDamage.CleanupReport | supabase/functions/cleanup-road-damage/index.ts:386-404 | every attempted update and insert is reported as counted or as an error; totalEntries is the old size plus the added rows |
| CleanupRoadDamage.CleanupRow | supabase/functions/cleanup-road-damage/index.ts:270-339 | each existing row ends at the phase B fix that matched it last, else the phase A location that matched it last, else unchanged |
| CleanupRoadDamage.MatchPairsSingle | supabase/functions/cleanup-road-damage/index.ts:271-277 | for one row, the matching pairs are the rules near it |
| CleanupRoadDamage.HitSingle | supabase/functions/cleanup-road-damage/index.ts:271-275 | a one-row snapshot matches a rule exactly when the row is near it |
| CleanupRoadDamage.SingleRowRun | supabase/functions/cleanup-road-damage/index.ts:262-404 | a one-row table: counts are the rules near the row, four rows are added, and the row ends at its last matching location |
| CleanupRoadDamage.LastSuccessSingle | supabase/functions/cleanup-road-damage/index.ts:270-303 | for one row, the last rule near it wins |
| CleanupRoadDamage.LastSuccessNone | supabase/functions/cleanup-road-damage/index.ts:270-303 | for one row near no rule, none wins |
| CleanupRoadDamage.NearRules | supabase/functions/cleanup-road-damage/index.ts:270-275 | nearness to the canonical locations is nearness to the phase A rules |
| CleanupRoadDamage.FarFromRules | supabase/functions/cleanup-road-damage/index.ts:270-275 | a row far from every canonical location matches no phase A rule |
| CleanupRoadDamage.CorrectedOnly | supabase/functions/cleanup-road-damage/index.ts:262-404 | a row near some correction rules and no fix is corrected once per near rule and ends at the last one |
| CleanupRoadDamage.FixedOnly | supabase/functions/cleanup-road-damage/index.ts:262-404 | a row near exactly one fix and no correction is fixed once and moved to the fix's new location |
| CleanupRoadDamage.CorrectedOnlyReference | supabase/functions/cleanup-road-damage/index.ts:20-150 | the same, for the function's own correction list |
| CleanupRoadDamage.FixedOnlyReference | supabase/functions/cleanup-road-damage/index.ts:198-229 | the same, for the function's own fix list |
| CleanupRoadDamage.MuenchenNear | supabase/functions/cleanup-road-damage/index.ts:53-82 | the Leopoldstraße coordinates are within 0.01 of exactly the three München locations and near no fix |
| CleanupRoadDamage.KaulbachNear | supabase/functions/cleanup-road-damage/index.ts:53-82 | the Kaulbachstraße coordinates are within 0.01 of exactly the three München locations |
| CleanupRoadDamage.MuenchenTripleOverlap | supabase/functions/cleanup-road-damage/index.ts:53-82 | a row at Leopoldstraße is corrected three times and ends at Kaulbachstraße |
| CleanupRoadDamage.MuenchenRerunRecounts | supabase/functions/cleanup-road-damage/index.ts:270-300 | rerunning on an already corrected München row counts three corrections again and leaves the row as it is |
| CleanupRoadDamage.BaiersdorfNear | supabase/functions/cleanup-road-damage/index.ts:21-31 | a row at the rounded Baiersdorf coordinates is near only the first canonical location |
| CleanupRoadDamage.BaiersdorfCorrected | supabase/functions/cleanup-road-damage/index.ts:21-31 | such a row becomes A 73, region Süd: one correction, four added, five rows in total |
| CleanupRoadDamage.ForstenriedNear | supabase/functions/cleanup-road-damage/index.ts:198-213 | a row at (48.07, 11.45) is near the first fix only and near no canonical location |
| CleanupRoadDamage.ForstenriedFixed | supabase/functions/cleanup-road-damage/index.ts:198-213 | such a row is moved to A 95 at (48.05215, 11.45625): one fix, four added |
| CleanupRoadDamage.FarApart | supabase/functions/cleanup-road-damage/index.ts:20-229 | each canonical location is at least 0.011 away from each fix point on some axis |
| CleanupRoadDamage.PhasesDisjoint | supabase/functions/cleanup-road-damage/index.ts:270-339 | no row matches both a phase A location and a phase B fix |
| CleanupRoadDamage.NewEntriesAdded | supabase/functions/cleanup-road-damage/index.ts:342-404 | without failures every new entry is added, with no errors, and the final table grows by the list's length |
| CleanupRoadDamage.NewEntriesAddedEveryRun | supabase/functions/cleanup-road-damage/index.ts:151-196 | every successful run adds the four new entries again, whatever the table holds |

## Left out

- Video decoding (`video_processor.py`), frame extraction and metadata: each frame is given as the outcome of its inference run and the positions at which storing fails.
- ONNX preprocessing (resize, colour swap, normalisation, transpose): it only shapes the model input, which is not modelled. Outputs whose rows are ragged, or tensors of rank other than 2 or 3, are not modelled.
- Floating point: coordinates, confidences and IoU are exact reals. IEEE rounding at the tolerance boundaries (0.01, 0.001, 0.0001) is not reproduced.
- Text.Lower: lower-cases ASCII and Latin-1 letters only, not the rest of Unicode.
- CrackDetails.SubtypeLabel: the model shows "Unknown" for every subtype that is not a non-empty string. For a truthy non-string subtype the page differs: a non-zero number is shown as its decimal form, `true` and arrays render their contents, and an object makes React throw.
- RowViews.SubtypeLower: a non-string subtype is treated as absent; in JavaScript `toLowerCase` on it would throw.
- MapView.SeverityFlag, MapView.TypeFlag, MapView.FilteredPoints, MapView.FilteredMembership, MapView.AllOnKeepsRecognized, MapView.SubtypeOnlyAffectsCracks, MapView.UntickSeverityHides, MapView.UntickTypeHides, MapView.ColorMatchesSeverityBoxes: these state the corrected filter, which looks up only the filters' own keys. As written, the page also reads inherited object members such as "constructor" as ticked; `MapView.KeepAsWritten` models that, and `MapView.AsWrittenAgreesOnOwnKeys` shows the two agree on every other key (see Findings).
- MapView.HighlightTargets: the highlight coordinates are given as parsed numbers; `parseFloat` of the query string is not modelled, so the `NaN` case is missing.
- Error messages that embed numbers: the cleanup errors are a structured datatype (phase, id, store message) rather than formatted strings.
- The cleanup's fetches: the initial and the final fetch are modelled as succeeding or failing with the 500 response (`Failure`); the error text the response carries (`error.message` when the thrown value is an `Error`, otherwise 'Unknown error') is not modelled for either.
- Randomness, clocks and ids: `Math.random()` draws, `new Date()`, `uuid4()` and database-generated row ids are inputs. The cleanup receives one id, one set of draws and one clock reading per new entry, the ids fresh with respect to the table.
- Supabase row-level security: which rows a user may read is not modelled; pages receive the rows their query returns.
- Auth session handling (redirects, `onAuthStateChange`), the toast texts' descriptions, and the effects of the profile and role calls on their tables: the model records the calls made and the toast shown.
- CORS headers, HTTP plumbing and FastAPI's response serialisation: responses are datatypes.
- Routes.JobRegistry.ProcessVideo: writing the upload to a temporary file and deleting it are I/O and are not modelled.
- StorageService.StorageBackend.UploadImage: JPEG encoding and the public URL format are not modelled; the storage returns the URL as an input.
- Leaflet rendering, markers and popups, and every page not named above (landing, product, profile, navigation, data cleanup trigger page, seed scripts).
- Concurrency: the pipeline is modelled as running synchronously, as `process_video` awaits it.

## Findings

| source | as written | input that shows it | evidently intended | confidence | as-written member | corrected member |
|---|---|---|---|---|---|---|
| src/pages/MapView.tsx:66-67 | `filters.severity[key]` and `filters.damageType[key]` index plain objects, so keys such as "constructor" or "toString" find inherited members, which are truthy | a point with severity "high" and damage_type "constructor", the high box ticked and both type boxes unticked, is shown | a point is shown only when its own severity and type boxes are ticked | medium, not executed | MapView.InheritedTypeShownAsWritten | MapView.ShownTypesAreTicked |
