/**
 * The model service: turning the raw output tensor of an inference run into detections, and
 * wrapping every failure of a run as a ModelError. The ONNX runtime itself is not modelled: a
 * loaded session is a value and the outcome of `session.run` is an input.
 */
module OnnxService {
  import opened Wrappers
  import opened Models
  import Seqs

  /** A loaded inference session, as far as validation reports it. */
  datatype Session = Session(inputName: string, outputNames: seq<string>, inputShape: seq<int>, outputShape: seq<int>)

  datatype ModelMetadata = ModelMetadata(inputShape: seq<int>, outputShape: seq<int>, inputName: string, outputNames: seq<string>)

  /** The first output of a run: a rank-2 array of rows, or a rank-3 array with a batch axis in front. */
  datatype Tensor = Rank2(rows: seq<seq<real>>) | Rank3(batches: seq<seq<seq<real>>>)

  /** Python's `int()` on a float: truncation toward zero. */
  function Trunc(x: real): (n: int)
    ensures 0.0 <= x ==> n as real <= x < n as real + 1.0
    ensures x < 0.0 ==> n as real - 1.0 < x <= n as real
  {
    if x >= 0.0 then x.Floor else -((-x).Floor)
  }

  predicate HasSixValues(row: seq<real>)
  {
    |row| == 6
  }

  /** One row `[x1, y1, x2, y2, class_id, confidence]` as a Detection. */
  function RowToDetection(row: seq<real>): Detection
    requires |row| == 6
  {
    Detection(BoundingBox(Trunc(row[0]), Trunc(row[1]), Trunc(row[2]), Trunc(row[3])), Trunc(row[4]), row[5])
  }

  /** The detections `postprocess_output` produces from a list of rows, built from the back. */
  function Parse(rows: seq<seq<real>>): seq<Detection>
  {
    if rows == [] then []
    else
      var last := rows[|rows| - 1];
      Parse(rows[..|rows| - 1]) + (if |last| == 6 then [RowToDetection(last)] else [])
  }

  /**
   * The parse is one Detection per row of exactly six values, in input order: the i-th result
   * comes from the i-th such row, and rows of any other length are skipped.
   */
  lemma {:induction false} ParseIsFilteredRows(rows: seq<seq<real>>)
    ensures var good := Seqs.Filter(rows, HasSixValues);
      && |Parse(rows)| == |good|
      && forall k :: 0 <= k < |good| ==> Parse(rows)[k] == RowToDetection(good[k])
  {
    if rows != [] {
      var front, last := rows[..|rows| - 1], rows[|rows| - 1];
      ParseIsFilteredRows(front);
      assert rows == front + [last];
      Seqs.FilterConcat(front, [last], HasSixValues);
      assert Seqs.Filter([last], HasSixValues) == (if |last| == 6 then [last] else []) + Seqs.Filter([], HasSixValues);
    }
  }

  /** The rows the loop walks over: batch element 0 of a rank-3 output. */
  function RowsOf(raw: Tensor): seq<seq<real>>
    requires !(raw.Rank3? && raw.batches == [])
  {
    match raw
    case Rank2(rows) => rows
    case Rank3(batches) => batches[0]
  }

  /**
   * `postprocess_output`: drops the batch axis of a rank-3 output (an empty batch raises
   * IndexError), then appends one Detection per six-value row, skipping other rows.
   */
  method PostprocessOutput(raw: Tensor) returns (r: Result<seq<Detection>, string>)
    ensures r.Err? <==> raw.Rank3? && raw.batches == []
    ensures r.Err? ==> r.error == EmptyBatchMessage
    ensures r.Ok? ==> r.value == Parse(RowsOf(raw))
  {
    var rows: seq<seq<real>>;
    match raw {
      case Rank2(rs) =>
        rows := rs;
      case Rank3(batches) =>
        if batches == [] {
          return Err(EmptyBatchMessage);
        }
        rows := batches[0];
    }
    var detections: seq<Detection> := [];
    var i := 0;
    while i < |rows|
      invariant 0 <= i <= |rows|
      invariant detections == Parse(rows[..i])
    {
      var row := rows[i];
      assert rows[..i + 1][..i] == rows[..i];
      if |row| != 6 {
        i := i + 1;
        continue;
      }
      detections := detections + [RowToDetection(row)];
      i := i + 1;
    }
    assert rows[..|rows|] == rows;
    return Ok(detections);
  }

  /** numpy's IndexError for `raw_output[0]` on an empty batch axis. */
  const EmptyBatchMessage := "index 0 is out of bounds for axis 0 with size 0"

  /** The error `infer` raises when the session was never loaded (`self.session` is None). */
  const NoSessionMessage := "'NoneType' object has no attribute 'get_inputs'"

  /** What `infer` returns or raises, given the session and the outcome of `session.run`. */
  function InferOutcome(session: Option<Session>, run: Result<Tensor, string>): Result<seq<Detection>, ProcessingError>
  {
    if session.None? then Err(ModelError("Inference failed: " + NoSessionMessage))
    else if run.Err? then Err(ModelError("Inference failed: " + run.error))
    else if run.value.Rank3? && run.value.batches == [] then
      Err(ModelError("Inference failed: " + EmptyBatchMessage))
    else Ok(Parse(RowsOf(run.value)))
  }

  /** Every way `infer` can fail surfaces as a ModelError; it succeeds exactly when the run and the parse do. */
  lemma InferErrorsAreModelErrors(session: Option<Session>, run: Result<Tensor, string>)
    ensures InferOutcome(session, run).Err? ==> InferOutcome(session, run).error.ModelError?
    ensures InferOutcome(session, run).Ok? <==>
      session.Some? && run.Ok? && !(run.value.Rank3? && run.value.batches == [])
  {
  }

  /**
   * `infer`: preprocess, run, postprocess; any exception along the way is re-raised as a
   * ModelError whose message starts with "Inference failed: ".
   */
  method Infer(session: Option<Session>, run: Result<Tensor, string>) returns (r: Result<seq<Detection>, ProcessingError>)
    ensures r == InferOutcome(session, run)
    ensures r.Err? ==> r.error.ModelError?
  {
    if session.None? {
      return Err(ModelError("Inference failed: " + NoSessionMessage));
    }
    if run.Err? {
      return Err(ModelError("Inference failed: " + run.error));
    }
    var parsed := PostprocessOutput(run.value);
    if parsed.Err? {
      return Err(ModelError("Inference failed: " + parsed.error));
    }
    return Ok(parsed.value);
  }

  /** `validate_model`: a ModelError when no session is loaded, otherwise the session's shapes and names. */
  function ValidateModel(session: Option<Session>): (r: Result<ModelMetadata, ProcessingError>)
    ensures r.Err? <==> session.None?
    ensures r.Err? ==> r.error == ModelError("Model not loaded")
    ensures r.Ok? ==> r.value == ModelMetadata(session.value.inputShape, session.value.outputShape,
                                               session.value.inputName, session.value.outputNames)
  {
    match session
    case None => Err(ModelError("Model not loaded"))
    case Some(s) => Ok(ModelMetadata(s.inputShape, s.outputShape, s.inputName, s.outputNames))
  }

  /**
   * `_load_model`: opening the session (an input here, since the runtime is not modelled) either
   * gives the loaded session or is re-raised as a ModelError naming the cause.
   */
  function LoadModel(outcome: Result<Session, string>): (r: Result<Session, ProcessingError>)
    ensures r.Ok? <==> outcome.Ok?
    ensures r.Ok? ==> r.value == outcome.value
    ensures r.Err? ==> r.error.ModelError? && r.error.message == "Failed to load ONNX model: " + outcome.error
  {
    match outcome
    case Ok(session) => Ok(session)
    case Err(e) => Err(ModelError("Failed to load ONNX model: " + e))
  }
}
