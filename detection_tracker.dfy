/**
 * De-duplication of detections across video frames: intersection-over-union of integer boxes,
 * a bounded FIFO window of recent detections (a `deque(maxlen=window_size)`) and a per-frame
 * index pruned by a cutoff.
 */
module DetectionTracker {
  import opened Models

  datatype TrackedDetection = TrackedDetection(detection: Detection, frameNumber: int)

  function Max(a: int, b: int): int { if a < b then b else a }
  function Min(a: int, b: int): int { if a < b then a else b }

  /** `(x2 - x1) * (y2 - y1)`; negative for a box whose corners are swapped on one axis. */
  function Area(b: BoundingBox): int
  {
    (b.x2 - b.x1) * (b.y2 - b.y1)
  }

  /**
   * `calculate_iou`: the intersection area over the union area, 0 when the boxes do not
   * overlap (right edge left of left edge, or bottom above top) and 0 when the union is empty.
   * Integer areas, exact division.
   */
  function Iou(a: BoundingBox, b: BoundingBox): real
  {
    var xLeft := Max(a.x1, b.x1);
    var yTop := Max(a.y1, b.y1);
    var xRight := Min(a.x2, b.x2);
    var yBottom := Min(a.y2, b.y2);
    if xRight < xLeft || yBottom < yTop then 0.0
    else
      var intersection := (xRight - xLeft) * (yBottom - yTop);
      var union := Area(a) + Area(b) - intersection;
      if union == 0 then 0.0 else intersection as real / union as real
  }

  /** IoU does not depend on the order of its arguments. */
  lemma IouSymmetric(a: BoundingBox, b: BoundingBox)
    ensures Iou(a, b) == Iou(b, a)
  {
  }

  /**
   * Boxes that do not overlap on some axis, and overlapping boxes whose union area is 0 (for
   * instance a degenerate box against itself), have IoU 0.
   */
  lemma IouZeroCases(a: BoundingBox, b: BoundingBox)
    ensures Min(a.x2, b.x2) < Max(a.x1, b.x1) ==> Iou(a, b) == 0.0
    ensures Min(a.y2, b.y2) < Max(a.y1, b.y1) ==> Iou(a, b) == 0.0
    ensures a == b && Area(a) == 0 ==> Iou(a, b) == 0.0
    ensures Max(a.x1, b.x1) <= Min(a.x2, b.x2) && Max(a.y1, b.y1) <= Min(a.y2, b.y2)
      && Area(a) + Area(b) - (Min(a.x2, b.x2) - Max(a.x1, b.x1)) * (Min(a.y2, b.y2) - Max(a.y1, b.y1)) == 0
      ==> Iou(a, b) == 0.0
  {
  }

  lemma MulMono(a: int, b: int, c: int, d: int)
    requires 0 <= a <= c && 0 <= b <= d
    ensures 0 <= a * b <= c * d
  {
    assert a * b <= c * b;
    assert c * b <= c * d;
  }

  /** For well-formed boxes the intersection lies inside each box, so 0 <= IoU <= 1. */
  lemma IouBounds(a: BoundingBox, b: BoundingBox)
    requires WellFormed(a) && WellFormed(b)
    ensures 0.0 <= Iou(a, b) <= 1.0
  {
    var xLeft := Max(a.x1, b.x1);
    var yTop := Max(a.y1, b.y1);
    var xRight := Min(a.x2, b.x2);
    var yBottom := Min(a.y2, b.y2);
    if !(xRight < xLeft || yBottom < yTop) {
      var w, h := xRight - xLeft, yBottom - yTop;
      MulMono(w, h, a.x2 - a.x1, a.y2 - a.y1);
      MulMono(w, h, b.x2 - b.x1, b.y2 - b.y1);
      var union := Area(a) + Area(b) - w * h;
      assert w * h <= union;
      if union != 0 {
        assert Iou(a, b) == (w * h) as real / union as real;
        DivUnit((w * h) as real, union as real);
      }
    }
  }

  lemma DivUnit(x: real, y: real)
    requires 0.0 <= x <= y && 0.0 < y
    ensures 0.0 <= x / y <= 1.0
  {
  }

  /** A non-degenerate box has IoU exactly 1 with itself. */
  lemma IouIdentical(a: BoundingBox)
    requires a.x1 < a.x2 && a.y1 < a.y2
    ensures Iou(a, a) == 1.0
  {
    var area := Area(a);
    MulMono(1, 1, a.x2 - a.x1, a.y2 - a.y1);
    assert area > 0;
    DivSelf(area as real);
  }

  lemma DivSelf(x: real)
    requires x > 0.0
    ensures x / x == 1.0
  {
  }

  /** `is_duplicate`, as a property of a window: some entry overlaps the box by more than the threshold. */
  predicate OverlapsWindow(window: seq<TrackedDetection>, bbox: BoundingBox, threshold: real)
  {
    exists i :: 0 <= i < |window| && Iou(bbox, window[i].detection.bbox) > threshold
  }

  /** The last `n` elements of `s` (all of `s` when it is shorter). */
  function LastN<T>(s: seq<T>, n: nat): (r: seq<T>)
    ensures |r| == if |s| <= n then |s| else n
    ensures forall i :: 0 <= i < |r| ==> r[i] == s[|s| - |r| + i]
  {
    if |s| <= n then s else s[|s| - n..]
  }

  /** `deque(maxlen=n).append(t)`: append on the right, dropping from the left beyond `n`. */
  function BoundedAppend<T>(window: seq<T>, t: T, n: nat): seq<T>
  {
    LastN(window + [t], n)
  }

  /** Appending to the last `n` of `s` is the last `n` of the longer sequence. */
  lemma LastNAppend<T>(s: seq<T>, t: T, n: nat)
    ensures BoundedAppend(LastN(s, n), t, n) == LastN(s + [t], n)
  {
    var lhs := BoundedAppend(LastN(s, n), t, n);
    var rhs := LastN(s + [t], n);
    assert |lhs| == |rhs|;
    forall i | 0 <= i < |lhs| ensures lhs[i] == rhs[i] {
    }
  }

  /** A series of appends to a bounded window, as `add_detection` performs them one by one. */
  function AppendAll<T>(window: seq<T>, ts: seq<T>, n: nat): seq<T>
    decreases |ts|
  {
    if ts == [] then window else AppendAll(BoundedAppend(window, ts[0], n), ts[1..], n)
  }

  lemma {:induction false} AppendAllFrom<T>(s: seq<T>, ts: seq<T>, n: nat)
    ensures AppendAll(LastN(s, n), ts, n) == LastN(s + ts, n)
    decreases |ts|
  {
    if ts == [] {
      assert s + ts == s;
    } else {
      LastNAppend(s, ts[0], n);
      AppendAllFrom(s + [ts[0]], ts[1..], n);
      assert s + [ts[0]] + ts[1..] == s + ts;
    }
  }

  /**
   * After k appends to an empty window of size n, it holds the last min(k, n) items in
   * insertion order, and so never more than n.
   */
  lemma WindowAfterAppends<T>(ts: seq<T>, n: nat)
    ensures AppendAll([], ts, n) == LastN(ts, n)
    ensures |AppendAll([], ts, n)| == if |ts| <= n then |ts| else n
  {
    AppendAllFrom([], ts, n);
    assert [] + ts == ts;
  }

  /** `frame_detections.get(f, [])`. */
  function DetectionsAt(frames: map<int, seq<Detection>>, f: int): seq<Detection>
  {
    if f in frames then frames[f] else []
  }

  /** The per-frame index with every frame number below `cutoff` removed. */
  function PruneFrames(frames: map<int, seq<Detection>>, cutoff: int): map<int, seq<Detection>>
  {
    map f | f in frames && f >= cutoff :: frames[f]
  }

  /** Pruning twice is pruning once at the larger cutoff. */
  lemma PruneTwice(frames: map<int, seq<Detection>>, c1: int, c2: int)
    ensures PruneFrames(PruneFrames(frames, c1), c2) == PruneFrames(frames, Max(c1, c2))
  {
  }

  /** The tracker's observable state, for specifications that follow it across calls. */
  datatype TrackerState = TrackerState(window: seq<TrackedDetection>, frames: map<int, seq<Detection>>)

  /** What `add_detection` does to the state. */
  function AddSpec(st: TrackerState, d: Detection, frameNumber: int, n: nat): TrackerState
  {
    TrackerState(
      BoundedAppend(st.window, TrackedDetection(d, frameNumber), n),
      st.frames[frameNumber := DetectionsAt(st.frames, frameNumber) + [d]])
  }

  /** What `cleanup_old_frames(current)` does to the state. */
  function CleanupSpec(st: TrackerState, currentFrame: int, n: nat): TrackerState
  {
    TrackerState(st.window, PruneFrames(st.frames, currentFrame - n))
  }

  class Tracker {
    const windowSize: nat
    const iouThreshold: real
    var window: seq<TrackedDetection>
    var frameDetections: map<int, seq<Detection>>

    ghost predicate Valid()
      reads this
    {
      |window| <= windowSize
    }

    function State(): TrackerState
      reads this
    {
      TrackerState(window, frameDetections)
    }

    constructor (windowSize: nat, iouThreshold: real)
      ensures Valid()
      ensures this.windowSize == windowSize && this.iouThreshold == iouThreshold
      ensures window == [] && frameDetections == map[]
    {
      this.windowSize := windowSize;
      this.iouThreshold := iouThreshold;
      window := [];
      frameDetections := map[];
    }

    /**
     * `is_duplicate`: scans the window in order and reports whether some entry overlaps the
     * detection's box by strictly more than the threshold. The frame number plays no part.
     */
    method IsDuplicate(d: Detection, frameNumber: int) returns (dup: bool)
      ensures dup == OverlapsWindow(window, d.bbox, iouThreshold)
    {
      var k := 0;
      while k < |window|
        invariant 0 <= k <= |window|
        invariant forall i :: 0 <= i < k ==> Iou(d.bbox, window[i].detection.bbox) <= iouThreshold
      {
        var iou := Iou(d.bbox, window[k].detection.bbox);
        if iou > iouThreshold {
          return true;
        }
        k := k + 1;
      }
      return false;
    }

    /**
     * `add_detection`: appends to the bounded window and to the frame's list, creating the list
     * when the frame has none; every other frame keeps its list.
     */
    method AddDetection(d: Detection, frameNumber: int)
      requires Valid()
      modifies this
      ensures Valid()
      ensures window == BoundedAppend(old(window), TrackedDetection(d, frameNumber), windowSize)
      ensures frameNumber in frameDetections
      ensures frameDetections[frameNumber] == DetectionsAt(old(frameDetections), frameNumber) + [d]
      ensures forall f :: f != frameNumber ==> (f in frameDetections <==> f in old(frameDetections))
      ensures forall f :: f != frameNumber && f in frameDetections ==> frameDetections[f] == old(frameDetections)[f]
      ensures State() == AddSpec(old(State()), d, frameNumber, windowSize)
    {
      var tracked := TrackedDetection(d, frameNumber);
      window := window + [tracked];
      if |window| > windowSize {
        window := window[|window| - windowSize..];
      }
      if frameNumber !in frameDetections {
        frameDetections := frameDetections[frameNumber := []];
      }
      frameDetections := frameDetections[frameNumber := frameDetections[frameNumber] + [d]];
    }

    /**
     * `cleanup_old_frames`: deletes, one key at a time, exactly the frames numbered below
     * `currentFrame - windowSize`; the window is left alone.
     */
    method CleanupOldFrames(currentFrame: int)
      requires Valid()
      modifies this
      ensures Valid()
      ensures window == old(window)
      ensures forall f :: f in frameDetections <==> f in old(frameDetections) && f >= currentFrame - windowSize
      ensures forall f :: f in frameDetections ==> frameDetections[f] == old(frameDetections)[f]
      ensures State() == CleanupSpec(old(State()), currentFrame, windowSize)
    {
      var cutoff := currentFrame - windowSize;
      var toRemove := set f | f in frameDetections && f < cutoff;
      while toRemove != {}
        invariant toRemove <= frameDetections.Keys
        invariant forall f :: f in frameDetections <==> f in old(frameDetections) && (f >= cutoff || f in toRemove)
        invariant forall f :: f in frameDetections ==> frameDetections[f] == old(frameDetections)[f]
        invariant window == old(window)
        decreases toRemove
      {
        var f :| f in toRemove;
        frameDetections := frameDetections - {f};
        toRemove := toRemove - {f};
      }
    }
  }
}
