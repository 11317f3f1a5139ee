/** The backend's API models and its exception hierarchy. */
module Models {

  /** Pixel bounding box with integer corners; nothing forces x1 <= x2 or y1 <= y2. */
  datatype BoundingBox = BoundingBox(x1: int, y1: int, x2: int, y2: int)

  predicate WellFormed(b: BoundingBox)
  {
    b.x1 <= b.x2 && b.y1 <= b.y2
  }

  /** One model detection: a box, a class id and a confidence (a float in the source). */
  datatype Detection = Detection(bbox: BoundingBox, classId: int, confidence: real)

  /** The three subclasses of ProcessingError; each carries its message. */
  datatype ProcessingError =
    | ModelError(message: string)
    | VideoError(message: string)
    | StorageError(message: string)
}
