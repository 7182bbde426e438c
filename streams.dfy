/**
 * Stream keys, element types and the errors the request algebra and the
 * pipeline stages raise.
 */
module Streams {

  /**
   * A stream identifier. Array keys name dense voxel data, graph keys sparse
   * point data; `OtherKey` stands for any other object a caller might pass.
   */
  datatype Key = ArrayKey(name: string) | GraphKey(name: string) | OtherKey(name: string)

  /** Element type of an array stream. */
  datatype DType = Float32 | OtherDType(name: string)

  datatype Error =
    | UnsupportedKey(key: Key)      // `add` with a key that is neither an array nor a graph key
    | DimensionMismatch             // ROI arithmetic on operands of different dimension
    | MissingRoi(key: Key)          // a spec without ROI where the code uses its ROI
    | UnmetDependency(key: Key)     // `setup` finds a consumed key missing upstream
    | MissingVolume(key: Key)       // `process` reads a volume the batch does not hold
    | MissingSpec(key: Key)         // a spec lookup for a key that was never provided
    | ShapeMismatch(key: Key)       // a mask whose shape differs from the labels' shape

  /** Keys that `BatchRequest.add` accepts. */
  predicate Supported(k: Key) {
    k.ArrayKey? || k.GraphKey?
  }
}
