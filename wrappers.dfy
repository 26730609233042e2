/** Small value wrappers shared by every module of the model. */
module Wrappers {

  /** An optional value: JavaScript's `undefined`/`null` versus a present value. */
  datatype Option<T> = None | Some(value: T)

  /** The exceptions the engine can throw and the model keeps apart. */
  datatype JsError =
    | TypeError     // property access on `undefined` (a missing part, image or list)
    | RangeError    // `changeFrame` asked for a frame the view does not have
    | Unsupported   // an input whose later behaviour the model does not follow (see README)

  /** The outcome of an operation that may throw. */
  datatype Outcome = Done | Thrown(error: JsError)
}
