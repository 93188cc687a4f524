/** The failures of the tensor engine, a result type that carries them, and
    an optional value. */
module Errors {

  datatype Error =
    | ShapeMismatch       // reshape or matmul with incompatible sizes
    | BroadcastError      // an aligned pair of dimensions that is unequal and neither 1
    | InvalidAxis         // a transpose or reduction axis out of range
    | IndexOutOfRange     // slice bounds outside the dimension, or a step below 1
    | EmptyReduction      // a mean over zero elements
    | InvalidBackwardCall // backward on a non-scalar or on a tensor outside the graph

  datatype Result<T> = Ok(value: T) | Err(error: Error)

  datatype Option<T> = None | Some(value: T)
}
