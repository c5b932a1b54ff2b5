/** The failure kinds the modelled code raises, named after the Python exceptions,
    and the wrappers that carry them instead of an exception. */
module Errors {

  datatype Error =
    | ValueError          // a buffer constructed with a size below 1; `min`/`max` of an empty list
    | ConnectionError     // the reconnect backoff reached its ceiling
    | ZeroDivisionError   // a division by a zero frame area, scale or frame rate
    | IndexError          // indexing an empty list, or a shape with too few axes
    | AttributeError      // `frame.copy()` on the `None` of a failed read
    | SubscriberRaised    // a subscribed callable raised
    | KeyboardInterrupt   // the user interrupted the detector loop

  datatype Option<T> = None | Some(value: T)

  datatype Result<T> = Ok(value: T) | Err(error: Error)

  /** The result of an operation that returns nothing but may raise. */
  datatype Outcome = Pass | Fail(error: Error)
}

/** Image arrays as the pipeline passes them around. */
module Frames {

  /** A numpy image array: its `shape` (height first, then width, then channels)
      and its pixel values, which the model never inspects. */
  datatype Frame = Frame(shape: seq<int>, pixels: seq<int>)

  /** numpy's `array([])`: a single axis of length zero. */
  const EmptyArray: Frame := Frame([0], [])
}
