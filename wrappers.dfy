/** A value that may be absent: the model's stand-in for Go's nil results
    (an empty stack's top, a pop that found nothing) and for a step that panics. */
module Wrappers {

  datatype Option<+T> = None | Some(value: T)
}
