/** The optional value used wherever the engine may get nothing back:
    an unavailable bounding box, an empty intersection, an out-of-range pick. */
module Wrappers {

  datatype Option<+T> = None | Some(value: T)
}
