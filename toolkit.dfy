/** Values the wrappers exchange with the native toolkit: points, sizes and
    callbacks. The toolkit's own objects are fields of the model's classes. */
module Toolkit {
  /** A Drawing.Point, and the (x, y) tuples the wrappers store. */
  datatype Point = Point(x: int, y: int)

  /** A Drawing.Size, and the (width, height) tuples the wrappers store. */
  datatype Size = Size(width: int, height: int)

  /** An application callback (on_click, on_exit, ...). It is foreign code:
      only its identity matters to the model. */
  datatype Callback = Callback(id: nat)
}

/** The optional values and the failures (raised exceptions) of the wrappers. */
module Wrappers {
  datatype Option<+T> = None | Some(value: T)

  /** The Python exceptions the wrappers raise themselves. */
  datatype PyError = TypeError | ValueError

  /** How a setter or operation ends: normally, or by raising. */
  datatype Outcome = Pass | Fail(error: PyError)
}
