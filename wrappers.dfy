/** Small failure-carrying datatypes shared by the model. */
module Wrappers {

  /** An optional value, as `std::optional` in the renderer. */
  datatype Option<+T> = None | Some(value: T)

  /** How a call that can abort ends: normally, by throwing a fatal
      `std::runtime_error` whose text is `message`, or by calling
      `exit(code)`. */
  datatype Outcome = Ok | Fatal(message: string) | Exit(code: int)
}
