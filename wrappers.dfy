/** Option and Outcome, the two failure-carrying values the model uses. */
module Wrappers {

  datatype Option<+T> = None | Some(value: T)

  /** The result of an operation that either completes or throws. */
  datatype Outcome<+E> = Pass | Fail(error: E)
}

/** The exceptions the modelled Kotlin code can raise. */
module Failures {

  datatype Failure =
    | ClassCast                      // `bean as ShadowsocksBean` on another bean
    | IOFailure                      // java.io.IOException
    | NullPointer                    // `!!` applied to null
    | Uninitialized(property: string) // read of a `lateinit` property before assignment
}
