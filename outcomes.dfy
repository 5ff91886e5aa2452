/** Optional values and failures shared by the filter's modules. */
module Outcomes {

  /** A configuration key that may be missing (the source's `null`). */
  datatype Maybe<+T> = Absent | Present(value: T)

  /** Why a configuration section could not be turned into a set of levels. */
  datatype ConfigError = UnknownLevel(name: string)

  /** A value, or the error that the source raises as an exception. */
  datatype Result<+T> = Ok(value: T) | Err(error: ConfigError)

  /** The outcome of an operation that returns nothing but may raise. */
  datatype Outcome = Pass | Fail(error: ConfigError)
}
