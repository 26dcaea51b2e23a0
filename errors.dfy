/** The error values the service returns. A nil `error` is `None` of `Option<Error>`. */
module Errors {
  import Decimal

  datatype Error =
    /** `errors.New("force stop")`, returned when a second signal interrupts the shutdown hook. */
    | ForceStop
    /** The `*strconv.NumError` of a pid file whose text is not a 64-bit integer. */
    | NumError(kind: Decimal.NumErrorKind)
    /** The error of reading a pid file that does not exist. */
    | ReadError(path: string)
    /**
     * An error made outside the model and passed through unchanged: one the work
     * function returns, or one from starting a process, writing a file or
     * delivering a signal. The tag tells such errors apart.
     */
    | External(tag: nat)
}
