/**
 * Values of the Go runtime that the adapter only passes around and never inspects.
 */
module Go {
  /** An `io.Writer` (an output sink such as `os.Stderr` or a buffer). */
  type Writer

  /** A `func(int)` exit function (such as `os.Exit`). */
  type ExitFunc

  /** A value held in an `interface{}` that is not a string. */
  type Opaque

  /** An `interface{}` value as the adapter sees it: a string, or anything else. */
  datatype Any = Str(s: string) | Value(v: Opaque)
}
