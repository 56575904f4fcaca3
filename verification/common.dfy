/**
 Shared vocabulary of the reconciliation model: Go's nil-able pointers become `Option`,
 Go's `(value, error)` pairs become `Result`, and the error values the services build
 (plain, transient with a retry hint, remote, wrapped with context) become `Error`.
 */
module Common {

  /** A Go value reached through a pointer, a nil-able map or a nil-able slice. */
  datatype Option<+T> = None | Some(value: T) {

    /** The pointed-to value, or `default` for nil (Go's `to.String`, `to.Bool`). */
    function GetOr(default: T): T {
      match this
      case Some(v) => v
      case None => default
    }
  }

  /** A Go `(value, error)` return where exactly one side is meaningful. */
  datatype Result<+R> = Success(value: R) | Failure(error: Error)

  /** The errors the modelled services produce or pass through. */
  datatype Error =
    | Fatal(message: string)                              // errors.New / errors.Errorf
    | Transient(message: string, retryAfterSeconds: nat)  // azure.WithTransientError
    | Remote(message: string, resourceNotFound: bool)     // an error returned by the Azure client
    | Wrapped(context: string, cause: Error)              // errors.Wrap / errors.Wrapf
  {
    /** The text `err.Error()` yields; a wrapped error prints as "context: cause". */
    function Text(): string {
      match this
      case Fatal(m) => m
      case Transient(m, _) => m
      case Remote(m, _) => m
      case Wrapped(c, e) => c + ": " + e.Text()
    }
  }

  /** azure.ResourceNotFound: the client reported that the named resource does not exist. */
  predicate ResourceNotFound(e: Error) {
    e.Remote? && e.resourceNotFound
  }

  /** Go's `int32`. */
  type int32 = x: int | -0x8000_0000 <= x < 0x8000_0000

  /** Go's `byte`. */
  type byte = x: int | 0 <= x < 0x100
}
