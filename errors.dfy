/** Go `error` values as the request handler sees them, and the
    `errorToString` policy the server installs at construction. */
module Errors {

  /** A Go `error`. `text` is what `err.Error()` returns; `maxBytes` says the
      dynamic type is `*http.MaxBytesError` (what a size-capped body reader
      returns once the cap is exceeded); `ptr` is the address of the error
      value, which is what `==` between two pointer errors compares. */
  datatype GoError = GoError(text: string, maxBytes: bool, ptr: nat)

  /** `errors.Is(err, target)` for an error that wraps nothing and has no
      `Is` method, which is the case of `*http.MaxBytesError`: identity. */
  predicate ErrorsIs(err: GoError, target: GoError)
  {
    err.ptr == target.ptr
  }

  /** `errors.As(err, &mbe)` with `mbe` a `*http.MaxBytesError`: a type test. */
  predicate IsMaxBytesError(err: GoError)
  {
    err.maxBytes
  }

  /** The server's `errorToString`: the short canonical phrase by default,
      the raw `err.Error()` text once full error responses are enabled. */
  function ErrorToString(fullErrors: bool, err: GoError, short: string): string
  {
    if fullErrors then err.text else short
  }
}
