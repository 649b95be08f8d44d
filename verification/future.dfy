/**
 * A boxed future as the handler builds it: the calls it issues, in order, and
 * what it resolves to. `AndThen` is the futures crate's `and_then`.
 */
module Future {
  import opened Wrappers
  import opened Types
  import opened Collaborators

  datatype Run<T> = Run(calls: seq<Call>, result: Result<T, Error>)

  /** A future that is already resolved to `v` (`Ok(v)` inside a combinator, `done(Ok(v))`). */
  function Done<T>(v: T): Run<T> {
    Run([], Ok(v))
  }

  /** A future that is already failed with `e` (`done(Err(e))`). */
  function Fail<T>(e: Error): Run<T> {
    Run([], Err(e))
  }

  /** A single remote call `c`, answered with `answer`. */
  function Issue<T>(c: Call, answer: Result<T, Error>): Run<T> {
    Run([c], answer)
  }

  /** `r.and_then(k)`: on success continue with `k`, on failure skip it and keep the error. */
  function AndThen<T, U>(r: Run<T>, k: T -> Run<U>): Run<U> {
    match r.result
    case Err(e) => Run(r.calls, Err(e))
    case Ok(v) => var next := k(v); Run(r.calls + next.calls, next.result)
  }
}
