/** Optional values and the outcome of a transaction body: a committed value or the error that rolled it back. */
module Base {
  datatype Option<+T> = None | Some(value: T)

  datatype Result<+T, +E> = Ok(value: T) | Err(error: E)

  // withPostgresTransaction (src/db/postgres.ts:45-60): a throwing body leaves the database as it was.
  function Committed<S, E>(before: S, outcome: Result<S, E>): S
  {
    if outcome.Ok? then outcome.value else before
  }

  // A transaction body, as a method, commits what its step function returns, or leaves everything as it was and
  // reports the refusal.
  ghost predicate Commits<S, E>(before: S, after: S, refusal: Option<E>, step: Result<S, E>)
  {
    && (step.Ok? ==> refusal == None && after == step.value)
    && (step.Err? ==> refusal == Some(step.error) && after == before)
  }

  // The row became this, and was not before.
  predicate Turned<S(==)>(before: S, after: S, to: S) { before != to && after == to }
}
