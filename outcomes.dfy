/** Exceptions of the assertion layer and the value-or-exception result of one
    Python call. */
module Outcomes {

  datatype Option<T> = None | Some(value: T)

  /** The exceptions a matcher can see.  `ExpectationNotMet` is capybara's own
      failure; `StaleElement` stands for the driver's invalid-element errors that
      signal "the document changed under me"; `Failure` is every other exception
      (configuration errors, type errors, driver failures). */
  datatype Error =
    | ExpectationNotMet(message: string)
    | StaleElement(message: string)
    | Failure(message: string)

  /** Errors that `synchronize` catches and retries. `synchronize` catches
      `ElementNotFound` by default; of that family only its subclass
      `ExpectationNotMet` is raised by the bodies modelled here, and any other
      member of it an engine answer might raise counts as a `Failure`. */
  predicate Retriable(e: Error)
  {
    e.ExpectationNotMet? || e.StaleElement?
  }

  /** A Python call either returns a value or raises. */
  datatype Outcome<T> = Return(value: T) | Raise(error: Error)

  /** An outcome that ends a retry loop whatever the remaining budget:
      a return, or an exception synchronize does not catch. */
  predicate Settled<T>(o: Outcome<T>)
  {
    o.Return? || !Retriable(o.error)
  }
}
