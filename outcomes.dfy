/** Outcomes of the billing service's operations: the HTTP results the
    handlers produce, reduced to what they mean. */
module Outcomes {

  /** A value that may be absent; `None` stands for a C# `null`. */
  datatype Option<+T> = None | Some(value: T)

  /** Which field check of the registration handler rejected a reading. */
  datatype Invalid = MesOutOfRange | AnoOutOfRange | M3NotPositive

  /** The failures the handlers report: 400, 409 and 404. */
  datatype Failure = BadRequest(reason: Invalid) | Conflict | NotFound

  /** The result of a handler: `Ok` is 200 (or 201 for a registration). */
  datatype Outcome<+T> = Ok(value: T) | Err(failure: Failure)
}
