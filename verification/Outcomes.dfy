/** Results shared by every store operation: a value or one protocol error code. */
module Outcomes {
  datatype Option<+T> = None | Some(value: T)

  /** The protocol error codes that the modelled operations can answer with. */
  datatype Error =
    | InternalError
    | InvalidRequest
    | CursorExpired
    | ServerCursorExhausted
    | RevisionEquivocation
    | CounterExhausted
    | CounterConflict
    | StaleAfterCollection
    | TooManySiblings
    | LimitExceeded
    | EnvelopeMissing
    | SnapshotNotFound
    | SnapshotExpired
    | GenerationConflict
    | GenerationExhausted
    | DeviceNotFound
    | ZeroActiveConfirmationRequired
    | RequestIdReused
    | EnrollmentReplayMismatch

  datatype Result<+T> = Ok(value: T) | Err(error: Error)
}
