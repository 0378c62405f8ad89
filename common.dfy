/** Values shared by every part of the conference API model: optional wire
    fields, the typed failures the endpoints raise, and calendar values. */
module Common {

  /** A wire-message field that may be unset (Python's None). */
  datatype Option<+T> = None | Some(value: T)

  /** Why a request was rejected with a BadRequest failure. */
  datatype BadRequestReason =
    | ConferenceNameRequired
    | SessionNameRequired
    | InvalidFieldOrOperator
    | InequalityOnMultipleFields

  /** Why a request was rejected with a Conflict failure. */
  datatype ConflictReason =
    | NoSuchSession
    | AlreadyInWishList
    | NotInWishList
    | AlreadyRegistered
    | NoSeatsAvailable

  /** The failures an operation can end in. `InvalidChoice` is the datastore's
      BadValueError for a session type outside the allowed set; `NotAnInteger`
      is the ValueError or TypeError of Python's `int()` on a filter value;
      `MissingProfile` is the AttributeError raised when the updating organizer
      has no Profile record; `CrossGroup` is the datastore's refusal, inside a
      single-group transaction, to read the Profile of a user other than the
      one whose Profile key is the parent of the conference key. */
  datatype Error =
    | BadRequest(badRequest: BadRequestReason)
    | NotFound
    | Forbidden
    | Conflict(conflict: ConflictReason)
    | InvalidChoice
    | NotAnInteger
    | MissingProfile
    | CrossGroup

  /** The outcome of an operation: its value, or the failure it raised. */
  datatype Result<+T> = Success(value: T) | Failure(error: Error)

  /** A calendar date, after parsing; only its month takes part in any rule. */
  datatype Date = Date(year: int, month: int, day: int)

  /** A time of day, after parsing. */
  datatype Time = Time(hour: int, minute: int)
}
