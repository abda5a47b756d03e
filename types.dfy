/** Values shared by the session cache, the login pipeline and the manager. */
module Types {

  /** A reference that may be null, or a slot that may be empty. */
  datatype Option<+T> = None | Some(value: T)

  /** A clock reading; only its order matters. */
  type Time = int

  /** Identifies one bolts task (the task of one completion source). */
  type TaskId = nat

  /** An access token with its expiry, as returned by a successful login. */
  datatype Session = Session(accessToken: string, expiryTime: Time)

  /** `Session.hasExpired()` read at clock value `now`. */
  predicate HasExpired(s: Session, now: Time) {
    now >= s.expiryTime
  }

  /** A user name (an e-mail address) and a password. */
  datatype Credentials = Credentials(username: string, password: string)

  /** The user the identity service reports after creating it. */
  datatype User = User(userId: string, email: string)

  /** The error a faulted task carries (a network or service failure). */
  datatype ServiceError = ServiceError(statusCode: int, message: string)

  /** How a bolts task settles: with a result, with an error, or cancelled. */
  datatype Outcome<+T> = Success(value: T) | Faulted(error: ServiceError) | Cancelled

  /** Two outcomes that both failed the same way: the same error, or both cancelled. */
  predicate SameFailure<A, B>(a: Outcome<A>, b: Outcome<B>) {
    match a
    case Success(_) => false
    case Faulted(e) => b.Faulted? && b.error == e
    case Cancelled => b.Cancelled?
  }
}
