/** The exceptions of the credentials service, as one closed type: the
    validator throws one of them and the controller advice answers each. */
module CredentialsExceptions {

  /** One violated constraint: its property path, already turned into a
      string, and its message. */
  datatype ConstraintViolation = ConstraintViolation(propertyPath: string, message: string)

  /** The exceptions the handlers distinguish, each with its message. The
      violations of a ConstraintViolationException are a set; here they are
      given in the order the set yields them. */
  datatype AppError =
    | InvalidCredentials(message: string)
    | ClientNotFound(message: string)
    | ApplicationNotSupported(message: string)
    | ValidationError(message: string)
    | ConstraintViolations(message: string, violations: seq<ConstraintViolation>)
    | Unexpected(message: string)   // any other Throwable
}
