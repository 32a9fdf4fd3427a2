/** The tariffs service's decoder for error responses of the auth service:
    the HTTP status of the downstream response alone picks the local
    exception class and its fixed message. */
module AuthErrorDecoder {
  import opened Wrappers

  /** The exception classes the decoder can produce. */
  datatype ErrorKind =
    | Validation      // ValidationException: the auth service rejected the data
    | AccessDenied    // AccessException: access forbidden
    | UserNotFound    // UserNotFoundException: no such user
    | Authorization   // AuthorizationException: the token failed the check
    | Generic         // plain Exception, for every other status

  /** The exception object the decoder builds: its class and its message. */
  datatype DecodedException = DecodedException(kind: ErrorKind, message: string)

  const ValidationMessage: string := "Auth - проверка данных не пройдена"
  const AccessDeniedMessage: string := "Auth - доступ запрещен"
  const UserNotFoundMessage: string := "Auth - юзер не найден"
  const AuthorizationMessage: string := "Auth - токен не прошел проверку"
  const GenericMessage: string := "Tariff"

  /** The statuses that have an exception class of their own. */
  predicate IsSpecificStatus(status: int) {
    status == 400 || status == 403 || status == 404 || status == 409
  }

  /** The fixed message the decoder attaches to each exception class. */
  function MessageOf(kind: ErrorKind): (m: string) {
    match kind
    case Validation => ValidationMessage
    case AccessDenied => AccessDeniedMessage
    case UserNotFound => UserNotFoundMessage
    case Authorization => AuthorizationMessage
    case Generic => GenericMessage
  }

  /** The status that selects a class; the generic class answers to no single status. */
  function StatusOf(kind: ErrorKind): (s: Option<int>) {
    match kind
    case Validation => Some(400)
    case AccessDenied => Some(403)
    case UserNotFound => Some(404)
    case Authorization => Some(409)
    case Generic => None
  }

  /** Decodes a downstream error response. The method key names the client
      method that made the call; the decoder never looks at it. Every status
      has an answer. */
  function Decode(methodKey: string, status: int): (e: DecodedException)
    ensures e.kind == Validation <==> status == 400
    ensures e.kind == AccessDenied <==> status == 403
    ensures e.kind == UserNotFound <==> status == 404
    ensures e.kind == Authorization <==> status == 409
    ensures e.kind == Generic <==> !IsSpecificStatus(status)
    ensures e.message == MessageOf(e.kind)
  {
    match status
    case 400 => DecodedException(Validation, ValidationMessage)
    case 403 => DecodedException(AccessDenied, AccessDeniedMessage)
    case 404 => DecodedException(UserNotFound, UserNotFoundMessage)
    case 409 => DecodedException(Authorization, AuthorizationMessage)
    case _ => DecodedException(Generic, GenericMessage)
  }

  /** The result depends on the status code only, never on the method key. */
  lemma DecodeIgnoresMethodKey(k1: string, k2: string, status: int)
    ensures Decode(k1, status) == Decode(k2, status)
  {
  }

  /** Decoding the status of a specific class gives back that class. */
  lemma DecodeStatusOf(methodKey: string, kind: ErrorKind)
    requires StatusOf(kind).Some?
    ensures Decode(methodKey, StatusOf(kind).value).kind == kind
  {
  }

  /** Going from a status to a class and back recovers the status exactly
      when the status has a class of its own; every other status is mapped
      to the generic class, which has no status. */
  lemma StatusOfDecode(methodKey: string, status: int)
    ensures StatusOf(Decode(methodKey, status).kind)
            == if IsSpecificStatus(status) then Some(status) else None
  {
  }

  /** The four specific statuses give four pairwise distinct classes, with
      pairwise distinct messages. */
  lemma SpecificStatusesDistinct(methodKey: string, s1: int, s2: int)
    requires IsSpecificStatus(s1) && IsSpecificStatus(s2) && s1 != s2
    ensures Decode(methodKey, s1).kind != Decode(methodKey, s2).kind
    ensures Decode(methodKey, s1).message != Decode(methodKey, s2).message
  {
  }
}
