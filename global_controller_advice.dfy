/** The credentials service's mapping of exceptions to HTTP responses:
    each exception class has a status and a title, and a constraint
    violation lists its violated constraints field by field. Spring's choice
    of the most specific handler is replaced by a closed error type with a
    catch-all case. */
module GlobalControllerAdvice {
  import opened CredentialsExceptions
  import MailAppValidator

  /** One entry of the violation list sent to the client. */
  datatype Violation = Violation(field: string, message: string)

  /** The response body: ErrorResponse or ValidationErrorResponse. */
  datatype Body =
    | ErrorResponse(title: string, detail: string)
    | ValidationErrorResponse(violations: seq<Violation>)

  datatype HttpResponse = HttpResponse(status: int, body: Body)

  const ValidationTitle: string := "Ошибка валидации: "
  const InputTitle: string := "Ошибка введенных данных: "
  const UnexpectedTitle: string := "Непредвиденная ошибка: "

  /** The list entry for one violated constraint. */
  function ToViolation(cv: ConstraintViolation): (v: Violation) {
    Violation(cv.propertyPath, cv.message)
  }

  /** The stream of violations mapped one by one into a list: one entry per
      violation, in the same order, each holding that violation's path as
      its field and its message unchanged. */
  function ToViolations(cvs: seq<ConstraintViolation>): (vs: seq<Violation>)
    ensures |vs| == |cvs|
    ensures forall i :: 0 <= i < |cvs| ==>
              vs[i].field == cvs[i].propertyPath && vs[i].message == cvs[i].message
  {
    if cvs == [] then [] else [ToViolation(cvs[0])] + ToViolations(cvs[1..])
  }

  /** Mapping a concatenation maps each part. */
  lemma ToViolationsAppend(a: seq<ConstraintViolation>, b: seq<ConstraintViolation>)
    ensures ToViolations(a + b) == ToViolations(a) + ToViolations(b)
  {
  }

  /** The set of violations promises no order; the list built from it
      holds the same entries, with the same multiplicities, whichever order
      the set yields them in. */
  lemma {:induction false} ToViolationsPermutation(a: seq<ConstraintViolation>, b: seq<ConstraintViolation>)
    requires multiset(a) == multiset(b)
    ensures multiset(ToViolations(a)) == multiset(ToViolations(b))
    decreases |a|
  {
    if a == [] {
      assert |b| == |multiset(b)| == 0;
    } else {
      var x := a[0];
      assert x in multiset(b);
      var j :| 0 <= j < |b| && b[j] == x;
      var rest := b[..j] + b[j + 1..];
      assert b == b[..j] + [x] + b[j + 1..];
      assert a == [x] + a[1..];
      assert multiset(b) == multiset(b[..j]) + multiset{x} + multiset(b[j + 1..]);
      assert multiset(rest) == multiset(b[..j]) + multiset(b[j + 1..]);
      assert multiset(a) == multiset{x} + multiset(a[1..]);
      assert multiset(a[1..]) == multiset(a) - multiset{x};
      assert multiset(rest) == multiset(b) - multiset{x};
      ToViolationsPermutation(a[1..], rest);
      ToViolationsAppend(b[..j] + [x], b[j + 1..]);
      ToViolationsAppend(b[..j], [x]);
      ToViolationsAppend(b[..j], b[j + 1..]);
      ToViolationsAppend([x], a[1..]);
    }
  }

  /** The handler that answers each exception class. */
  function Handle(e: AppError): (r: HttpResponse)
    ensures r.status == 409 <==> e.InvalidCredentials?
    ensures r.status == 404 <==> e.ClientNotFound?
    ensures r.status == 403 <==> e.ApplicationNotSupported?
    ensures r.status == 400 <==> e.ValidationError? || e.ConstraintViolations?
    ensures r.status == 500 <==> e.Unexpected?
    ensures r.body.ValidationErrorResponse? <==> e.ConstraintViolations?
    ensures r.body.ErrorResponse? ==> r.body.detail == e.message
    ensures r.body.ErrorResponse? ==>
              r.body.title == (if e.Unexpected? then UnexpectedTitle
                               else if e.ClientNotFound? || e.ApplicationNotSupported? then InputTitle
                               else ValidationTitle)
    ensures e.ConstraintViolations? ==>
              |r.body.violations| == |e.violations|
              && forall i :: 0 <= i < |e.violations| ==>
                   r.body.violations[i] == Violation(e.violations[i].propertyPath, e.violations[i].message)
  {
    match e
    case InvalidCredentials(m) => HttpResponse(409, ErrorResponse(ValidationTitle, m))
    case ClientNotFound(m) => HttpResponse(404, ErrorResponse(InputTitle, m))
    case ApplicationNotSupported(m) => HttpResponse(403, ErrorResponse(InputTitle, m))
    case ValidationError(m) => HttpResponse(400, ErrorResponse(ValidationTitle, m))
    case ConstraintViolations(_, cvs) => HttpResponse(400, ValidationErrorResponse(ToViolations(cvs)))
    case Unexpected(m) => HttpResponse(500, ErrorResponse(UnexpectedTitle, m))
  }

  /** Every response is a client or server error, one of five statuses. */
  lemma HandleStatuses(e: AppError)
    ensures Handle(e).status in {400, 403, 404, 409, 500}
  {
  }

  /** Two constraint-violation exceptions over the same set of violations
      get the same response up to the order of the list. */
  lemma HandleConstraintOrderIndependent(m1: string, a: seq<ConstraintViolation>,
                                         m2: string, b: seq<ConstraintViolation>)
    requires multiset(a) == multiset(b)
    ensures Handle(ConstraintViolations(m1, a)).status == Handle(ConstraintViolations(m2, b)).status
    ensures multiset(Handle(ConstraintViolations(m1, a)).body.violations)
            == multiset(Handle(ConstraintViolations(m2, b)).body.violations)
  {
    ToViolationsPermutation(a, b);
  }

  /** A client rejected by the validator is answered with 409, the
      validation title and the validator's message. */
  lemma RejectedClientResponse(client: MailAppValidator.ClientDto)
    requires MailAppValidator.Validate(client).Fail?
    ensures Handle(MailAppValidator.Validate(client).error)
            == HttpResponse(409, ErrorResponse(ValidationTitle, MailAppValidator.BlankMessage))
  {
  }
}
