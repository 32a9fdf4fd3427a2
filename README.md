# Credentials and tariffs services: error decoding, client validation, tariff mapping, error responses

A Dafny model of the four pieces of logic in this set of microservices that
are stated fully in code:

- **Auth error decoder** (tariffs service, module `AuthErrorDecoder`): the
  HTTP status of a failed call to the auth service picks the local exception:
  400 a validation error, 403 access denied, 404 user not found, 409 a failed
  token check, anything else a generic exception with message "Tariff".
- **Client validator** (credentials service, module `MailAppValidator`): a
  client is rejected with InvalidCredentialsException when its first name or its
  e-mail is blank in the sense of Java's `String.isBlank` (empty or only
  whitespace as `Character.isWhitespace` defines it).
- **Tariff mappers** (tariffs service, module `TariffMapper`): field-for-field
  copies from a create request to the stored tariff, from the tariff to its DTO,
  and from the tariff and a product id to the published change message.
- **Exception-to-response table** (credentials service, module
  `GlobalControllerAdvice`): each exception class gets a status, a title and
  the exception's message as detail, and a constraint violation gets 400 with
  one `{field, message}` entry per violated constraint.

All four are pure, so each is a function, and the properties are the
functions' postconditions and lemmas about them. `Wrappers` holds the
`Option` and `Outcome` types; `CredentialsExceptions` holds the credentials
service's exceptions, which the validator throws and the advice answers. In the credentials service, 409 is the
answer to invalid credentials (titled as a validation error) and 403 to an
unsupported application; the model follows that code.

## Model

| member | source | states |
|---|---|---|
| AuthErrorDecoder.Decode | tariffs/src/main/java/com/neoflex/tariffs/integration/feign/AuthCustomErrorDecoder.java:13-22 | status 400, 403, 404, 409 each decode to their own class, each in both directions; every other status decodes to the generic class; the message is the fixed message of the class |
| AuthErrorDecoder.DecodeIgnoresMethodKey | tariffs/src/main/java/com/neoflex/tariffs/integration/feign/AuthCustomErrorDecoder.java:13-15 | two calls with the same status and any two method keys decode to the same exception |
| AuthErrorDecoder.DecodeStatusOf | tariffs/src/main/java/com/neoflex/tariffs/integration/feign/AuthCustomErrorDecoder.java:16-19 | decoding the status that belongs to a specific class gives back that class |
| AuthErrorDecoder.StatusOfDecode | tariffs/src/main/java/com/neoflex/tariffs/integration/feign/AuthCustomErrorDecoder.java:15-21 | mapping a decoded class back to its status recovers the status exactly for 400/403/404/409 and gives none for every other status |
| AuthErrorDecoder.SpecificStatusesDistinct | tariffs/src/main/java/com/neoflex/tariffs/integration/feign/AuthCustomErrorDecoder.java:16-19 | two different specific statuses decode to different classes with different messages |
| MailAppValidator.IndexOfNonWhitespace | src/main/java/com/neoflex/credentials/service/util/impl/MailAppValidator.java:15 | the scan behind isBlank: every character before the returned index is whitespace and the one at the index, if any, is not |
| MailAppValidator.BlankIffAllWhitespace | src/main/java/com/neoflex/credentials/service/util/impl/MailAppValidator.java:15 | a string is blank exactly when every character in it is whitespace |
| MailAppValidator.EmptyAndSpacesAreBlank | src/main/java/com/neoflex/credentials/service/util/impl/MailAppValidator.java:15 | the empty string and "   " are blank |
| MailAppValidator.NonWhitespaceMakesNonBlank | src/main/java/com/neoflex/credentials/service/util/impl/MailAppValidator.java:15 | one non-whitespace character anywhere makes a string non-blank |
| MailAppValidator.Validate | src/main/java/com/neoflex/credentials/service/util/impl/MailAppValidator.java:13-19 | passes exactly when neither first name nor e-mail is blank; a failure always carries InvalidCredentials with the fixed message |
| MailAppValidator.BlankFirstnameRejected | src/main/java/com/neoflex/credentials/service/util/impl/MailAppValidator.java:15-16 | a blank first name is rejected with the fixed message, whatever the e-mail |
| MailAppValidator.BlankEmailRejected | src/main/java/com/neoflex/credentials/service/util/impl/MailAppValidator.java:15-16 | a blank e-mail is rejected with the fixed message, whatever the first name |
| MailAppValidator.ValidateIffVisibleCharacters | src/main/java/com/neoflex/credentials/service/util/impl/MailAppValidator.java:15-18 | a client passes exactly when both fields hold at least one non-whitespace character |
| MailAppValidator.SpacesFirstnameRejected | src/main/java/com/neoflex/credentials/service/util/impl/MailAppValidator.java:15-16 | a first name of three spaces is rejected |
| TariffMapper.ToTariffCopiesFields | tariffs/src/main/java/com/neoflex/tariffs/mapper/TariffMapper.java:15-24 | the tariff's name, start date, end date, description, rate and author are the request's fields of the same name, unchanged |
| TariffMapper.ToTariffDtoCopiesFields | tariffs/src/main/java/com/neoflex/tariffs/mapper/TariffMapper.java:26-37 | the DTO's id, name, start date, end date, description, rate, author and version are the tariff's fields of the same name, unchanged |
| TariffMapper.KafkaMessageCopiesFields | tariffs/src/main/java/com/neoflex/tariffs/mapper/TariffMapper.java:38-50 | the message's id, name, dates, description, rate, author and version are the tariff's fields of the same name, unchanged, and its product id is the one supplied, whatever the tariff |
| TariffMapper.ToTariffLeavesIdentityUnset | tariffs/src/main/java/com/neoflex/tariffs/mapper/TariffMapper.java:15-24 | the tariff built from a request has neither id nor version set |
| TariffMapper.ToTariffInjective | tariffs/src/main/java/com/neoflex/tariffs/mapper/TariffMapper.java:15-24 | toTariff loses no field of the request as modelled: equal tariffs come from equal requests |
| TariffMapper.ToTariffDtoInjective | tariffs/src/main/java/com/neoflex/tariffs/mapper/TariffMapper.java:26-37 | toTariffDto loses no field of the tariff as modelled: equal DTOs come from equal tariffs |
| TariffMapper.KafkaMessageAgreesWithDto | tariffs/src/main/java/com/neoflex/tariffs/mapper/TariffMapper.java:26-50 | without its product id, the message equals the tariff's DTO on id, name, dates, description, rate, author and version |
| TariffMapper.CreateThenDtoRoundTrip | tariffs/src/main/java/com/neoflex/tariffs/mapper/TariffMapper.java:15-37 | the DTO of a tariff created from a request carries back exactly the request's fields, with no id and no version |
| TariffMapper.DtoThenCreateRoundTrip | tariffs/src/main/java/com/neoflex/tariffs/mapper/TariffMapper.java:15-37 | turning a tariff's DTO back into a request and mapping it gives the tariff with id and version cleared |
| GlobalControllerAdvice.ToViolations | src/main/java/com/neoflex/credentials/controller/advice/GlobalControllerAdvice.java:64-67 | one entry per constraint violation, in order; each entry's field is the violation's property path and its message the violation's message |
| GlobalControllerAdvice.ToViolationsPermutation | src/main/java/com/neoflex/credentials/controller/advice/GlobalControllerAdvice.java:64-67 | enumerating the same set of violations in any order gives the same entries with the same multiplicities |
| GlobalControllerAdvice.Handle | src/main/java/com/neoflex/credentials/controller/advice/GlobalControllerAdvice.java:24-69 | 409 exactly for invalid credentials, 404 for client not found, 403 for an unsupported application, 400 for validation errors and constraint violations, 500 for anything else; titles "Ошибка валидации: " / "Ошибка введенных данных: " / "Непредвиденная ошибка: " by class; detail is the exception's message; a constraint violation gets a violation list of the same length, entry by entry |
| GlobalControllerAdvice.HandleStatuses | src/main/java/com/neoflex/credentials/controller/advice/GlobalControllerAdvice.java:24-69 | every response status is one of 400, 403, 404, 409, 500 |
| GlobalControllerAdvice.HandleConstraintOrderIndependent | src/main/java/com/neoflex/credentials/controller/advice/GlobalControllerAdvice.java:59-69 | two constraint-violation exceptions over the same violations get the same status and the same violation entries, whatever the order |
| GlobalControllerAdvice.RejectedClientResponse | src/main/java/com/neoflex/credentials/controller/advice/GlobalControllerAdvice.java:31-36 | a client the validator rejects is answered with 409, the validation title and the validator's message |

## Left out

- The product audit and revert logic (current version, previous versions, versions by period, revert): it lives in AuditService. The audit controller only logs and delegates to AuditService, and the product controller to ProductService; neither service is part of this model.
- Application bootstrap classes and the OpenAPI metadata class: no logic.
- Logging: every handler and the validator log; logging has no effect on results.
- Spring's choice of the most specific exception handler: modelled by its outcome, a closed error type whose last case stands for every other Throwable.
- Feign's Response object and Java exception objects: reduced to the status code, and to an exception class with its message.
- Bean Validation annotations and date parsing on the controllers: enforced by the framework, not by this code.
- Null values: a null first name, or a null e-mail with a non-blank first name, throws a NullPointerException in the validator (a blank first name with a null e-mail is rejected before the e-mail is read); these, a null exception message (a null detail) and null record fields are not modelled; every string here is present.
- The record classes (create DTO, tariff entity, DTO, message) are not part of this model: their field types are taken as abstract types for the UUID, dates and rate, strings for the text fields and an integer for the version; `None` in id or version stands for whatever default the entity's builder gives a field it was not told to set.
- TariffMapper.ToTariffInjective, TariffMapper.ToTariffDtoInjective: the record datatypes hold exactly the fields the mappers read or write; any other field of the Java classes is not modelled, so these lemmas say nothing about whether such a field would be dropped.
- Kafka publishing, persistence and UUID generation: outside these functions.
- The order of the violation list: the source iterates a set, so no order is promised; the model takes the violations in some enumeration order and proves that the result does not depend on it up to permutation.
- Strings are sequences of Unicode scalar values, while a Java String is a sequence of UTF-16 code units, so a Java string holding an unpaired surrogate cannot be written in the model; String.isBlank treats such a surrogate as non-whitespace, so no validation result would differ.
- The property path is taken as already converted to a string (`toString` of the path is Bean Validation's, not part of this model).
