/** The credentials service's check of a client before credentials are
    issued: both the first name and the e-mail must be non-blank, in the
    sense of Java's String.isBlank. */
module MailAppValidator {
  import opened Wrappers
  import opened CredentialsExceptions

  /** The two client fields the check reads (neither is null). */
  datatype ClientDto = ClientDto(firstname: string, email: string)

  const BlankMessage: string := "Имя и почта не должны быть пустыми."

  /** Java's Character.isWhitespace: the Unicode space, line and paragraph
      separators except the three non-breaking spaces (U+00A0, U+2007,
      U+202F), and the controls U+0009..U+000D and U+001C..U+001F. */
  predicate IsWhitespace(c: char) {
    || ('\U{0009}' <= c <= '\U{000D}')
    || ('\U{001C}' <= c <= '\U{001F}')
    || c == ' '
    || c == '\U{1680}'
    || ('\U{2000}' <= c <= '\U{2006}')
    || ('\U{2008}' <= c <= '\U{200A}')
    || c == '\U{2028}'
    || c == '\U{2029}'
    || c == '\U{205F}'
    || c == '\U{3000}'
  }

  /** The index of the first non-whitespace character, or |s| when there is
      none (the scan String.isBlank performs). */
  function IndexOfNonWhitespace(s: string): (i: nat)
    ensures i <= |s|
    ensures forall k :: 0 <= k < i ==> IsWhitespace(s[k])
    ensures i < |s| ==> !IsWhitespace(s[i])
  {
    if s == [] then 0
    else if !IsWhitespace(s[0]) then 0
    else 1 + IndexOfNonWhitespace(s[1..])
  }

  /** String.isBlank: the scan for a non-whitespace character runs off the end. */
  predicate IsBlank(s: string) {
    IndexOfNonWhitespace(s) == |s|
  }

  /** Blank means: empty, or made of whitespace only. */
  lemma BlankIffAllWhitespace(s: string)
    ensures IsBlank(s) <==> forall k :: 0 <= k < |s| ==> IsWhitespace(s[k])
  {
  }

  /** The empty string is blank, and so is a string of spaces. */
  lemma EmptyAndSpacesAreBlank()
    ensures IsBlank("")
    ensures IsBlank("   ")
  {
  }

  /** One non-whitespace character anywhere makes a string non-blank. */
  lemma NonWhitespaceMakesNonBlank(s: string, k: nat)
    requires k < |s| && !IsWhitespace(s[k])
    ensures !IsBlank(s)
  {
  }

  /** MailAppValidator.validate: throws InvalidCredentialsException when
      the first name or the e-mail is blank, and returns normally
      otherwise. The client record is a value: nothing in it changes. */
  function Validate(client: ClientDto): (r: Outcome<AppError>)
    ensures r.Pass? <==> !IsBlank(client.firstname) && !IsBlank(client.email)
    ensures r.Fail? ==> r.error == InvalidCredentials(BlankMessage)
  {
    if IsBlank(client.firstname) || IsBlank(client.email) then
      Fail(InvalidCredentials(BlankMessage))
    else
      Pass
  }

  /** A blank first name is rejected whatever the e-mail is. */
  lemma BlankFirstnameRejected(firstname: string, email: string)
    requires IsBlank(firstname)
    ensures Validate(ClientDto(firstname, email)) == Fail(InvalidCredentials(BlankMessage))
  {
  }

  /** A blank e-mail is rejected whatever the first name is. */
  lemma BlankEmailRejected(firstname: string, email: string)
    requires IsBlank(email)
    ensures Validate(ClientDto(firstname, email)) == Fail(InvalidCredentials(BlankMessage))
  {
  }

  /** A client passes exactly when each of its two fields holds at least
      one non-whitespace character. */
  lemma ValidateIffVisibleCharacters(client: ClientDto)
    ensures Validate(client).Pass? <==>
              (exists i :: 0 <= i < |client.firstname| && !IsWhitespace(client.firstname[i]))
              && (exists j :: 0 <= j < |client.email| && !IsWhitespace(client.email[j]))
  {
  }

  /** An all-space first name such as "   " is rejected. */
  lemma SpacesFirstnameRejected(email: string)
    ensures Validate(ClientDto("   ", email)).Fail?
  {
  }
}
