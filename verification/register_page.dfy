/**
 * The registration form (src/pages/RegisterPage.tsx): its schema and the
 * request body built from the parsed values.
 *
 * The email format check belongs to the validation library and is a
 * parameter here. Checks run in the order the schema lists them; a
 * `.trim()` written after a `.min()` trims only the parsed value, so the
 * length check sees the raw input. The username is trimmed before its
 * checks.
 */
module RegisterPage {
  import opened Options
  import Text
  import opened Forms

  datatype RegisterInput = RegisterInput(
    email: string,
    fullName: string,
    username: string,
    password: string,
    confirmPassword: string)

  /** `min(1)` then, only when that passes, the library's email format check. */
  function EmailIssues(email: string, isEmail: string -> bool): (r: seq<Issue>)
    ensures r == [] <==> email != "" && isEmail(email)
    ensures email == "" ==> r == [Issue("email", Required)]
  {
    if email == "" then [Issue("email", Required)]
    else Check(isEmail(email), Issue("email", Format))
  }

  /** The username rule, applied to the trimmed username. */
  predicate ValidUsername(u: string) {
    Text.Utf16Length(u) >= 3 && forall i :: 0 <= i < |u| ==> Text.IsWordChar(u[i])
  }

  function UsernameIssues(trimmed: string): (r: seq<Issue>)
    ensures r == [] <==> ValidUsername(trimmed)
  {
    Check(Text.Utf16Length(trimmed) >= 3, Issue("username", TooShort(3)))
    + Check(trimmed != [] && forall i :: 0 <= i < |trimmed| ==> Text.IsWordChar(trimmed[i]),
            Issue("username", NotWordChars))
  }

  /** Every issue of the form, field by field, then the password confirmation. */
  function Issues(f: RegisterInput, isEmail: string -> bool): seq<Issue> {
    EmailIssues(f.email, isEmail)
    + Check(Text.Utf16Length(f.fullName) >= 2, Issue("fullName", TooShort(2)))
    + UsernameIssues(Text.Trim(f.username))
    + PasswordIssues("password", f.password)
    + Check(Text.Utf16Length(f.confirmPassword) >= 1, Issue("confirmPassword", Required))
    + Check(Text.Trim(f.password) == Text.Trim(f.confirmPassword), Issue("confirmPassword", Mismatch))
  }

  /** The form as the rules describe it, independently of how issues are collected. */
  predicate Acceptable(f: RegisterInput, isEmail: string -> bool) {
    && f.email != "" && isEmail(f.email)
    && Text.Utf16Length(f.fullName) >= 2
    && ValidUsername(Text.Trim(f.username))
    && StrongPassword(f.password)
    && f.confirmPassword != ""
    && Text.Trim(f.password) == Text.Trim(f.confirmPassword)
  }

  /** No issue is reported exactly when the form is acceptable. */
  lemma NoIssues(f: RegisterInput, isEmail: string -> bool)
    ensures Issues(f, isEmail) == [] <==> Acceptable(f, isEmail)
  {
    var username := Text.Trim(f.username);
    var matches := Text.Trim(f.password) == Text.Trim(f.confirmPassword);
    NoIssuesFor(f, username, matches, isEmail);
  }

  /** The same, with the trimmed username and the outcome of the comparison given as they are. */
  lemma NoIssuesFor(f: RegisterInput, username: string, matches: bool, isEmail: string -> bool)
    ensures var issues := EmailIssues(f.email, isEmail)
                          + Check(Text.Utf16Length(f.fullName) >= 2, Issue("fullName", TooShort(2)))
                          + UsernameIssues(username)
                          + PasswordIssues("password", f.password)
                          + Check(Text.Utf16Length(f.confirmPassword) >= 1, Issue("confirmPassword", Required))
                          + Check(matches, Issue("confirmPassword", Mismatch));
      issues == [] <==> && f.email != "" && isEmail(f.email)
                        && Text.Utf16Length(f.fullName) >= 2
                        && ValidUsername(username)
                        && StrongPassword(f.password)
                        && f.confirmPassword != ""
                        && matches
  {
    var email := EmailIssues(f.email, isEmail);
    var fullName := Check(Text.Utf16Length(f.fullName) >= 2, Issue("fullName", TooShort(2)));
    var confirm := Check(Text.Utf16Length(f.confirmPassword) >= 1, Issue("confirmPassword", Required));
    NoneCollected(email, fullName, UsernameIssues(username), PasswordIssues("password", f.password), confirm,
                  Check(matches, Issue("confirmPassword", Mismatch)));
  }

  /** `registerSchema.parse`: the trimmed values when every check passes, otherwise every issue found. */
  function Validate(f: RegisterInput, isEmail: string -> bool): (r: Result<RegisterInput, seq<Issue>>)
    ensures r.Ok? <==> Acceptable(f, isEmail)
    ensures r.Ok? ==> r.value == RegisterInput(f.email, Text.Trim(f.fullName), Text.Trim(f.username),
                                               Text.Trim(f.password), Text.Trim(f.confirmPassword))
    ensures r.Err? ==> r.error == Issues(f, isEmail) && r.error != []
  {
    NoIssues(f, isEmail);
    var issues := Issues(f, isEmail);
    if issues == [] then
      Ok(RegisterInput(f.email, Text.Trim(f.fullName), Text.Trim(f.username),
                       Text.Trim(f.password), Text.Trim(f.confirmPassword)))
    else Err(issues)
  }

  /** A confirmation that differs from the password (after trimming) is reported on `confirmPassword`. */
  lemma MismatchOnConfirmPassword(f: RegisterInput, isEmail: string -> bool)
    requires Text.Trim(f.password) != Text.Trim(f.confirmPassword)
    ensures Validate(f, isEmail).Err?
    ensures Reports(Validate(f, isEmail).error, "confirmPassword", Mismatch)
  {
    var issues := Issues(f, isEmail);
    assert issues[|issues| - 1] == Issue("confirmPassword", Mismatch);
  }

  /** A username that passes its checks is, as parsed, at least 3 characters with no surrounding white space. */
  lemma ParsedUsername(username: string)
    requires ValidUsername(Text.Trim(username))
    ensures var u := Text.Trim(username);
      |u| >= 3 && !Text.IsSpace(u[0]) && !Text.IsSpace(u[|u| - 1])
  {
    var u := Text.Trim(username);
    assert forall i :: 0 <= i < |u| ==> u[i] as int < 0x1_0000 by {
      forall i | 0 <= i < |u| ensures u[i] as int < 0x1_0000 {
        assert Text.IsWordChar(u[i]);
      }
    }
    Text.Utf16LengthBmp(u);
  }

  /** The body sent to the registration endpoint. */
  datatype RegisterBody = RegisterBody(
    email: string,
    username: string,
    password: string,
    confirmPassword: string,
    fullName: string)

  /** The body carries the parsed values, each under its own name and nothing else. */
  function Body(data: RegisterInput): (r: RegisterBody)
    ensures r.email == data.email && r.username == data.username && r.password == data.password
    ensures r.confirmPassword == data.confirmPassword && r.fullName == data.fullName
  {
    RegisterBody(data.email, data.username, data.password, data.confirmPassword, data.fullName)
  }

  /**
   * The body of an accepted form: the email as typed, the other fields
   * trimmed, a username that passes its rule, and a confirmation equal to
   * the password.
   */
  lemma BodyOfAcceptedForm(f: RegisterInput, isEmail: string -> bool)
    requires Validate(f, isEmail).Ok?
    ensures var b := Body(Validate(f, isEmail).value);
      && b.email == f.email && isEmail(b.email)
      && b.fullName == Text.Trim(f.fullName)
      && b.username == Text.Trim(f.username) && ValidUsername(b.username)
      && b.password == Text.Trim(f.password) && b.confirmPassword == b.password
  {
  }
}
