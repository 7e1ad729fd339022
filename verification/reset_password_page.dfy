/**
 * The password-reset page (src/pages/ResetPasswordPage.tsx): its schema,
 * the choice of reset token, and the submit handler.
 */
module ResetPasswordPage {
  import opened Options
  import Text
  import opened Forms

  datatype ResetInput = ResetInput(password: string, confirmPassword: string)

  /** The password rules, then the confirmation; the confirmation itself has no rule of its own. */
  function Issues(f: ResetInput): seq<Issue> {
    PasswordIssues("password", f.password)
    + Check(Text.Trim(f.password) == f.confirmPassword, Issue("confirmPassword", Mismatch))
  }

  /** `resetPasswordSchema.parse`. The password is compared after trimming, the confirmation as typed. */
  function Validate(f: ResetInput): (r: Result<ResetInput, seq<Issue>>)
    ensures r.Ok? <==> StrongPassword(f.password) && Text.Trim(f.password) == f.confirmPassword
    ensures r.Ok? ==> r.value == ResetInput(Text.Trim(f.password), f.confirmPassword)
    ensures r.Err? ==> r.error != [] && forall x :: x in r.error ==> x.field in {"password", "confirmPassword"}
  {
    var issues := Issues(f);
    if issues == [] then Ok(ResetInput(Text.Trim(f.password), f.confirmPassword)) else Err(issues)
  }

  /** A confirmation that differs from the trimmed password is reported on `confirmPassword`. */
  lemma MismatchOnConfirmPassword(f: ResetInput)
    requires Text.Trim(f.password) != f.confirmPassword
    ensures Validate(f).Err?
    ensures Reports(Validate(f).error, "confirmPassword", Mismatch)
  {
    var issues := Issues(f);
    assert issues[|issues| - 1] == Issue("confirmPassword", Mismatch);
  }

  /** The path's token, else the `?token=` query value, else the empty string. */
  function Token(pathToken: Option<string>, queryToken: Option<string>): (r: string)
    ensures IsTruthy(pathToken) ==> r == pathToken.value
    ensures !IsTruthy(pathToken) && IsTruthy(queryToken) ==> r == queryToken.value
    ensures r == "" <==> !IsTruthy(pathToken) && !IsTruthy(queryToken)
  {
    OrElse(pathToken, OrElse(queryToken, ""))
  }

  datatype ResetRequest = ResetRequest(token: string, password: string, confirmPassword: string)

  /** What the user sees: the token was empty, or the server's answer (its message, if it sent one). */
  datatype Notice = InvalidToken | Succeeded(message: Option<string>) | Failed(message: Option<string>)

  datatype SubmitOutcome = SubmitOutcome(
    request: Option<ResetRequest>,
    isLoading: bool,
    notice: Notice,
    navigation: Option<string>)

  /**
   * `onSubmit` with parsed values: with an empty token nothing is sent and
   * the loading flag is left as it was; otherwise the request is sent, the
   * result is reported, success leads to the login page, and loading ends
   * either way. `response` is the server's answer to the request.
   */
  function Submit(isLoading: bool, token: string, data: ResetInput,
                  response: Result<Option<string>, Option<string>>): (r: SubmitOutcome)
    ensures token == "" ==> r == SubmitOutcome(None, isLoading, InvalidToken, None)
    ensures token != "" ==> r.request == Some(ResetRequest(token, data.password, data.confirmPassword))
    ensures token != "" ==> !r.isLoading
    ensures token != "" ==> (r.navigation == Some("/login") <==> response.Ok?)
  {
    if token == "" then SubmitOutcome(None, isLoading, InvalidToken, None)
    else
      var request := ResetRequest(token, data.password, data.confirmPassword);
      match response
      case Ok(message) => SubmitOutcome(Some(request), false, Succeeded(message), Some("/login"))
      case Err(message) => SubmitOutcome(Some(request), false, Failed(message), None)
  }

  /** Without a token in the path or the query, a submit never reaches the server. */
  lemma NoTokenNoRequest(pathToken: Option<string>, queryToken: Option<string>, isLoading: bool,
                         data: ResetInput, response: Result<Option<string>, Option<string>>)
    requires !IsTruthy(pathToken) && !IsTruthy(queryToken)
    ensures Submit(isLoading, Token(pathToken, queryToken), data, response).request == None
  {
  }
}
