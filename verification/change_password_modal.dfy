/**
 * The change-password dialog (src/components/common/ChangePasswordModal.tsx):
 * its schema, how a server error is shown, and the sign-out after success.
 */
module ChangePasswordModal {
  import opened Options
  import Text
  import opened Forms
  import Storage
  import AuthStore

  datatype ChangeInput = ChangeInput(currentPassword: string, newPassword: string, confirmPassword: string)

  /** The new-password rule: 6 characters and an uppercase letter, nothing else. */
  predicate AcceptableNewPassword(s: string) {
    Text.Utf16Length(s) >= 6 && HasUpper(s)
  }

  function Issues(f: ChangeInput): seq<Issue> {
    Check(Text.Utf16Length(f.currentPassword) >= 1, Issue("currentPassword", Required))
    + Check(Text.Utf16Length(f.newPassword) >= 6, Issue("newPassword", TooShort(6)))
    + Check(HasUpper(f.newPassword), Issue("newPassword", NoUppercase))
    + Check(Text.Utf16Length(f.confirmPassword) >= 1, Issue("confirmPassword", Required))
    + Check(Text.Trim(f.newPassword) == Text.Trim(f.confirmPassword), Issue("confirmPassword", Mismatch))
  }

  /** `changePasswordSchema.parse`. */
  function Validate(f: ChangeInput): (r: Result<ChangeInput, seq<Issue>>)
    ensures r.Ok? <==> && f.currentPassword != ""
                       && AcceptableNewPassword(f.newPassword)
                       && f.confirmPassword != ""
                       && Text.Trim(f.newPassword) == Text.Trim(f.confirmPassword)
    ensures r.Ok? ==> r.value == ChangeInput(Text.Trim(f.currentPassword), Text.Trim(f.newPassword),
                                             Text.Trim(f.confirmPassword))
    ensures r.Err? ==> r.error != []
  {
    var issues := Issues(f);
    if issues == [] then
      Ok(ChangeInput(Text.Trim(f.currentPassword), Text.Trim(f.newPassword), Text.Trim(f.confirmPassword)))
    else Err(issues)
  }

  lemma MismatchOnConfirmPassword(f: ChangeInput)
    requires Text.Trim(f.newPassword) != Text.Trim(f.confirmPassword)
    ensures Validate(f).Err?
    ensures Reports(Validate(f).error, "confirmPassword", Mismatch)
  {
    var issues := Issues(f);
    assert issues[|issues| - 1] == Issue("confirmPassword", Mismatch);
  }

  /**
   * This rule is strictly weaker than the registration rule: every strong password is accepted here,
   * and "ABCDEF" is accepted here without being a strong password.
   */
  lemma WeakerThanStrongPassword()
    ensures forall s :: StrongPassword(s) ==> AcceptableNewPassword(s)
    ensures AcceptableNewPassword("ABCDEF") && !StrongPassword("ABCDEF")
  {
    forall s | StrongPassword(s) ensures AcceptableNewPassword(s) {
      assert Text.Utf16Length(s) >= 8;
    }
    assert Text.IsAsciiUpper("ABCDEF"[0]);
  }

  const Fallback := "Kh\U{00F4}ng th\U{1EC3} \U{0111}\U{1ED5}i m\U{1EAD}t kh\U{1EA9}u"
  const CurrentPasswordKeyword := "current password"
  const OldPasswordKeyword := "m\U{1EAD}t kh\U{1EA9}u c\U{0169}"
  const IncorrectKeyword := "incorrect"

  /** The message of a failed request: the server's, or the fallback when it sent none. */
  function ErrorMessage(serverMessage: Option<string>): (r: string)
    ensures IsTruthy(serverMessage) ==> r == serverMessage.value
    ensures !IsTruthy(serverMessage) ==> r == Fallback
  {
    OrElse(serverMessage, Fallback)
  }

  /** Where a failure is shown: under the current-password field, or as a toast with the message. */
  datatype Shown = CurrentPasswordWrong | Toast(message: string)

  predicate MentionsOldPassword(message: string) {
    var lower := Text.ToLower(message);
    Text.Contains(lower, CurrentPasswordKeyword) || Text.Contains(lower, OldPasswordKeyword)
      || Text.Contains(lower, IncorrectKeyword)
  }

  function Classify(message: string): (r: Shown)
    ensures r == CurrentPasswordWrong <==> MentionsOldPassword(message)
    ensures r.Toast? ==> r.message == message
  {
    if MentionsOldPassword(message) then CurrentPasswordWrong else Toast(message)
  }

  /** A failure without a server message is a toast with the fallback text. */
  lemma FallbackIsToast()
    ensures Classify(ErrorMessage(None)) == Toast(Fallback)
  {
    var lower := Text.ToLower(Fallback);
    assert 'c' !in lower by {
      forall i | 0 <= i < |lower| ensures lower[i] != 'c' {
        assert Fallback[i] != 'c' && Fallback[i] != 'C';
      }
    }
    assert '\U{0169}' !in lower by {
      forall i | 0 <= i < |lower| ensures lower[i] != '\U{0169}' {
        assert Fallback[i] != '\U{0169}';
      }
    }
    if Text.Contains(lower, CurrentPasswordKeyword) {
      Text.ContainsChar(lower, CurrentPasswordKeyword, 'c');
    }
    if Text.Contains(lower, OldPasswordKeyword) {
      Text.ContainsChar(lower, OldPasswordKeyword, '\U{0169}');
    }
    if Text.Contains(lower, IncorrectKeyword) {
      Text.ContainsChar(lower, IncorrectKeyword, 'c');
    }
  }

  /** A server message containing "Incorrect" in any ASCII case is shown under the current-password field. */
  lemma IncorrectIsFieldError(before: string, after: string)
    ensures Classify(before + "Incorrect" + after) == CurrentPasswordWrong
  {
    var message := before + "Incorrect" + after;
    var lower := Text.ToLower(message);
    assert lower == Text.ToLower(before) + IncorrectKeyword + Text.ToLower(after);
    Text.ContainsInfix(Text.ToLower(before), IncorrectKeyword, Text.ToLower(after));
  }

  /**
   * The success path: store logout, then the three session keys are removed
   * once more. The explicit removals change nothing the store logout has not
   * already done.
   */
  function AfterSuccess(s: AuthStore.Session): (r: AuthStore.Session)
    ensures r == AuthStore.Logout(s)
    ensures !r.auth.isAuthenticated && r.auth.token.None?
    ensures forall k :: k in Storage.SessionKeys ==> Storage.GetItem(r.storage, k).None?
  {
    var loggedOut := AuthStore.Logout(s);
    var storage := Storage.RemoveItem(Storage.RemoveItem(Storage.RemoveItem(loggedOut.storage,
                     Storage.AuthTokenKey), Storage.CurrentUserKey), Storage.AuthStorageKey);
    assert storage == loggedOut.storage;
    loggedOut.(storage := storage)
  }
}
