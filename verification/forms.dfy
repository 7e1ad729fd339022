/**
 * What the form schemas have in common: the issues a schema reports, one
 * per failed check and in check order, and the strong-password rule the
 * registration and password-reset forms share.
 */
module Forms {
  import Text

  /** The check that failed. */
  datatype Rule =
    | Required                 // a minimum length of 1
    | TooShort(min: nat)       // `.min(n)` with n > 1
    | TooLong(max: nat)        // `.max(n)`
    | Format                   // a library format check (`email()`, `url()`) or a union with none matching
    | NoUppercase              // `/[A-Z]/`
    | NoLowercase              // `/[a-z]/`
    | NoDigit                  // `/[0-9]/`
    | NoSpecial                // `/[^A-Za-z0-9]/`
    | NotWordChars             // `/^[a-zA-Z0-9_]+$/`
    | NotOneOf                 // `z.enum([...])`
    | Mismatch                 // an object-level `refine` comparing two fields

  /** One reported issue: the field it is shown under and the failed rule. */
  datatype Issue = Issue(field: string, rule: Rule)

  /** A check: no issue when it holds, `issue` otherwise. */
  function Check(holds: bool, issue: Issue): (r: seq<Issue>)
    ensures r == [] <==> holds
  {
    if holds then [] else [issue]
  }

  /** Issues collected from six checks are none exactly when each check reports none. */
  lemma NoneCollected(a: seq<Issue>, b: seq<Issue>, c: seq<Issue>, d: seq<Issue>, e: seq<Issue>, g: seq<Issue>)
    ensures a + b + c + d + e + g == [] <==> a == [] && b == [] && c == [] && d == [] && e == [] && g == []
  {
    assert |a + b + c + d + e + g| == |a| + |b| + |c| + |d| + |e| + |g|;
  }

  /** `/[A-Z]/.test(s)` and its siblings. */
  predicate HasUpper(s: string) { exists i :: 0 <= i < |s| && Text.IsAsciiUpper(s[i]) }
  predicate HasLower(s: string) { exists i :: 0 <= i < |s| && Text.IsAsciiLower(s[i]) }
  predicate HasDigit(s: string) { exists i :: 0 <= i < |s| && Text.IsAsciiDigit(s[i]) }
  predicate HasSpecial(s: string) { exists i :: 0 <= i < |s| && !Text.IsAsciiAlnum(s[i]) }

  /** At least 8 characters, with an uppercase letter, a lowercase letter, a digit and a non-alphanumeric character. */
  predicate StrongPassword(s: string) {
    Text.Utf16Length(s) >= 8 && HasUpper(s) && HasLower(s) && HasDigit(s) && HasSpecial(s)
  }

  /** The password checks of the registration and reset schemas, reported under `field`. */
  function PasswordIssues(field: string, s: string): (r: seq<Issue>)
    ensures r == [] <==> StrongPassword(s)
    ensures forall x :: x in r ==> x.field == field
  {
    Check(Text.Utf16Length(s) >= 8, Issue(field, TooShort(8)))
    + Check(HasUpper(s), Issue(field, NoUppercase))
    + Check(HasLower(s), Issue(field, NoLowercase))
    + Check(HasDigit(s), Issue(field, NoDigit))
    + Check(HasSpecial(s), Issue(field, NoSpecial))
  }

  /** A password missing only its special character reports exactly that one issue. */
  lemma MissingSpecialOnly(field: string, s: string)
    requires Text.Utf16Length(s) >= 8 && HasUpper(s) && HasLower(s) && HasDigit(s) && !HasSpecial(s)
    ensures PasswordIssues(field, s) == [Issue(field, NoSpecial)]
  {
  }

  /** The fields of `issues` that fail, with the rule each failed. */
  predicate Reports(issues: seq<Issue>, field: string, rule: Rule) {
    Issue(field, rule) in issues
  }
}
