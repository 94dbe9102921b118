/**
 * The sign-up screen: four fields checked in a fixed order, the first failing check's
 * message shown, and the (simulated) sign-up started only when every check passes.
 */
module SignupScreen {
  import opened Wrappers
  import Text

  const FillInAllFields := "Please fill in all fields."
  const PasswordsDoNotMatch := "Passwords do not match."
  const PasswordTooShort := "Password must be at least 6 characters long."

  /** The shortest password accepted, in UTF-16 code units (JavaScript's `length`). */
  const MinPasswordLength := 6

  /** The validation chain: the message of the first failing check, or `None` when all pass. */
  function ValidateSignup(username: string, password: string, confirmPassword: string, userClass: string): (r: Option<string>)
    ensures r == Some(FillInAllFields) <==> username == "" || password == "" || confirmPassword == "" || userClass == ""
    ensures r == Some(PasswordsDoNotMatch) <==>
      username != "" && password != "" && confirmPassword != "" && userClass != "" && password != confirmPassword
    ensures r == Some(PasswordTooShort) <==>
      username != "" && password != "" && userClass != "" && password == confirmPassword
      && Text.Utf16Length(password) < MinPasswordLength
    ensures r.None? <==>
      username != "" && userClass != "" && password == confirmPassword && Text.Utf16Length(password) >= MinPasswordLength
  {
    if username == "" || password == "" || confirmPassword == "" || userClass == "" then Some(FillInAllFields)
    else if password != confirmPassword then Some(PasswordsDoNotMatch)
    else if Text.Utf16Length(password) < MinPasswordLength then Some(PasswordTooShort)
    else None
  }

  /**
   * The boundary: six characters pass and five fail; three emoji pass as well, because each
   * counts as two code units.
   */
  lemma PasswordLengthBoundary()
    ensures ValidateSignup("hero", "abcdef", "abcdef", "mage").None?
    ensures ValidateSignup("hero", "abcde", "abcde", "mage") == Some(PasswordTooShort)
    ensures ValidateSignup("hero", "\U{1F5E1}\U{1F5E1}\U{1F5E1}", "\U{1F5E1}\U{1F5E1}\U{1F5E1}", "rogue").None?
  {
    assert Text.Utf16Length("abcdef") == 6;
    assert Text.Utf16Length("abcde") == 5;
    assert Text.Utf16Length("\U{1F5E1}\U{1F5E1}\U{1F5E1}") == 6;
  }

  /** The screen's state. */
  class SignupPage {
    var username: string
    var password: string
    var confirmPassword: string
    var userClass: string
    var error: string
    var loading: bool

    constructor ()
      ensures username == "" && password == "" && confirmPassword == "" && userClass == ""
      ensures error == "" && !loading
    {
      username, password, confirmPassword, userClass := "", "", "", "";
      error, loading := "", false;
    }

    /** The fields are only read. */
    predicate SameFields(u: string, p: string, c: string, k: string)
      reads this
    {
      username == u && password == p && confirmPassword == c && userClass == k
    }

    /**
     * `handleSignup()` up to the simulated request: the error is cleared, then set to the
     * first failing check's message; loading is switched on only when every check passes.
     */
    method HandleSignup() returns (started: bool)
      modifies this
      ensures SameFields(old(username), old(password), old(confirmPassword), old(userClass))
      ensures started <==> ValidateSignup(username, password, confirmPassword, userClass).None?
      ensures error == ValidateSignup(username, password, confirmPassword, userClass).GetOr("")
      ensures loading == (started || old(loading))
    {
      error := "";
      if username == "" || password == "" || confirmPassword == "" || userClass == "" {
        error := FillInAllFields;
        return false;
      }
      if password != confirmPassword {
        error := PasswordsDoNotMatch;
        return false;
      }
      if Text.Utf16Length(password) < MinPasswordLength {
        error := PasswordTooShort;
        return false;
      }
      loading := true;
      return true;
    }

    /** The end of the simulated request: loading switched off, nothing else touched. */
    method FinishSignup()
      modifies this
      ensures SameFields(old(username), old(password), old(confirmPassword), old(userClass))
      ensures error == old(error) && !loading
    {
      loading := false;
    }
  }
}
