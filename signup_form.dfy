/**
 * The reusable sign-up form: the same checks and messages as the sign-up screen, then a
 * request to the backend; a confirmed success clears the form, a failure shows its message.
 */
module SignupForm {
  import opened Wrappers
  import Text
  import SignupScreen
  import AuthRoutes

  /** The body the form posts to `/signup`. */
  datatype SignupRequest = SignupRequest(username: string, password: string, userClass: string)

  /** How the request ends: the reply's message, or the thrown error's message when it has one. */
  datatype SignupReply = Succeeded(message: string) | Failed(errorMessage: Option<string>)

  const SignupFailed := "Signup failed"

  /** Every request the form sends gets past the backend's field check. */
  lemma RequestHasAllFields(r: SignupRequest)
    requires SignupScreen.ValidateSignup(r.username, r.password, r.password, r.userClass).None?
    ensures AuthRoutes.Given(Some(r.username)) && AuthRoutes.Given(Some(r.password)) && AuthRoutes.Given(Some(r.userClass))
  {
  }

  /** The form's state. */
  class Form {
    var username: string
    var password: string
    var confirmPassword: string
    var userClass: string
    var error: string
    var loading: bool

    constructor ()
      ensures username == "" && password == "" && confirmPassword == "" && userClass == ""
      ensures error == "" && !loading
    {
      username, password, confirmPassword, userClass := "", "", "", "";
      error, loading := "", false;
    }

    /**
     * `handleSignup()` up to the request: the error is cleared, a failing check sets its
     * message and sends nothing; otherwise loading is switched on and the request is built.
     */
    method HandleSignup() returns (request: Option<SignupRequest>)
      modifies this
      ensures username == old(username) && password == old(password)
      ensures confirmPassword == old(confirmPassword) && userClass == old(userClass)
      ensures var v := SignupScreen.ValidateSignup(username, password, confirmPassword, userClass);
        && (request.Some? <==> v.None?)
        && error == v.GetOr("")
        && loading == (v.None? || old(loading))
      ensures request.Some? ==> request.value == SignupRequest(username, password, userClass)
      ensures request.Some? ==> SignupScreen.ValidateSignup(request.value.username, request.value.password, request.value.password, request.value.userClass).None?
    {
      error := "";
      if username == "" || password == "" || confirmPassword == "" || userClass == "" {
        error := SignupScreen.FillInAllFields;
        return None;
      }
      if password != confirmPassword {
        error := SignupScreen.PasswordsDoNotMatch;
        return None;
      }
      if Text.Utf16Length(password) < SignupScreen.MinPasswordLength {
        error := SignupScreen.PasswordTooShort;
        return None;
      }
      loading := true;
      return Some(SignupRequest(username, password, userClass));
    }

    /**
     * The end of the request: on success (once the alert is confirmed) the four fields are
     * cleared; on failure the error shows the thrown message or "Signup failed". Loading is
     * switched off either way.
     */
    method ReceiveReply(reply: SignupReply) returns (alert: Option<string>)
      modifies this
      ensures !loading
      ensures reply.Succeeded? ==> alert == Some(reply.message) && error == old(error)
      ensures reply.Succeeded? ==> username == "" && password == "" && confirmPassword == "" && userClass == ""
      ensures reply.Failed? ==> alert.None? && error == reply.errorMessage.GetOr(SignupFailed)
      ensures reply.Failed? ==> username == old(username) && password == old(password)
      ensures reply.Failed? ==> confirmPassword == old(confirmPassword) && userClass == old(userClass)
    {
      match reply {
        case Succeeded(message) =>
          alert := Some(message);
          username, password, confirmPassword, userClass := "", "", "", "";
        case Failed(errorMessage) =>
          alert := None;
          error := errorMessage.GetOr(SignupFailed);
      }
      loading := false;
    }
  }
}
