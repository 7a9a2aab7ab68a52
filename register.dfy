/**
 * The sign-up page (src/pages/Register.tsx): the redirect of a signed-in
 * user, the two password checks in their order, and the submit handler's
 * error and `registering` state around the sign-up and profile insert,
 * whose results are inputs here.
 */
module Register {

  import opened Common

  const MismatchError := "Passwords do not match"
  const LengthError := "Password must be at least 6 characters"
  const FallbackError := "An error occurred during registration"
  const MinPasswordLength: nat := 6

  /** What the page renders: a redirect home, or the form. */
  datatype Screen = RedirectHome | SignUpForm

  /** A signed-in user is sent to '/' instead of seeing the form. */
  function RegisterScreen(user: Option<User>): (r: Screen)
    ensures r == RedirectHome <==> user.Some?
  {
    if user.Some? then RedirectHome else SignUpForm
  }

  /**
   * The checks before sign-up, in order: the confirmation must match, then
   * the password must have at least six characters. `None` lets the
   * submission through.
   */
  function PasswordCheck(password: string, confirmPassword: string): (r: Option<string>)
    ensures r.None? <==> password == confirmPassword && |password| >= MinPasswordLength
    ensures password != confirmPassword ==> r == Some(MismatchError)
    ensures password == confirmPassword && |password| < MinPasswordLength ==> r == Some(LengthError)
  {
    if password != confirmPassword then Some(MismatchError)
    else if |password| < MinPasswordLength then Some(LengthError)
    else None
  }

  /**
   * How the remote part of a submission ends: sign-up rejected, no user
   * returned, profile insert rejected, or the account and profile created.
   */
  datatype SignUpOutcome =
    | AuthRejected(message: string)
    | NoUserReturned
    | ProfileRejected(message: string)
    | Created

  /** `err.message || 'An error occurred during registration'`. */
  function ErrorText(message: string): (r: string)
    ensures r != []
    ensures message != [] ==> r == message
  {
    if message == [] then FallbackError else message
  }

  class RegisterPage {
    var error: string
    var registering: bool

    constructor ()
      ensures error == [] && !registering
    {
      error := "";
      registering := false;
    }

    /**
     * `handleSubmit`: clear the error; stop at the first failing password
     * check with its message; otherwise sign up (`attempted`), show the
     * error of a rejected step, and go to '/login' only once the profile is
     * created. `registering` is false again at the end.
     */
    method HandleSubmit(password: string, confirmPassword: string, outcome: SignUpOutcome)
      returns (attempted: bool, toLogin: bool)
      modifies this
      ensures attempted <==> PasswordCheck(password, confirmPassword).None?
      ensures !attempted ==> error == PasswordCheck(password, confirmPassword).value && registering == old(registering)
      ensures attempted ==> !registering
      ensures attempted && (outcome.AuthRejected? || outcome.ProfileRejected?) ==> error == ErrorText(outcome.message)
      ensures attempted && (outcome.NoUserReturned? || outcome.Created?) ==> error == []
      ensures toLogin <==> attempted && outcome.Created?
    {
      error := "";
      attempted := false;
      toLogin := false;
      if password != confirmPassword {
        error := MismatchError;
        return;
      }
      if |password| < MinPasswordLength {
        error := LengthError;
        return;
      }
      registering := true;
      attempted := true;
      match outcome {
        case AuthRejected(m) =>
          error := ErrorText(m);
        case NoUserReturned =>
        case ProfileRejected(m) =>
          error := ErrorText(m);
        case Created =>
          toLogin := true;
      }
      registering := false;
    }
  }
}
