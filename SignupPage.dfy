/** The signup page (src/pages/SignupPage.tsx). */
module SignupPage {
  import opened Wrappers
  import opened FirebaseErrors

  const MismatchMessage := "Passwords do not match."
  const SignupFailedMessage := "Failed to create an account. Please try again."
  const HomePath := "/"

  /** The arguments of the `signup(email, password)` call. */
  datatype SignupCall = SignupCall(email: string, password: string)

  /** The page's own switch over `err.code` for a failed signup. */
  function SignupMessage(code: Option<string>): (m: string)
    ensures m == EmailInUse <==> code == Some("auth/email-already-in-use")
    ensures m == InvalidEmail <==> code == Some("auth/invalid-email")
    ensures m == WeakPassword <==> code == Some("auth/weak-password")
    ensures m == SignupFailedMessage <==>
      !(code.Some? && code.value in {"auth/email-already-in-use", "auth/invalid-email", "auth/weak-password"})
  {
    if code.None? then SignupFailedMessage
    else match code.value
      case "auth/email-already-in-use" => EmailInUse
      case "auth/invalid-email" => InvalidEmail
      case "auth/weak-password" => WeakPassword
      case _ => SignupFailedMessage
  }

  /** The page's three specific messages are the shared ones; its fallback is
      its own and never what the shared map says. */
  lemma SignupAgreesWithSharedMap(code: string)
    ensures code in {"auth/email-already-in-use", "auth/invalid-email", "auth/weak-password"} ==>
      SignupMessage(Some(code)) == MapAuthCodeToMessage(code)
    ensures code !in {"auth/email-already-in-use", "auth/invalid-email", "auth/weak-password"} ==>
      SignupMessage(Some(code)) == SignupFailedMessage != MapAuthCodeToMessage(code)
  {
  }

  /** The page's state cells and the navigations it has requested. */
  class SignupPageState {
    var email: string
    var password: string
    var confirmPassword: string
    var error: Option<string>
    var loading: bool
    var navigations: seq<string>

    constructor ()
      ensures email == "" && password == "" && confirmPassword == ""
      ensures error.None? && !loading && navigations == []
    {
      email, password, confirmPassword := "", "", "";
      error := None;
      loading := false;
      navigations := [];
    }

    /** `handleSubmit` up to its `await`: the error is cleared; mismatched
        passwords stop there with their message and loading untouched;
        otherwise loading starts and `signup` is called. */
    method BeginSubmit() returns (call: Option<SignupCall>)
      modifies this`error, this`loading
      ensures password != confirmPassword ==>
        call.None? && error == Some(MismatchMessage) && loading == old(loading)
      ensures password == confirmPassword ==>
        call == Some(SignupCall(email, password)) && error.None? && loading
    {
      error := None;
      if password != confirmPassword {
        error := Some(MismatchMessage);
        return None;
      }
      loading := true;
      call := Some(SignupCall(email, password));
    }

    /** `handleSubmit` after its `await`. */
    method SettleSubmit(outcome: Outcome<()>)
      modifies this`error, this`loading, this`navigations
      ensures !loading
      ensures outcome.Resolved? ==> navigations == old(navigations) + [HomePath] && error == old(error)
      ensures outcome.Rejected? ==> navigations == old(navigations) && error == Some(SignupMessage(outcome.code))
    {
      if outcome.Resolved? {
        navigations := navigations + [HomePath];
      } else {
        error := Some(SignupMessage(outcome.code));
      }
      loading := false;
    }

    /** A whole `handleSubmit`, the awaited `signup` settling with `outcome`. */
    method HandleSubmit(outcome: Outcome<()>) returns (call: Option<SignupCall>)
      modifies this`error, this`loading, this`navigations
      ensures password != confirmPassword ==>
        && call.None? && error == Some(MismatchMessage)
        && loading == old(loading) && navigations == old(navigations)
      ensures password == confirmPassword ==> call == Some(SignupCall(email, password)) && !loading
      ensures password == confirmPassword && outcome.Resolved? ==>
        navigations == old(navigations) + [HomePath] && error.None?
      ensures password == confirmPassword && outcome.Rejected? ==>
        navigations == old(navigations) && error == Some(SignupMessage(outcome.code))
    {
      call := BeginSubmit();
      if call.Some? {
        SettleSubmit(outcome);
      }
    }
  }
}
