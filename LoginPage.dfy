/** The login page (src/pages/LoginPage.tsx). */
module LoginPage {
  import opened Wrappers
  import opened FirebaseErrors

  const LoginFailedMessage := "Failed to log in. Please try again."
  const GoogleFailedMessage := "Failed to sign in with Google. Please try again."
  const HomePath := "/"

  /** The arguments of the `login(email, password)` call. */
  datatype LoginCall = LoginCall(email: string, password: string)

  /** The page's own switch over `err.code` for a failed email login. */
  function EmailLoginMessage(code: Option<string>): (m: string)
    ensures m == InvalidCredentials <==> code.Some? && code.value in CredentialCodes
    ensures m == InvalidEmail <==> code == Some("auth/invalid-email")
    ensures m == LoginFailedMessage <==> !(code.Some? && (code.value in CredentialCodes || code.value == "auth/invalid-email"))
  {
    if code.None? then LoginFailedMessage
    else match code.value
      case "auth/user-not-found" => InvalidCredentials
      case "auth/wrong-password" => InvalidCredentials
      case "auth/invalid-credential" => InvalidCredentials
      case "auth/invalid-email" => InvalidEmail
      case _ => LoginFailedMessage
  }

  /** The error a failed Google sign-in leaves: none when the user closed the popup. */
  function GoogleLoginMessage(code: Option<string>): (m: Option<string>)
    ensures m.None? <==> code == Some("auth/popup-closed-by-user")
    ensures m.Some? ==> m.value == GoogleFailedMessage
  {
    if code != Some("auth/popup-closed-by-user") then Some(GoogleFailedMessage) else None
  }

  /** The page's credential and email-format messages are the shared ones, but
      its fallback differs from the shared map's for every other code. */
  lemma EmailLoginAgreesWithSharedMap(code: string)
    ensures code in CredentialCodes || code == "auth/invalid-email" ==>
      EmailLoginMessage(Some(code)) == MapAuthCodeToMessage(code)
    ensures !(code in CredentialCodes || code == "auth/invalid-email") ==>
      EmailLoginMessage(Some(code)) == LoginFailedMessage != MapAuthCodeToMessage(code)
  {
  }

  /** The page's state cells and the navigations it has requested. */
  class LoginPageState {
    var email: string
    var password: string
    var error: Option<string>
    var loading: bool
    var navigations: seq<string>

    constructor ()
      ensures email == "" && password == "" && error.None? && !loading && navigations == []
    {
      email, password := "", "";
      error := None;
      loading := false;
      navigations := [];
    }

    /** Both handlers up to their `await`: clear the error, start loading. */
    method BeginAttempt()
      modifies this`error, this`loading
      ensures error.None? && loading
    {
      error := None;
      loading := true;
    }

    /** `handleEmailLogin` up to its `await`: `login` is called with the typed
        email and password. */
    method BeginEmailLogin() returns (call: LoginCall)
      modifies this`error, this`loading
      ensures error.None? && loading
      ensures call == LoginCall(email, password)
    {
      BeginAttempt();
      call := LoginCall(email, password);
    }

    /** `handleEmailLogin` after its `await`: success navigates home once,
        failure shows the message for the code and stays; loading ends. */
    method SettleEmailLogin(outcome: Outcome<()>)
      modifies this`error, this`loading, this`navigations
      ensures !loading
      ensures outcome.Resolved? ==> navigations == old(navigations) + [HomePath] && error == old(error)
      ensures outcome.Rejected? ==> navigations == old(navigations) && error == Some(EmailLoginMessage(outcome.code))
    {
      if outcome.Resolved? {
        navigations := navigations + [HomePath];
      } else {
        error := Some(EmailLoginMessage(outcome.code));
      }
      loading := false;
    }

    /** A whole `handleEmailLogin`, the awaited `login` settling with `outcome`. */
    method HandleEmailLogin(outcome: Outcome<()>) returns (call: LoginCall)
      modifies this`error, this`loading, this`navigations
      ensures call == LoginCall(email, password)
      ensures !loading
      ensures outcome.Resolved? ==> navigations == old(navigations) + [HomePath] && error.None?
      ensures outcome.Rejected? ==> navigations == old(navigations) && error == Some(EmailLoginMessage(outcome.code))
    {
      call := BeginEmailLogin();
      SettleEmailLogin(outcome);
    }

    /** `handleGoogleLogin` after its `await`. */
    method SettleGoogleLogin(outcome: Outcome<()>)
      modifies this`error, this`loading, this`navigations
      ensures !loading
      ensures outcome.Resolved? ==> navigations == old(navigations) + [HomePath] && error == old(error)
      ensures outcome.Rejected? ==> navigations == old(navigations)
      ensures outcome.Rejected? && GoogleLoginMessage(outcome.code).None? ==> error == old(error)
      ensures outcome.Rejected? && GoogleLoginMessage(outcome.code).Some? ==> error == GoogleLoginMessage(outcome.code)
    {
      if outcome.Resolved? {
        navigations := navigations + [HomePath];
      } else if outcome.code != Some("auth/popup-closed-by-user") {
        error := Some(GoogleFailedMessage);
      }
      loading := false;
    }

    /** A whole `handleGoogleLogin`, the awaited `signInWithGoogle` settling
        with `outcome`: a closed popup ends with no error at all. */
    method HandleGoogleLogin(outcome: Outcome<()>)
      modifies this`error, this`loading, this`navigations
      ensures !loading
      ensures outcome.Resolved? ==> navigations == old(navigations) + [HomePath] && error.None?
      ensures outcome.Rejected? ==> navigations == old(navigations) && error == GoogleLoginMessage(outcome.code)
    {
      BeginAttempt();
      SettleGoogleLogin(outcome);
    }
  }
}
