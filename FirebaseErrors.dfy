/** Firebase Authentication error codes and the messages shown for them
    (src/utils/firebaseErrors.ts). */
module FirebaseErrors {
  import opened Wrappers

  const InvalidCredentials := "Invalid email or password."
  const InvalidEmail := "Invalid email address format."
  const UserDisabled := "This user account has been disabled."
  const EmailInUse := "This email address is already registered."
  const WeakPassword := "Password is too weak (should be at least 6 characters)."
  const PopupClosed := "Sign-in process cancelled."
  const PopupBlocked := "Popup blocked. Please enable popups for this site and try again."
  const AccountExists := "An account already exists with this email address using a different sign-in method."
  const NetworkFailed := "Network error. Please check your connection and try again."
  const TooManyRequests := "Access temporarily disabled due to too many requests. Please try again later."
  const UnexpectedError := "An unexpected error occurred. Please try again."

  /** The codes of the first case group: a wrong email or password. */
  const CredentialCodes: set<string> := {"auth/user-not-found", "auth/wrong-password", "auth/invalid-credential"}

  /** The message each case group of the switch returns, in source order. */
  const GroupMessages: seq<string> := [
    InvalidCredentials, InvalidEmail, UserDisabled, EmailInUse, WeakPassword,
    PopupClosed, PopupBlocked, AccountExists, NetworkFailed, TooManyRequests
  ]

  /** The thirteen codes the switch names. */
  const RecognisedCodes: set<string> := {
    "auth/user-not-found", "auth/wrong-password", "auth/invalid-credential",
    "auth/invalid-email", "auth/user-disabled", "auth/email-already-in-use",
    "auth/weak-password", "auth/popup-closed-by-user", "auth/cancelled-popup-request",
    "auth/popup-blocked", "auth/account-exists-with-different-credential",
    "auth/network-request-failed", "auth/too-many-requests"
  }

  /** `mapAuthCodeToMessage(errorCode)`: every code gets a message to show, and
      the generic one is given exactly to the codes the switch does not name. */
  function MapAuthCodeToMessage(errorCode: string): (m: string)
    ensures m != ""
    ensures m == UnexpectedError <==> errorCode !in RecognisedCodes
  {
    match errorCode
    case "auth/user-not-found" => InvalidCredentials
    case "auth/wrong-password" => InvalidCredentials
    case "auth/invalid-credential" => InvalidCredentials
    case "auth/invalid-email" => InvalidEmail
    case "auth/user-disabled" => UserDisabled
    case "auth/email-already-in-use" => EmailInUse
    case "auth/weak-password" => WeakPassword
    case "auth/popup-closed-by-user" => PopupClosed
    case "auth/cancelled-popup-request" => PopupBlocked
    case "auth/popup-blocked" => PopupBlocked
    case "auth/account-exists-with-different-credential" => AccountExists
    case "auth/network-request-failed" => NetworkFailed
    case "auth/too-many-requests" => TooManyRequests
    case _ => UnexpectedError
  }

  /** The case group a code falls into, counting the groups of the switch
      from 0 in source order; `None` for a code the switch does not name. */
  function GroupOf(code: string): (g: Option<nat>)
    ensures g.Some? <==> code in RecognisedCodes
    ensures g.Some? ==> g.value < |GroupMessages|
  {
    match code
    case "auth/user-not-found" => Some(0)
    case "auth/wrong-password" => Some(0)
    case "auth/invalid-credential" => Some(0)
    case "auth/invalid-email" => Some(1)
    case "auth/user-disabled" => Some(2)
    case "auth/email-already-in-use" => Some(3)
    case "auth/weak-password" => Some(4)
    case "auth/popup-closed-by-user" => Some(5)
    case "auth/cancelled-popup-request" => Some(6)
    case "auth/popup-blocked" => Some(6)
    case "auth/account-exists-with-different-credential" => Some(7)
    case "auth/network-request-failed" => Some(8)
    case "auth/too-many-requests" => Some(9)
    case _ => None
  }

  /** The switch returns its group's message, and the fallback outside every group. */
  lemma MessageIsGroupMessage(code: string)
    ensures GroupOf(code).Some? ==> MapAuthCodeToMessage(code) == GroupMessages[GroupOf(code).value]
    ensures GroupOf(code).None? ==> MapAuthCodeToMessage(code) == UnexpectedError
  {
    match code
    case "auth/user-not-found" =>
    case "auth/wrong-password" =>
    case "auth/invalid-credential" =>
    case "auth/invalid-email" =>
    case "auth/user-disabled" =>
    case "auth/email-already-in-use" =>
    case "auth/weak-password" =>
    case "auth/popup-closed-by-user" =>
    case "auth/cancelled-popup-request" =>
    case "auth/popup-blocked" =>
    case "auth/account-exists-with-different-credential" =>
    case "auth/network-request-failed" =>
    case "auth/too-many-requests" =>
    case _ =>
  }

  /** No two case groups return the same message, and none returns the fallback. */
  lemma GroupMessagesDistinct()
    ensures forall g, h :: 0 <= g < h < |GroupMessages| ==> GroupMessages[g] != GroupMessages[h]
    ensures forall g :: 0 <= g < |GroupMessages| ==> GroupMessages[g] != UnexpectedError
  {
  }

  /** Two codes share a message exactly when they share a case group; all
      unlisted codes share the "no group" of the fallback. */
  lemma SameMessageIffSameGroup(c1: string, c2: string)
    ensures MapAuthCodeToMessage(c1) == MapAuthCodeToMessage(c2) <==> GroupOf(c1) == GroupOf(c2)
  {
    MessageIsGroupMessage(c1);
    MessageIsGroupMessage(c2);
    GroupMessagesDistinct();
    if c1 in RecognisedCodes && c2 in RecognisedCodes {
      var g1, g2 := GroupOf(c1).value, GroupOf(c2).value;
      if g1 != g2 {
        if g1 < g2 { assert GroupMessages[g1] != GroupMessages[g2]; }
        else { assert GroupMessages[g2] != GroupMessages[g1]; }
      }
    } else if c1 in RecognisedCodes {
      assert GroupMessages[GroupOf(c1).value] != UnexpectedError;
    } else if c2 in RecognisedCodes {
      assert GroupMessages[GroupOf(c2).value] != UnexpectedError;
    }
  }

  /** The three bad-credential codes are indistinguishable to the user. */
  lemma CredentialCodesShareMessage(code: string)
    ensures code in CredentialCodes <==> MapAuthCodeToMessage(code) == InvalidCredentials
  {
  }

  /** A blocked or superseded popup reads the same; a popup the user closed does not. */
  lemma PopupMessages()
    ensures MapAuthCodeToMessage("auth/cancelled-popup-request") == MapAuthCodeToMessage("auth/popup-blocked") == PopupBlocked
    ensures MapAuthCodeToMessage("auth/popup-closed-by-user") == PopupClosed != PopupBlocked
  {
  }
}
