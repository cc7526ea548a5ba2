/** The reset-password screen: how it establishes a session from the link's tokens, the
    order of its password checks, what a reset does afterwards, and which of its three
    screens it shows. Calls to the auth backend are parameters. */
module ResetPassword {
  import opened Wrappers
  import opened Text

  const FILL_BOTH: string := "Please fill in both password fields"
  const MISMATCH: string := "Passwords do not match"
  const TOO_SHORT: string := "Password must be at least 6 characters"
  const MIN_PASSWORD_LENGTH: nat := 6
  const INVALID_LINK: string := "Invalid or expired reset link. Please request a new one."
  const NO_TOKEN: string := "No reset token found. Please use the link from your email."
  const LINK_FAILED: string := "Failed to process reset link."
  const RESET_DONE: string := "Password reset successfully! Please log in with your new password."
  const WEB_ERROR_PREFIX: string := "Error resetting password: "
  const LOGIN_ROUTE: string := "/(auth)/login"

  // ---------------------------------------------------------------- the password checks

  /** `s.length`: JavaScript counts UTF-16 code units, two for a character outside the
      Basic Multilingual Plane. */
  function Utf16Length(s: string): (n: nat)
    ensures |s| <= n <= 2 * |s|
  {
    if s == [] then 0 else (if s[0] as int >= 0x10000 then 2 else 1) + Utf16Length(s[1..])
  }

  /** Within the Basic Multilingual Plane the length is the number of characters. */
  lemma {:induction false} Utf16LengthOfBmp(s: string)
    requires forall i :: 0 <= i < |s| ==> s[i] as int < 0x10000
    ensures Utf16Length(s) == |s|
  {
    if s != [] {
      Utf16LengthOfBmp(s[1..]);
    }
  }

  /** The message of the first check of `handleResetPassword` that fails, if any. */
  function PasswordCheck(newPassword: string, confirmPassword: string): Option<string>
  {
    if newPassword == "" || confirmPassword == "" then Some(FILL_BOTH)
    else if newPassword != confirmPassword then Some(MISMATCH)
    else if Utf16Length(newPassword) < MIN_PASSWORD_LENGTH then Some(TOO_SHORT)
    else None
  }

  /** The checks pass exactly for two equal, non-empty entries of at least six code
      units; each failure has its own message, an empty field being reported before a
      mismatch and a mismatch before a short password; and the two fields play the same
      part. */
  lemma PasswordCheckMeaning(newPassword: string, confirmPassword: string)
    ensures PasswordCheck(newPassword, confirmPassword).None? <==>
      newPassword != "" && newPassword == confirmPassword && Utf16Length(newPassword) >= MIN_PASSWORD_LENGTH
    ensures PasswordCheck(newPassword, confirmPassword) == Some(FILL_BOTH) <==> newPassword == "" || confirmPassword == ""
    ensures PasswordCheck(newPassword, confirmPassword) == Some(MISMATCH) <==>
      newPassword != "" && confirmPassword != "" && newPassword != confirmPassword
    ensures PasswordCheck(newPassword, confirmPassword) == PasswordCheck(confirmPassword, newPassword)
  {
    assert |FILL_BOTH| == 35 && |MISMATCH| == 22 && |TOO_SHORT| == 38;
  }

  // ---------------------------------------------------------------- alerts and effects

  /** `alert(message)` on the web, `Alert.alert(title, message)` on a device. */
  datatype Alert = Alert(title: Option<string>, message: string)

  function ErrorAlert(platform: Platform, message: string): Alert
  {
    if platform == Web then Alert(None, message) else Alert(Some("Error"), message)
  }

  /** What a reset did, in order. */
  datatype Effect = UpdatePassword(password: string) | SignOut | Show(alert: Alert) | Navigate(route: string)

  /** The effects of `handleResetPassword` given the backend's answer to `updateUser`:
      a failed check only alerts; otherwise the password is updated, and then either the
      error is shown or the user is signed out, told, and sent to the login screen. */
  function ResetEffects(platform: Platform, newPassword: string, confirmPassword: string,
                        updateError: Option<string>): seq<Effect>
  {
    var check := PasswordCheck(newPassword, confirmPassword);
    if check.Some? then [Show(ErrorAlert(platform, check.value))]
    else if updateError.Some? then
      [UpdatePassword(newPassword),
       Show(if platform == Web then Alert(None, WEB_ERROR_PREFIX + updateError.value) else Alert(Some("Error"), updateError.value))]
    else
      [UpdatePassword(newPassword), SignOut,
       Show(Alert(if platform == Web then None else Some("Success"), RESET_DONE)), Navigate(LOGIN_ROUTE)]
  }

  /** The password is sent only when every check passes, and it is the entered password;
      a sign-out, and the move to the login screen after it, happen only after an update that
      succeeded. */
  lemma ResetEffectsMeaning(platform: Platform, newPassword: string, confirmPassword: string, updateError: Option<string>)
    ensures var e := ResetEffects(platform, newPassword, confirmPassword, updateError);
      (exists p :: UpdatePassword(p) in e) <==> PasswordCheck(newPassword, confirmPassword).None?
    ensures var e := ResetEffects(platform, newPassword, confirmPassword, updateError);
      forall p :: UpdatePassword(p) in e ==> p == newPassword && p == confirmPassword && e[0] == UpdatePassword(p)
    ensures var e := ResetEffects(platform, newPassword, confirmPassword, updateError);
      (SignOut in e <==> Navigate(LOGIN_ROUTE) in e) &&
      (SignOut in e <==> PasswordCheck(newPassword, confirmPassword).None? && updateError.None?)
    ensures var e := ResetEffects(platform, newPassword, confirmPassword, updateError);
      SignOut in e ==> e[1] == SignOut && e[|e| - 1] == Navigate(LOGIN_ROUTE)
  {
    var e := ResetEffects(platform, newPassword, confirmPassword, updateError);
    PasswordCheckMeaning(newPassword, confirmPassword);
    if PasswordCheck(newPassword, confirmPassword).None? {
      assert e[0] == UpdatePassword(newPassword);
    }
  }

  // ---------------------------------------------------------------- the reset link

  /** The answer of a backend call, or the exception it threw. */
  datatype Outcome<T> = Returned(value: T) | Threw

  datatype LinkResult = SessionReady | LinkError(message: string)

  /** `handleTokens`: both tokens set the session, whose error means an invalid link;
      without them an existing session will do. Any exception fails the link. */
  function LinkOutcome(accessToken: Option<string>, refreshToken: Option<string>,
                       setSession: Outcome<Option<string>>, getSession: Outcome<bool>): LinkResult
  {
    if Truthy(accessToken) && Truthy(refreshToken) then
      match setSession
      case Threw => LinkError(LINK_FAILED)
      case Returned(error) => if error.Some? then LinkError(INVALID_LINK) else SessionReady
    else
      match getSession
      case Threw => LinkError(LINK_FAILED)
      case Returned(hasSession) => if hasSession then SessionReady else LinkError(NO_TOKEN)
  }

  /** With both tokens only `setSession` decides and an earlier session does not matter;
      without them only the existing session decides. Each failure has its own message. */
  lemma LinkOutcomeMeaning(accessToken: Option<string>, refreshToken: Option<string>,
                           setSession: Outcome<Option<string>>, getSession: Outcome<bool>)
    ensures Truthy(accessToken) && Truthy(refreshToken) ==>
      (LinkOutcome(accessToken, refreshToken, setSession, getSession) == SessionReady <==> setSession == Returned(None)) &&
      (forall other :: LinkOutcome(accessToken, refreshToken, setSession, other) ==
                       LinkOutcome(accessToken, refreshToken, setSession, getSession))
    ensures !(Truthy(accessToken) && Truthy(refreshToken)) ==>
      (LinkOutcome(accessToken, refreshToken, setSession, getSession) == SessionReady <==> getSession == Returned(true)) &&
      LinkOutcome(accessToken, refreshToken, setSession, getSession) != LinkError(INVALID_LINK)
    ensures LinkOutcome(accessToken, refreshToken, setSession, getSession) == LinkError(LINK_FAILED) <==>
      (if Truthy(accessToken) && Truthy(refreshToken) then setSession.Threw? else getSession.Threw?)
  {
    assert |INVALID_LINK| == 56 && |LINK_FAILED| == 29 && |NO_TOKEN| == 58;
  }

  // ---------------------------------------------------------------- rendering

  datatype Screen = ErrorScreen(message: string) | Verifying | PasswordForm

  /** The error screen comes first, then the verifying screen until a session is set,
      then the form. */
  function ScreenFor(error: Option<string>, isSessionSet: bool): (s: Screen)
    ensures Truthy(error) ==> s == ErrorScreen(error.value)
    ensures !Truthy(error) ==> (s == Verifying <==> !isSessionSet) && (s == PasswordForm <==> isSessionSet)
  {
    if Truthy(error) then ErrorScreen(error.value)
    else if !isSessionSet then Verifying
    else PasswordForm
  }

  class ResetPasswordScreen {
    var newPassword: string
    var confirmPassword: string
    var isLoading: bool
    var isSessionSet: bool
    var error: Option<string>

    constructor ()
      ensures newPassword == "" && confirmPassword == "" && !isLoading && !isSessionSet && error.None?
      ensures ScreenFor(error, isSessionSet) == Verifying
    {
      newPassword := "";
      confirmPassword := "";
      isLoading := false;
      isSessionSet := false;
      error := None;
    }

    /** `handleTokens`, run once when the screen opens: returns the tokens passed to
        `setSession`, if it was called, and whether the existing session was asked for. */
    method HandleTokens(accessToken: Option<string>, refreshToken: Option<string>,
                        setSession: Outcome<Option<string>>, getSession: Outcome<bool>)
      returns (sessionTokens: Option<(string, string)>, askedForSession: bool)
      modifies this
      ensures var r := LinkOutcome(accessToken, refreshToken, setSession, getSession);
        (r == SessionReady ==> isSessionSet && error == old(error)) &&
        (r.LinkError? ==> error == Some(r.message) && isSessionSet == old(isSessionSet))
      ensures old(error).None? && !old(isSessionSet) ==>
        ScreenFor(error, isSessionSet) ==
          match LinkOutcome(accessToken, refreshToken, setSession, getSession)
          case SessionReady => PasswordForm
          case LinkError(message) => ErrorScreen(message)
      ensures sessionTokens.Some? <==> Truthy(accessToken) && Truthy(refreshToken)
      ensures sessionTokens.Some? ==> sessionTokens.value == (accessToken.value, refreshToken.value)
      ensures askedForSession <==> !(Truthy(accessToken) && Truthy(refreshToken))
      ensures newPassword == old(newPassword) && confirmPassword == old(confirmPassword) && isLoading == old(isLoading)
    {
      sessionTokens, askedForSession := None, false;
      if Truthy(accessToken) && Truthy(refreshToken) {
        sessionTokens := Some((accessToken.value, refreshToken.value));
        if setSession.Threw? {
          error := Some(LINK_FAILED);
          return;
        }
        if setSession.value.Some? {
          error := Some(INVALID_LINK);
          return;
        }
        isSessionSet := true;
      } else {
        askedForSession := true;
        if getSession.Threw? {
          error := Some(LINK_FAILED);
          return;
        }
        if getSession.value {
          isSessionSet := true;
        } else {
          error := Some(NO_TOKEN);
        }
      }
    }

    /** `handleResetPassword`: the checks in order, then the update and what follows it. */
    method HandleResetPassword(platform: Platform, updateError: Option<string>) returns (effects: seq<Effect>)
      modifies this
      ensures effects == ResetEffects(platform, newPassword, confirmPassword, updateError)
      ensures PasswordCheck(newPassword, confirmPassword).Some? ==> isLoading == old(isLoading)
      ensures PasswordCheck(newPassword, confirmPassword).None? ==> !isLoading
      ensures newPassword == old(newPassword) && confirmPassword == old(confirmPassword)
      ensures isSessionSet == old(isSessionSet) && error == old(error)
    {
      if newPassword == "" || confirmPassword == "" {
        return [Show(ErrorAlert(platform, FILL_BOTH))];
      }
      if newPassword != confirmPassword {
        return [Show(ErrorAlert(platform, MISMATCH))];
      }
      if Utf16Length(newPassword) < MIN_PASSWORD_LENGTH {
        return [Show(ErrorAlert(platform, TOO_SHORT))];
      }
      isLoading := true;
      effects := [UpdatePassword(newPassword)];
      isLoading := false;
      if updateError.Some? {
        var shown := if platform == Web then Alert(None, WEB_ERROR_PREFIX + updateError.value)
                     else Alert(Some("Error"), updateError.value);
        effects := effects + [Show(shown)];
      } else {
        effects := effects + [SignOut];
        effects := effects + [Show(Alert(if platform == Web then None else Some("Success"), RESET_DONE))];
        effects := effects + [Navigate(LOGIN_ROUTE)];
      }
    }
  }
}
