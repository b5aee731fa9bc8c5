/** The forgot-password screen: the two halves of a press of the send
    button, and the message shown when sending fails. */
module ForgotPasswordPage {
  import opened Common
  import opened AuthService

  const EnterEmail := "Please enter your email address"
  const SentText := "A password reset link has been sent to your email."
  const ResetFailed := "Failed to send reset email. Please try again."

  /** The error text, chosen by the caught error's exact code: the invalid
      e-mail and unknown user codes have their own text, any other error
      gets the default. */
  function ResetErrorText(e: JsError): (text: string)
    ensures e.code == Some("auth/invalid-email") ==> text == InvalidEmailMessage
    ensures e.code == Some("auth/user-not-found") ==> text == UserNotFoundMessage
    ensures e.code != Some("auth/invalid-email") && e.code != Some("auth/user-not-found") ==> text == ResetFailed
  {
    if e.code == Some("auth/invalid-email") then InvalidEmailMessage
    else if e.code == Some("auth/user-not-found") then UserNotFoundMessage
    else ResetFailed
  }

  /** The error the screen catches comes from `resetPassword`, which throws
      errors without a code, so every failure shows the default text, even
      for an unknown user or a malformed address. */
  lemma ResetFailureAlwaysDefault(email: string, send: Step)
    ensures var r := ResetPassword(email, send);
      r.Threw? ==> ResetErrorText(r.error) == ResetFailed
  {
  }

  /** The label of the reset button: it shows progress exactly while loading. */
  function ButtonLabel(loading: bool): (r: string)
    ensures r != ""
    ensures r == "Sending..." <==> loading
  {
    if loading then "Sending..." else "Send Reset Link"
  }

  class ForgotPasswordScreen {
    var email: string
    var loading: bool
    var snack: Option<Snack>
    var navigation: Option<Navigation>

    constructor ()
      ensures email == "" && !loading && snack == None && navigation == None
    {
      email := "";
      loading := false;
      snack := None;
      navigation := None;
    }

    /** Pressing the button, which is disabled while loading. */
    method Press() returns (started: bool)
      requires !loading
      modifies this`loading, this`snack
      ensures started <==> email != ""
      ensures started ==> loading && snack == old(snack)
      ensures !started ==> !loading && snack == Some(Snack(EnterEmail, ErrorSnack))
    {
      if email == "" {
        snack := Some(Snack(EnterEmail, ErrorSnack));
        return false;
      }
      loading := true;
      started := true;
    }

    /** The reset call settles: on success say so and go back to the
        sign-in screen after 1200 ms; on failure show the error text. */
    method Settle(send: Step)
      requires loading
      modifies this`loading, this`snack, this`navigation
      ensures !loading
      ensures var r := ResetPassword(email, send);
        if r.Done? then
          snack == Some(Snack(SentText, SuccessSnack)) && navigation == Some(Push("/signin", None, 1200))
        else
          snack == Some(Snack(ResetErrorText(r.error), ErrorSnack)) && navigation == old(navigation)
    {
      var r := ResetPassword(email, send);
      if r.Done? {
        snack := Some(Snack(SentText, SuccessSnack));
        navigation := Some(Push("/signin", None, 1200));
      } else {
        snack := Some(Snack(ResetErrorText(r.error), ErrorSnack));
      }
      loading := false;
    }
  }
}
