/** The sign-in screen. A press of the sign-in button is split in two: the
    press itself (the form check, then the spinner) and the settling of the
    service call it started. */
module SignInPage {
  import opened Common
  import opened AuthService

  const FillAllFields := "Please fill in all fields"
  const SignedInText := "Signed in successfully"
  const InvalidCredentials := "Invalid credentials"

  /** The account type the home screen is opened with: the stored one when
      the user document has a non-empty one, else "listener". */
  function AccountTypeAfterSignIn(userData: Option<UserData>): (t: string)
    ensures userData.Some? && Truthy(userData.value.accountType) ==> t == userData.value.accountType.value
    ensures !(userData.Some? && Truthy(userData.value.accountType)) ==> t == "listener"
  {
    OrElse(if userData.Some? then userData.value.accountType else None, "listener")
  }

  /** The text of the error snackbar: the error's message, or a fallback
      when it has none. */
  function SignInErrorText(e: JsError): (text: string)
    ensures Truthy(e.message) ==> text == e.message.value
    ensures !Truthy(e.message) ==> text == InvalidCredentials
  {
    OrElse(e.message, InvalidCredentials)
  }

  /** The fallback is never shown: the service always throws an error whose
      message is the friendly message of what it caught. */
  lemma SignInFailureShowsFriendlyMessage(email: string, password: string, auth: Result<string, JsError>, fetch: DocFetch)
    ensures var r := SignIn(email, password, auth, fetch);
      r.Failure? ==>
        && SignInErrorText(r.error) == FriendlyError(if auth.Failure? then auth.error else fetch.error)
        && SignInErrorText(r.error) != InvalidCredentials
  {
  }

  /** The label of the sign-in button: it shows progress exactly while
      loading. */
  function ButtonLabel(loading: bool): (r: string)
    ensures r != ""
    ensures r == "Signing In..." <==> loading
  {
    if loading then "Signing In..." else "Sign In"
  }

  class SignInScreen {
    var email: string
    var password: string
    var loading: bool
    /** The last message shown by the snackbar. */
    var snack: Option<Snack>
    /** The navigation scheduled by the screen, if any. */
    var navigation: Option<Navigation>

    constructor ()
      ensures email == "" && password == "" && !loading && snack == None && navigation == None
    {
      email := "";
      password := "";
      loading := false;
      snack := None;
      navigation := None;
    }

    /** Pressing the button, which is disabled while loading: an incomplete
        form only shows an error; otherwise the spinner starts and the
        service call is made. */
    method Press() returns (started: bool)
      requires !loading
      modifies this`loading, this`snack
      ensures started <==> email != "" && password != ""
      ensures started ==> loading && snack == old(snack)
      ensures !started ==> !loading && snack == Some(Snack(FillAllFields, ErrorSnack))
    {
      if email == "" || password == "" {
        snack := Some(Snack(FillAllFields, ErrorSnack));
        return false;
      }
      loading := true;
      started := true;
    }

    /** The service call settles: on success say so and open the home screen
        after 800 ms with the user's account type; on failure show the
        error. The spinner stops either way. */
    method Settle(auth: Result<string, JsError>, fetch: DocFetch)
      requires loading
      modifies this`loading, this`snack, this`navigation
      ensures !loading
      ensures var r := SignIn(email, password, auth, fetch);
        if r.Success? then
          && snack == Some(Snack(SignedInText, SuccessSnack))
          && navigation == Some(Push("/home", Some(AccountTypeAfterSignIn(r.value.userData)), 800))
        else
          && snack == Some(Snack(SignInErrorText(r.error), ErrorSnack))
          && navigation == old(navigation)
    {
      var r := SignIn(email, password, auth, fetch);
      if r.Success? {
        snack := Some(Snack(SignedInText, SuccessSnack));
        navigation := Some(Push("/home", Some(AccountTypeAfterSignIn(r.value.userData)), 800));
      } else {
        snack := Some(Snack(SignInErrorText(r.error), ErrorSnack));
      }
      loading := false;
    }
  }
}
