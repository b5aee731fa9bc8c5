/** The sign-up screen: the account type choice and the two halves of a
    press of the sign-up button. */
module SignUpPage {
  import opened Common
  import opened AuthService

  const FillAllFields := "Please fill in all fields"
  const CreatedText := "Account created successfully"
  const SomethingWrong := "Something went wrong"

  /** The two account types the form offers. */
  const Listener := "listener"
  const Creator := "creator"

  /** The text of the error snackbar: the error's message, or a fallback. */
  function SignUpErrorText(e: JsError): (text: string)
    ensures Truthy(e.message) ==> text == e.message.value
    ensures !Truthy(e.message) ==> text == SomethingWrong
  {
    OrElse(e.message, SomethingWrong)
  }

  /** The first failing step of a sign-up is what the user is told about, in
      its friendly form; the fallback text is never shown. */
  lemma SignUpFailureShowsFriendlyMessage(email: string, password: string, username: string, accountType: string,
                                          create: Result<string, JsError>, updateProfile: Step, setDoc: Step)
    ensures var r := SignUp(email, password, username, accountType, create, updateProfile, setDoc).result;
      r.Failure? ==>
        && SignUpErrorText(r.error)
           == FriendlyError(if create.Failure? then create.error
                            else if updateProfile.Threw? then updateProfile.error
                            else setDoc.error)
        && SignUpErrorText(r.error) != SomethingWrong
  {
  }

  /** The label of the sign-up button: it shows progress exactly while loading. */
  function ButtonLabel(loading: bool): (r: string)
    ensures r != ""
    ensures r == "Signing Up..." <==> loading
  {
    if loading then "Signing Up..." else "Sign Up"
  }

  class SignUpScreen {
    var accountType: string
    var username: string
    var email: string
    var password: string
    var loading: bool
    var snack: Option<Snack>
    var navigation: Option<Navigation>
    /** The user document sent to the store by the last sign-up, if any. */
    var stored: Option<UserData>

    /** The form offers exactly the two account types. */
    predicate Valid()
      reads this
    {
      accountType == Listener || accountType == Creator
    }

    constructor ()
      ensures Valid() && accountType == Listener
      ensures username == "" && email == "" && password == "" && !loading
      ensures snack == None && navigation == None && stored == None
    {
      accountType := Listener;
      username := "";
      email := "";
      password := "";
      loading := false;
      snack := None;
      navigation := None;
      stored := None;
    }

    /** Tapping the listener or the creator button. */
    method ChooseAccountType(creator: bool)
      modifies this`accountType
      ensures Valid() && accountType == if creator then Creator else Listener
    {
      accountType := if creator then Creator else Listener;
    }

    /** Pressing the button, which is disabled while loading: all three text
        fields must be non-empty. */
    method Press() returns (started: bool)
      requires !loading
      modifies this`loading, this`snack
      ensures started <==> email != "" && password != "" && username != ""
      ensures started ==> loading && snack == old(snack)
      ensures !started ==> !loading && snack == Some(Snack(FillAllFields, ErrorSnack))
    {
      if email == "" || password == "" || username == "" {
        snack := Some(Snack(FillAllFields, ErrorSnack));
        return false;
      }
      loading := true;
      started := true;
    }

    /** The service call settles: on success the home screen opens after
        800 ms with the chosen account type; the stored document carries that
        type too. */
    method Settle(create: Result<string, JsError>, updateProfile: Step, setDoc: Step)
      requires loading && Valid()
      modifies this`loading, this`snack, this`navigation, this`stored
      ensures !loading && Valid()
      ensures var run := SignUp(email, password, username, accountType, create, updateProfile, setDoc);
        && stored == (if run.stored.Some? then run.stored else old(stored))
        && if run.result.Success? then
             && snack == Some(Snack(CreatedText, SuccessSnack))
             && navigation == Some(Push("/home", Some(accountType), 800))
           else
             && snack == Some(Snack(SignUpErrorText(run.result.error), ErrorSnack))
             && navigation == old(navigation)
      ensures stored.Some? && stored != old(stored) ==> stored.value.accountType == Some(accountType)
    {
      var run := SignUp(email, password, username, accountType, create, updateProfile, setDoc);
      if run.stored.Some? {
        stored := run.stored;
      }
      if run.result.Success? {
        snack := Some(Snack(CreatedText, SuccessSnack));
        navigation := Some(Push("/home", Some(accountType), 800));
      } else {
        snack := Some(Snack(SignUpErrorText(run.result.error), ErrorSnack));
      }
      loading := false;
    }
  }
}
