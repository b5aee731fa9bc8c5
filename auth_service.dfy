/** The authentication service: the mapping from a thrown SDK error to a
    message fit for the user, and the four service calls, each of which
    replaces whatever it catches by an error carrying that message. */
module AuthService {
  import opened Common
  import opened Strings

  const InvalidEmailMessage := "Please enter a valid email address."
  const UserNotFoundMessage := "No account found with this email."
  const WrongPasswordMessage := "Incorrect email or password. Please try again."
  const EmailInUseMessage := "This email is already in use."
  const WeakPasswordMessage := "Password must be at least 6 characters."
  const GenericMessage := "Something went wrong. Please try again."

  /** Every message the service can put into an error it throws. */
  const FriendlyMessages: seq<string> :=
    [InvalidEmailMessage, UserNotFoundMessage, WrongPasswordMessage,
     EmailInUseMessage, WeakPasswordMessage, GenericMessage]

  // ---------------------------------------------------------------------------
  // Error mapping

  function InnerCode(e: JsError): Option<string>
  {
    if e.inner.Some? then e.inner.value.code else None
  }

  function InnerMessage(e: JsError): Option<string>
  {
    if e.inner.Some? then e.inner.value.message else None
  }

  /** The text the mapping inspects, before lower-casing: the first of the
      error's code, its nested error's code, its message and its nested
      error's message that is present and not empty, else "". */
  function RawKey(e: JsError): (k: string)
    ensures Truthy(e.code) ==> k == e.code.value
    ensures !Truthy(e.code) && Truthy(InnerCode(e)) ==> k == InnerCode(e).value
    ensures !Truthy(e.code) && !Truthy(InnerCode(e)) && Truthy(e.message) ==> k == e.message.value
    ensures !Truthy(e.code) && !Truthy(InnerCode(e)) && !Truthy(e.message) ==> k == OrElse(InnerMessage(e), "")
  {
    OrElse(e.code, OrElse(InnerCode(e), OrElse(e.message, OrElse(InnerMessage(e), ""))))
  }

  function ErrorKey(e: JsError): string
  {
    ToLower(RawKey(e))
  }

  /** The message for a lower-cased key: the first test the key passes, in the
      order invalid e-mail, unknown user, wrong credentials, e-mail in use,
      weak password; the generic message when it passes none. */
  function FriendlyMessage(key: string): (r: string)
    ensures r in FriendlyMessages
  {
    if Includes(key, "invalid-email") then InvalidEmailMessage
    else if Includes(key, "user-not-found") then UserNotFoundMessage
    else if Includes(key, "wrong-password") || Includes(key, "invalid-credential") then WrongPasswordMessage
    else if Includes(key, "email-already-in-use") then EmailInUseMessage
    else if Includes(key, "weak-password") then WeakPasswordMessage
    else GenericMessage
  }

  /** `getFriendlyError`. */
  function FriendlyError(e: JsError): (r: string)
    ensures r in FriendlyMessages && r != ""
  {
    FriendlyMessage(ErrorKey(e))
  }

  // ---------------------------------------------------------------------------
  // The same mapping as an ordered table of rules

  /** A rule: the message given when the key contains any of the patterns. */
  datatype Rule = Rule(patterns: seq<string>, message: string)

  ghost predicate Matches(key: string, rule: Rule)
  {
    exists j :: 0 <= j < |rule.patterns| && Includes(key, rule.patterns[j])
  }

  const Rules: seq<Rule> := [
    Rule(["invalid-email"], InvalidEmailMessage),
    Rule(["user-not-found"], UserNotFoundMessage),
    Rule(["wrong-password", "invalid-credential"], WrongPasswordMessage),
    Rule(["email-already-in-use"], EmailInUseMessage),
    Rule(["weak-password"], WeakPasswordMessage)
  ]

  function AnyIncluded(key: string, patterns: seq<string>): (b: bool)
    ensures b <==> exists j :: 0 <= j < |patterns| && Includes(key, patterns[j])
  {
    if patterns == [] then false
    else Includes(key, patterns[0]) || AnyIncluded(key, patterns[1..])
  }

  /** The message of the first rule the key matches, else the fallback. */
  function FirstMatch(key: string, rules: seq<Rule>, fallback: string): string
  {
    if rules == [] then fallback
    else if AnyIncluded(key, rules[0].patterns) then rules[0].message
    else FirstMatch(key, rules[1..], fallback)
  }

  /** The first matching rule decides, whatever later rules say. */
  lemma {:induction false} FirstMatchIsFirst(key: string, rules: seq<Rule>, fallback: string, i: nat)
    requires i < |rules| && Matches(key, rules[i])
    requires forall j :: 0 <= j < i ==> !Matches(key, rules[j])
    ensures FirstMatch(key, rules, fallback) == rules[i].message
  {
    if i > 0 {
      assert !Matches(key, rules[0]);
      forall j | 0 <= j < i - 1
        ensures !Matches(key, rules[1..][j])
      {
        assert rules[1..][j] == rules[j + 1];
      }
      FirstMatchIsFirst(key, rules[1..], fallback, i - 1);
    }
  }

  /** A key no rule matches gets the fallback. */
  lemma {:induction false} FirstMatchNone(key: string, rules: seq<Rule>, fallback: string)
    requires forall j :: 0 <= j < |rules| ==> !Matches(key, rules[j])
    ensures FirstMatch(key, rules, fallback) == fallback
  {
    if rules != [] {
      assert !Matches(key, rules[0]);
      forall j | 0 <= j < |rules| - 1
        ensures !Matches(key, rules[1..][j])
      {
        assert rules[1..][j] == rules[j + 1];
      }
      FirstMatchNone(key, rules[1..], fallback);
    }
  }

  /** The mapping is the rule table read top to bottom: the message of the
      first rule whose pattern the key contains, else the generic message. */
  lemma FriendlyMessageFollowsRules(key: string)
    ensures FriendlyMessage(key) == FirstMatch(key, Rules, GenericMessage)
  {
    forall i | 0 <= i < |Rules|
      ensures Matches(key, Rules[i]) == AnyIncluded(key, Rules[i].patterns)
    {
    }
    if Includes(key, "invalid-email") {
      FirstMatchIsFirst(key, Rules, GenericMessage, 0);
    } else if Includes(key, "user-not-found") {
      FirstMatchIsFirst(key, Rules, GenericMessage, 1);
    } else if Includes(key, "wrong-password") || Includes(key, "invalid-credential") {
      assert Matches(key, Rules[2]) by {
        if Includes(key, "wrong-password") {
          assert Includes(key, Rules[2].patterns[0]);
        } else {
          assert Includes(key, Rules[2].patterns[1]);
        }
      }
      FirstMatchIsFirst(key, Rules, GenericMessage, 2);
    } else if Includes(key, "email-already-in-use") {
      FirstMatchIsFirst(key, Rules, GenericMessage, 3);
    } else if Includes(key, "weak-password") {
      FirstMatchIsFirst(key, Rules, GenericMessage, 4);
    } else {
      FirstMatchNone(key, Rules, GenericMessage);
    }
  }

  // ---------------------------------------------------------------------------
  // Properties of the mapping

  /** A present, non-empty code decides the message on its own, whatever the
      message and the nested error say. */
  lemma CodeDecides(e: JsError, message: Option<string>, inner: Option<InnerError>)
    requires Truthy(e.code)
    ensures FriendlyError(e) == FriendlyError(JsError(e.code, message, inner))
  {
  }

  /** Letter case does not matter: an error whose key differs from another's
      only in the case of its letters gets the same message. */
  lemma CaseDoesNotMatter(e1: JsError, e2: JsError)
    requires |RawKey(e1)| == |RawKey(e2)|
    requires forall i :: 0 <= i < |RawKey(e1)| ==> LowerChar(RawKey(e1)[i]) == LowerChar(RawKey(e2)[i])
    ensures FriendlyError(e1) == FriendlyError(e2)
  {
    assert ErrorKey(e1) == ErrorKey(e2);
  }

  /** Every rule pattern holds a hyphen, so an error whose key has none, such
      as a bare network failure message, gets the generic message. */
  lemma NoHyphenIsGeneric(e: JsError)
    requires '-' !in RawKey(e)
    ensures FriendlyError(e) == GenericMessage
  {
    var key := ErrorKey(e);
    ToLowerKeepsAbsentSymbol(RawKey(e), '-');
    MissingCharExcludes(key, "invalid-email", '-');
    MissingCharExcludes(key, "user-not-found", '-');
    MissingCharExcludes(key, "wrong-password", '-');
    MissingCharExcludes(key, "invalid-credential", '-');
    MissingCharExcludes(key, "email-already-in-use", '-');
    MissingCharExcludes(key, "weak-password", '-');
  }

  /** An error with an empty key, such as a thrown `null`, gets the generic
      message. */
  lemma EmptyErrorIsGeneric()
    ensures FriendlyError(JsError(None, None, None)) == GenericMessage
  {
    NoHyphenIsGeneric(JsError(None, None, None));
  }

  // ---------------------------------------------------------------------------
  // The service calls

  /** `new Error(getFriendlyError(error))`: no code, and the friendly message. */
  function Rethrown(e: JsError): (r: JsError)
    ensures r.code == None && r.inner == None
    ensures r.message.Some? && r.message.value in FriendlyMessages && Truthy(r.message)
  {
    JsError(None, Some(FriendlyError(e)), None)
  }

  /** The user document `signUp` stores for a new account. */
  function NewUserDocument(uid: string, email: string, username: string, accountType: string): UserData
  {
    UserData(Some(uid), Some(username), Some(email), Some(accountType))
  }

  /** What `signUp` did: its result (the new user's id, or the error it
      throws) and the user document it asked to store, if it got that far. */
  datatype SignUpRun = SignUpRun(result: Result<string, JsError>, stored: Option<UserData>)

  /** `signUp`: create the account, set its display name, store the user
      document; the first failure is rethrown with its friendly message. */
  function SignUp(email: string, password: string, username: string, accountType: string,
                  create: Result<string, JsError>, updateProfile: Step, setDoc: Step): (run: SignUpRun)
    ensures run.result.Success? <==> create.Success? && updateProfile.Done? && setDoc.Done?
    ensures run.result.Success? ==> run.result.value == create.value
    ensures create.Failure? ==> run.result == Failure(Rethrown(create.error)) && run.stored == None
    ensures create.Success? && updateProfile.Threw? ==>
      run.result == Failure(Rethrown(updateProfile.error)) && run.stored == None
    ensures create.Success? && updateProfile.Done? ==>
      run.stored == Some(NewUserDocument(create.value, email, username, accountType))
    ensures create.Success? && updateProfile.Done? && setDoc.Threw? ==>
      run.result == Failure(Rethrown(setDoc.error))
  {
    match create
    case Failure(err) => SignUpRun(Failure(Rethrown(err)), None)
    case Success(uid) =>
      match updateProfile
      case Threw(err) => SignUpRun(Failure(Rethrown(err)), None)
      case Done =>
        var stored := Some(NewUserDocument(uid, email, username, accountType));
        match setDoc
        case Threw(err) => SignUpRun(Failure(Rethrown(err)), stored)
        case Done => SignUpRun(Success(uid), stored)
  }

  /** What `signIn` resolves with: the user's id and the stored user
      document, absent when there is none. */
  datatype SignedIn = SignedIn(uid: string, userData: Option<UserData>)

  /** `signIn`: sign in, then read the user document; either failure is
      rethrown with its friendly message. */
  function SignIn(email: string, password: string, auth: Result<string, JsError>, fetch: DocFetch): (r: Result<SignedIn, JsError>)
    ensures auth.Failure? ==> r == Failure(Rethrown(auth.error))
    ensures auth.Success? && fetch.FetchThrew? ==> r == Failure(Rethrown(fetch.error))
    ensures auth.Success? && fetch.DocExists? ==> r == Success(SignedIn(auth.value, Some(fetch.data)))
    ensures auth.Success? && fetch.DocMissing? ==> r == Success(SignedIn(auth.value, None))
  {
    match auth
    case Failure(err) => Failure(Rethrown(err))
    case Success(uid) =>
      match fetch
      case FetchThrew(err) => Failure(Rethrown(err))
      case DocExists(data) => Success(SignedIn(uid, Some(data)))
      case DocMissing => Success(SignedIn(uid, None))
  }

  /** A call that only resolves or throws, with the friendly rethrow. */
  function RethrowStep(call: Step): (r: Step)
    ensures r.Done? <==> call.Done?
    ensures r.Threw? ==> r.error == Rethrown(call.error)
  {
    match call
    case Done => Done
    case Threw(err) => Threw(Rethrown(err))
  }

  /** `resetPassword`: send the reset e-mail; it resolves when sending does
      and otherwise throws the friendly form of the SDK error. */
  function ResetPassword(email: string, send: Step): (r: Step)
    ensures r.Done? <==> send.Done?
    ensures r.Threw? ==> r.error == Rethrown(send.error)
  {
    RethrowStep(send)
  }

  /** `signOutUser`: sign out; it resolves when the SDK call does and
      otherwise throws the friendly form of its error. */
  function SignOutUser(signOut: Step): (r: Step)
    ensures r.Done? <==> signOut.Done?
    ensures r.Threw? ==> r.error == Rethrown(signOut.error)
  {
    RethrowStep(signOut)
  }

  /** Whatever a service call throws has no code and carries one of the
      friendly messages, never an empty one. */
  lemma ServiceErrorsAreFriendly(email: string, password: string, username: string, accountType: string,
                                 create: Result<string, JsError>, updateProfile: Step, setDoc: Step,
                                 auth: Result<string, JsError>, fetch: DocFetch, call: Step)
    ensures var r := SignUp(email, password, username, accountType, create, updateProfile, setDoc).result;
      r.Failure? ==> r.error.code == None && Truthy(r.error.message) && r.error.message.value in FriendlyMessages
    ensures var r := SignIn(email, password, auth, fetch);
      r.Failure? ==> r.error.code == None && Truthy(r.error.message) && r.error.message.value in FriendlyMessages
    ensures var r := ResetPassword(email, call);
      r.Threw? ==> r.error.code == None && Truthy(r.error.message) && r.error.message.value in FriendlyMessages
    ensures var r := SignOutUser(call);
      r.Threw? ==> r.error.code == None && Truthy(r.error.message) && r.error.message.value in FriendlyMessages
  {
  }
}
