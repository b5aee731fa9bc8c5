/** The root layout: it resolves the signed-in user's account type once the
    authentication state is known and keeps a spinner up until then and
    until the fonts are loaded. */
module RootLayout {
  import opened Common

  /** What the layout renders: a spinner, or the app under the account
      provider with the resolved type. */
  datatype RootView = Spinner | Provide(accountType: Option<string>)

  /** The resolved account type: the stored one, as stored and possibly
      absent, when the signed-in user's document exists; "listener" in every
      other case. */
  function ResolvedAccountType(signedIn: bool, fetch: DocFetch): (t: Option<string>)
    ensures signedIn && fetch.DocExists? ==> t == fetch.data.accountType
    ensures !(signedIn && fetch.DocExists?) ==> t == Some("listener")
  {
    if signedIn && fetch.DocExists? then fetch.data.accountType else Some("listener")
  }

  /** Only a stored document can make the type anything but "listener". */
  lemma OnlyStoredTypeDiffers(signedIn: bool, fetch: DocFetch)
    ensures ResolvedAccountType(signedIn, fetch) != Some("listener") ==>
      signedIn && fetch.DocExists? && fetch.data.accountType != Some("listener")
  {
  }

  class RootLayoutState {
    var accountType: Option<string>
    var loading: bool

    constructor ()
      ensures accountType == None && loading
    {
      accountType := None;
      loading := true;
    }

    /** The authentication callback: resolve the type (reading the user
        document only for a signed-in user), then stop loading. */
    method OnAuthStateChanged(signedIn: bool, fetch: DocFetch)
      modifies this
      ensures accountType == ResolvedAccountType(signedIn, fetch)
      ensures !loading
    {
      if signedIn {
        match fetch {
          case DocExists(data) => accountType := data.accountType;
          case DocMissing => accountType := Some("listener");
          case FetchThrew(_) => accountType := Some("listener");
        }
      } else {
        accountType := Some("listener");
      }
      loading := false;
    }

    /** The rendered view: the spinner until the fonts are loaded and the
        first callback has run. */
    method Render(fontsLoaded: bool) returns (view: RootView)
      ensures view.Spinner? <==> !fontsLoaded || loading
      ensures view.Provide? ==> view.accountType == accountType
    {
      if !fontsLoaded || loading {
        return Spinner;
      }
      return Provide(accountType);
    }
  }

  /** Start-up: with the fonts loaded, the first callback replaces the
      spinner by the app, provided with the resolved type. */
  method StartUp(fontsLoaded: bool, signedIn: bool, fetch: DocFetch) returns (before: RootView, after: RootView)
    ensures before == Spinner
    ensures after == if fontsLoaded then Provide(ResolvedAccountType(signedIn, fetch)) else Spinner
  {
    var layout := new RootLayoutState();
    before := layout.Render(fontsLoaded);
    layout.OnAuthStateChanged(signedIn, fetch);
    after := layout.Render(fontsLoaded);
  }
}
