/** The profile screen of another user, opened with a `userId` route
    parameter: the effect that loads the viewed user, and the category
    buttons and posts it then shows. */
module UserProfile {
  import opened Common
  import opened Profile

  class UserProfileScreen {
    var username: Option<string>
    var viewedAccountType: Option<string>
    var loading: bool
    var selectedCategory: Category

    constructor ()
      ensures username == None && viewedAccountType == None && loading
      ensures selectedCategory == Shared
    {
      username := None;
      viewedAccountType := None;
      loading := true;
      selectedCategory := Shared;
    }

    /** The category buttons, chosen by the viewed account type; a type not
        yet known counts as not a creator. */
    function DisplayedCategories(): (cs: seq<Category>)
      reads this
      ensures cs == Categories(viewedAccountType == Some("creator"))
    {
      Categories(viewedAccountType == Some("creator"))
    }

    /** The effect run for a `userId`. Without one nothing is read and the
        screen shows "Error" for a listener. A found document gives the
        stored name and type (with defaults) and the type's first category;
        a missing one an unknown listener; a failed read only the error name.
        Loading ends on every path. */
    method LoadUser(userId: Option<string>, fetch: DocFetch)
      modifies this`username, this`viewedAccountType, this`loading, this`selectedCategory
      ensures !loading
      ensures !Truthy(userId) ==>
        && username == Some("Error") && viewedAccountType == Some("listener")
        && selectedCategory == old(selectedCategory)
      ensures Truthy(userId) && fetch.DocExists? ==>
        && username == Some(OrElse(fetch.data.username, "Unnamed User"))
        && viewedAccountType == Some(OrElse(fetch.data.accountType, "listener"))
        && selectedCategory == InitialCategory(fetch.data.accountType == Some("creator"))
      ensures Truthy(userId) && fetch.DocMissing? ==>
        && username == Some("Unknown User") && viewedAccountType == Some("listener")
        && selectedCategory == old(selectedCategory)
      ensures Truthy(userId) && fetch.FetchThrew? ==>
        && username == Some("Error loading user") && viewedAccountType == old(viewedAccountType)
        && selectedCategory == old(selectedCategory)
    {
      if !Truthy(userId) {
        username := Some("Error");
        viewedAccountType := Some("listener");
        loading := false;
        return;
      }
      match fetch {
        case DocExists(data) =>
          username := Some(OrElse(data.username, "Unnamed User"));
          viewedAccountType := Some(OrElse(data.accountType, "listener"));
          if data.accountType == Some("creator") {
            selectedCategory := Shared;
          } else {
            selectedCategory := Saved;
          }
        case DocMissing =>
          username := Some("Unknown User");
          viewedAccountType := Some("listener");
        case FetchThrew(_) =>
          username := Some("Error loading user");
      }
      loading := false;
    }

    /** Tapping one of the category buttons. */
    method SelectCategory(c: Category)
      requires c in DisplayedCategories()
      modifies this`selectedCategory
      ensures selectedCategory == c && selectedCategory in DisplayedCategories()
    {
      selectedCategory := c;
    }
  }

  /** Opening the screen and loading the user: the selected category is one
      of the displayed buttons exactly when a `userId` was given and its
      document exists. Otherwise the screen stays on "shared" while showing
      the listener buttons, which lack it, and the grid holds just the
      shared post with no button highlighted. */
  method OpenUserProfile(userId: Option<string>, fetch: DocFetch) returns (screen: UserProfileScreen)
    ensures fresh(screen) && !screen.loading
    ensures screen.selectedCategory in screen.DisplayedCategories() <==> Truthy(userId) && fetch.DocExists?
    ensures !(Truthy(userId) && fetch.DocExists?) ==>
      screen.selectedCategory == Shared && ShownPosts(screen.selectedCategory) == [DummyPosts[0]]
  {
    screen := new UserProfileScreen();
    screen.LoadUser(userId, fetch);
  }
}
