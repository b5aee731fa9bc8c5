/** The bottom navigation bar: four tabs whose second one depends on the
    account type, the active-tab rule, the divider and the push on a tap. */
module BottomNavbar {
  import opened Common

  datatype TabKey = HomeKey | SavedKey | EditKey | ProfileKey | SearchKey

  datatype Tab = Tab(key: TabKey, title: string, icon: string, route: string)

  const HomeTab := Tab(HomeKey, "Home", "home-outline", "/home")
  const SavedTab := Tab(SavedKey, "Saved", "bookmark-outline", "/saved")
  const EditTab := Tab(EditKey, "Edit", "create-outline", "/edit")
  const ProfileTab := Tab(ProfileKey, "Profile", "person-outline", "/profile")
  const SearchTab := Tab(SearchKey, "Search", "search-outline", "/search")

  /** The second tab: Saved for a listener, Edit for any other account type,
      including an absent one. */
  function DynamicTab(accountType: Option<string>): (t: Tab)
    ensures t == SavedTab <==> accountType == Some("listener")
    ensures t == EditTab <==> accountType != Some("listener")
  {
    if accountType == Some("listener") then SavedTab else EditTab
  }

  /** The tabs in display order. */
  function Tabs(accountType: Option<string>): (tabs: seq<Tab>)
    ensures |tabs| == 4
    ensures tabs[0] == HomeTab && tabs[1] == DynamicTab(accountType)
    ensures tabs[2] == ProfileTab && tabs[3] == SearchTab
  {
    [HomeTab, DynamicTab(accountType), ProfileTab, SearchTab]
  }

  /** A tab is active when the current path is its route. */
  predicate IsActive(pathname: string, tab: Tab)
  {
    pathname == tab.route
  }

  /** A divider follows the Profile tab. */
  predicate ShowsDivider(tab: Tab)
  {
    tab.key == ProfileKey
  }

  /** Tapping a tab pushes its route. */
  function Press(tab: Tab): (nav: Navigation)
    ensures nav.Push? && nav.path == tab.route && nav.accountTypeParam == None && nav.delayMs == 0
  {
    Push(tab.route, None, 0)
  }

  /** The routes of the four tabs are distinct, so whatever the current path,
      at most one tab is active. */
  lemma AtMostOneActive(accountType: Option<string>, pathname: string, i: nat, j: nat)
    requires i < 4 && j < 4
    requires IsActive(pathname, Tabs(accountType)[i]) && IsActive(pathname, Tabs(accountType)[j])
    ensures i == j
  {
    var tabs := Tabs(accountType);
    assert tabs[i].route == tabs[j].route;
    assert tabs[0].route[1] == 'h' && tabs[2].route[1] == 'p' && tabs[3].route[1] == 's';
    assert tabs[1].route[1] == 's' || tabs[1].route[1] == 'e';
    assert tabs[1].route[2] == 'a' || tabs[1].route[1] == 'e';
    assert tabs[3].route[2] == 'e';
  }

  /** Exactly one divider is drawn, right after the third tab. */
  lemma DividerOnlyAfterProfile(accountType: Option<string>, i: nat)
    requires i < 4
    ensures ShowsDivider(Tabs(accountType)[i]) <==> i == 2
  {
  }

  /** After a tap has taken the app to the tab's route, that tab is active
      and no other. */
  lemma PressActivatesThatTab(accountType: Option<string>, i: nat, j: nat)
    requires i < 4 && j < 4
    ensures IsActive(Press(Tabs(accountType)[i]).path, Tabs(accountType)[j]) <==> i == j
  {
    if IsActive(Press(Tabs(accountType)[i]).path, Tabs(accountType)[j]) {
      AtMostOneActive(accountType, Tabs(accountType)[i].route, i, j);
    }
  }

  /** A listener can reach Saved but never Edit from the bar; every other
      account type the other way round. */
  lemma EditOnlyForNonListeners(accountType: Option<string>)
    ensures (exists i :: 0 <= i < 4 && Tabs(accountType)[i].route == "/edit") <==> accountType != Some("listener")
    ensures (exists i :: 0 <= i < 4 && Tabs(accountType)[i].route == "/saved") <==> accountType == Some("listener")
  {
    var tabs := Tabs(accountType);
    assert tabs[0].route[1] == 'h' && tabs[2].route[1] == 'p' && tabs[3].route[1] == 's' && tabs[3].route[2] == 'e';
    if accountType == Some("listener") {
      assert tabs[1].route == "/saved";
    } else {
      assert tabs[1].route == "/edit";
    }
  }
}
