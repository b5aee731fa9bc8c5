/** How the account type resolved at start-up drives two views that read it
    independently: the bottom bar's second tab and the profile categories. */
module AccountViews {
  import opened Common
  import opened RootLayout
  import opened BottomNavbar
  import opened Profile

  /** The bar offers Edit exactly when the profile offers "shared" only for
      the two account types the app knows; any other value, such as a user
      document with no type, gets the Edit tab with the listener
      categories. */
  lemma ViewsAgreeOnlyForKnownTypes(t: Option<string>)
    ensures (DynamicTab(t) == EditTab <==> Shared in Categories(t == Some("creator")))
        <==> (t == Some("listener") || t == Some("creator"))
  {
  }

  /** A signed-in user whose stored document has no account type. */
  lemma MissingStoredType(data: UserData)
    requires data.accountType == None
    ensures var t := ResolvedAccountType(true, DocExists(data));
      && DynamicTab(t) == EditTab
      && Categories(t == Some("creator")) == ListenerCategories
  {
  }
}
