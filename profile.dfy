/** The signed-in user's profile screen: the post categories offered for an
    account type, the category a screen starts on, the posts shown for a
    category, and the resolution of the user name. */
module Profile {
  import opened Common

  datatype Category = Shared | Saved | Liked | Commented

  datatype Post = Post(id: string, username: string, description: string,
                       imageUrl: string, audioUrl: string, category: Category)

  const ListenerCategories: seq<Category> := [Saved, Liked, Commented]
  const CreatorCategories: seq<Category> := [Shared, Saved, Liked, Commented]

  /** The category buttons: a creator also gets "shared", first. */
  function Categories(creator: bool): (cs: seq<Category>)
    ensures forall c :: c in cs <==> (c != Shared || creator)
    ensures forall i, j :: 0 <= i < j < |cs| ==> cs[i] != cs[j]
    ensures creator ==> cs == [Shared] + ListenerCategories
    ensures !creator ==> cs == ListenerCategories
  {
    CategoryListsMembers();
    if creator then CreatorCategories else ListenerCategories
  }

  lemma CategoryListsMembers()
    ensures forall c :: c in CreatorCategories
    ensures forall c :: c in ListenerCategories <==> c != Shared
  {
    forall c: Category
      ensures c in CreatorCategories
      ensures c in ListenerCategories <==> c != Shared
    {
      match c
      case Shared => assert CreatorCategories[0] == c;
      case Saved => assert CreatorCategories[1] == c && ListenerCategories[0] == c;
      case Liked => assert CreatorCategories[2] == c && ListenerCategories[1] == c;
      case Commented => assert CreatorCategories[3] == c && ListenerCategories[2] == c;
    }
  }

  /** The category a profile starts on: "shared" for a creator, else
      "saved"; it is always one of the buttons. */
  function InitialCategory(creator: bool): (c: Category)
    ensures c in Categories(creator)
    ensures c == Categories(creator)[0]
  {
    if creator then Shared else Saved
  }

  /** The posts of a category, in their original order. */
  function FilterByCategory(posts: seq<Post>, c: Category): (r: seq<Post>)
    ensures |r| <= |posts|
    ensures forall p :: p in r <==> p in posts && p.category == c
  {
    if posts == [] then []
    else (if posts[0].category == c then [posts[0]] else []) + FilterByCategory(posts[1..], c)
  }

  /** Filtering a concatenation filters each part and keeps them in order. */
  lemma {:induction false} FilterDistributes(a: seq<Post>, b: seq<Post>, c: Category)
    ensures FilterByCategory(a + b, c) == FilterByCategory(a, c) + FilterByCategory(b, c)
  {
    if a == [] {
      assert a + b == b;
    } else {
      assert (a + b)[0] == a[0];
      assert (a + b)[1..] == a[1..] + b;
      FilterDistributes(a[1..], b, c);
    }
  }

  /** Filtering twice by the same category changes nothing. */
  lemma {:induction false} FilterIdempotent(posts: seq<Post>, c: Category)
    ensures FilterByCategory(FilterByCategory(posts, c), c) == FilterByCategory(posts, c)
  {
    if posts != [] {
      var head := if posts[0].category == c then [posts[0]] else [];
      FilterIdempotent(posts[1..], c);
      FilterDistributes(head, FilterByCategory(posts[1..], c), c);
    }
  }

  /** The number of posts of a category in a list. */
  function CountOf(posts: seq<Post>, c: Category): nat
  {
    if posts == [] then 0 else (if posts[0].category == c then 1 else 0) + CountOf(posts[1..], c)
  }

  /** The filter keeps every post of the category, once per occurrence. */
  lemma {:induction false} FilterKeepsAll(posts: seq<Post>, c: Category)
    ensures |FilterByCategory(posts, c)| == CountOf(posts, c)
  {
    if posts != [] {
      FilterKeepsAll(posts[1..], c);
    }
  }

  /** "No posts found." is shown exactly when no post has the category. */
  function ShowsEmptyState(posts: seq<Post>, c: Category): (b: bool)
    ensures b <==> forall p :: p in posts ==> p.category != c
  {
    var r := FilterByCategory(posts, c);
    assert r != [] ==> r[0] in r;
    r == []
  }

  /** The posts the profile screens show. */
  const DummyPosts: seq<Post> := [
    Post("1", "CreatorUser1", "My shared post content.", "https://picsum.photos/seed/picsum1/700/400", "test_audio_1.mp3", Shared),
    Post("2", "AudioArtist", "A post I saved.", "https://picsum.photos/seed/picsum2/700/400", "test_audio_2.mp3", Saved),
    Post("3", "MusicMaker", "A post I liked.", "https://picsum.photos/seed/picsum3/700/400", "test_audio_3.mp3", Liked),
    Post("4", "SoundWaves", "A post I commented on.", "https://picsum.photos/seed/picsum4/700/400", "test_audio_4.mp3", Commented)
  ]

  /** The fixed posts hold exactly one post per category, so the empty state
      is never shown on these screens. */
  lemma DummyPostsOnePerCategory(c: Category)
    ensures CountOf(DummyPosts, c) == 1
    ensures !ShowsEmptyState(DummyPosts, c)
  {
    assert DummyPosts[1..][1..][1..][1..] == [];
    FilterKeepsAll(DummyPosts, c);
  }

  /** The grid of either profile screen: the fixed posts of the selected
      category, which is exactly one post. */
  function ShownPosts(selected: Category): (posts: seq<Post>)
    ensures forall p :: p in posts <==> p in DummyPosts && p.category == selected
    ensures |posts| == 1
  {
    DummyPostsOnePerCategory(selected);
    FilterKeepsAll(DummyPosts, selected);
    FilterByCategory(DummyPosts, selected)
  }

  /** The name the profile shows once loading ends: "Guest" without a
      signed-in user, the stored name (or "Unnamed User") when the user
      document exists, "Unknown User" when it does not, and "Error loading
      user" when reading it fails. */
  function ProfileName(signedIn: bool, fetch: DocFetch): (name: string)
    ensures !signedIn ==> name == "Guest"
    ensures signedIn && fetch.DocExists? ==> name == OrElse(fetch.data.username, "Unnamed User")
    ensures signedIn && fetch.DocMissing? ==> name == "Unknown User"
    ensures signedIn && fetch.FetchThrew? ==> name == "Error loading user"
  {
    if !signedIn then "Guest"
    else match fetch
      case DocExists(data) => OrElse(data.username, "Unnamed User")
      case DocMissing => "Unknown User"
      case FetchThrew(_) => "Error loading user"
  }

  /** The name shown is never empty. */
  lemma ProfileNameNonEmpty(signedIn: bool, fetch: DocFetch)
    ensures ProfileName(signedIn, fetch) != ""
  {
  }

  class ProfileScreen {
    /** The account type from the account context, fixed for the screen;
        absent when the stored user document has none. */
    const accountType: Option<string>
    var username: Option<string>
    var loading: bool
    var selectedCategory: Category

    function IsCreator(): bool
    {
      accountType == Some("creator")
    }

    /** The selected category is one of the buttons. */
    predicate Valid()
      reads this
    {
      selectedCategory in Categories(IsCreator())
    }

    constructor (accountType: Option<string>)
      ensures this.accountType == accountType
      ensures username == None && loading
      ensures selectedCategory == InitialCategory(accountType == Some("creator"))
      ensures Valid()
    {
      this.accountType := accountType;
      username := None;
      loading := true;
      selectedCategory := InitialCategory(accountType == Some("creator"));
    }

    /** `fetchUserData`: resolve the user name and stop loading. The user
        document is read only when a user is signed in. */
    method FetchUserData(signedIn: bool, fetch: DocFetch)
      modifies this`username, this`loading
      ensures username == Some(ProfileName(signedIn, fetch))
      ensures !loading
    {
      if !signedIn {
        username := Some("Guest");
        loading := false;
        return;
      }
      match fetch {
        case DocExists(data) => username := Some(OrElse(data.username, "Unnamed User"));
        case DocMissing => username := Some("Unknown User");
        case FetchThrew(_) => username := Some("Error loading user");
      }
      loading := false;
    }

    /** Tapping one of the category buttons. */
    method SelectCategory(c: Category)
      requires c in Categories(IsCreator())
      modifies this`selectedCategory
      ensures selectedCategory == c && Valid()
    {
      selectedCategory := c;
    }

  }
}
