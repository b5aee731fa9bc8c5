/** The user search screen: the blank-query gate, the username range sent
    to the store, the collection of the returned documents and the
    "No users found." rule. */
module Search {
  import opened Common
  import opened Strings
  import opened AuthService

  // ---------------------------------------------------------------------------
  // `String.prototype.trim`

  /** The characters `trim` removes: white space and line terminators. */
  predicate IsJsWhitespace(c: char)
  {
    || ('\U{9}' <= c <= '\U{D}') || c == ' ' || c == '\U{A0}' || c == '\U{1680}'
    || ('\U{2000}' <= c <= '\U{200A}') || c == '\U{2028}' || c == '\U{2029}'
    || c == '\U{202F}' || c == '\U{205F}' || c == '\U{3000}' || c == '\U{FEFF}'
  }

  /** The number of white-space characters at the start of s. */
  function LeadingSpace(s: string): (k: nat)
    ensures k <= |s|
    ensures forall i :: 0 <= i < k ==> IsJsWhitespace(s[i])
    ensures k < |s| ==> !IsJsWhitespace(s[k])
  {
    if s == [] || !IsJsWhitespace(s[0]) then 0 else 1 + LeadingSpace(s[1..])
  }

  /** The number of white-space characters at the end of s. */
  function TrailingSpace(s: string): (k: nat)
    ensures k <= |s|
    ensures forall i :: |s| - k <= i < |s| ==> IsJsWhitespace(s[i])
    ensures k < |s| ==> !IsJsWhitespace(s[|s| - 1 - k])
  {
    if s == [] || !IsJsWhitespace(s[|s| - 1]) then 0
    else
      var k := 1 + TrailingSpace(s[..|s| - 1]);
      assert forall i :: |s| - k <= i < |s| - 1 ==> s[i] == s[..|s| - 1][i];
      k
  }

  /** The trimmed text occupies `s[a..a + |r|]`, with white space alone
      before and after it. */
  ghost predicate TrimmedAt(s: string, r: string, a: int)
  {
    && OccursAt(s, r, a)
    && (forall i :: 0 <= i < a ==> IsJsWhitespace(s[i]))
    && (forall i :: a + |r| <= i < |s| ==> IsJsWhitespace(s[i]))
  }

  /** `s.trim()`: s without its leading and trailing white space. What is
      removed is white space, and what is kept neither starts nor ends with
      it, so exactly the white space at both ends goes. */
  function Trim(s: string): (r: string)
    ensures exists a :: TrimmedAt(s, r, a)
    ensures r != [] ==> !IsJsWhitespace(r[0]) && !IsJsWhitespace(r[|r| - 1])
    ensures r == [] <==> forall i :: 0 <= i < |s| ==> IsJsWhitespace(s[i])
  {
    var a := LeadingSpace(s);
    var rest := s[a..];
    var r := rest[..|rest| - TrailingSpace(rest)];
    assert OccursAt(s, r, a) by {
      assert s[a..a + |r|] == r;
    }
    assert forall i :: a + |r| <= i < |s| ==> s[i] == rest[i - a];
    assert TrimmedAt(s, r, a);
    assert (forall i :: 0 <= i < |s| ==> IsJsWhitespace(s[i])) ==> r == [];
    assert a < |s| ==> r != [] by {
      if a < |s| {
        assert !IsJsWhitespace(rest[0]);
      }
    }
    r
  }

  /** Only one cut fits that description, so `Trim` removes exactly the white
      space at both ends: "a b" keeps its inner space. */
  lemma TrimUnique(s: string, r: string, a: int)
    requires TrimmedAt(s, r, a)
    requires r != [] ==> !IsJsWhitespace(r[0]) && !IsJsWhitespace(r[|r| - 1])
    ensures r == Trim(s)
  {
    var t := Trim(s);
    var b :| TrimmedAt(s, t, b);
    if r == [] {
      assert forall i :: 0 <= i < |s| ==> IsJsWhitespace(s[i]) by {
        forall i | 0 <= i < |s|
          ensures IsJsWhitespace(s[i])
        {
          if i >= a {
            assert a + |r| <= i;
          }
        }
      }
    } else {
      assert s[a] == r[0] && s[a + |r| - 1] == r[|r| - 1];
      assert t != [];
      assert s[b] == t[0] && s[b + |t| - 1] == t[|t| - 1];
      assert a == b;
      assert a + |r| == b + |t|;
    }
  }

  /** The search gate: a query that is empty once trimmed issues no search;
      that is a query of white space alone. */
  function IsBlank(text: string): (b: bool)
    ensures b <==> forall i :: 0 <= i < |text| ==> IsJsWhitespace(text[i])
  {
    |Trim(text)| == 0
  }

  // ---------------------------------------------------------------------------
  // The range query

  /** The bounds of the username range query. */
  datatype SearchRange = SearchRange(lower: string, upper: string)

  /** `username >= text` and `username <= text + '\U{F8FF}'`, with the text
      untrimmed. */
  function QueryRange(text: string): (r: SearchRange)
    ensures r.lower == text && r.upper == text + ['\U{F8FF}']
  {
    SearchRange(text, text + ['\U{F8FF}'])
  }

  /** The store's order on strings: code point by code point, a proper prefix
      first. */
  predicate LexLe(a: string, b: string)
    decreases |a|
  {
    a == [] || (b != [] && (a[0] < b[0] || (a[0] == b[0] && LexLe(a[1..], b[1..]))))
  }

  predicate InRange(u: string, r: SearchRange)
  {
    LexLe(r.lower, u) && LexLe(u, r.upper)
  }

  /** The usernames the range admits, stated without the order: those that
      start with the text and continue, if at all, with a character below
      U+F8FF or with U+F8FF alone. */
  predicate PrefixMatch(u: string, text: string)
  {
    && StartsWith(u, text)
    && (|u| == |text| || u[|text|] < '\U{F8FF}' || u == text + ['\U{F8FF}'])
  }

  /** The range query is a case-sensitive prefix match on the untrimmed
      text. */
  lemma {:induction false} RangeIsPrefixMatch(u: string, text: string)
    ensures InRange(u, QueryRange(text)) <==> PrefixMatch(u, text)
    decreases |text|
  {
    if text == [] {
      assert text + ['\U{F8FF}'] == ['\U{F8FF}'];
      if u != [] {
        assert LexLe(u[1..], []) <==> u[1..] == [];
        assert u[1..] == [] ==> u == ['\U{F8FF}'] || u[0] != '\U{F8FF}';
      }
    } else if u == [] {
      assert !LexLe(text, u);
    } else {
      var t := text[1..];
      assert (text + ['\U{F8FF}'])[1..] == t + ['\U{F8FF}'];
      assert (text + ['\U{F8FF}'])[0] == text[0];
      RangeIsPrefixMatch(u[1..], t);
      if u[0] == text[0] {
        assert StartsWith(u, text) <==> StartsWith(u[1..], t) by {
          if |text| <= |u| {
            assert u[..|text|] == [u[0]] + u[1..][..|t|];
            assert text == [text[0]] + t;
          }
        }
        if |t| < |u[1..]| {
          assert u[|text|] == u[1..][|t|];
        }
        assert u == text + ['\U{F8FF}'] <==> u[1..] == t + ['\U{F8FF}'] by {
          if u[1..] == t + ['\U{F8FF}'] {
            assert u == [u[0]] + u[1..];
          }
        }
      } else {
        assert !StartsWith(u, text) by {
          if |text| <= |u| {
            assert u[..|text|][0] == u[0];
          }
        }
      }
    }
  }

  // ---------------------------------------------------------------------------
  // Results

  /** A document returned by the query: its id and its fields. */
  datatype QueryDoc = QueryDoc(id: string, data: UserData)

  /** A result row: `{uid: doc.id, ...doc.data()}`. */
  datatype SearchUser = SearchUser(uid: string, username: Option<string>, accountType: Option<string>, email: Option<string>)

  /** The row for a document: the stored fields, and as `uid` the stored
      `uid` field when there is one (the spread overrides the id), else the
      document id. */
  function ToUser(doc: QueryDoc): (u: SearchUser)
    ensures u.uid == if doc.data.uid.Some? then doc.data.uid.value else doc.id
    ensures u.username == doc.data.username && u.accountType == doc.data.accountType && u.email == doc.data.email
  {
    SearchUser(if doc.data.uid.Some? then doc.data.uid.value else doc.id,
               doc.data.username, doc.data.accountType, doc.data.email)
  }

  /** For the documents sign-up stores, keyed by the user's id and holding it
      as `uid`, the row's `uid` is the document id, so tapping a row opens
      the right profile. */
  lemma StoredUserRowKeepsId(uid: string, email: string, username: string, accountType: string)
    ensures ToUser(QueryDoc(uid, NewUserDocument(uid, email, username, accountType))).uid == uid
  {
  }

  /** The `forEach` over the snapshot, pushing one row per document. */
  method CollectUsers(docs: seq<QueryDoc>) returns (users: seq<SearchUser>)
    ensures |users| == |docs|
    ensures forall k :: 0 <= k < |docs| ==> users[k] == ToUser(docs[k])
  {
    users := [];
    var i := 0;
    while i < |docs|
      invariant 0 <= i <= |docs|
      invariant |users| == i
      invariant forall k :: 0 <= k < i ==> users[k] == ToUser(docs[k])
    {
      users := users + [ToUser(docs[i])];
      i := i + 1;
    }
  }

  /** The outcome of `getDocs`. */
  datatype QueryOutcome = Found(docs: seq<QueryDoc>) | QueryThrew

  /** What the list area shows. */
  datatype ResultsView = Spinner | UserRows(users: seq<SearchUser>) | NoUsersFound | EmptyList

  class SearchScreen {
    var searchQuery: string
    var results: seq<SearchUser>
    var loading: bool

    constructor ()
      ensures searchQuery == "" && results == [] && !loading
    {
      searchQuery := "";
      results := [];
      loading := false;
    }

    /** `searchUsers`: a blank query clears the results; any other query is
        sent as a range on its untrimmed text, and the results become the
        returned rows, or none when the query fails. Loading ends false. */
    method SearchUsers(text: string, outcome: QueryOutcome) returns (range: Option<SearchRange>)
      modifies this`results, this`loading
      ensures !loading
      ensures IsBlank(text) ==> range == None && results == []
      ensures !IsBlank(text) ==> range == Some(QueryRange(text))
      ensures !IsBlank(text) && outcome.Found? ==>
        |results| == |outcome.docs| && forall k :: 0 <= k < |results| ==> results[k] == ToUser(outcome.docs[k])
      ensures !IsBlank(text) && outcome.QueryThrew? ==> results == []
    {
      if |Trim(text)| == 0 {
        results := [];
        loading := false;
        return None;
      }
      loading := true;
      range := Some(QueryRange(text));
      match outcome {
        case Found(docs) =>
          var users := CollectUsers(docs);
          results := users;
        case QueryThrew =>
          results := [];
      }
      loading := false;
    }

    /** The list area: a spinner while loading; otherwise the rows, with
        "No users found." in place of an empty list when the raw query is
        not empty, and nothing for an empty one. */
    function Render(): (v: ResultsView)
      reads this
      ensures v == Spinner <==> loading
      ensures v == UserRows(results) <==> !loading && results != []
      ensures v == NoUsersFound <==> !loading && results == [] && searchQuery != ""
      ensures v == EmptyList <==> !loading && results == [] && searchQuery == ""
    {
      if loading then Spinner
      else if results != [] then UserRows(results)
      else if |searchQuery| > 0 then NoUsersFound
      else EmptyList
    }

    predicate ShowsNoUsersFound()
      reads this
    {
      Render() == NoUsersFound
    }

    /** `handleSearchChange`: keep the text and search for it. A query of
        white space alone searches for nothing yet shows "No users found.",
        because the empty-state rule looks at the untrimmed text. */
    method HandleSearchChange(text: string, outcome: QueryOutcome) returns (range: Option<SearchRange>)
      modifies this`searchQuery, this`results, this`loading
      ensures searchQuery == text && !loading
      ensures IsBlank(text) ==> range == None && results == []
      ensures IsBlank(text) ==> (ShowsNoUsersFound() <==> text != "")
      ensures !IsBlank(text) ==> range == Some(QueryRange(text))
      ensures !IsBlank(text) && outcome.Found? ==>
        |results| == |outcome.docs| && forall k :: 0 <= k < |results| ==> results[k] == ToUser(outcome.docs[k])
      ensures !IsBlank(text) && outcome.QueryThrew? ==> results == [] && ShowsNoUsersFound()
    {
      searchQuery := text;
      range := SearchUsers(text, outcome);
    }
  }
}
