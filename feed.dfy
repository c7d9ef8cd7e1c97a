/** The feed of src/Views/lista.tsx: the registered users from the `users`
    table, then five generated suggestions from the random-user service
    behind a CORS relay, fetched one after the other in a single `try`;
    and the two lists it renders, whose links open the profile page. */
module Feed {
  import opened Common
  import ProfileViewer

  /** A row of the `users` table as the feed reads it. */
  datatype RealUser = RealUser(
    id: string, username: Option<string>, firstName: Option<string>, lastName: Option<string>,
    email: Option<string>, photoUrl: Option<string>, about: Option<string>)

  /** What the table query does: it throws, returns an error, or returns
      the rows (possibly null). */
  datatype UsersReply = UsersThrew | UsersError | Users(data: Option<seq<RealUser>>)

  /** What the suggestions request does: it throws (network or JSON), has
      a non-ok status, or returns the generated users. */
  datatype SuggestionsReply = SuggestionsThrew | SuggestionsNotOk(status: int) | Suggestions(results: seq<FakeUser>)

  /** The calls `fetchData` makes, in order. */
  datatype Request = UsersQuery | SuggestionsRequest(url: string)

  /** The relay URL with the encoded random-user URL (five users, `nat=br`). */
  const SuggestionsUrl :=
    "https://api.allorigins.win/raw?url=https%3A%2F%2Frandomuser.me%2Fapi%2F%3Fresults%3D5%26nat%3Dbr"

  /** The feed's three state slots. */
  datatype FeedState = FeedState(realUsers: seq<RealUser>, fakeUsers: seq<FakeUser>, loading: bool)

  /** `useState([])`, `useState([])`, `useState(true)`. */
  const Mounted := FeedState([], [], true)

  /** The calls made: the table query always; the suggestions request
      unless the query threw (a returned error does not stop it). */
  function Requests(users: UsersReply): (reqs: seq<Request>)
    ensures |reqs| >= 1 && reqs[0] == UsersQuery
    ensures SuggestionsRequest(SuggestionsUrl) in reqs <==> !users.UsersThrew?
  {
    if users.UsersThrew? then [UsersQuery] else [UsersQuery, SuggestionsRequest(SuggestionsUrl)]
  }

  /** The state after `fetchData`. */
  function Fetched(st: FeedState, users: UsersReply, suggestions: SuggestionsReply): (r: FeedState)
    ensures !r.loading
    ensures users.Users? && users.data.Some? ==> r.realUsers == users.data.value
    ensures users.Users? && users.data.None? ==> r.realUsers == []
    ensures !users.Users? ==> r.realUsers == st.realUsers
    ensures users.UsersThrew? ==> r.fakeUsers == st.fakeUsers
    ensures !users.UsersThrew? && suggestions.Suggestions? ==> r.fakeUsers == suggestions.results
    ensures !suggestions.Suggestions? ==> r.fakeUsers == st.fakeUsers
  {
    var registered := if users.Users? then (if users.data.Some? then users.data.value else []) else st.realUsers;
    var suggested := if !users.UsersThrew? && suggestions.Suggestions? then suggestions.results else st.fakeUsers;
    FeedState(registered, suggested, false)
  }

  /** Loading ends whatever the two calls do. */
  lemma FetchAlwaysSettles(st: FeedState, users: UsersReply, suggestions: SuggestionsReply)
    ensures !Fetched(st, users, suggestions).loading
  {
  }

  /** The registered users shown are the returned rows (none for a null
      reply); a failed query keeps the list as it was, whatever the
      suggestions request does. */
  lemma RegisteredUsersIndependentOfSuggestions(st: FeedState, users: UsersReply, s1: SuggestionsReply, s2: SuggestionsReply)
    ensures Fetched(st, users, s1).realUsers == Fetched(st, users, s2).realUsers
    ensures users.Users? && users.data.Some? ==> Fetched(st, users, s1).realUsers == users.data.value
    ensures users.Users? && users.data.None? ==> Fetched(st, users, s1).realUsers == []
    ensures !users.Users? ==> Fetched(st, users, s1).realUsers == st.realUsers
  {
  }

  /** A returned query error does not stop the suggestions: they are shown
      exactly when the request succeeds. */
  lemma QueryErrorKeepsSuggestions(st: FeedState, suggestions: SuggestionsReply)
    ensures suggestions.Suggestions? ==> Fetched(st, UsersError, suggestions).fakeUsers == suggestions.results
    ensures !suggestions.Suggestions? ==> Fetched(st, UsersError, suggestions).fakeUsers == st.fakeUsers
  {
  }

  /** The two calls are made one after the other in one `try`: a query
      that throws skips the suggestions request, so no suggestion is
      shown whatever the service would have answered. */
  lemma ThrownQuerySkipsSuggestions(st: FeedState, suggestions: SuggestionsReply)
    ensures Requests(UsersThrew) == [UsersQuery]
    ensures Fetched(st, UsersThrew, suggestions).fakeUsers == st.fakeUsers
    ensures Fetched(st, UsersThrew, suggestions).realUsers == st.realUsers
  {
  }

  /** The feed component's state slots. */
  class FeedPage {
    var realUsers: seq<RealUser>
    var fakeUsers: seq<FakeUser>
    var loading: bool

    function State(): FeedState
      reads this
    {
      FeedState(realUsers, fakeUsers, loading)
    }

    constructor ()
      ensures State() == Mounted
    {
      realUsers := [];
      fakeUsers := [];
      loading := true;
    }

    /** `fetchData`: the query, then (unless it threw) the request; a
        non-ok status throws; `finally` clears loading. The result is the
        calls made. */
    method FetchData(users: UsersReply, suggestions: SuggestionsReply) returns (requests: seq<Request>)
      modifies this
      ensures State() == Fetched(old(State()), users, suggestions)
      ensures requests == Requests(users)
    {
      requests := [UsersQuery];
      match users {
        case UsersThrew =>
          loading := false;
          return;
        case UsersError =>
        case Users(data) =>
          realUsers := if data.Some? then data.value else [];
      }
      requests := requests + [SuggestionsRequest(SuggestionsUrl)];
      if suggestions.Suggestions? {
        fakeUsers := suggestions.results;
      }
      loading := false;
    }
  }

  // ---------------------------------------------------------------------
  // Rendering
  // ---------------------------------------------------------------------

  /** The profile page path of an identifier. */
  function UserPath(id: string): (path: string)
    ensures |path| == |id| + 6 && path[6..] == id
  {
    "/user/" + id
  }

  /** Distinct identifiers give distinct profile links. */
  lemma UserPathInjective(a: string, b: string)
    requires UserPath(a) == UserPath(b)
    ensures a == b
  {
    assert a == UserPath(a)[6..];
  }

  /** The handle shown for a registered user: the user name, or
      "sem_usuario" when it is missing or empty. */
  function Handle(username: Option<string>): (h: string)
    ensures h != "@"
    ensures Present(username) ==> h == "@" + username.value
    ensures !Present(username) ==> h == "@sem_usuario"
  {
    "@" + (if Present(username) then username.value else "sem_usuario")
  }

  /** An item of the "Minha rede" list. */
  datatype MemberItem = EmptyNetwork | MemberLink(to: string, handle: string, photo: Option<string>)

  /** One placeholder item when there are no registered users, otherwise
      one link per user, in order. */
  function MemberItems(users: seq<RealUser>): (items: seq<MemberItem>)
    ensures |users| == 0 ==> items == [EmptyNetwork]
    ensures |users| > 0 ==> |items| == |users|
    ensures |users| > 0 ==> forall i :: 0 <= i < |users| ==>
      items[i] == MemberLink(UserPath(users[i].id), Handle(users[i].username), OrNull(users[i].photoUrl))
  {
    if |users| == 0 then
      [EmptyNetwork]
    else
      seq(|users|, i requires 0 <= i < |users| =>
            MemberLink(UserPath(users[i].id), Handle(users[i].username), OrNull(users[i].photoUrl)))
  }

  /** Users with distinct identifiers get distinct links. */
  lemma MemberLinksDistinct(users: seq<RealUser>, i: nat, j: nat)
    requires i < |users| && j < |users| && users[i].id != users[j].id
    ensures MemberItems(users)[i].to != MemberItems(users)[j].to
  {
    if MemberItems(users)[i].to == MemberItems(users)[j].to {
      UserPathInjective(users[i].id, users[j].id);
    }
  }

  /** An item of the suggestions list: a link to the generated user's
      profile path that hands the generated user over as navigation
      state. */
  datatype SuggestionLink = SuggestionLink(to: string, state: FakeUser, picture: string, place: string)

  function SuggestionItems(fakes: seq<FakeUser>): (items: seq<SuggestionLink>)
    ensures |items| == |fakes|
    ensures forall i :: 0 <= i < |fakes| ==>
      items[i].to == UserPath(fakes[i].uuid) && items[i].state == fakes[i]
      && items[i].picture == fakes[i].pictureMedium
      && items[i].place == fakes[i].city + ", " + fakes[i].country
  {
    seq(|fakes|, i requires 0 <= i < |fakes| =>
      SuggestionLink(UserPath(fakes[i].uuid), fakes[i], fakes[i].pictureMedium, fakes[i].city + ", " + fakes[i].country))
  }

  /** Opening a suggestion shows that generated user on the profile page
      without a table fetch, whatever the fetch would have returned. */
  lemma SuggestionOpensWithoutFetch(fakes: seq<FakeUser>, i: nat, currentUser: Option<AuthUser>, fetch: ProfileViewer.RowFetch)
    requires i < |fakes|
    ensures var link := SuggestionItems(fakes)[i];
      var userId := Some(link.to[6..]);
      && ProfileViewer.RowQuery(Some(link.state), userId).None?
      && ProfileViewer.Render(ProfileViewer.Load(ProfileViewer.Mounted, Some(link.state), userId, fetch), currentUser, userId)
         == ProfileViewer.Detail(ProfileViewer.View(ProfileViewer.FromGenerated(fakes[i]), currentUser, userId))
  {
  }

  /** What the feed shows. */
  datatype FeedScreen = FeedLoading | FeedLists(members: seq<MemberItem>, suggestions: seq<SuggestionLink>)

  function RenderFeed(st: FeedState): (s: FeedScreen)
    ensures s.FeedLoading? <==> st.loading
    ensures s.FeedLists? ==> s.members == MemberItems(st.realUsers) && s.suggestions == SuggestionItems(st.fakeUsers)
  {
    if st.loading then FeedLoading else FeedLists(MemberItems(st.realUsers), SuggestionItems(st.fakeUsers))
  }

  /** Once mounted and fetched, the feed shows the lists: the placeholder
      when no user is registered, and no suggestions when the request
      failed. */
  lemma FirstFetchShowsLists(users: UsersReply, suggestions: SuggestionsReply)
    ensures var s := RenderFeed(Fetched(Mounted, users, suggestions));
      && s.FeedLists?
      && (!(users.Users? && users.data.Some? && |users.data.value| > 0) ==> s.members == [EmptyNetwork])
      && (!(!users.UsersThrew? && suggestions.Suggestions?) ==> s.suggestions == [])
  {
  }
}
