/** The route table of src/AppRoutes.tsx: a pure function from the session
    store's state and a path to the element rendered there. */
module Routes {
  import opened Common
  import opened SessionModel
  import AuthStore
  import LegacyAuthStore
  import Feed

  /** The screens the table can render. */
  datatype Screen = HomeScreen | FormScreen | FeedScreen

  /** A rendered screen, a redirect, or no matching route. */
  datatype Element = Render(screen: Screen) | Redirect(to: string) | NoRoute

  /** The only paths this table routes. */
  const RoutedPaths: set<string> := {"/", "/cadastro", FeedPath}

  /** `AppRoutes`: `/` and `/cadastro` render unconditionally; `/lista`
      renders the feed when an identity is present and otherwise redirects
      to `/`. Only `user` is read: neither `session` nor `loading`. */
  function AppRoutes(st: AuthState, path: string): (e: Element)
    ensures path == "/" ==> e == Render(HomeScreen)
    ensures path == "/cadastro" ==> e == Render(FormScreen)
    ensures path == FeedPath ==> (e == Render(FeedScreen) <==> st.user.Some?)
    ensures path == FeedPath && st.user.None? ==> e == Redirect("/")
    ensures path !in RoutedPaths <==> e == NoRoute
    ensures e == Render(FeedScreen) ==> st.user.Some?
  {
    if path == "/" then Render(HomeScreen)
    else if path == "/cadastro" then Render(FormScreen)
    else if path == FeedPath then (if st.user.Some? then Render(FeedScreen) else Redirect("/"))
    else NoRoute
  }

  /** The guard reads only the identity: two states with the same identity
      route every path the same way, whether loading or not. */
  lemma GuardReadsOnlyUser(a: AuthState, b: AuthState, path: string)
    requires a.user == b.user
    ensures AppRoutes(a, path) == AppRoutes(b, path)
  {
  }

  /** With nobody signed in, no path reaches the feed. */
  lemma SignedOutNeverReachesFeed(st: AuthState, path: string)
    requires st.user.None?
    ensures AppRoutes(st, path) != Render(FeedScreen)
  {
  }

  /** After a logout in the newer store the feed is closed, whatever
      `signOut` did. */
  lemma LogoutClosesFeed(st: AuthState, reply: SignOutReply)
    ensures AppRoutes(AuthStore.Step(st, Logout(reply)), FeedPath) == Redirect("/")
  {
  }

  /** After a logout in the older store the feed stays open until a
      notification reports that the session ended. */
  lemma LegacyLogoutKeepsFeedOpen(st: AuthState, reply: SignOutReply)
    requires st.user.Some?
    ensures AppRoutes(LegacyAuthStore.Step(st, Logout(reply)), FeedPath) == Render(FeedScreen)
  {
  }

  /** The table has no entry for profile pages: the feed's `/user/<id>`
      links match none of its routes. */
  lemma ProfileLinksUnrouted(st: AuthState, id: string)
    ensures AppRoutes(st, Feed.UserPath(id)) == NoRoute
  {
    var path := Feed.UserPath(id);
    assert path[1] == 'u';
    assert path != "/" && path != "/cadastro" && path != FeedPath by {
      assert "/cadastro"[1] == 'c' && FeedPath[1] == 'l';
    }
  }
}
