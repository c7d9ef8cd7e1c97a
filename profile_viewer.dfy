/** The profile page of src/Views/user.tsx: where the profile comes from
    (a generated user handed over by the feed, or the `users` row fetched
    by the path's identifier), the page's two state slots, and what the
    page shows for them. */
module ProfileViewer {
  import opened Common

  /** A profile as the page holds it: a stored row (whose columns may be
      null) or the mapping of a generated user. */
  datatype UserProfile = UserProfile(
    username: Option<string>, firstName: Option<string>, lastName: Option<string>,
    about: Option<string>, city: Option<string>, region: Option<string>,
    photoUrl: Option<string>, coverPhotoUrl: Option<string>)

  const GeneratedAbout := "Perfil gerado automaticamente pela API RandomUser."

  /** The large picture, or the medium one when the large one is empty. */
  function GeneratedPicture(fake: FakeUser): (url: string)
    ensures url != "" <==> fake.pictureLarge != "" || fake.pictureMedium != ""
    ensures url == fake.pictureLarge || url == fake.pictureMedium
    ensures fake.pictureLarge != "" ==> url == fake.pictureLarge
    ensures fake.pictureLarge == "" ==> url == fake.pictureMedium
  {
    if fake.pictureLarge != "" then fake.pictureLarge else fake.pictureMedium
  }

  /** A generated user as a profile: login name, first and last name, a
      fixed description, city, the country as the region, the picture,
      and no cover. */
  function FromGenerated(fake: FakeUser): (p: UserProfile)
    ensures p.username == Some(fake.loginName)
    ensures p.firstName == Some(fake.first) && p.lastName == Some(fake.last)
    ensures p.about == Some(GeneratedAbout)
    ensures p.city == Some(fake.city) && p.region == Some(fake.country)
    ensures p.photoUrl == Some(GeneratedPicture(fake)) && p.coverPhotoUrl.None?
  {
    UserProfile(Some(fake.loginName), Some(fake.first), Some(fake.last), Some(GeneratedAbout),
      Some(fake.city), Some(fake.country), Some(GeneratedPicture(fake)), None)
  }

  /** What the row fetch does: it throws, returns an error, or returns its
      data (the row, or null). */
  datatype RowFetch = FetchThrew | FetchError | FetchRow(row: Option<UserProfile>)

  /** The page's state: the profile shown (none yet) and whether it is
      still loading. */
  datatype PageState = PageState(profile: Option<UserProfile>, loading: bool)

  /** `useState(null)` and `useState(true)`. */
  const Mounted := PageState(None, true)

  /** The identifier the row fetch asks for: none when a generated user was
      handed over or the path has no identifier. */
  function RowQuery(payload: Option<FakeUser>, userId: Option<string>): (q: Option<string>)
    ensures q.Some? <==> payload.None? && Present(userId)
    ensures q.Some? ==> q == userId
  {
    if payload.None? && Present(userId) then userId else None
  }

  /** `getProfile`: a handed-over generated user is shown at once; without
      one and without an identifier nothing happens (loading stays as it
      was); otherwise the fetched row replaces the profile, a failed fetch
      leaves the profile as it was, and loading ends either way. */
  function Load(st: PageState, payload: Option<FakeUser>, userId: Option<string>, fetch: RowFetch): (r: PageState)
    ensures payload.Some? ==> r == PageState(Some(FromGenerated(payload.value)), false)
    ensures RowQuery(payload, userId).None? && payload.None? ==> r == st
    ensures RowQuery(payload, userId).Some? ==> !r.loading
    ensures RowQuery(payload, userId).Some? && fetch.FetchRow? ==> r.profile == fetch.row
    ensures RowQuery(payload, userId).Some? && !fetch.FetchRow? ==> r.profile == st.profile
  {
    if payload.Some? then PageState(Some(FromGenerated(payload.value)), false)
    else if !Present(userId) then st
    else if fetch.FetchRow? then PageState(fetch.row, false)
    else st.(loading := false)
  }

  /** `currentUser?.id === userId`, as written: `undefined === undefined`
      holds, so with nobody signed in and no identifier in the path it is
      true as well. */
  function IsOwnProfile(currentUser: Option<AuthUser>, userId: Option<string>): (own: bool)
    ensures userId.Some? ==> (own <==> currentUser.Some? && currentUser.value.id == userId.value)
    ensures userId.None? ==> (own <==> currentUser.None?)
  {
    match (currentUser, userId)
    case (Some(u), Some(id)) => u.id == id
    case (None, None) => true
    case _ => false
  }

  /** With an identifier in the path, a profile is one's own exactly when
      somebody is signed in with that identifier. */
  lemma OwnProfileIffSameIdentity(currentUser: Option<AuthUser>, id: string)
    ensures IsOwnProfile(currentUser, Some(id)) <==> currentUser.Some? && currentUser.value.id == id
  {
  }

  /** The written comparison also holds when both sides are missing. */
  lemma OwnProfileWithoutIdentifier()
    ensures IsOwnProfile(None, None)
  {
  }

  /** The location line: shown when the city or the region is non-empty,
      with ", " between them only when both are. */
  function LocationLine(city: Option<string>, region: Option<string>): (line: Option<string>)
    ensures line.Some? <==> Present(city) || Present(region)
    ensures Present(city) && Present(region) ==> line == Some(city.value + ", " + region.value)
    ensures Present(city) && !Present(region) ==> line == Some(city.value)
    ensures !Present(city) && Present(region) ==> line == Some(region.value)
  {
    var c, r := OrEmpty(city), OrEmpty(region);
    assert !Present(city) ==> c + r == r;
    assert !Present(region) ==> c + r == c;
    if !(Present(city) || Present(region)) then None
    else if Present(city) && Present(region) then Some(c + ", " + r)
    else Some(c + r)
  }

  const NoDescription := "Sem descrição."

  /** What the detail view shows besides the pictures and names. */
  datatype ProfileView = ProfileView(
    handle: string, about: string, location: Option<string>,
    editTarget: Option<string>, showConnect: bool, email: Option<string>,
    photo: Option<string>, cover: Option<string>)

  /** The three things the page can show. */
  datatype Screen = Loading | NotFound(back: string) | Detail(view: ProfileView)

  const EditPath := "/cadastro"

  /** The view of a loaded profile for the signed-in user and the path's
      identifier. */
  function View(p: UserProfile, currentUser: Option<AuthUser>, userId: Option<string>): (v: ProfileView)
    ensures v.editTarget.Some? <==> IsOwnProfile(currentUser, userId)
    ensures v.editTarget.Some? ==> v.editTarget.value == EditPath
    ensures v.showConnect <==> !IsOwnProfile(currentUser, userId)
    ensures v.email.Some? <==> IsOwnProfile(currentUser, userId) && currentUser.Some? && Present(currentUser.value.email)
    ensures v.email.Some? ==> v.email == currentUser.value.email
    ensures v.about == if Present(p.about) then p.about.value else NoDescription
    ensures v.location == LocationLine(p.city, p.region)
    ensures v.photo.Some? <==> Present(p.photoUrl)
    ensures v.cover.Some? <==> Present(p.coverPhotoUrl)
  {
    var own := IsOwnProfile(currentUser, userId);
    ProfileView(
      "@" + OrEmpty(p.username),
      if Present(p.about) then p.about.value else NoDescription,
      LocationLine(p.city, p.region),
      if own then Some(EditPath) else None,
      !own,
      if own && currentUser.Some? && Present(currentUser.value.email) then currentUser.value.email else None,
      OrNull(p.photoUrl),
      OrNull(p.coverPhotoUrl))
  }

  /** Loading first, then "not found" (whose only action goes back to the
      feed) when there is no profile, then the detail view. */
  function Render(st: PageState, currentUser: Option<AuthUser>, userId: Option<string>): (s: Screen)
    ensures s.Loading? <==> st.loading
    ensures s.NotFound? <==> !st.loading && st.profile.None?
    ensures s.NotFound? ==> s.back == FeedPath
    ensures s.Detail? ==> st.profile.Some? && s.view == View(st.profile.value, currentUser, userId)
  {
    if st.loading then Loading
    else if st.profile.None? then NotFound(FeedPath)
    else Detail(View(st.profile.value, currentUser, userId))
  }

  /** What a freshly opened page shows once `getProfile` has run: a handed
      over generated user is shown without any row fetch; with neither a
      generated user nor an identifier the page keeps loading; a failed
      fetch or a null row shows "not found"; a fetched row is shown. */
  lemma FirstLoadOutcome(payload: Option<FakeUser>, userId: Option<string>, fetch: RowFetch, currentUser: Option<AuthUser>)
    ensures var s := Render(Load(Mounted, payload, userId, fetch), currentUser, userId);
      && (payload.Some? ==> RowQuery(payload, userId).None? && s == Detail(View(FromGenerated(payload.value), currentUser, userId)))
      && (s.Loading? <==> payload.None? && !Present(userId))
      && (s.NotFound? <==> payload.None? && Present(userId) && !(fetch.FetchRow? && fetch.row.Some?))
      && (payload.None? && Present(userId) && fetch.FetchRow? && fetch.row.Some? ==>
            s == Detail(View(fetch.row.value, currentUser, userId)))
  {
  }

  /** Signed in as A, A's page offers editing and B's page offers to
      connect, never both and never neither. */
  lemma EditOrConnect(p: UserProfile, a: AuthUser, b: string)
    requires a.id != b
    ensures View(p, Some(a), Some(a.id)).editTarget == Some(EditPath)
    ensures !View(p, Some(a), Some(a.id)).showConnect
    ensures View(p, Some(a), Some(b)).editTarget.None?
    ensures View(p, Some(a), Some(b)).showConnect
  {
  }

  /** The e-mail shown is only ever the signed-in user's own, on their own
      page. */
  lemma EmailOnlyOnOwnPage(p: UserProfile, currentUser: Option<AuthUser>, userId: Option<string>)
    requires View(p, currentUser, userId).email.Some?
    ensures currentUser.Some? && userId == Some(currentUser.value.id)
    ensures View(p, currentUser, userId).email == currentUser.value.email
  {
  }

  /** A generated user with any picture is shown with a picture, and never
      with a cover. */
  lemma GeneratedProfilePictures(fake: FakeUser, currentUser: Option<AuthUser>, userId: Option<string>)
    ensures View(FromGenerated(fake), currentUser, userId).photo.Some?
      <==> fake.pictureLarge != "" || fake.pictureMedium != ""
    ensures View(FromGenerated(fake), currentUser, userId).cover.None?
  {
  }

  /** The state is not reset between loads: a failed fetch for a new
      identifier keeps showing the profile loaded before. */
  lemma FailedRefetchKeepsPreviousProfile(st: PageState, userId: string, fetch: RowFetch)
    requires userId != "" && !fetch.FetchRow?
    ensures Load(st, None, Some(userId), fetch) == PageState(st.profile, false)
  {
  }

  /** The page component's two state slots. */
  class UserPage {
    var profile: Option<UserProfile>
    var loading: bool

    function State(): PageState
      reads this
    {
      PageState(profile, loading)
    }

    constructor ()
      ensures State() == Mounted
    {
      profile := None;
      loading := true;
    }

    /** `getProfile`, with early returns; the result is the identifier the
        row fetch asked for, if it was made. */
    method GetProfile(payload: Option<FakeUser>, userId: Option<string>, fetch: RowFetch) returns (query: Option<string>)
      modifies this
      ensures State() == Load(old(State()), payload, userId, fetch)
      ensures query == RowQuery(payload, userId)
    {
      if payload.Some? {
        profile := Some(FromGenerated(payload.value));
        loading := false;
        return None;
      }
      if !Present(userId) {
        return None;
      }
      query := userId;
      match fetch {
        case FetchRow(row) => profile := row;
        case _ =>
      }
      loading := false;
    }
  }
}
