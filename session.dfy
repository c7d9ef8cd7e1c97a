/** The three state slots of the session store (`user`, `session`,
    `loading`), the events that drive it, and the two transitions both
    variants of the store share: the initial restore and the auth-change
    notification. The authentication service itself is replaced by the
    replies it can give. */
module SessionModel {
  import opened Common

  /** The store's state: the cached identity, the session, and whether the
      initial restore is still pending. */
  datatype AuthState = AuthState(user: Option<AuthUser>, session: Option<Session>, loading: bool)

  /** The state before anything has happened: nobody signed in, loading. */
  const Initial := AuthState(None, None, true)

  /** `session?.user ?? null`: the identity a session carries, or none. */
  function UserOf(s: Option<Session>): (u: Option<AuthUser>)
    ensures u.None? <==> s.None?
    ensures s.Some? ==> u == Some(s.value.user)
  {
    match s
    case Some(sess) => Some(sess.user)
    case None => None
  }

  /** The invariant every update keeps: the cached identity is the session's
      identity, so there is no identity without a session. */
  predicate Consistent(st: AuthState)
  {
    st.user == UserOf(st.session)
  }

  /** An error reported by the authentication service. */
  datatype AuthError = AuthError(message: string)

  /** What `getSession` does: it returns a (possibly absent) session, or it
      throws. */
  datatype RestoreReply = Restored(session: Option<Session>) | RestoreThrew

  /** What `signInWithPassword` does. */
  datatype LoginReply = LoginOk | LoginFailed(error: AuthError)

  /** The data `signUp` returns on success. */
  datatype SignUpData = SignUpData(user: Option<AuthUser>, session: Option<Session>)

  /** What `signUp` does. */
  datatype SignUpReply = SignUpOk(data: SignUpData) | SignUpFailed(error: AuthError)

  /** What `signOut` does: succeed, return an error, or throw. */
  datatype SignOutReply = SignedOut | SignOutError(error: AuthError) | SignOutThrew(error: AuthError)

  /** The discrete events the store reacts to. */
  datatype Event =
    | Restore(restore: RestoreReply)
    | AuthChange(next: Option<Session>)
    | Login(login: LoginReply)
    | SignUp(signUp: SignUpReply)
    | Logout(signOut: SignOutReply)

  /** The initial restore (`checkSession`): a returned session replaces the
      session and identity together; a throw leaves both as they were;
      loading is cleared either way. */
  function AfterRestore(st: AuthState, reply: RestoreReply): (r: AuthState)
    ensures !r.loading
    ensures reply.Restored? ==> r.session == reply.session && Consistent(r)
    ensures reply.RestoreThrew? ==> r.user == st.user && r.session == st.session
  {
    match reply
    case Restored(s) => AuthState(UserOf(s), s, false)
    case RestoreThrew => st.(loading := false)
  }

  /** The auth-change callback: the notified session replaces the session,
      the identity is derived from it, and loading is cleared. */
  function AfterAuthChange(st: AuthState, next: Option<Session>): (r: AuthState)
    ensures r.session == next && Consistent(r) && !r.loading
  {
    AuthState(UserOf(next), next, false)
  }
}
