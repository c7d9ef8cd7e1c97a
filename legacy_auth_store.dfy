/** The older session store of viveo-teste/src/contexts/AuthContext.tsx.
    Restore and auth-change behave as in the newer store; `signup` returns
    no data, and `logout` rethrows a `signOut` error and never clears the
    identity or session itself: only a later notification does. */
module LegacyAuthStore {
  import opened Common
  import opened SessionModel
  import AuthStore

  /** The effect of one event on the older store. */
  function Step(st: AuthState, ev: Event): (r: AuthState)
    ensures Consistent(st) ==> Consistent(r)
    ensures !st.loading ==> !r.loading
    ensures (ev.Restore? || ev.AuthChange?) ==> !r.loading
    ensures (ev.Login? || ev.SignUp? || ev.Logout?) ==> r == st
  {
    match ev
    case Restore(reply) => AfterRestore(st, reply)
    case AuthChange(next) => AfterAuthChange(st, next)
    case Login(_) => st
    case SignUp(_) => st
    case Logout(_) => st
  }

  /** The state after a sequence of events, first to last. */
  function Run(st: AuthState, evs: seq<Event>): AuthState
    decreases |evs|
  {
    if |evs| == 0 then st else Run(Step(st, evs[0]), evs[1..])
  }

  /** An event that reports that there is no session. */
  predicate ReportsNoSession(ev: Event)
  {
    (ev.AuthChange? && ev.next.None?) || (ev.Restore? && ev.restore == Restored(None))
  }

  /** Every update writes the identity and the session together. */
  lemma {:induction false} RunKeepsConsistent(st: AuthState, evs: seq<Event>)
    requires Consistent(st)
    ensures Consistent(Run(st, evs))
    decreases |evs|
  {
    if |evs| > 0 {
      RunKeepsConsistent(Step(st, evs[0]), evs[1..]);
    }
  }

  /** Loading is only ever set to false: once false it stays false. */
  lemma {:induction false} LoadingNeverReturns(st: AuthState, evs: seq<Event>)
    requires !st.loading
    ensures !Run(st, evs).loading
    decreases |evs|
  {
    if |evs| > 0 {
      LoadingNeverReturns(Step(st, evs[0]), evs[1..]);
    }
  }

  /** A signed-in identity is dropped only by a notification (or restore)
      that reports no session; login, signup and logout never drop it. */
  lemma {:induction false} OnlyNotificationsSignOut(st: AuthState, evs: seq<Event>)
    requires st.user.Some? && Run(st, evs).user.None?
    ensures exists i :: 0 <= i < |evs| && ReportsNoSession(evs[i])
    decreases |evs|
  {
    if |evs| == 0 {
      assert false;
    } else {
      var next := Step(st, evs[0]);
      if ReportsNoSession(evs[0]) {
        assert 0 < |evs| && ReportsNoSession(evs[0]);
      } else if next.user.None? {
        // Only a session-reporting event can drop the identity.
        assert false;
      } else {
        OnlyNotificationsSignOut(next, evs[1..]);
        var j :| 0 <= j < |evs[1..]| && ReportsNoSession(evs[1..][j]);
        assert ReportsNoSession(evs[j + 1]);
      }
    }
  }

  /** The observable difference between the two stores: after a logout
      whose `signOut` failed, the newer store has nobody signed in, the
      older one still has the same identity and session. */
  lemma LogoutVariantsDiffer(st: AuthState, e: AuthError)
    requires st.user.Some?
    ensures AuthStore.Step(st, Logout(SignOutError(e))).user.None?
    ensures Step(st, Logout(SignOutError(e))).user == st.user
    ensures Step(st, Logout(SignOutError(e))).session == st.session
  {
  }

  /** The older provider component. */
  class AuthProvider {
    var user: Option<AuthUser>
    var session: Option<Session>
    var loading: bool

    function State(): AuthState
      reads this
    {
      AuthState(user, session, loading)
    }

    constructor ()
      ensures State() == Initial
    {
      user := None;
      session := None;
      loading := true;
    }

    /** `checkSession`: try the restore, clear loading in `finally`. */
    method CheckSession(reply: RestoreReply)
      modifies this
      ensures State() == Step(old(State()), Restore(reply))
    {
      match reply {
        case Restored(s) =>
          session := s;
          user := UserOf(s);
        case RestoreThrew =>
      }
      loading := false;
    }

    /** The `onAuthStateChange` callback. */
    method OnAuthStateChange(next: Option<Session>)
      modifies this
      ensures State() == Step(old(State()), AuthChange(next))
    {
      session := next;
      user := UserOf(next);
      loading := false;
    }

    /** `login`: throws the service's error, changes no local state. */
    method Login(reply: LoginReply) returns (thrown: Option<AuthError>)
      ensures thrown.Some? <==> reply.LoginFailed?
      ensures thrown.Some? ==> thrown.value == reply.error
    {
      thrown := if reply.LoginFailed? then Some(reply.error) else None;
    }

    /** `signup`: returns nothing; throws the service's error. */
    method SignUp(reply: SignUpReply) returns (thrown: Option<AuthError>)
      ensures thrown.Some? <==> reply.SignUpFailed?
      ensures thrown.Some? ==> thrown.value == reply.error
    {
      thrown := if reply.SignUpFailed? then Some(reply.error) else None;
    }

    /** `logout`: a returned or thrown `signOut` error reaches the caller;
        the method modifies nothing, so the local identity and session are
        left alone (as `Step` says of a logout event). */
    method Logout(reply: SignOutReply) returns (thrown: Option<AuthError>)
      ensures thrown.Some? <==> !reply.SignedOut?
      ensures thrown.Some? ==> thrown.value == reply.error
    {
      thrown := if reply.SignedOut? then None else Some(reply.error);
    }
  }
}
