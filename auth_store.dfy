/** The session store of src/contexts/AuthContext.tsx. Its `logout` clears
    the local identity and session whatever `signOut` does, and never
    propagates the error. */
module AuthStore {
  import opened Common
  import opened SessionModel

  /** The effect of one event on the store. */
  function Step(st: AuthState, ev: Event): (r: AuthState)
    ensures Consistent(st) ==> Consistent(r)
    ensures !st.loading ==> !r.loading
    ensures (ev.Restore? || ev.AuthChange?) ==> !r.loading
    ensures ev.Logout? ==> r.user.None? && r.session.None? && r.loading == st.loading
    ensures (ev.Login? || ev.SignUp?) ==> r == st
  {
    match ev
    case Restore(reply) => AfterRestore(st, reply)
    case AuthChange(next) => AfterAuthChange(st, next)
    case Login(_) => st
    case SignUp(_) => st
    case Logout(_) => st.(user := None, session := None)
  }

  /** The state after a sequence of events, first to last. */
  function Run(st: AuthState, evs: seq<Event>): AuthState
    decreases |evs|
  {
    if |evs| == 0 then st else Run(Step(st, evs[0]), evs[1..])
  }

  lemma {:induction false} RunAppend(st: AuthState, a: seq<Event>, b: seq<Event>)
    ensures Run(st, a + b) == Run(Run(st, a), b)
    decreases |a|
  {
    if |a| == 0 {
      assert a + b == b;
    } else {
      assert (a + b)[0] == a[0];
      assert (a + b)[1..] == a[1..] + b;
      RunAppend(Step(st, a[0]), a[1..], b);
    }
  }

  /** Every update writes the identity and the session together. */
  lemma {:induction false} RunKeepsConsistent(st: AuthState, evs: seq<Event>)
    requires Consistent(st)
    ensures Consistent(Run(st, evs))
    decreases |evs|
  {
    if |evs| > 0 {
      RunKeepsConsistent(Step(st, evs[0]), evs[1..]);
    }
  }

  /** In every reachable state there is no identity without a session. */
  lemma ReachableStatesConsistent(evs: seq<Event>)
    ensures Consistent(Run(Initial, evs))
    ensures Run(Initial, evs).session.None? ==> Run(Initial, evs).user.None?
  {
    RunKeepsConsistent(Initial, evs);
  }

  /** Loading is only ever set to false: once false it stays false. */
  lemma {:induction false} LoadingNeverReturns(st: AuthState, evs: seq<Event>)
    requires !st.loading
    ensures !Run(st, evs).loading
    decreases |evs|
  {
    if |evs| > 0 {
      LoadingNeverReturns(Step(st, evs[0]), evs[1..]);
    }
  }

  /** Once the restore or an auth-change event has happened, the store is
      no longer loading. */
  lemma {:induction false} SettledAfterSessionEvent(st: AuthState, evs: seq<Event>, i: nat)
    requires i < |evs| && (evs[i].Restore? || evs[i].AuthChange?)
    ensures !Run(st, evs).loading
    decreases |evs|
  {
    if i == 0 {
      LoadingNeverReturns(Step(st, evs[0]), evs[1..]);
    } else {
      SettledAfterSessionEvent(Step(st, evs[0]), evs[1..], i - 1);
    }
  }

  /** Whatever came before and whatever `signOut` does, a logout leaves
      nobody signed in. */
  lemma LogoutAlwaysSignsOut(st: AuthState, evs: seq<Event>, reply: SignOutReply)
    ensures Run(st, evs + [Logout(reply)]).user.None?
    ensures Run(st, evs + [Logout(reply)]).session.None?
  {
    RunAppend(st, evs, [Logout(reply)]);
  }

  /** The provider component: three state slots that the effect, the
      auth-change callback and `logout` overwrite. */
  class AuthProvider {
    var user: Option<AuthUser>
    var session: Option<Session>
    var loading: bool

    function State(): AuthState
      reads this
    {
      AuthState(user, session, loading)
    }

    /** `useState(null)`, `useState(null)`, `useState(true)`. */
    constructor ()
      ensures State() == Initial
    {
      user := None;
      session := None;
      loading := true;
    }

    /** `checkSession`: try the restore, clear loading in `finally`. */
    method CheckSession(reply: RestoreReply)
      modifies this
      ensures State() == Step(old(State()), Restore(reply))
    {
      match reply {
        case Restored(s) =>
          session := s;
          user := UserOf(s);
        case RestoreThrew =>
      }
      loading := false;
    }

    /** The `onAuthStateChange` callback. */
    method OnAuthStateChange(next: Option<Session>)
      modifies this
      ensures State() == Step(old(State()), AuthChange(next))
    {
      session := next;
      user := UserOf(next);
      loading := false;
    }

    /** `login`: throws the service's error and changes no local state. */
    method Login(reply: LoginReply) returns (thrown: Option<AuthError>)
      ensures thrown.Some? <==> reply.LoginFailed?
      ensures thrown.Some? ==> thrown.value == reply.error
    {
      thrown := if reply.LoginFailed? then Some(reply.error) else None;
    }

    /** `signup`: returns the service's data, or throws its error; no local
        state changes. */
    method SignUp(reply: SignUpReply) returns (r: Result<SignUpData, AuthError>)
      ensures r.Ok? <==> reply.SignUpOk?
      ensures r.Ok? ==> r.value == reply.data
      ensures r.Err? ==> r.error == reply.error
    {
      match reply {
        case SignUpFailed(e) => r := Err(e);
        case SignUpOk(data) => r := Ok(data);
      }
    }

    /** `logout`: whatever `signOut` does (only logged on failure), the
        `finally` clears identity and session; nothing is propagated. */
    method Logout(reply: SignOutReply)
      modifies this
      ensures State() == Step(old(State()), Event.Logout(reply))
    {
      user := None;
      session := None;
    }
  }
}
