/** The authentication gate of `src/App.tsx`: the fixed identity directory,
    the `user` / `loading` state with its `login`, `logout`, `register` and
    mount-time rehydration, the one-key session store that outlives the
    page, and the `ProtectedRoute` decision. */
module Auth {
  import opened Common
  import Text

  datatype Role = User | Admin

  /** An entry of the identity directory (`mockUsers`). */
  datatype Identity = Identity(id: string, name: string, email: string, password: string, role: Role)

  /** The signed-in user: an identity without its password. */
  datatype Session = Session(id: string, name: string, email: string, role: Role)

  /** The fixed directory every login is checked against. */
  const MockUsers: seq<Identity> := [
    Identity("1", "Admin User", "admin@example.com", "admin123", Admin),
    Identity("2", "Test User", "user@example.com", "user123", User)
  ]

  predicate Matches(u: Identity, email: string, password: string, role: Role)
  {
    u.email == email && u.password == password && u.role == role
  }

  /** `mockUsers.find(...)`: the first entry matching all three fields. */
  function Find(dir: seq<Identity>, email: string, password: string, role: Role): (r: Option<Identity>)
    ensures r.Some? <==> exists i :: 0 <= i < |dir| && Matches(dir[i], email, password, role)
    ensures r.Some? ==> exists k :: 0 <= k < |dir| && dir[k] == r.value && Matches(r.value, email, password, role) &&
                          forall j :: 0 <= j < k ==> !Matches(dir[j], email, password, role)
    decreases |dir|
  {
    if dir == [] then None
    else if Matches(dir[0], email, password, role) then Some(dir[0])
    else
      var r := Find(dir[1..], email, password, role);
      assert forall i :: 1 <= i < |dir| ==> dir[i] == dir[1..][i - 1];
      r
  }

  /** `const { password, ...userWithoutPassword } = foundUser`. */
  function WithoutPassword(u: Identity): Session
  {
    Session(u.id, u.name, u.email, u.role)
  }

  /** The whole auth state: the React `user` and `loading` state of `App`,
      and the `"lms_user"` entry of the browser's local storage (JSON
      encoding is the identity here). */
  datatype AuthState = AuthState(user: Option<Session>, loading: bool, stored: Option<Session>)

  /** `App` as first rendered over a given store: no user, still loading. */
  function Initial(stored: Option<Session>): AuthState
  {
    AuthState(None, true, stored)
  }

  /** The mount effect: adopt the stored session, unchecked, then stop loading. */
  function Mounted(s: AuthState): AuthState
  {
    AuthState(if s.stored.Some? then s.stored else s.user, false, s.stored)
  }

  /** A page reload: a fresh `App` over the same store, after its mount effect. */
  function Restarted(s: AuthState): AuthState
  {
    Mounted(Initial(s.stored))
  }

  /** The boolean `login` returns. */
  function LoginSucceeds(email: string, password: string, role: Role): bool
  {
    Find(MockUsers, email, password, role).Some?
  }

  /** The state after `login`. */
  function AfterLogin(s: AuthState, email: string, password: string, role: Role): AuthState
  {
    match Find(MockUsers, email, password, role)
    case Some(u) => AuthState(Some(WithoutPassword(u)), false, Some(WithoutPassword(u)))
    case None => s.(loading := false)
  }

  /** The state after `logout`. */
  function AfterLogout(s: AuthState): AuthState
  {
    s.(user := None, stored := None)
  }

  /** The session `register` synthesises: a student whose id is the
      directory size plus one, printed in decimal. */
  function RegisteredSession(name: string, email: string): Session
  {
    Session(Text.NatToString(|MockUsers| + 1), name, email, User)
  }

  /** The state after `register`; the password is dropped unused. */
  function AfterRegister(s: AuthState, name: string, email: string, password: string): AuthState
  {
    var u := RegisteredSession(name, email);
    AuthState(Some(u), false, Some(u))
  }

  /** `login` succeeds exactly when some directory entry matches all three
      fields, and then the signed-in user and the store both hold that
      entry without its password. */
  lemma LoginSuccess(s: AuthState, email: string, password: string, role: Role)
    ensures LoginSucceeds(email, password, role) <==>
              exists i :: 0 <= i < |MockUsers| && Matches(MockUsers[i], email, password, role)
    ensures LoginSucceeds(email, password, role) ==>
              var t := AfterLogin(s, email, password, role);
              t.user.Some? && t.stored == t.user &&
              exists i :: 0 <= i < |MockUsers| && Matches(MockUsers[i], email, password, role) &&
                          t.user.value == WithoutPassword(MockUsers[i])
    ensures !AfterLogin(s, email, password, role).loading
  {
  }

  /** A failed `login` leaves the user and the store as they were: an
      earlier session survives. */
  lemma LoginFailureKeepsSession(s: AuthState, email: string, password: string, role: Role)
    requires !LoginSucceeds(email, password, role)
    ensures AfterLogin(s, email, password, role) == s.(loading := false)
  {
  }

  /** Round trip: every directory entry can sign in with its own
      credentials and role, and the session is that entry without its
      password; asserting the other role with the same credentials fails. */
  lemma DirectoryRoundTrip(s: AuthState, i: nat)
    requires i < |MockUsers|
    ensures var u := MockUsers[i];
            AfterLogin(s, u.email, u.password, u.role).user == Some(WithoutPassword(u))
    ensures var u := MockUsers[i];
            !LoginSucceeds(u.email, u.password, if u.role == Admin then User else Admin)
  {
  }

  /** After `logout` nothing is signed in and nothing is stored, so a
      reload also starts signed out. */
  lemma LogoutThenRestart(s: AuthState)
    ensures AfterLogout(s).user.None? && AfterLogout(s).stored.None?
    ensures Restarted(AfterLogout(s)).user.None?
    ensures !Restarted(AfterLogout(s)).loading
  {
  }

  /** A reload restores whatever session the store holds, without checking
      it against the directory, and signs nobody in when it is empty. */
  lemma RestartTrustsStore(stored: Option<Session>)
    ensures Restarted(Initial(stored)).user == stored
    ensures !Restarted(Initial(stored)).loading
  {
  }

  /** After a successful `login`, a reload restores the same session. */
  lemma LoginSurvivesRestart(s: AuthState, email: string, password: string, role: Role)
    requires LoginSucceeds(email, password, role)
    ensures Restarted(AfterLogin(s, email, password, role)).user == AfterLogin(s, email, password, role).user
  {
  }

  /** `register` signs in a student with id "3" and stores that session. */
  lemma RegisterSession(s: AuthState, name: string, email: string, password: string)
    ensures var t := AfterRegister(s, name, email, password);
            t.user == Some(Session("3", name, email, User)) && t.stored == t.user && !t.loading
  {
  }

  /** `register` never extends the directory: after `register` and `logout`,
      logging in with the registered credentials succeeds exactly when it
      would have succeeded anyway. */
  lemma RegisterDoesNotEnableLogin(s: AuthState, name: string, email: string, password: string)
    ensures var t := AfterLogin(AfterLogout(AfterRegister(s, name, email, password)), email, password, User);
            t.user.None? <==> !LoginSucceeds(email, password, User)
  {
  }

  /** The documented case: a fresh registration cannot log back in. */
  lemma RegisteredUserCannotLogIn(s: AuthState)
    ensures !LoginSucceeds("jane@x.com", "pw", User)
    ensures AfterLogin(AfterLogout(AfterRegister(s, "Jane", "jane@x.com", "pw")), "jane@x.com", "pw", User).user.None?
  {
  }

  /** The browser's local storage, reduced to its one `"lms_user"` entry. It
      outlives any single `AuthProvider`. */
  class SessionStore {
    var entry: Option<Session>

    constructor(entry: Option<Session>)
      ensures this.entry == entry
    {
      this.entry := entry;
    }
  }

  /** The `App` component's auth state and the functions it publishes
      through `AuthContext`. */
  class AuthProvider {
    var user: Option<Session>
    var loading: bool
    const store: SessionStore

    function State(): AuthState
      reads this, store
    {
      AuthState(user, loading, store.entry)
    }

    constructor(store: SessionStore)
      ensures this.store == store
      ensures State() == Initial(store.entry)
    {
      this.store := store;
      user := None;
      loading := true;
    }

    /** The mount effect (`useEffect(..., [])`). */
    method Mount()
      modifies this
      ensures State() == Mounted(old(State()))
    {
      var storedUser := store.entry;
      if storedUser.Some? {
        user := storedUser;
      }
      loading := false;
    }

    method Login(email: string, password: string, role: Role) returns (ok: bool)
      modifies this, store
      ensures ok == LoginSucceeds(email, password, role)
      ensures State() == AfterLogin(old(State()), email, password, role)
    {
      loading := true;
      var foundUser := Find(MockUsers, email, password, role);
      if foundUser.Some? {
        var userWithoutPassword := WithoutPassword(foundUser.value);
        user := Some(userWithoutPassword);
        store.entry := Some(userWithoutPassword);
      }
      loading := false;
      ok := foundUser.Some?;
    }

    method Logout()
      modifies this, store
      ensures State() == AfterLogout(old(State()))
    {
      user := None;
      store.entry := None;
    }

    method Register(name: string, email: string, password: string)
      modifies this, store
      ensures State() == AfterRegister(old(State()), name, email, password)
    {
      loading := true;
      var newUser := Session(Text.NatToString(|MockUsers| + 1), name, email, User);
      user := Some(newUser);
      store.entry := Some(newUser);
      loading := false;
    }
  }

  /** What `ProtectedRoute` renders. */
  datatype Guarded = Placeholder | RedirectTo(path: string) | RenderChildren

  /** `ProtectedRoute`: wait while loading, send a signed-out visitor to the
      login page, send a user of the wrong role to `/admin` if an
      administrator and to `/` otherwise, else render the route. */
  function ProtectedRoute(loading: bool, user: Option<Session>, requiredRole: Option<Role>): (r: Guarded)
    ensures r.Placeholder? <==> loading
    ensures r.RenderChildren? <==>
              !loading && user.Some? && (requiredRole.None? || user.value.role == requiredRole.value)
    ensures !loading && user.None? ==> r == RedirectTo("/login")
    ensures !loading && user.Some? && requiredRole.Some? && user.value.role != requiredRole.value ==>
              r == RedirectTo(if user.value.role == Admin then "/admin" else "/")
  {
    if loading then Placeholder
    else if user.None? then RedirectTo("/login")
    else if requiredRole.Some? && user.value.role != requiredRole.value then
      RedirectTo(if user.value.role == Admin then "/admin" else "/")
    else RenderChildren
  }
}
