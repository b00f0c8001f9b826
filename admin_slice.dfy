/**
 * The client's admin authentication state machine (the `admin` slice) and
 * the browser's persisted 'adminAuth' record in `localStorage`. `JSON.parse`
 * is abstracted: the record either reads back as an object with
 * `isAuthenticated` and `admin`, or fails to parse.
 */
module AdminSlice {
  import opened Wrappers

  datatype AdminProfile = AdminProfile(username: string, email: string, role: string)

  /** The persisted record as `JSON.parse` reads it. */
  datatype StoredAuth = Record(isAuthenticated: bool, admin: Option<AdminProfile>) | Unparsable

  datatype AdminState = AdminState(isAuthenticated: bool, admin: Option<AdminProfile>, loading: bool, error: Option<string>)

  /** The slice together with the persisted record (`None` when no record is stored). */
  datatype Session = Session(state: AdminState, stored: Option<StoredAuth>)

  datatype AdminAction = LoginStart | LoginSuccess(profile: AdminProfile) | LoginFailure(message: string) | Logout | CheckAuth

  const INITIAL_ADMIN: AdminState := AdminState(false, None, false, None)
  const ADMIN_USERNAME: string := "admin"
  const ADMIN_PASSWORD: string := "admin123"
  const ADMIN_PROFILE: AdminProfile := AdminProfile("admin", "admin@incidenttracking.com", "admin")
  const INVALID_CREDENTIALS: string := "Invalid username or password"

  /** `loginStart`: a login is in progress; the auth fields are untouched. */
  function Start(s: Session): (r: Session)
    ensures r.state.loading && r.state.error.None?
    ensures r.state.isAuthenticated == s.state.isAuthenticated && r.state.admin == s.state.admin
    ensures r.stored == s.stored
  {
    s.(state := s.state.(loading := true, error := None))
  }

  /** `loginSuccess`: authenticated as the payload, and the same is persisted. */
  function Succeed(s: Session, profile: AdminProfile): (r: Session)
    ensures r.state == AdminState(true, Some(profile), false, None)
    ensures r.stored == Some(Record(true, Some(profile)))
  {
    Session(AdminState(true, Some(profile), false, None), Some(Record(true, Some(profile))))
  }

  /** `loginFailure`: signed out with the payload as the error; the persisted record is untouched. */
  function Fail(s: Session, message: string): (r: Session)
    ensures r.state == AdminState(false, None, false, Some(message))
    ensures r.stored == s.stored
  {
    s.(state := AdminState(false, None, false, Some(message)))
  }

  /** `logout`: signed out, no error, record removed; `loading` is untouched. */
  function SignOut(s: Session): (r: Session)
    ensures r.state == AdminState(false, None, s.state.loading, None)
    ensures r.stored.None?
  {
    Session(s.state.(isAuthenticated := false, admin := None, error := None), None)
  }

  /**
   * `checkAuth`: a record that parses with a true `isAuthenticated` and an
   * `admin` restores both fields; an unparsable record is removed; otherwise
   * nothing changes.
   */
  function Restore(s: Session): (r: Session)
    ensures s.stored.Some? && s.stored.value.Record? && s.stored.value.isAuthenticated && s.stored.value.admin.Some? ==>
      r == s.(state := s.state.(isAuthenticated := true, admin := s.stored.value.admin))
    ensures s.stored == Some(Unparsable) ==> r == s.(stored := None)
    ensures s.stored != Some(Unparsable) ==> r.stored == s.stored
    ensures !(s.stored.Some? && s.stored.value.Record? && s.stored.value.isAuthenticated && s.stored.value.admin.Some?) ==>
      r.state == s.state
  {
    match s.stored
    case None => s
    case Some(Unparsable) => s.(stored := None)
    case Some(Record(authenticated, admin)) =>
      if authenticated && admin.Some? then s.(state := s.state.(isAuthenticated := true, admin := admin)) else s
  }

  function Step(s: Session, a: AdminAction): Session {
    match a
    case LoginStart => Start(s)
    case LoginSuccess(profile) => Succeed(s, profile)
    case LoginFailure(message) => Fail(s, message)
    case Logout => SignOut(s)
    case CheckAuth => Restore(s)
  }

  /** Dispatching the actions in order. */
  function Run(s: Session, actions: seq<AdminAction>): Session
    decreases |actions|
  {
    if actions == [] then s else Run(Step(s, actions[0]), actions[1..])
  }

  lemma RunPair(s: Session, a: AdminAction, b: AdminAction)
    ensures Run(s, [a, b]) == Step(Step(s, a), b)
  {
    assert [a, b][1..] == [b];
    assert [b][1..] == [];
    calc {
      Run(s, [a, b]);
      Run(Step(s, a), [b]);
      Run(Step(Step(s, a), b), []);
    }
  }

  /**
   * The actions `loginAdmin` dispatches: `loginStart`, then `loginSuccess`
   * with the demo profile exactly when the credentials are admin/admin123,
   * and `loginFailure` otherwise.
   */
  function LoginActions(username: string, password: string): (r: seq<AdminAction>)
    ensures |r| == 2 && r[0] == LoginStart
    ensures r[1].LoginSuccess? <==> username == ADMIN_USERNAME && password == ADMIN_PASSWORD
    ensures r[1].LoginSuccess? ==> r[1].profile == ADMIN_PROFILE
    ensures !r[1].LoginSuccess? ==> r[1] == LoginFailure(INVALID_CREDENTIALS)
  {
    if username == ADMIN_USERNAME && password == ADMIN_PASSWORD then [LoginStart, LoginSuccess(ADMIN_PROFILE)]
    else [LoginStart, LoginFailure(INVALID_CREDENTIALS)]
  }

  /** After `loginAdmin` the session is authenticated iff the credentials matched, and no longer loading. */
  lemma LoginOutcome(s: Session, username: string, password: string)
    ensures var r := Run(s, LoginActions(username, password));
            && !r.state.loading
            && (r.state.isAuthenticated <==> username == ADMIN_USERNAME && password == ADMIN_PASSWORD)
            && (r.state.isAuthenticated ==> r.state.admin == Some(ADMIN_PROFILE) && r.stored == Some(Record(true, Some(ADMIN_PROFILE))))
            && (!r.state.isAuthenticated ==> r.state.error == Some(INVALID_CREDENTIALS) && r.stored == s.stored)
  {
    var acts := LoginActions(username, password);
    RunPair(s, acts[0], acts[1]);
    assert acts == [acts[0], acts[1]];
  }

  /** A successful login survives a reload: a fresh slice restores it from the record. */
  lemma LoginPersistsAcrossReload(s: Session)
    ensures var afterLogin := Run(s, LoginActions(ADMIN_USERNAME, ADMIN_PASSWORD));
            var reloaded := Restore(Session(INITIAL_ADMIN, afterLogin.stored));
            reloaded.state.isAuthenticated && reloaded.state.admin == Some(ADMIN_PROFILE)
  {
    var acts := LoginActions(ADMIN_USERNAME, ADMIN_PASSWORD);
    RunPair(s, acts[0], acts[1]);
    assert acts == [acts[0], acts[1]];
  }

  /** After logout nothing can be restored, before or after a reload. */
  lemma LogoutThenCheckAuth(s: Session, reset: AdminState)
    requires !reset.isAuthenticated
    ensures !Restore(SignOut(s)).state.isAuthenticated
    ensures Restore(Session(reset, SignOut(s).stored)).state == reset
  {
  }

  /** The admin slice state, updated in place, with the persisted record beside it. */
  class AdminStore {
    var isAuthenticated: bool
    var admin: Option<AdminProfile>
    var loading: bool
    var error: Option<string>
    /** The 'adminAuth' entry of `localStorage`. */
    var stored: Option<StoredAuth>

    function Current(): Session
      reads this
    {
      Session(AdminState(isAuthenticated, admin, loading, error), stored)
    }

    /** A page load: the initial slice, with whatever record the browser kept. */
    constructor (persisted: Option<StoredAuth>)
      ensures Current() == Session(INITIAL_ADMIN, persisted)
    {
      isAuthenticated, admin, loading, error := false, None, false, None;
      stored := persisted;
    }

    method LoginStart()
      modifies this
      ensures Current() == Start(old(Current()))
    {
      loading := true;
      error := None;
    }

    method LoginSuccess(profile: AdminProfile)
      modifies this
      ensures Current() == Succeed(old(Current()), profile)
    {
      loading := false;
      isAuthenticated := true;
      admin := Some(profile);
      error := None;
      stored := Some(Record(true, Some(profile)));
    }

    method LoginFailure(message: string)
      modifies this
      ensures Current() == Fail(old(Current()), message)
    {
      loading := false;
      isAuthenticated := false;
      admin := None;
      error := Some(message);
    }

    method Logout()
      modifies this
      ensures Current() == SignOut(old(Current()))
    {
      isAuthenticated := false;
      admin := None;
      error := None;
      stored := None;
    }

    method CheckAuth()
      modifies this
      ensures Current() == Restore(old(Current()))
    {
      if stored.Some? {
        match stored.value
        case Unparsable =>
          stored := None;
        case Record(authenticated, profile) =>
          if authenticated && profile.Some? {
            isAuthenticated := true;
            admin := profile;
          }
      }
    }

    /**
     * `loginAdmin(username, password)`: `loginStart`, then the outcome of
     * the hard-coded credential check; `ok` is whether the promise resolves.
     */
    method LoginAdmin(username: string, password: string) returns (ok: bool)
      modifies this
      ensures ok <==> username == ADMIN_USERNAME && password == ADMIN_PASSWORD
      ensures Current() == Run(old(Current()), LoginActions(username, password))
    {
      LoginStart();
      ok := username == ADMIN_USERNAME && password == ADMIN_PASSWORD;
      if ok {
        LoginSuccess(ADMIN_PROFILE);
      } else {
        LoginFailure(INVALID_CREDENTIALS);
      }
      ghost var acts := LoginActions(username, password);
      RunPair(old(Current()), acts[0], acts[1]);
      assert acts == [acts[0], acts[1]];
    }
  }
}
