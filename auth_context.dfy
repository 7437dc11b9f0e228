/** The client's authentication state (client/src/contexts/AuthContext.js): the reducer the
    provider dispatches to, its initial state, and the role checks it exposes. */
module AuthContext {
  import opened Wrappers

  /** A user object as the server returns it: field name to value (`role`, `username`, ...). */
  type User = map<string, string>

  datatype AuthState = AuthState(
    loading: bool,
    isAuthenticated: bool,
    user: Option<User>,
    token: Option<string>,
    error: Option<string>)

  /** The actions the provider dispatches; `Unknown` stands for any other `type`. */
  datatype AuthAction =
    | AuthStart
    | AuthSuccess(user: User, token: string)
    | AuthFailure(message: string)
    | Logout
    | UpdateUser(fields: User)
    | ClearError
    | Unknown(kind: string)

  /** `authReducer`: only AUTH_SUCCESS signs in, only AUTH_FAILURE and LOGOUT sign out and drop
      the token, and the error is set by AUTH_FAILURE alone. */
  function Reduce(s: AuthState, a: AuthAction): (r: AuthState)
    ensures r.isAuthenticated <==> a.AuthSuccess? || (s.isAuthenticated && !a.AuthFailure? && !a.Logout?)
    ensures r.token == if a.AuthSuccess? then Some(a.token) else if a.AuthFailure? || a.Logout? then None else s.token
    ensures r.error.Some? <==> a.AuthFailure? || (s.error.Some? && !a.AuthStart? && !a.AuthSuccess? && !a.Logout? && !a.ClearError?)
  {
    match a
    case AuthStart => s.(loading := true, error := None)
    case AuthSuccess(user, token) =>
      s.(loading := false, isAuthenticated := true, user := Some(user), token := Some(token), error := None)
    case AuthFailure(message) =>
      s.(loading := false, isAuthenticated := false, user := None, token := None, error := Some(message))
    case Logout =>
      s.(loading := false, isAuthenticated := false, user := None, token := None, error := None)
    case UpdateUser(fields) => s.(user := Some(s.user.GetOr(map[]) + fields))
    case ClearError => s.(error := None)
    case Unknown(_) => s
  }

  /** `initialState`, with the token read from storage: signed out even when a token is kept. */
  function InitialState(storedToken: Option<string>): (s: AuthState)
    ensures !s.loading && !s.isAuthenticated && s.user.None? && s.error.None?
    ensures s.token == storedToken
  {
    AuthState(false, false, None, storedToken, None)
  }

  /** `state.user?.role`. */
  function Role(s: AuthState): Option<string> {
    if s.user.Some? && "role" in s.user.value then Some(s.user.value["role"]) else None
  }

  /** `canEdit()`: everyone but a read-only user, including no user at all. */
  function CanEdit(s: AuthState): (r: bool)
    ensures !r <==> s.user.Some? && "role" in s.user.value && s.user.value["role"] == "read-only"
  {
    Role(s) != Some("read-only")
  }

  /** `hasRole(role)`. */
  function HasRole(s: AuthState, role: string): (r: bool)
    ensures r <==> s.user.Some? && "role" in s.user.value && s.user.value["role"] == role
  {
    Role(s) == Some(role)
  }

  lemma StartKeepsIdentity(s: AuthState)
    ensures var t := Reduce(s, AuthStart);
            t.loading && t.error.None? && t.user == s.user && t.token == s.token && t.isAuthenticated == s.isAuthenticated
  {
  }

  lemma SuccessSignsIn(s: AuthState, user: User, token: string)
    ensures var t := Reduce(s, AuthSuccess(user, token));
            t == AuthState(false, true, Some(user), Some(token), None)
  {
  }

  /** A failure and a logout leave the same signed-out state but for the message. */
  lemma FailureAndLogoutSignOut(s: AuthState, message: string)
    ensures Reduce(s, AuthFailure(message)) == AuthState(false, false, None, None, Some(message))
    ensures Reduce(s, Logout) == Reduce(s, AuthFailure(message)).(error := None)
  {
  }

  /** The payload's fields win; the user's other fields stay; nothing else changes. */
  lemma UpdateUserOverlays(s: AuthState, fields: User, k: string)
    requires s.user.Some?
    ensures var t := Reduce(s, UpdateUser(fields));
            && t.user.Some?
            && (k in fields ==> k in t.user.value && t.user.value[k] == fields[k])
            && (k !in fields ==> (k in t.user.value <==> k in s.user.value))
            && (k !in fields && k in s.user.value ==> t.user.value[k] == s.user.value[k])
            && t.loading == s.loading && t.error == s.error && t.token == s.token
  {
  }

  lemma ClearErrorOnly(s: AuthState, kind: string)
    ensures Reduce(s, ClearError) == s.(error := None)
    ensures Reduce(s, Unknown(kind)) == s
  {
  }

  /** `updateProfile`'s successful path: AUTH_START, then UPDATE_USER with the reply's user. */
  function UpdateProfile(s: AuthState, fields: User): AuthState {
    Reduce(Reduce(s, AuthStart), UpdateUser(fields))
  }

  /** As written, a successful profile update leaves the state loading, with no later action
      to clear it. */
  lemma UpdateProfileStaysLoading(s: AuthState, fields: User)
    ensures UpdateProfile(s, fields).loading
    ensures UpdateProfile(s, fields).isAuthenticated == s.isAuthenticated
  {
  }

  /** The evidently intended reducer: UPDATE_USER also ends the loading that AUTH_START began. */
  function ReduceCorrected(s: AuthState, a: AuthAction): (t: AuthState)
    ensures !a.UpdateUser? ==> t == Reduce(s, a)
    ensures a.UpdateUser? ==> t == Reduce(s, a).(loading := false)
  {
    match a
    case UpdateUser(fields) => s.(user := Some(s.user.GetOr(map[]) + fields), loading := false)
    case _ => Reduce(s, a)
  }

  function UpdateProfileCorrected(s: AuthState, fields: User): AuthState {
    ReduceCorrected(ReduceCorrected(s, AuthStart), UpdateUser(fields))
  }

  /** With the correction, a successful profile update ends idle and without error, with the
      identity and user fields as before but for the overlay. */
  lemma UpdateProfileCorrectedSettles(s: AuthState, fields: User)
    ensures var t := UpdateProfileCorrected(s, fields);
            && !t.loading && t.error.None?
            && t.isAuthenticated == s.isAuthenticated && t.token == s.token
            && t.user == Some(s.user.GetOr(map[]) + fields)
  {
  }
}
