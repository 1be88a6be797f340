/** The `login` slice of the Redux store: the session token, the
    authentication flag, the signed-in user and the user tables. Browser
    storage is a parameter (the token found at start-up), token decoding is a
    parameter (a function that may fail), and each action carries the payload
    its async thunk resolved or rejected with. */
module AuthSlice {
  import opened Common
  import opened Records

  /** A snapshot of every field of the slice. */
  datatype AuthState = AuthState(
    userData: Option<Record>,
    token: Option<string>,
    loading: bool,
    error: Option<string>,
    isAuthenticated: bool,
    users: Option<seq<Record>>,
    userProperties: Option<seq<Record>>,
    userBookings: Option<seq<Record>>)

  /** `initialState`, given what browser storage holds under "token". */
  function InitialState(storedToken: Option<string>): (s: AuthState)
    ensures s.isAuthenticated <==> Truthy(storedToken)
    ensures s.token == storedToken && !s.loading && s.error.None? && s.userData.None?
    ensures s.users == Some([]) && s.userProperties == Some([]) && s.userBookings == Some([])
  {
    AuthState(None, storedToken, false, None, Truthy(storedToken), Some([]), Some([]), Some([]))
  }

  /** The claims a decoded session token carries. */
  datatype Claims = Claims(role: Option<string>)

  /** `getUserRole`: the role claim of the token, or null when there is no token
      or it does not decode. `decode` returns None where jwtDecode throws. */
  function GetUserRole(token: Option<string>, decode: string -> Option<Claims>): (role: Option<string>)
    ensures !Truthy(token) ==> role.None?
    ensures Truthy(token) && decode(token.value).None? ==> role.None?
    ensures Truthy(token) && decode(token.value).Some? ==> role == decode(token.value).value.role
    ensures role.Some? ==> Truthy(token) && decode(token.value) == Some(Claims(role))
  {
    if !Truthy(token) then None
    else match decode(token.value)
      case None => None
      case Some(claims) => claims.role
  }

  /** The actions the slice reduces. `Unhandled` stands for every action with no
      case reducer (the pending and rejected actions of most thunks). */
  datatype Action =
    | LoginPending
    | LoginFulfilled(token: Option<string>)
    | LoginRejected(loginError: string)
    | SignupFulfilled(signedUp: Option<Record>)
    | GetAllUsersFulfilled(allUsers: Option<seq<Record>>)
    | UpdateProfileFulfilled(profile: Option<Record>)
    | UpdateRoleFulfilled
    | DeleteUserFulfilled(deletedId: Id)
    | UserPropertiesFulfilled(ownedProperties: Option<seq<Record>>)
    | UserBookingsFulfilled(ownBookings: Option<seq<Record>>)
    | LogoutFulfilled
    | GooglePending
    | GoogleFulfilled(googleUser: Option<Record>)
    | GoogleRejected(googleError: string)
    | Unhandled

  /** The slice reducer: the state after `a`, or None when its case reducer
      throws, in which case the store keeps the state it had. The user tables
      hold what their thunks resolved with, undefined (None) when the response
      body had no `data` field; `deleteUser.fulfilled` then throws at
      `state.users.filter`. */
  function Reduce(s: AuthState, a: Action): (r: Option<AuthState>)
    ensures r.None? <==> a.DeleteUserFulfilled? && s.users.None?
    ensures a.Unhandled? ==> r == Some(s)
    ensures r.Some? ==> (r.value.loading <==> a.LoginPending? || a.GooglePending? || (a.Unhandled? && s.loading))
    ensures r.Some? && r.value.token != s.token ==> a.LoginFulfilled? || a.LogoutFulfilled?
    ensures r.Some? && r.value.isAuthenticated != s.isAuthenticated
            ==> a.LoginFulfilled? || a.LoginRejected? || a.LogoutFulfilled? || a.GoogleFulfilled?
    ensures r.Some? && r.value.error != s.error ==> a.LoginFulfilled? || a.LoginRejected? || a.GoogleRejected?
    ensures r.Some? && r.value.userData != s.userData
            ==> a.SignupFulfilled? || a.UpdateProfileFulfilled? || a.GoogleFulfilled?
    ensures r.Some? && r.value.users != s.users ==> a.GetAllUsersFulfilled? || a.DeleteUserFulfilled?
    ensures r.Some? && a.DeleteUserFulfilled?
            ==> r.value.users.Some? && forall u :: u in r.value.users.value <==> u in s.users.value && u.id != a.deletedId
    ensures r.Some? && r.value.userProperties != s.userProperties ==> a.UserPropertiesFulfilled?
    ensures r.Some? && r.value.userBookings != s.userBookings ==> a.UserBookingsFulfilled?
  {
    match a
    case LoginPending => Some(s.(loading := true))
    case LoginFulfilled(t) => Some(s.(loading := false, token := t, isAuthenticated := true, error := None))
    case LoginRejected(message) => Some(s.(loading := false, error := Some(message), isAuthenticated := false))
    case SignupFulfilled(user) => Some(s.(userData := user, loading := false))
    case GetAllUsersFulfilled(all) => Some(s.(users := all, loading := false))
    case UpdateProfileFulfilled(user) => Some(s.(userData := user, loading := false))
    case UpdateRoleFulfilled => Some(s.(loading := false))
    case DeleteUserFulfilled(id) =>
      if s.users.None? then None
      else Some(s.(users := Some(RemoveById(s.users.value, id)), loading := false))
    case UserPropertiesFulfilled(owned) => Some(s.(userProperties := owned, loading := false))
    case UserBookingsFulfilled(own) => Some(s.(userBookings := own, loading := false))
    case LogoutFulfilled => Some(s.(token := None, isAuthenticated := false, loading := false))
    case GooglePending => Some(s.(loading := true))
    case GoogleFulfilled(user) => Some(s.(loading := false, userData := user, isAuthenticated := true))
    case GoogleRejected(message) => Some(s.(loading := false, error := Some(message)))
    case Unhandled => Some(s)
  }

  /** A user list fetched without a `data` field leaves the table undefined,
      and the next user deletion then throws. */
  lemma DeleteAfterUndefinedUsersThrows(s: AuthState, id: Id)
    ensures Reduce(s, GetAllUsersFulfilled(None)).Some?
    ensures Reduce(Reduce(s, GetAllUsersFulfilled(None)).value, DeleteUserFulfilled(id)).None?
  {
  }

  class AuthStore {
    var userData: Option<Record>
    var token: Option<string>
    var loading: bool
    var error: Option<string>
    var isAuthenticated: bool
    var users: Option<seq<Record>>
    var userProperties: Option<seq<Record>>
    var userBookings: Option<seq<Record>>

    ghost function State(): AuthState
      reads this
    {
      AuthState(userData, token, loading, error, isAuthenticated, users, userProperties, userBookings)
    }

    /** The store as the application starts, with `storedToken` read from browser storage. */
    constructor (storedToken: Option<string>)
      ensures State() == InitialState(storedToken)
    {
      userData, token, loading, error := None, storedToken, false, None;
      isAuthenticated := Truthy(storedToken);
      users, userProperties, userBookings := Some([]), Some([]), Some([]);
    }

    /** `makeLogin.pending` and `makeGoogleLogin.pending`. */
    method Pending()
      modifies this
      ensures State() == old(State()).(loading := true)
    {
      loading := true;
    }

    /** `makeLogin.fulfilled`: the session token of the response, whatever it is. */
    method LoginFulfilled(newToken: Option<string>)
      modifies this
      ensures State() == old(State()).(loading := false, token := newToken, isAuthenticated := true, error := None)
    {
      loading := false;
      token := newToken;
      isAuthenticated := true;
      error := None;
    }

    /** `makeLogin.rejected`. */
    method LoginRejected(message: string)
      modifies this
      ensures State() == old(State()).(loading := false, error := Some(message), isAuthenticated := false)
    {
      loading := false;
      error := Some(message);
      isAuthenticated := false;
    }

    /** `makeSignup.fulfilled` and `updateUserProfile.fulfilled`. */
    method UserDataFulfilled(user: Option<Record>)
      modifies this
      ensures State() == old(State()).(userData := user, loading := false)
    {
      userData := user;
      loading := false;
    }

    /** `getAllUsers.fulfilled`. */
    method GetAllUsersFulfilled(all: Option<seq<Record>>)
      modifies this
      ensures State() == old(State()).(users := all, loading := false)
    {
      users := all;
      loading := false;
    }

    /** `updateUserRole.fulfilled`. */
    method UpdateRoleFulfilled()
      modifies this
      ensures State() == old(State()).(loading := false)
    {
      loading := false;
    }

    /** `deleteUser.fulfilled`: the payload is the deleted id. `threw` reports
        the TypeError of filtering an undefined user table; the store then
        keeps its state. */
    method DeleteUserFulfilled(id: Id) returns (threw: bool)
      modifies this
      ensures threw <==> old(users).None?
      ensures threw ==> State() == old(State())
      ensures !threw ==> State() == old(State()).(users := Some(RemoveById(old(users).value, id)), loading := false)
    {
      threw := users.None?;
      if !threw {
        users := Some(RemoveById(users.value, id));
        loading := false;
      }
    }

    /** `getUserProperties.fulfilled`. */
    method UserPropertiesFulfilled(owned: Option<seq<Record>>)
      modifies this
      ensures State() == old(State()).(userProperties := owned, loading := false)
    {
      userProperties := owned;
      loading := false;
    }

    /** `getUserBookings.fulfilled`. */
    method UserBookingsFulfilled(own: Option<seq<Record>>)
      modifies this
      ensures State() == old(State()).(userBookings := own, loading := false)
    {
      userBookings := own;
      loading := false;
    }

    /** `logout.fulfilled`. */
    method LogoutFulfilled()
      modifies this
      ensures State() == old(State()).(token := None, isAuthenticated := false, loading := false)
    {
      token := None;
      isAuthenticated := false;
      loading := false;
    }

    /** `makeGoogleLogin.fulfilled`: the payload is the user; the token in the
        store is left as it was. */
    method GoogleFulfilled(user: Option<Record>)
      modifies this
      ensures State() == old(State()).(loading := false, userData := user, isAuthenticated := true)
    {
      loading := false;
      userData := user;
      isAuthenticated := true;
    }

    /** `makeGoogleLogin.rejected`: the authentication flag is left as it was. */
    method GoogleRejected(message: string)
      modifies this
      ensures State() == old(State()).(loading := false, error := Some(message))
    {
      loading := false;
      error := Some(message);
    }

    /** The slice reducer: routes an action to its case reducer. `threw`
        reports a case reducer that throws; the store then keeps its state. */
    method Dispatch(a: Action) returns (threw: bool)
      modifies this
      ensures threw <==> Reduce(old(State()), a).None?
      ensures State() == Reduce(old(State()), a).GetOr(old(State()))
    {
      threw := false;
      match a
      case LoginPending => Pending();
      case LoginFulfilled(t) => LoginFulfilled(t);
      case LoginRejected(message) => LoginRejected(message);
      case SignupFulfilled(user) => UserDataFulfilled(user);
      case GetAllUsersFulfilled(all) => GetAllUsersFulfilled(all);
      case UpdateProfileFulfilled(user) => UserDataFulfilled(user);
      case UpdateRoleFulfilled => UpdateRoleFulfilled();
      case DeleteUserFulfilled(id) => threw := DeleteUserFulfilled(id);
      case UserPropertiesFulfilled(owned) => UserPropertiesFulfilled(owned);
      case UserBookingsFulfilled(own) => UserBookingsFulfilled(own);
      case LogoutFulfilled => LogoutFulfilled();
      case GooglePending => Pending();
      case GoogleFulfilled(user) => GoogleFulfilled(user);
      case GoogleRejected(message) => GoogleRejected(message);
      case Unhandled =>
    }
  }
}
