/** The auth slice: the session (`user`, `token`) restored from and persisted to local
    storage, with `status` and `error` fields that only a successful login or signup writes. */
module AuthSlice {
  import opened JsValues
  import opened Browser
  import opened EntitySlices
  import opened AuthService

  /** The four auth thunks. */
  datatype AuthThunk = LoginUser | SignupUser | UpdateUserProfile | ChangeUserPassword

  /** Every action the auth slice can receive. Only login/signup fulfilment, profile-update
      fulfilment and `logOut` have a case in the slice; the rest reach no case. */
  datatype AuthAction =
    | Pending(thunk: AuthThunk)
    | Rejected(thunk: AuthThunk, message: string)
    | LoginFulfilled(payload: AuthPayload)
    | SignupFulfilled(payload: AuthPayload)
    | ProfileFulfilled(changes: Object)
    | PasswordChangeFulfilled
    | LogOut

  /** `JSON.parse(localStorage.getItem('user')) || null` */
  function StoredUser(entries: map<string, Value>): (u: Option<Object>)
    ensures u.Some? <==> "user" in entries && entries["user"].Obj?
    ensures u.Some? ==> entries["user"] == Obj(u.value)
  {
    if "user" in entries && entries["user"].Obj? then Some(entries["user"].fields) else None
  }

  /** `localStorage.getItem('token') || null`: an empty token reads as none. */
  function StoredToken(entries: map<string, Value>): (t: Option<string>)
    ensures t.Some? <==> GetText(entries, "token").Some? && GetText(entries, "token").value != ""
    ensures t.Some? ==> t == GetText(entries, "token")
  {
    var stored := GetText(entries, "token");
    if stored.Some? && stored.value != "" then stored else None
  }

  /** `{ ...state.user, ...changes }`: spreading a null user contributes nothing. */
  function MergedUser(user: Option<Object>, changes: Object): (r: Object)
    ensures r.Keys == changes.Keys + (if user.Some? then user.value.Keys else {})
    ensures forall k :: k in changes ==> r[k] == changes[k]
    ensures user.Some? ==> forall k :: k in user.value && k !in changes ==> r[k] == user.value[k]
  {
    Spread(if user.Some? then user.value else map[], changes)
  }

  class AuthState {
    const storage: LocalStorage
    var user: Option<Object>
    var token: Option<string>
    var status: FetchStatus
    var error: Option<string>

    /** The initial state, read from the persisted session. */
    constructor (storage: LocalStorage)
      ensures this.storage == storage
      ensures user == StoredUser(storage.entries) && token == StoredToken(storage.entries)
      ensures status == Idle && error == None
    {
      this.storage := storage;
      user := StoredUser(storage.entries);
      token := StoredToken(storage.entries);
      status, error := Idle, None;
    }

    /** The slice's reducer applied to one action. */
    method Dispatch(action: AuthAction)
      modifies this, storage
      ensures error == old(error)
      ensures status == old(status) || status == Succeeded
      ensures (action.LoginFulfilled? || action.SignupFulfilled?) ==>
        && status == Succeeded
        && user == Some(action.payload.user)
        && token == Some(action.payload.accessToken)
        && storage.entries == old(storage.entries)["user" := Obj(action.payload.user)]["token" := Str(action.payload.accessToken)]
      ensures action.ProfileFulfilled? ==>
        && user == Some(MergedUser(old(user), action.changes))
        && token == old(token) && status == old(status)
        && storage.entries == old(storage.entries)["user" := Obj(user.value)]
      ensures action.LogOut? ==>
        && user == None && token == None && status == old(status)
        && storage.entries == map[]
      ensures (action.Pending? || action.Rejected? || action.PasswordChangeFulfilled?) ==>
        && user == old(user) && token == old(token) && status == old(status)
        && storage.entries == old(storage.entries)
    {
      match action
      case LoginFulfilled(p) =>
        HandleAuthFulfilled(p);
      case SignupFulfilled(p) =>
        HandleAuthFulfilled(p);
      case ProfileFulfilled(changes) =>
        var merged := MergedUser(user, changes);
        user := Some(merged);
        storage.SetObject("user", merged);
      case LogOut =>
        user := None;
        token := None;
        storage.Clear();
      case _ =>
    }

    /** `handleAuthFulfilled`: shared by login and signup. */
    method HandleAuthFulfilled(p: AuthPayload)
      modifies this, storage
      ensures status == Succeeded && error == old(error)
      ensures user == Some(p.user) && token == Some(p.accessToken)
      ensures storage.entries == old(storage.entries)["user" := Obj(p.user)]["token" := Str(p.accessToken)]
    {
      status := Succeeded;
      user := Some(p.user);
      token := Some(p.accessToken);
      storage.SetObject("user", p.user);
      storage.SetText("token", p.accessToken);
    }
  }

  /** After `logOut` the persisted state is empty, so a reload starts with no session. */
  lemma ReloadAfterLogOutIsAnonymous()
    ensures StoredUser(map[]) == None && StoredToken(map[]) == None
  {
  }

  /** After a login the persisted state restores the same session on reload. */
  lemma ReloadAfterLoginRestores(entries: map<string, Value>, p: AuthPayload)
    requires p.accessToken != ""
    ensures var after := entries["user" := Obj(p.user)]["token" := Str(p.accessToken)];
      StoredUser(after) == Some(p.user) && StoredToken(after) == Some(p.accessToken)
  {
  }
}
