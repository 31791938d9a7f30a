/** The auth slice: the signed-in identity, the `isAuthenticated` flag and
    the `loading`/`error` pair of register, login and logout. */
module AuthSlice {
  import opened Common

  datatype AuthState = AuthState(
    user: Option<Record>,
    isAuthenticated: bool,
    loading: bool,
    error: Option<string>)

  /** The asynchronous operations (thunks) of the slice. */
  datatype Operation = RegisterUser | Login | Logout
  {
    /** The fixed message both the thunk and the reducer fall back on. */
    function FailureMessage(): (m: string)
      ensures m != ""
    {
      match this
      case RegisterUser => "Failed to register"
      case Login => "Failed to login"
      case Logout => "Failed to logout"
    }
  }

  /** Every action the slice reacts to. `SetUser` carries whatever the
      caller passes, null included. */
  datatype Action =
    | ResetAuthState
    | SetUser(payload: Option<Record>)
    | Pending(op: Operation)
    | RegisterUserFulfilled
    | LoginFulfilled(id: Id)  // the payload `{id}`
    | LogoutFulfilled
    | Rejected(op: Operation, reason: Option<string>)
  {
    /** The fulfilled and rejected phases: the ones that settle a request. */
    predicate Settles() {
      RegisterUserFulfilled? || LoginFulfilled? || LogoutFulfilled? || Rejected?
    }
  }

  /** The identity object `{id}` the slice stores for a signed-in user. */
  function Identity(id: Id): Record {
    Record(id, map[])
  }

  /** The body of a successful login response, reduced to
      `response.data.user`, which may be missing. */
  datatype LoginResponse = LoginResponse(user: Option<Record>)

  function Initial(): AuthState {
    AuthState(None, false, false, None)
  }

  /** The slice reducer: the state after one action. */
  function Reduce(s: AuthState, a: Action): (r: AuthState)
    ensures a.Pending? ==> r.loading && r.error == None
    ensures a.Settles() ==> !r.loading
    ensures r.user != s.user ==> a.SetUser? || a.LoginFulfilled? || a.LogoutFulfilled?
    ensures r.isAuthenticated != s.isAuthenticated ==>
      a.SetUser? || a.RegisterUserFulfilled? || a.LoginFulfilled? || a.LogoutFulfilled?
    ensures r.error != s.error ==> a.ResetAuthState? || a.Pending? || a.Rejected?
  {
    match a
    case ResetAuthState =>
      s.(loading := false, error := None)
    case SetUser(payload) =>
      s.(isAuthenticated := true, user := payload)
    case Pending(_) =>
      s.(loading := true, error := None)
    case RegisterUserFulfilled =>
      s.(loading := false, isAuthenticated := false)
    case LoginFulfilled(id) =>
      s.(loading := false, isAuthenticated := true, user := Some(Identity(id)))
    case LogoutFulfilled =>
      s.(loading := false, isAuthenticated := false, user := None)
    case Rejected(op, reason) =>
      s.(loading := false, error := Some(OrDefault(reason, op.FailureMessage())))
  }

  /** The state after dispatching `actions` in order. */
  function Run(s: AuthState, actions: seq<Action>): AuthState {
    Fold(s, actions, Reduce)
  }

  /** What a thunk settles with when its request fails. */
  function Failed(op: Operation, message: Option<string>): (a: Action)
    ensures a.Rejected? && a.op == op && a.reason.Some? && a.reason.value != ""
    ensures message.Some? && message.value != "" ==> a.reason == message
    ensures message == None || message == Some("") ==> a.reason == Some(op.FailureMessage())
  {
    Rejected(op, RejectWithValue(message, op.FailureMessage()))
  }

  /** The login thunk: a successful response is reduced to the user's id.
      When the body has no `user`, reading its id throws inside the try
      block; the error carries no response, so the thunk rejects with the
      fallback. */
  function LoginSettled(response: Http<LoginResponse>): (a: Action)
    ensures a.LoginFulfilled? <==> response.Ok? && response.data.user.Some?
    ensures a.LoginFulfilled? ==> a.id == response.data.user.value.id
    ensures response.Ok? && response.data.user.None? ==> a == Rejected(Login, Some("Failed to login"))
    ensures response.Err? ==> a == Failed(Login, response.message)
  {
    match response
    case Ok(LoginResponse(Some(u))) => LoginFulfilled(u.id)
    case Ok(LoginResponse(None)) => Failed(Login, None)
    case Err(message) => Failed(Login, message)
  }

  /** `isAuthenticated` holds exactly when a user is stored. */
  predicate Consistent(s: AuthState) {
    s.isAuthenticated <==> s.user.Some?
  }

  /** The two actions that can leave `isAuthenticated` and `user`
      disagreeing. */
  predicate MayBreakConsistency(a: Action) {
    a.RegisterUserFulfilled? || a == SetUser(None)
  }

  // -----------------------------------------------------------------------
  // Properties of the reducer
  // -----------------------------------------------------------------------

  /** Login fulfilling with a user stores only `{id}` and authenticates;
      a logout after it clears both. */
  lemma LoginThenLogout(s: AuthState, u: Record)
    ensures var signedIn := Reduce(s, LoginSettled(Ok(LoginResponse(Some(u)))));
      && signedIn.isAuthenticated && signedIn.user == Some(Identity(u.id))
      && var signedOut := Reduce(signedIn, LogoutFulfilled);
         !signedOut.isAuthenticated && signedOut.user == None
  {
  }

  /** A failed register, login or logout leaves the identity alone and sets
      `error` to the server's message or else the fallback. */
  lemma FailureSetsOnlyError(s: AuthState, op: Operation, message: Option<string>)
    ensures Reduce(s, Failed(op, message)) ==
      s.(loading := false, error := Some(OrDefault(message, op.FailureMessage())))
    ensures message == None ==> Reduce(s, Failed(op, message)).error == Some(op.FailureMessage())
  {
    ReducerFallbackAfterThunk(message, op.FailureMessage());
  }

  /** A failed registration shows the server's message verbatim, or
      'Failed to register' when there is none. */
  lemma RegisterFailureMessage(s: AuthState, message: string)
    ensures message != "" ==> Reduce(s, Failed(RegisterUser, Some(message))).error == Some(message)
    ensures Reduce(s, Failed(RegisterUser, None)).error == Some("Failed to register")
  {
    FailureSetsOnlyError(s, RegisterUser, Some(message));
    FailureSetsOnlyError(s, RegisterUser, None);
  }

  /** Every action except a fulfilled registration and `setUser(null)` keeps
      `isAuthenticated` and `user` in agreement, over any sequence. */
  lemma {:induction false} ConsistencyPreserved(s: AuthState, actions: seq<Action>)
    requires Consistent(s)
    requires forall k :: 0 <= k < |actions| ==> !MayBreakConsistency(actions[k])
    ensures Consistent(Run(s, actions))
  {
    FoldPreserves(s, actions, Reduce, (a: Action) => !MayBreakConsistency(a), Consistent);
  }

  /** A registration fulfilled while signed in clears `isAuthenticated` but
      keeps the stored user; `setUser(null)` authenticates with no user. */
  lemma ConsistencyBreakers(id: Id)
    ensures var r := Reduce(Reduce(Initial(), LoginFulfilled(id)), RegisterUserFulfilled);
      !r.isAuthenticated && r.user == Some(Identity(id)) && !Consistent(r)
    ensures var r := Reduce(Initial(), SetUser(None));
      r.isAuthenticated && r.user == None && !Consistent(r)
  {
  }

  /** `error` is null whenever `loading` is true, after any sequence of
      actions from a state where that held. */
  lemma {:induction false} NoErrorWhileLoading(s: AuthState, actions: seq<Action>)
    requires s.loading ==> s.error == None
    ensures Run(s, actions).loading ==> Run(s, actions).error == None
  {
    FoldPreserves(s, actions, Reduce, (a: Action) => true,
                  (t: AuthState) => t.loading ==> t.error == None);
  }

  // -----------------------------------------------------------------------
  // The slice as a mutable object
  // -----------------------------------------------------------------------

  /** The slice's draft state; every case of the reducer assigns its fields
      in place. */
  class AuthStore {
    var user: Option<Record>
    var isAuthenticated: bool
    var loading: bool
    var error: Option<string>

    function Snapshot(): AuthState
      reads this
    {
      AuthState(user, isAuthenticated, loading, error)
    }

    constructor ()
      ensures Snapshot() == Initial()
      ensures user == None && !isAuthenticated && !loading && error == None
    {
      user := None;
      isAuthenticated := false;
      loading := false;
      error := None;
    }

    method ResetAuthState()
      modifies this
      ensures Snapshot() == old(Snapshot()).(loading := false, error := None)
    {
      loading := false;
      error := None;
    }

    method SetUser(payload: Option<Record>)
      modifies this
      ensures Snapshot() == old(Snapshot()).(isAuthenticated := true, user := payload)
    {
      isAuthenticated := true;
      user := payload;
    }

    /** The pending phase of every operation. */
    method Pending(op: Operation)
      modifies this
      ensures Snapshot() == old(Snapshot()).(loading := true, error := None)
    {
      loading := true;
      error := None;
    }

    /** Leaves `user` as it was. */
    method RegisterUserFulfilled()
      modifies this
      ensures user == old(user)
      ensures Snapshot() == old(Snapshot()).(loading := false, isAuthenticated := false)
    {
      loading := false;
      isAuthenticated := false;
    }

    method LoginFulfilled(id: Id)
      modifies this
      ensures isAuthenticated && user == Some(Identity(id))
      ensures Snapshot() == old(Snapshot()).(loading := false, isAuthenticated := true, user := Some(Identity(id)))
    {
      loading := false;
      isAuthenticated := true;
      user := Some(Identity(id));
    }

    method LogoutFulfilled()
      modifies this
      ensures !isAuthenticated && user == None
      ensures Snapshot() == old(Snapshot()).(loading := false, isAuthenticated := false, user := None)
    {
      loading := false;
      isAuthenticated := false;
      user := None;
    }

    /** The rejected phase: `action.payload || fallback` goes to `error`. */
    method Rejected(op: Operation, payload: Option<string>)
      modifies this
      ensures user == old(user) && isAuthenticated == old(isAuthenticated)
      ensures Snapshot() == old(Snapshot()).(loading := false, error := Some(OrDefault(payload, op.FailureMessage())))
    {
      loading := false;
      error := Some(OrDefault(payload, op.FailureMessage()));
    }

    /** Runs the case of the reducer that matches the action. */
    method Dispatch(a: Action)
      modifies this
      ensures Snapshot() == Reduce(old(Snapshot()), a)
    {
      match a
      case ResetAuthState => ResetAuthState();
      case SetUser(payload) => SetUser(payload);
      case Pending(op) => Pending(op);
      case RegisterUserFulfilled => RegisterUserFulfilled();
      case LoginFulfilled(id) => LoginFulfilled(id);
      case LogoutFulfilled => LogoutFulfilled();
      case Rejected(op, payload) => Rejected(op, payload);
    }
  }
}
