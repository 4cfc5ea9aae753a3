/**
 * The auth slice: the signed-in token and user, the status of the last sign-in attempt and its
 * error, the five reducers that change them and the selectors that read them.
 */
module Auth {
  import opened Optional

  /** The user record kept beside the token. */
  datatype StoredAuthUser = StoredAuthUser(email: Option<string>, name: Option<string>)

  /** `'idle' | 'loading' | 'error'` */
  datatype Status = Idle | Loading | Failed

  datatype AuthState = AuthState(token: Option<string>, user: Option<StoredAuthUser>, status: Status, error: Option<string>)

  /**
   * The actions the slice handles. A payload user that is missing or null is `None` here: the
   * reducers store `user ?? null`, which treats the two alike.
   */
  datatype AuthAction =
    | LoginStart
    | LoginSuccess(token: string, user: Option<StoredAuthUser>)
    | LoginFailure(message: string)
    | Logout
    | Hydrate(hydratedToken: Option<string>, hydratedUser: Option<StoredAuthUser>)

  /** The state the store starts in, from the token and user read from storage. */
  function InitialState(storedToken: Option<string>, storedUser: Option<StoredAuthUser>): AuthState {
    AuthState(storedToken, storedUser, Idle, None)
  }

  /**
   * The reducer, one action at a time. Whatever state it starts from, the error is set exactly
   * in the failed status afterwards; the two actions that leave the session alone keep the
   * token and the user.
   */
  function Reduce(s: AuthState, action: AuthAction): (r: AuthState)
    ensures ErrorOnlyOnFailure(r)
    ensures r.status == Failed <==> action.LoginFailure?
    ensures r.status == Loading <==> action.LoginStart?
    ensures action.LoginStart? || action.LoginFailure? ==> r.token == s.token && r.user == s.user
    ensures action.LoginFailure? ==> r.error == Some(action.message)
    ensures action.LoginSuccess? ==> r.token == Some(action.token) && r.user == action.user
    ensures action.Logout? ==> r.token == None && r.user == None
    ensures action.Hydrate? ==> r.token == action.hydratedToken && r.user == action.hydratedUser
  {
    match action
    case LoginStart => s.(status := Loading, error := None)
    case LoginSuccess(token, user) => AuthState(Some(token), user, Idle, None)
    case LoginFailure(message) => s.(status := Failed, error := Some(message))
    case Logout => AuthState(None, None, Idle, None)
    case Hydrate(token, user) => AuthState(token, user, Idle, None)
  }

  /** The reducer over a sequence of actions, in order. */
  function ReduceAll(s: AuthState, actions: seq<AuthAction>): AuthState
    decreases actions
  {
    if actions == [] then s else ReduceAll(Reduce(s, actions[0]), actions[1..])
  }

  /** An error message is present exactly in the failed status. */
  predicate ErrorOnlyOnFailure(s: AuthState) {
    s.error.Some? <==> s.status == Failed
  }

  /** `Boolean(token)` for a `string | null`: false for null and for the empty string. */
  predicate Present(token: Option<string>) {
    token.Some? && token.value != ""
  }

  /** `selectIsAuthenticated` */
  predicate IsAuthenticatedOf(s: AuthState) {
    Present(s.token)
  }

  lemma InitialStateConsistent(storedToken: Option<string>, storedUser: Option<StoredAuthUser>)
    ensures ErrorOnlyOnFailure(InitialState(storedToken, storedUser))
    ensures IsAuthenticatedOf(InitialState(storedToken, storedUser)) <==> storedToken.Some? && storedToken.value != ""
  {
  }

  /**
   * Any sequence of actions keeps the error and the status in step, from every state where they
   * already are, the initial state among them.
   */
  lemma {:induction false} ErrorOnlyOnFailureAlways(s: AuthState, actions: seq<AuthAction>)
    requires ErrorOnlyOnFailure(s)
    ensures ErrorOnlyOnFailure(ReduceAll(s, actions))
    decreases actions
  {
    if actions != [] {
      ErrorOnlyOnFailureAlways(Reduce(s, actions[0]), actions[1..]);
    }
  }

  /** Which actions leave the user signed in or signed out. */
  lemma AuthenticationAfter(s: AuthState, action: AuthAction)
    ensures action.Logout? ==> !IsAuthenticatedOf(Reduce(s, action))
    ensures action.LoginSuccess? ==> (IsAuthenticatedOf(Reduce(s, action)) <==> action.token != "")
    ensures action.Hydrate? ==>
              (IsAuthenticatedOf(Reduce(s, action)) <==> action.hydratedToken.Some? && action.hydratedToken.value != "")
    ensures action.LoginStart? || action.LoginFailure? ==> (IsAuthenticatedOf(Reduce(s, action)) <==> IsAuthenticatedOf(s))
  {
  }

  /** The store holding the slice; each reducer updates its fields in place. */
  class AuthStore {
    var token: Option<string>
    var user: Option<StoredAuthUser>
    var status: Status
    var error: Option<string>

    function State(): AuthState
      reads this
    {
      AuthState(token, user, status, error)
    }

    predicate Valid()
      reads this
    {
      ErrorOnlyOnFailure(State())
    }

    constructor (storedToken: Option<string>, storedUser: Option<StoredAuthUser>)
      ensures State() == InitialState(storedToken, storedUser)
      ensures Valid()
    {
      token := storedToken;
      user := storedUser;
      status := Idle;
      error := None;
    }

    /** `loginStart`: loading, error cleared; token and user kept. */
    method LoginStart()
      modifies this
      ensures State() == Reduce(old(State()), AuthAction.LoginStart)
      ensures status == Loading && error == None && token == old(token) && user == old(user)
      ensures Valid()
    {
      status := Loading;
      error := None;
    }

    /** `loginSuccess`: idle, the new token and user, error cleared. */
    method LoginSuccess(newToken: string, newUser: Option<StoredAuthUser>)
      modifies this
      ensures State() == Reduce(old(State()), AuthAction.LoginSuccess(newToken, newUser))
      ensures IsAuthenticated() <==> newToken != ""
      ensures Valid()
    {
      status := Idle;
      token := Some(newToken);
      user := newUser;
      error := None;
    }

    /** `loginFailure`: failed with the message; token and user kept. */
    method LoginFailure(message: string)
      modifies this
      ensures State() == Reduce(old(State()), AuthAction.LoginFailure(message))
      ensures token == old(token) && user == old(user) && error == Some(message)
      ensures Valid()
    {
      status := Failed;
      error := Some(message);
    }

    /** `logout`: idle, no token, no user, no error. */
    method Logout()
      modifies this
      ensures State() == Reduce(old(State()), AuthAction.Logout)
      ensures !IsAuthenticated()
      ensures Valid()
    {
      status := Idle;
      token := None;
      user := None;
      error := None;
    }

    /** `hydrate`: the given token (possibly null) and user, idle, error cleared. */
    method Hydrate(newToken: Option<string>, newUser: Option<StoredAuthUser>)
      modifies this
      ensures State() == Reduce(old(State()), AuthAction.Hydrate(newToken, newUser))
      ensures Valid()
    {
      token := newToken;
      user := newUser;
      status := Idle;
      error := None;
    }

    /** `dispatch`: route the action to its reducer. */
    method Dispatch(action: AuthAction)
      modifies this
      ensures State() == Reduce(old(State()), action)
      ensures Valid()
    {
      match action
      case LoginStart => LoginStart();
      case LoginSuccess(t, u) => LoginSuccess(t, u);
      case LoginFailure(m) => LoginFailure(m);
      case Logout => Logout();
      case Hydrate(t, u) => Hydrate(t, u);
    }

    predicate IsAuthenticated()
      reads this
    {
      IsAuthenticatedOf(State())
    }
  }
}
