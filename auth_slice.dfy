/** The client's authentication slice: who is logged in, with which token,
    and the copy of the token kept in the browser's storage under "token". */
module AuthSlice {
  import opened Optional

  /** A JavaScript value that may also be `null` or `undefined`: the payload
      of `setCredentials` is not checked, and the registration response
      carries neither a user nor a token, so both arrive as `undefined`. */
  datatype Slot<T> = Null | Undefined | Value(value: T)

  datatype User = User(id: string, username: string, email: string, isAdmin: Option<bool>)

  /** The slice's state. */
  datatype AuthState = AuthState(user: Slot<User>, token: Slot<string>, isAuthenticated: bool)

  /** The part of the application state the selectors are given. */
  datatype RootState = RootState(auth: AuthState)

  /** What `localStorage.getItem` returns: the stored string, or `null` when
      the key is absent. */
  function FromStorage(stored: Option<string>): Slot<string>
  {
    match stored
    case Some(s) => Value(s)
    case None => Null
  }

  /** JavaScript's `!!token`: false for `null`, `undefined` and the empty
      string, true for every other string. */
  predicate Truthy(token: Slot<string>)
  {
    token.Value? && token.value != ""
  }

  /** What `localStorage.setItem` keeps: its argument converted to a string,
      so `null` is stored as the text "null" and `undefined` as "undefined". */
  function Stringify(token: Slot<string>): string
  {
    match token
    case Value(t) => t
    case Null => "null"
    case Undefined => "undefined"
  }

  /** The state after `logout`, whatever came before. */
  const LoggedOut := AuthState(Null, Null, false)

  function SelectCurrentUser(root: RootState): Slot<User>
  {
    root.auth.user
  }

  function SelectIsAuthenticated(root: RootState): bool
  {
    root.auth.isAuthenticated
  }

  function SelectToken(root: RootState): Slot<string>
  {
    root.auth.token
  }

  /** The slice together with the storage slot it writes. */
  class Store {
    var user: Slot<User>
    var token: Slot<string>
    var isAuthenticated: bool
    /** `localStorage["token"]`: `None` when the key is absent. */
    var stored: Option<string>

    function State(): AuthState
      reads this
    {
      AuthState(user, token, isAuthenticated)
    }

    /** Whenever the state holds a string token, it is the one in storage. */
    predicate Valid()
      reads this
    {
      token.Value? ==> stored == Some(token.value)
    }

    /** `initialState`, read from whatever storage holds when the page loads:
        no user, the stored token, authenticated when that token is truthy. */
    constructor (storedToken: Option<string>)
      ensures State() == AuthState(Null, FromStorage(storedToken), Truthy(FromStorage(storedToken)))
      ensures stored == storedToken
      ensures Valid()
    {
      user := Null;
      token := FromStorage(storedToken);
      isAuthenticated := Truthy(FromStorage(storedToken));
      stored := storedToken;
    }

    /** `setCredentials`: takes user and token from the payload as they are
        and counts as logged in even when the token is empty or missing;
        stores the token converted to a string. */
    method SetCredentials(newUser: Slot<User>, newToken: Slot<string>)
      requires Valid()
      modifies this
      ensures State() == AuthState(newUser, newToken, true)
      ensures stored == Some(Stringify(newToken))
      ensures Valid()
    {
      user := newUser;
      token := newToken;
      isAuthenticated := true;
      stored := Some(Stringify(newToken));
    }

    /** `logout`: clears the state and removes the stored token. */
    method Logout()
      requires Valid()
      modifies this
      ensures State() == LoggedOut && stored == None
      ensures Valid()
    {
      user := Null;
      token := Null;
      isAuthenticated := false;
      stored := None;
    }

    /** `initializeAuth`: reloads the token from storage and is authenticated
        exactly when that token is a non-empty string; the user is kept. A
        string token already in the state is kept as it is. */
    method InitializeAuth()
      requires Valid()
      modifies this
      ensures State() == AuthState(old(user), FromStorage(old(stored)), Truthy(FromStorage(old(stored))))
      ensures old(token).Value? ==> token == old(token)
      ensures stored == old(stored)
      ensures Valid()
    {
      var t := stored;
      token := FromStorage(t);
      isAuthenticated := Truthy(FromStorage(t));
    }
  }

  /** `initializeAuth` dispatched in the same session after `setCredentials`
      keeps the user, and reads back the token as it was stored: a string
      token unchanged, a missing one as its text. The slice then stays
      authenticated exactly when that text is not empty. */
  method InitializeAfterCredentials(storedAtLoad: Option<string>, user: Slot<User>, token: Slot<string>)
    returns (before: AuthState, after: AuthState)
    ensures before == AuthState(user, token, true)
    ensures after.user == user && after.token == Value(Stringify(token))
    ensures token.Value? ==> after.token == token
    ensures SelectCurrentUser(RootState(after)) == user
    ensures SelectIsAuthenticated(RootState(after)) <==> Stringify(token) != ""
    // a missing token is still counted as logged in, now with a token text
    ensures !token.Value? ==> SelectIsAuthenticated(RootState(after)) && SelectToken(RootState(after)) != token
  {
    var store := new Store(storedAtLoad);
    store.SetCredentials(user, token);
    before := store.State();
    store.InitializeAuth();
    after := store.State();
  }

  /** A page reload after `setCredentials` builds a new initial state from
      storage: the user is gone and the token is the stored text. A token
      that was `undefined`, as after registering, comes back as the text
      "undefined" and counts as logged in. */
  method ReloadAfterCredentials(storedAtLoad: Option<string>, user: Slot<User>, token: Slot<string>)
    returns (reloaded: AuthState)
    ensures reloaded == AuthState(Null, Value(Stringify(token)), Stringify(token) != "")
    ensures SelectCurrentUser(RootState(reloaded)) == Null
    ensures token.Value? ==> reloaded.token == token && (reloaded.isAuthenticated <==> token.value != "")
    ensures token == Undefined ==> reloaded.token == Value("undefined") && reloaded.isAuthenticated
  {
    var store := new Store(storedAtLoad);
    store.SetCredentials(user, token);
    var page := new Store(store.stored);
    reloaded := page.State();
  }

  /** `logout` is idempotent: a second one finds and leaves the same state. */
  method LogoutIsIdempotent(storedAtLoad: Option<string>, user: Slot<User>, token: Slot<string>)
    returns (once: AuthState, storedOnce: Option<string>, twice: AuthState, storedTwice: Option<string>)
    ensures once == LoggedOut && storedOnce == None
    ensures twice == once && storedTwice == storedOnce
    ensures !SelectIsAuthenticated(RootState(twice)) && SelectToken(RootState(twice)) == Null
  {
    var store := new Store(storedAtLoad);
    store.SetCredentials(user, token);
    store.Logout();
    once, storedOnce := store.State(), store.stored;
    store.Logout();
    twice, storedTwice := store.State(), store.stored;
  }

  /** On a freshly loaded page `initializeAuth` finds the state it would set
      up anyway: the initial state already agrees with storage. */
  method InitializeAuthOnLoad(storedAtLoad: Option<string>)
    returns (initial: AuthState, initialized: AuthState)
    ensures initial.user == Null && (initial.isAuthenticated <==> storedAtLoad.Some? && storedAtLoad.value != "")
    ensures storedAtLoad.None? ==> initial.token == Null
    ensures storedAtLoad.Some? ==> initial.token == Value(storedAtLoad.value)
    ensures initialized == initial
  {
    var store := new Store(storedAtLoad);
    initial := store.State();
    store.InitializeAuth();
    initialized := store.State();
  }
}
