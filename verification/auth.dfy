/** The PIN-based authentication context: a store of users keyed by name, a session
    user, and the login, logout, PIN-change and rename operations with their checks. */
module Auth {
  import opened Wrappers

  /** `mockHash`: the stored form of a PIN. */
  function MockHash(pin: string): (h: string)
    ensures |h| == |pin| + 7 && h[7..] == pin
  {
    "hashed-" + pin
  }

  /** Different PINs are stored differently. */
  lemma MockHashInjective(a: string, b: string)
    requires MockHash(a) == MockHash(b)
    ensures a == b
  {
    assert a == MockHash(a)[7..];
  }

  /** The reasons an operation throws. */
  datatype AuthError = WrongCredentials | NotLoggedIn | UserNotFound | WrongOldPin | WrongPin | UsernameTaken

  /** The text of the thrown `Error`. */
  function Message(e: AuthError): string {
    match e
    case WrongCredentials => "Nom d'utilisateur ou code PIN incorrect."
    case NotLoggedIn => "Utilisateur non connecté."
    case UserNotFound => "Utilisateur non trouvé."
    case WrongOldPin => "L'ancien code PIN est incorrect."
    case WrongPin => "Le code PIN est incorrect."
    case UsernameTaken => "Ce nom d'utilisateur est déjà pris."
  }

  /** The session user's name (`user`, or null) and the user store, as name ↦ PIN hash. */
  datatype AuthState = AuthState(user: Option<string>, store: map<string, string>)

  /** What an operation reports and the state it leaves. */
  datatype Step = Step(outcome: Outcome<AuthError>, state: AuthState)

  /** `isAuthenticated`: there is a session user. */
  predicate IsAuthenticated(s: AuthState) {
    s.user.Some?
  }

  /** The session user, when there is one, is a stored user. */
  predicate SessionInStore(s: AuthState) {
    s.user.Some? ==> s.user.value in s.store
  }

  /** `login`: an existing user whose PIN hashes to the stored hash opens a session; an
      unknown name is rejected while any user exists; the very first name registers. */
  function LoginStep(s: AuthState, username: string, pin: string): (r: Step)
    ensures r.outcome.Pass? <==>
              (username in s.store && s.store[username] == MockHash(pin)) || s.store == map[]
    ensures r.outcome.Pass? ==> r.state.user == Some(username) && username in r.state.store
    ensures r.outcome.Fail? ==> r.outcome.error == WrongCredentials && r.state == s
    ensures r.state.store != s.store ==> s.store == map[] && r.state.store == map[username := MockHash(pin)]
  {
    if username in s.store then
      if MockHash(pin) == s.store[username] then Step(Pass, AuthState(Some(username), s.store))
      else Step(Fail(WrongCredentials), s)
    else if s.store != map[] then Step(Fail(WrongCredentials), s)
    else Step(Pass, AuthState(Some(username), s.store[username := MockHash(pin)]))
  }

  /** `logout`: the session ends; the store is untouched. */
  function LogoutStep(s: AuthState): (r: AuthState)
    ensures !IsAuthenticated(r) && r.store == s.store
  {
    AuthState(None, s.store)
  }

  /** `changePin`: checks, in order, that someone is logged in, that the session user is
      stored, and that the old PIN matches; only then the user's hash changes. */
  function ChangePinStep(s: AuthState, oldPin: string, newPin: string): (r: Step)
    ensures r.outcome.Fail? ==> r.state == s
    ensures s.user.None? ==> r.outcome == Fail(NotLoggedIn)
    ensures s.user.Some? && s.user.value !in s.store ==> r.outcome == Fail(UserNotFound)
    ensures s.user.Some? && s.user.value in s.store && s.store[s.user.value] != MockHash(oldPin) ==>
              r.outcome == Fail(WrongOldPin)
    ensures s.user.Some? && s.user.value in s.store && s.store[s.user.value] == MockHash(oldPin) ==>
              r.outcome.Pass?
    ensures r.outcome.Pass? ==>
              && s.user.Some? && s.user.value in s.store && s.store[s.user.value] == MockHash(oldPin)
              && r.state.user == s.user
              && r.state.store.Keys == s.store.Keys
              && r.state.store[s.user.value] == MockHash(newPin)
              && (forall name :: name in s.store && name != s.user.value ==> r.state.store[name] == s.store[name])
  {
    match s.user
    case None => Step(Fail(NotLoggedIn), s)
    case Some(name) =>
      if name !in s.store then Step(Fail(UserNotFound), s)
      else if MockHash(oldPin) == s.store[name] then
        Step(Pass, AuthState(s.user, s.store[name := MockHash(newPin)]))
      else Step(Fail(WrongOldPin), s)
  }

  /** `changeUsername`: checks, in order, that someone is logged in, that the session user
      is stored, that the PIN matches and that the new name is free (one's own current
      name counts as taken); then the stored user is renamed and the session follows. */
  function ChangeUsernameStep(s: AuthState, newUsername: string, pin: string): (r: Step)
    ensures r.outcome.Fail? ==> r.state == s
    ensures s.user.None? ==> r.outcome == Fail(NotLoggedIn)
    ensures s.user.Some? && s.user.value !in s.store ==> r.outcome == Fail(UserNotFound)
    ensures s.user.Some? && s.user.value in s.store && s.store[s.user.value] != MockHash(pin) ==>
              r.outcome == Fail(WrongPin)
    ensures (s.user.Some? && s.user.value in s.store && s.store[s.user.value] == MockHash(pin) &&
             newUsername in s.store) ==> r.outcome == Fail(UsernameTaken)
    ensures (s.user.Some? && s.user.value in s.store && s.store[s.user.value] == MockHash(pin) &&
             newUsername !in s.store) ==> r.outcome.Pass?
    ensures r.outcome.Pass? ==>
              && s.user.Some? && s.user.value in s.store && s.store[s.user.value] == MockHash(pin)
              && newUsername !in s.store
              && r.state.user == Some(newUsername)
              && r.state.store.Keys == s.store.Keys - {s.user.value} + {newUsername}
              && r.state.store[newUsername] == s.store[s.user.value]
              && (forall name :: name in s.store && name != s.user.value ==> r.state.store[name] == s.store[name])
  {
    match s.user
    case None => Step(Fail(NotLoggedIn), s)
    case Some(name) =>
      if name !in s.store then Step(Fail(UserNotFound), s)
      else if MockHash(pin) != s.store[name] then Step(Fail(WrongPin), s)
      else if newUsername in s.store then Step(Fail(UsernameTaken), s)
      else Step(Pass, AuthState(Some(newUsername), (s.store - {name})[newUsername := s.store[name]]))
  }

  // ---------------------------------------------------------------------------
  // Properties across operations

  /** Every operation keeps the session user among the stored users. */
  lemma SessionInStorePreserved(s: AuthState, username: string, pin: string, newPin: string)
    requires SessionInStore(s)
    ensures SessionInStore(LoginStep(s, username, pin).state)
    ensures SessionInStore(LogoutStep(s))
    ensures SessionInStore(ChangePinStep(s, pin, newPin).state)
    ensures SessionInStore(ChangeUsernameStep(s, username, pin).state)
  {
  }

  /** While the session user is stored, no operation reports a missing user. */
  lemma NoUserNotFoundWhenConsistent(s: AuthState, username: string, pin: string, newPin: string)
    requires SessionInStore(s)
    ensures ChangePinStep(s, pin, newPin).outcome != Fail(UserNotFound)
    ensures ChangeUsernameStep(s, username, pin).outcome != Fail(UserNotFound)
  {
  }

  /** Only registration adds a user; no other operation changes how many users there are. */
  lemma UserCountKept(s: AuthState, username: string, pin: string, newPin: string)
    ensures s.store != map[] ==> |LoginStep(s, username, pin).state.store| == |s.store|
    ensures |ChangePinStep(s, pin, newPin).state.store| == |s.store|
    ensures |ChangeUsernameStep(s, username, pin).state.store| == |s.store|
  {
    var r := ChangePinStep(s, pin, newPin);
    if r.outcome.Pass? {
      assert r.state.store.Keys == s.store.Keys;
    }
    var c := ChangeUsernameStep(s, username, pin);
    if c.outcome.Pass? {
      var name := s.user.value;
      var rest := s.store - {name};
      assert rest.Keys == s.store.Keys - {name};
      assert |rest.Keys| == |s.store.Keys| - 1;
      assert username !in rest;
      assert |rest[username := s.store[name]]| == |rest| + 1;
    }
  }

  /** After a PIN change, logging in again takes the new PIN and refuses the old one. */
  lemma ChangePinThenLogin(s: AuthState, oldPin: string, newPin: string)
    requires ChangePinStep(s, oldPin, newPin).outcome.Pass?
    ensures var t := LogoutStep(ChangePinStep(s, oldPin, newPin).state);
            && LoginStep(t, s.user.value, newPin).outcome.Pass?
            && (oldPin != newPin ==> LoginStep(t, s.user.value, oldPin).outcome == Fail(WrongCredentials))
  {
    var t := LogoutStep(ChangePinStep(s, oldPin, newPin).state);
    assert s.user.value in t.store;
    if oldPin != newPin && LoginStep(t, s.user.value, oldPin).outcome.Pass? {
      MockHashInjective(oldPin, newPin);
    }
  }

  /** After a rename, the new name logs in with the same PIN and the old name no longer does. */
  lemma ChangeUsernameThenLogin(s: AuthState, newUsername: string, pin: string, anyPin: string)
    requires ChangeUsernameStep(s, newUsername, pin).outcome.Pass?
    ensures var t := LogoutStep(ChangeUsernameStep(s, newUsername, pin).state);
            && LoginStep(t, newUsername, pin).outcome.Pass?
            && LoginStep(t, s.user.value, anyPin).outcome == Fail(WrongCredentials)
  {
    var t := LogoutStep(ChangeUsernameStep(s, newUsername, pin).state);
    assert newUsername in t.store;
    assert s.user.value !in t.store;
  }

  /** Renaming to one's own current name is refused as already taken. */
  lemma RenameToSelfRefused(s: AuthState, pin: string)
    requires s.user.Some? && s.user.value in s.store && s.store[s.user.value] == MockHash(pin)
    ensures ChangeUsernameStep(s, s.user.value, pin) == Step(Fail(UsernameTaken), s)
  {
  }

  /** Registration happens only into an empty store, and then holds exactly the new user. */
  lemma RegistrationOnlyWhenEmpty(s: AuthState, username: string, pin: string)
    requires username !in s.store
    ensures LoginStep(s, username, pin).outcome.Pass? <==> s.store == map[]
    ensures s.store == map[] ==> LoginStep(s, username, pin).state.store == map[username := MockHash(pin)]
  {
  }

  // ---------------------------------------------------------------------------
  // The context as an object

  /** `AuthProvider`: the session user and loading flags it holds, and the user store it
      reads and writes through the data layer. */
  class AuthProvider {
    var user: Option<string>
    var store: map<string, string>
    var isAuthLoading: bool
    var isRegistering: bool

    function State(): AuthState
      reads this
    {
      AuthState(user, store)
    }

    /** A fresh provider: nobody in session, still loading. */
    constructor (users: map<string, string>)
      ensures user == None && store == users && isAuthLoading && !isRegistering
    {
      user := None;
      store := users;
      isAuthLoading := true;
      isRegistering := false;
    }

    /** `checkUserStatus`: resume the saved session, or else note whether the first login
        will register; loading ends either way. `session` is what session storage held. */
    method CheckUserStatus(session: Option<string>)
      modifies this
      ensures store == old(store) && !isAuthLoading
      ensures session.Some? ==> user == session && isRegistering == old(isRegistering)
      ensures session.None? ==> user == old(user) && (isRegistering <==> store == map[])
    {
      if session.Some? {
        user := session;
      } else {
        isRegistering := store == map[];
      }
      isAuthLoading := false;
    }

    method Login(username: string, pin: string) returns (outcome: Outcome<AuthError>)
      modifies this
      ensures Step(outcome, State()) == LoginStep(old(State()), username, pin)
      ensures isAuthLoading == old(isAuthLoading) && isRegistering == old(isRegistering)
    {
      if username in store {
        if MockHash(pin) == store[username] {
          user := Some(username);
          return Pass;
        } else {
          return Fail(WrongCredentials);
        }
      } else {
        if store != map[] {
          return Fail(WrongCredentials);
        } else {
          store := store[username := MockHash(pin)];
          user := Some(username);
          return Pass;
        }
      }
    }

    method Logout()
      modifies this
      ensures State() == LogoutStep(old(State()))
      ensures isAuthLoading == old(isAuthLoading) && isRegistering == old(isRegistering)
    {
      user := None;
    }

    method ChangePin(oldPin: string, newPin: string) returns (outcome: Outcome<AuthError>)
      modifies this
      ensures Step(outcome, State()) == ChangePinStep(old(State()), oldPin, newPin)
      ensures isAuthLoading == old(isAuthLoading) && isRegistering == old(isRegistering)
    {
      if user.None? {
        return Fail(NotLoggedIn);
      }
      var name := user.value;
      if name !in store {
        return Fail(UserNotFound);
      }
      if MockHash(oldPin) == store[name] {
        store := store[name := MockHash(newPin)];
        outcome := Pass;
      } else {
        outcome := Fail(WrongOldPin);
      }
    }

    method ChangeUsername(newUsername: string, pin: string) returns (outcome: Outcome<AuthError>)
      modifies this
      ensures Step(outcome, State()) == ChangeUsernameStep(old(State()), newUsername, pin)
      ensures isAuthLoading == old(isAuthLoading) && isRegistering == old(isRegistering)
    {
      if user.None? {
        return Fail(NotLoggedIn);
      }
      var name := user.value;
      if name !in store {
        return Fail(UserNotFound);
      }
      if MockHash(pin) != store[name] {
        return Fail(WrongPin);
      }
      if newUsername in store {
        return Fail(UsernameTaken);
      }
      store := (store - {name})[newUsername := store[name]];
      user := Some(newUsername);
      outcome := Pass;
    }
  }
}
