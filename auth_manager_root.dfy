/**
 * The session manager of the top-level `auth-manager.js`: it logs in against
 * `/api/auth/login` itself, treats a session as authenticated only with a
 * truthy stored token, and notifies listeners with the flag alone.
 */
module RootAuthManager {
  import opened Common
  import opened AuthCommon

  /** `login` resolves with the response data, or rejects with a message or a runtime error. */
  datatype LoginOutcome = LoggedIn(data: AuthBody) | Rejected(message: string) | RuntimeFailure

  /** What `localStorage.setItem(key, value)` stores for a possibly undefined string. */
  function StoredText(value: Option<string>): (r: string)
    ensures value.Some? ==> r == value.value
    ensures value.None? ==> r == "undefined"
  {
    if value.Some? then value.value else "undefined"
  }

  /**
   * `updateUIBasedOnAuth(flag)`: signed in, artists get the add-artwork link and
   * non-artists the collection link; the other link is left as it was.
   */
  function AuthUiFor(flag: bool, currentUser: Option<User>): (ui: AuthUi)
    ensures !(flag && currentUser.Some?) <==> SignedOutUi(ui) && ui.collection == Hidden
    ensures flag && currentUser.Some? ==>
      (ui.addArtwork == Shown <==> currentUser.value.isArtist) &&
      (ui.collection == Shown <==> !currentUser.value.isArtist) &&
      ui.addArtwork != Hidden && ui.collection != Hidden
    ensures flag && currentUser.Some? ==>
      ui.displayName == Some(OrElse(currentUser.value.username, "User"))
  {
    if flag && currentUser.Some? then
      var u := currentUser.value;
      AuthUi(Hidden, Shown, Some(OrElse(u.username, "User")),
             if u.isArtist then Shown else Untouched,
             if u.isArtist then Untouched else Shown)
    else
      AuthUi(Shown, Hidden, None, Hidden, Hidden)
  }

  class AuthManager {
    var currentUser: Option<User>
    const storage: LocalStorage
    const authListeners: ListenerRegistry

    /**
     * `new AuthManager()` with `init()`: restores a stored user when token and
     * user are truthy and the user parses; when it does not parse, logs out.
     */
    constructor(s: LocalStorage, codec: JsonCodec)
      modifies s
      ensures storage == s && fresh(authListeners) && authListeners.listeners == []
      ensures Hydrate(old(s.items), codec).Restored? ==>
        currentUser == Some(Hydrate(old(s.items), codec).user) && s.items == old(s.items)
      ensures Hydrate(old(s.items), codec).NoSession? ==> currentUser.None? && s.items == old(s.items)
      ensures Hydrate(old(s.items), codec).Corrupt? ==> currentUser.None? && s.items == SignedOut(old(s.items))
    {
      storage := s;
      authListeners := new ListenerRegistry();
      currentUser := None;
      new;
      var token := s.GetItem(AuthTokenKey);
      var userData := s.GetItem(UserKey);
      if Truthy(token) && Truthy(userData) {
        match codec.decode(userData.value) {
          case Some(u) =>
            currentUser := Some(u);
          case None =>
            Logout();
        }
      }
    }

    /** `isAuthenticated`: a truthy stored token and a user. */
    predicate IsAuthenticated()
      reads this, storage
    {
      Truthy(storage.GetItem(AuthTokenKey)) && currentUser.Some?
    }

    /** `checkAuthState`: reports `isAuthenticated` and changes nothing. */
    method CheckAuthState() returns (authenticated: bool)
      ensures authenticated <==> Truthy(storage.GetItem(AuthTokenKey)) && currentUser.Some?
    {
      authenticated := IsAuthenticated();
    }

    /** `logout`: clears both keys and the user, and notifies `false`. */
    method Logout()
      modifies this, storage, authListeners
      ensures storage.items == SignedOut(old(storage.items))
      ensures currentUser.None? && !IsAuthenticated()
      ensures authListeners.listeners == old(authListeners.listeners)
      ensures authListeners.delivered == old(authListeners.delivered) + Fanout(authListeners.listeners, false, NoArgument)
    {
      storage.RemoveItem(AuthTokenKey);
      storage.RemoveItem(UserKey);
      currentUser := None;
      authListeners.Notify(false, NoArgument);
    }

    /**
     * `login(credentials)`, given what `fetch('/api/auth/login')` yields.  On an
     * ok response the token and the user are stored as received (a missing field
     * is stored as "undefined").
     */
    method Login(reply: Reply, codec: JsonCodec) returns (outcome: LoginOutcome)
      modifies this, storage, authListeners
      ensures authListeners.listeners == old(authListeners.listeners)
      ensures !outcome.LoggedIn? ==>
        storage.items == old(storage.items) && currentUser == old(currentUser) &&
        authListeners.delivered == old(authListeners.delivered)
      ensures reply.Got? && !Ok(reply.response) && reply.response.body.Some? ==>
        outcome == Rejected(OrElse(reply.response.body.value.error, "Login failed"))
      ensures outcome.LoggedIn? <==> reply.Got? && Ok(reply.response) && reply.response.body.Some?
      ensures outcome.LoggedIn? ==>
        var data := reply.response.body.value;
        outcome.data == data &&
        storage.items == old(storage.items)[AuthTokenKey := StoredText(data.accessToken)]
                                           [UserKey := StoredUserText(codec, data.user)] &&
        currentUser == data.user &&
        authListeners.delivered == old(authListeners.delivered) + Fanout(authListeners.listeners, true, NoArgument)
    {
      match reply {
        case NetworkError(message) =>
          outcome := Rejected(message);
        case Got(response) =>
          if !Ok(response) {
            match response.body {
              case None => outcome := RuntimeFailure;
              case Some(error) => outcome := Rejected(OrElse(error.error, "Login failed"));
            }
          } else {
            match response.body {
              case None => outcome := RuntimeFailure;
              case Some(data) =>
                storage.SetItem(AuthTokenKey, StoredText(data.accessToken));
                storage.SetItem(UserKey, StoredUserText(codec, data.user));
                currentUser := data.user;
                authListeners.Notify(true, NoArgument);
                outcome := LoggedIn(data);
            }
          }
      }
    }

    method AddAuthListener(l: Listener)
      modifies authListeners
      ensures authListeners.listeners == old(authListeners.listeners) + [l]
      ensures authListeners.delivered == old(authListeners.delivered)
    {
      authListeners.Add(l);
    }

    method RemoveAuthListener(id: nat)
      modifies authListeners
      ensures authListeners.listeners == Filter(old(authListeners.listeners), (l: Listener) => l.id != id)
      ensures authListeners.delivered == old(authListeners.delivered)
    {
      authListeners.Remove(id);
    }
  }

  /**
   * A login whose response lacks `access_token` stores the text "undefined" as
   * the token, which is truthy: the session counts as authenticated.
   */
  lemma MissingTokenStillTruthy(items: map<string, string>, codec: JsonCodec, data: AuthBody)
    requires data.accessToken.None?
    ensures Truthy(Lookup(items[AuthTokenKey := StoredText(data.accessToken)][UserKey := StoredUserText(codec, data.user)], AuthTokenKey))
  {
    var after := items[AuthTokenKey := StoredText(data.accessToken)][UserKey := StoredUserText(codec, data.user)];
    assert after[AuthTokenKey] == "undefined";
  }
}
