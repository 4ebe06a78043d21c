/**
 * The token-based session manager of `js/auth-manager.js`: it keeps the user in
 * `currentUser`, the token and the encoded user in storage, notifies listeners
 * with the flag and the user, and wraps authorised requests.
 */
module SharedAuthManager {
  import opened Common
  import opened Strings
  import opened AuthCommon

  const NoTokenMessage := "No authentication token available"
  const SessionExpiredMessage := "Session expired. Please log in again."
  const HomePage := "index.html"

  /** The headers of an authorised request: JSON and the bearer token, then the caller's headers. */
  function RequestHeaders(token: string, callerHeaders: map<string, string>): (h: map<string, string>)
    ensures h.Keys == callerHeaders.Keys + {"Content-Type", "Authorization"}
    ensures forall k :: k in callerHeaders ==> h[k] == callerHeaders[k]
    ensures "Content-Type" !in callerHeaders ==> h["Content-Type"] == "application/json"
    ensures "Authorization" !in callerHeaders ==> h["Authorization"] == "Bearer " + token
  {
    map["Content-Type" := "application/json", "Authorization" := "Bearer " + token] + callerHeaders
  }

  /** The part of an e-mail address before its first `@` (`email.split('@')[0]`). */
  function LocalPart(email: string): (r: string)
    ensures '@' !in r
    ensures StartsWith(email, r)
    ensures '@' !in email ==> r == email
    ensures |r| < |email| ==> email[|r|] == '@'
  {
    if email == [] || email[0] == '@' then [] else [email[0]] + LocalPart(email[1..])
  }

  /** The name in the user menu: the username, else the e-mail's local part, else "User". */
  function DisplayName(u: User): (r: string)
    ensures r != ""
    ensures Truthy(u.username) ==> r == u.username.value
    ensures !Truthy(u.username) && u.email.None? ==> r == "User"
    ensures !Truthy(u.username) && u.email.Some? ==>
      r == (if LocalPart(u.email.value) != "" then LocalPart(u.email.value) else "User")
  {
    if Truthy(u.username) then u.username.value
    else if u.email.Some? && LocalPart(u.email.value) != "" then LocalPart(u.email.value)
    else "User"
  }

  /**
   * `updateAuthUI`: a signed-in user always gets the collection link and, when an
   * artist, the add-artwork link; nothing is hidden for a signed-in non-artist.
   */
  function AuthUiFor(currentUser: Option<User>): (ui: AuthUi)
    ensures currentUser.None? <==> SignedOutUi(ui)
    ensures currentUser.None? ==> ui.collection == Hidden
    ensures currentUser.Some? ==> ui.collection == Shown && ui.displayName == Some(DisplayName(currentUser.value))
    ensures currentUser.Some? ==> (ui.addArtwork == Shown <==> currentUser.value.isArtist)
    ensures ui.addArtwork != Hidden ==> currentUser.Some?
  {
    match currentUser
    case None => AuthUi(Shown, Hidden, None, Hidden, Hidden)
    case Some(u) =>
      AuthUi(Hidden, Shown, Some(DisplayName(u)), if u.isArtist then Shown else Untouched, Shown)
  }

  /** The result of `authenticatedFetch`: the response, or the error it throws. */
  datatype FetchResult = Returned(response: Response) | Threw(message: string)

  class AuthManager {
    var currentUser: Option<User>
    const storage: LocalStorage
    const authListeners: ListenerRegistry
    /** The page a `setTimeout` navigation is scheduled to. */
    var pendingRedirect: Option<string>

    /** `new AuthManager()` followed by `init()`'s status check, before any listener is registered. */
    constructor(s: LocalStorage, codec: JsonCodec)
      modifies s
      ensures storage == s && fresh(authListeners) && authListeners.listeners == []
      ensures Hydrate(old(s.items), codec).Restored? ==>
        currentUser == Some(Hydrate(old(s.items), codec).user) && s.items == old(s.items)
      ensures Hydrate(old(s.items), codec).NoSession? ==> currentUser.None? && s.items == old(s.items)
      ensures Hydrate(old(s.items), codec).Corrupt? ==> currentUser.None? && s.items == SignedOut(old(s.items))
    {
      storage := s;
      authListeners := new ListenerRegistry();
      currentUser := None;
      pendingRedirect := None;
      new;
      CheckAuthStatus(codec);
    }

    /** `isAuthenticated`: a user object and any stored token, the empty string included. */
    predicate IsAuthenticated()
      reads this, storage
    {
      currentUser.Some? && storage.GetItem(AuthTokenKey).Some?
    }

    /**
     * `checkAuthStatus`: restores the stored user when both keys are truthy and
     * the user parses, logs out when it does not, and otherwise clears the user.
     */
    method CheckAuthStatus(codec: JsonCodec)
      modifies this, storage, authListeners
      ensures authListeners.listeners == old(authListeners.listeners)
      ensures match Hydrate(old(storage.items), codec)
        case Restored(u) =>
          currentUser == Some(u) && storage.items == old(storage.items) &&
          authListeners.delivered == old(authListeners.delivered) + Fanout(authListeners.listeners, true, Passed(Some(u)))
        case NoSession =>
          currentUser.None? && storage.items == old(storage.items) &&
          authListeners.delivered == old(authListeners.delivered) + Fanout(authListeners.listeners, false, Passed(None))
        case Corrupt =>
          currentUser.None? && storage.items == SignedOut(old(storage.items)) &&
          pendingRedirect == Some(HomePage) &&
          authListeners.delivered == old(authListeners.delivered) + Fanout(authListeners.listeners, false, Passed(None))
    {
      var token := storage.GetItem(AuthTokenKey);
      var userData := storage.GetItem(UserKey);
      if Truthy(token) && Truthy(userData) {
        match codec.decode(userData.value) {
          case Some(u) =>
            currentUser := Some(u);
            authListeners.Notify(true, Passed(currentUser));
          case None =>
            Logout();
        }
      } else {
        currentUser := None;
        authListeners.Notify(false, Passed(None));
      }
    }

    /** `logout`: clears both keys and the user, tells the listeners, and schedules the home page. */
    method Logout()
      modifies this, storage, authListeners
      ensures storage.items == SignedOut(old(storage.items))
      ensures currentUser.None? && !IsAuthenticated()
      ensures pendingRedirect == Some(HomePage)
      ensures authListeners.listeners == old(authListeners.listeners)
      ensures authListeners.delivered == old(authListeners.delivered) + Fanout(authListeners.listeners, false, Passed(None))
    {
      storage.RemoveItem(AuthTokenKey);
      storage.RemoveItem(UserKey);
      currentUser := None;
      authListeners.Notify(false, Passed(None));
      pendingRedirect := Some(HomePage);
    }

    /** `login(userData, token)`: stores both keys, sets the user and notifies `true`. */
    method Login(userData: User, token: string, codec: JsonCodec)
      modifies this, storage, authListeners
      ensures storage.items == old(storage.items)[AuthTokenKey := token][UserKey := codec.encode(userData)]
      ensures currentUser == Some(userData) && IsAuthenticated()
      ensures pendingRedirect == old(pendingRedirect)
      ensures authListeners.listeners == old(authListeners.listeners)
      ensures authListeners.delivered == old(authListeners.delivered) + Fanout(authListeners.listeners, true, Passed(Some(userData)))
    {
      storage.SetItem(AuthTokenKey, token);
      storage.SetItem(UserKey, codec.encode(userData));
      currentUser := Some(userData);
      authListeners.Notify(true, Passed(currentUser));
    }

    method AddAuthListener(l: Listener)
      modifies authListeners
      ensures authListeners.listeners == old(authListeners.listeners) + [l]
      ensures authListeners.delivered == old(authListeners.delivered)
    {
      authListeners.Add(l);
    }

    /** `removeAuthListener`: drops every registration of that callback. */
    method RemoveAuthListener(id: nat)
      modifies authListeners
      ensures authListeners.listeners == Filter(old(authListeners.listeners), (l: Listener) => l.id != id)
      ensures authListeners.delivered == old(authListeners.delivered)
    {
      authListeners.Remove(id);
    }

    /**
     * `authenticatedFetch(url, {headers})`: `reply` is what `fetch` would give;
     * `sent` holds the headers of the request, None when no request is made.
     */
    method AuthenticatedFetch(callerHeaders: map<string, string>, reply: Reply)
      returns (result: FetchResult, sent: Option<map<string, string>>)
      modifies this, storage, authListeners
      ensures !Truthy(old(storage.GetItem(AuthTokenKey))) ==>
        result == Threw(NoTokenMessage) && sent.None? &&
        storage.items == old(storage.items) && currentUser == old(currentUser) &&
        authListeners.delivered == old(authListeners.delivered) && pendingRedirect == old(pendingRedirect)
      ensures Truthy(old(storage.GetItem(AuthTokenKey))) ==>
        sent == Some(RequestHeaders(old(storage.GetItem(AuthTokenKey)).value, callerHeaders))
      ensures reply.Got? && reply.response.status == 401 && sent.Some? ==>
        result == Threw(SessionExpiredMessage) && storage.items == SignedOut(old(storage.items)) &&
        currentUser.None? && pendingRedirect == Some(HomePage) &&
        authListeners.delivered == old(authListeners.delivered) + Fanout(authListeners.listeners, false, Passed(None))
      ensures reply.Got? && reply.response.status != 401 && sent.Some? ==>
        result == Returned(reply.response) && storage.items == old(storage.items) &&
        currentUser == old(currentUser) && authListeners.delivered == old(authListeners.delivered) &&
        pendingRedirect == old(pendingRedirect)
      ensures reply.NetworkError? && sent.Some? ==>
        result == Threw(reply.message) && storage.items == old(storage.items) && currentUser == old(currentUser) &&
        authListeners.delivered == old(authListeners.delivered) && pendingRedirect == old(pendingRedirect)
      ensures authListeners.listeners == old(authListeners.listeners)
    {
      var token := storage.GetItem(AuthTokenKey);
      if !Truthy(token) {
        return Threw(NoTokenMessage), None;
      }
      var headers := RequestHeaders(token.value, callerHeaders);
      sent := Some(headers);
      match reply {
        case NetworkError(message) =>
          result := Threw(message);
        case Got(response) =>
          if response.status == 401 {
            Logout();
            result := Threw(SessionExpiredMessage);
          } else {
            result := Returned(response);
          }
      }
    }
  }
}
