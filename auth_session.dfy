/**
 * The cookie-session manager of `js/auth.js`: the server's `/api/auth/me`
 * decides who is signed in, only the user object is cached in storage (never a
 * token), and every UI update notifies the listeners.
 */
module SessionAuthManager {
  import opened Common
  import opened Strings
  import opened AuthCommon

  const HomePage := "index.html"

  /** Pages a signed-out visitor is sent away from. */
  predicate IsProtectedPage(page: string)
  {
    page == "account.html" || page == "profile.html"
  }

  predicate IsCreator(u: User)
  {
    u.userType == Some("artist") || u.userType == Some("both")
  }

  /** The UI part of `updateUIBasedOnAuth(flag)`. */
  function AuthUiFor(flag: bool, currentUser: Option<User>): (ui: AuthUi)
    ensures !(flag && currentUser.Some?) <==> SignedOutUi(ui)
    ensures ui.addArtwork == Shown <==> flag && currentUser.Some? && IsCreator(currentUser.value)
    ensures ui.addArtwork != Untouched && ui.collection == Untouched
    ensures flag && currentUser.Some? ==> ui.displayName == Some(OrElse(currentUser.value.name, "Account"))
  {
    if flag && currentUser.Some? then
      var u := currentUser.value;
      AuthUi(Hidden, Shown, Some(OrElse(u.name, "Account")), if IsCreator(u) then Shown else Hidden, Untouched)
    else
      AuthUi(Shown, Hidden, None, Hidden, Untouched)
  }

  /** `login` resolves with the data, or rejects with a message or a runtime error. */
  datatype LoginOutcome = LoggedIn(data: AuthBody) | Rejected(message: string) | RuntimeFailure

  /** Whether the stored user (if any) survives `JSON.parse`: an unparseable one aborts the check. */
  predicate StoredUserParses(items: map<string, string>, codec: JsonCodec)
  {
    !Truthy(Lookup(items, UserKey)) || codec.decode(items[UserKey]).Some?
  }

  /** Whether `/api/auth/me` confirms the session: an ok response whose body parses. */
  predicate ServerConfirms(reply: Reply)
  {
    reply.Got? && Ok(reply.response) && reply.response.body.Some?
  }

  /** The notifications the quick restore from storage makes before the server is asked. */
  function EarlyNotices(items: map<string, string>, codec: JsonCodec, listeners: seq<Listener>): seq<Notice>
  {
    if Truthy(Lookup(items, UserKey)) && codec.decode(items[UserKey]).Some? then
      Fanout(listeners, true, Passed(codec.decode(items[UserKey])))
    else []
  }

  class AuthManager {
    var currentUser: Option<User>
    const storage: LocalStorage
    const authListeners: ListenerRegistry
    var pendingRedirect: Option<string>

    /**
     * `new AuthManager()`.  The constructor starts `init()`, which runs
     * `checkAuthState` synchronously up to its first `await`: a stored user
     * that parses becomes the current user at once, and one that does not
     * parse is dropped by the `catch` block.  No listener is registered yet,
     * so the UI updates of this part notify nobody.  The rest of the check
     * is `CheckAuthState`.
     */
    constructor(s: LocalStorage, codec: JsonCodec)
      modifies s
      ensures storage == s && fresh(authListeners)
      ensures authListeners.listeners == [] && authListeners.delivered == []
      ensures pendingRedirect.None?
      ensures Truthy(Lookup(old(s.items), UserKey)) && codec.decode(old(s.items)[UserKey]).Some? ==>
        currentUser == codec.decode(old(s.items)[UserKey]) && s.items == old(s.items)
      ensures !StoredUserParses(old(s.items), codec) ==> currentUser.None? && s.items == old(s.items) - {UserKey}
      ensures !Truthy(Lookup(old(s.items), UserKey)) ==> currentUser.None? && s.items == old(s.items)
    {
      storage := s;
      authListeners := new ListenerRegistry();
      currentUser := None;
      pendingRedirect := None;
      new;
      var stored := s.GetItem(UserKey);
      if Truthy(stored) {
        var user := codec.decode(stored.value);
        if user.Some? {
          currentUser := user;
        } else {
          s.RemoveItem(UserKey);
        }
      }
    }

    /** `isAuthenticated`: `!!this.currentUser`. */
    predicate IsAuthenticated()
      reads this
    {
      currentUser.Some?
    }

    /** `updateUIBasedOnAuth(flag)`: the page update, then every listener gets `flag` and the user. */
    method UpdateUIBasedOnAuth(flag: bool)
      modifies authListeners
      ensures authListeners.listeners == old(authListeners.listeners)
      ensures authListeners.delivered == old(authListeners.delivered) + Fanout(authListeners.listeners, flag, Passed(currentUser))
    {
      authListeners.Notify(flag, Passed(currentUser));
    }

    /**
     * `checkAuthState`, given what `fetch('/api/auth/me')` yields.  Only a
     * confirmed session keeps a user; any other outcome drops the cached user.
     */
    method CheckAuthState(reply: Reply, codec: JsonCodec) returns (authenticated: bool)
      modifies this, storage, authListeners
      ensures authListeners.listeners == old(authListeners.listeners)
      ensures authenticated <==> StoredUserParses(old(storage.items), codec) && ServerConfirms(reply)
      ensures authenticated ==>
        var user := reply.response.body.value.user;
        currentUser == user &&
        storage.items == old(storage.items)[UserKey := StoredUserText(codec, user)] &&
        authListeners.delivered == old(authListeners.delivered) +
          EarlyNotices(old(storage.items), codec, authListeners.listeners) +
          Fanout(authListeners.listeners, true, Passed(user))
      ensures !authenticated ==>
        currentUser.None? && storage.items == old(storage.items) - {UserKey} &&
        authListeners.delivered == old(authListeners.delivered) +
          EarlyNotices(old(storage.items), codec, authListeners.listeners) +
          Fanout(authListeners.listeners, false, Passed(None))
      ensures pendingRedirect == old(pendingRedirect)
    {
      var storedUser := storage.GetItem(UserKey);
      var failed := false;
      if Truthy(storedUser) {
        var parsed := codec.decode(storedUser.value);
        if parsed.None? {
          failed := true;
        } else {
          currentUser := parsed;
          UpdateUIBasedOnAuth(true);
        }
      }
      ghost var early := authListeners.delivered;
      assert early == old(authListeners.delivered) + EarlyNotices(old(storage.items), codec, authListeners.listeners);
      if !failed {
        match reply {
          case NetworkError(_) =>
            failed := true;
          case Got(response) =>
            if Ok(response) {
              if response.body.None? {
                failed := true;
              } else {
                var data := response.body.value;
                currentUser := data.user;
                storage.SetItem(UserKey, StoredUserText(codec, data.user));
                UpdateUIBasedOnAuth(true);
                return true;
              }
            } else if response.status == 401 {
              currentUser := None;
              storage.RemoveItem(UserKey);
              UpdateUIBasedOnAuth(false);
              return false;
            } else {
              failed := true;
            }
        }
      }
      currentUser := None;
      storage.RemoveItem(UserKey);
      UpdateUIBasedOnAuth(false);
      return false;
    }

    /**
     * `login(credentials)`: nothing changes unless the response is ok; an error
     * response rejects with its `message`, or "Login failed".
     */
    method Login(reply: Reply, codec: JsonCodec) returns (outcome: LoginOutcome)
      modifies this, storage, authListeners
      ensures authListeners.listeners == old(authListeners.listeners)
      ensures !outcome.LoggedIn? ==>
        storage.items == old(storage.items) && currentUser == old(currentUser) &&
        authListeners.delivered == old(authListeners.delivered)
      ensures reply.Got? && !Ok(reply.response) ==>
        outcome == Rejected(OrElse(if reply.response.body.Some? then reply.response.body.value.message else None,
                                   "Login failed"))
      ensures outcome.LoggedIn? <==> ServerConfirms(reply)
      ensures outcome.LoggedIn? ==>
        var data := reply.response.body.value;
        outcome.data == data && currentUser == data.user &&
        storage.items == old(storage.items)[UserKey := StoredUserText(codec, data.user)] &&
        authListeners.delivered == old(authListeners.delivered) + Fanout(authListeners.listeners, true, Passed(data.user))
    {
      match reply {
        case NetworkError(message) =>
          outcome := Rejected(message);
        case Got(response) =>
          if !Ok(response) {
            // `response.json().catch(() => ({}))`
            var message := if response.body.Some? then response.body.value.message else None;
            outcome := Rejected(OrElse(message, "Login failed"));
          } else if response.body.None? {
            outcome := RuntimeFailure;
          } else {
            var data := response.body.value;
            currentUser := data.user;
            storage.SetItem(UserKey, StoredUserText(codec, data.user));
            UpdateUIBasedOnAuth(true);
            outcome := LoggedIn(data);
          }
      }
    }

    /**
     * `logout()` on the page at `path`: whatever the server answers, the user and
     * the cached user are gone, listeners hear `false`, and a protected page
     * sends the visitor home.
     */
    method Logout(path: string)
      modifies this, storage, authListeners
      ensures currentUser.None? && !IsAuthenticated()
      ensures storage.items == old(storage.items) - {UserKey}
      ensures authListeners.listeners == old(authListeners.listeners)
      ensures authListeners.delivered == old(authListeners.delivered) + Fanout(authListeners.listeners, false, Passed(None))
      ensures pendingRedirect == if IsProtectedPage(LastSegment(path)) then Some(HomePage) else old(pendingRedirect)
    {
      var page := LastSegment(path);
      currentUser := None;
      storage.RemoveItem(UserKey);
      UpdateUIBasedOnAuth(false);
      if IsProtectedPage(page) {
        pendingRedirect := Some(HomePage);
      }
    }

    /** `addAuthListener`: registers the callback; `Unsubscribe` with its id undoes it. */
    method AddAuthListener(l: Listener) returns (handle: nat)
      modifies authListeners
      ensures handle == l.id
      ensures authListeners.listeners == old(authListeners.listeners) + [l]
      ensures authListeners.delivered == old(authListeners.delivered)
    {
      authListeners.Add(l);
      handle := l.id;
    }

    /** The function `addAuthListener` returns: removes exactly that callback, every registration of it. */
    method Unsubscribe(handle: nat)
      modifies authListeners
      ensures authListeners.listeners == Filter(old(authListeners.listeners), (l: Listener) => l.id != handle)
      ensures authListeners.delivered == old(authListeners.delivered)
    {
      authListeners.Remove(handle);
    }
  }

  /** Subscribing a new callback and unsubscribing it restores the listener list. */
  lemma {:induction false} SubscribeThenUnsubscribe(listeners: seq<Listener>, l: Listener)
    requires forall k :: 0 <= k < |listeners| ==> listeners[k].id != l.id
    ensures Filter(listeners + [l], (x: Listener) => x.id != l.id) == listeners
  {
    if listeners == [] {
      assert listeners + [l] == [l];
    } else {
      SubscribeThenUnsubscribe(listeners[1..], l);
      assert (listeners + [l])[1..] == listeners[1..] + [l];
      assert listeners == [listeners[0]] + listeners[1..];
    }
  }
}
