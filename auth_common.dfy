/**
 * Vocabulary shared by the three `AuthManager` classes of the front end: the
 * user record as stored and as returned by the server, the JSON codec of the
 * stored user, HTTP replies, and the listener array with its exception-isolating
 * fan-out loop.
 */
module AuthCommon {
  import opened Common

  /** The fields of a user object that any of the managers or pages reads. */
  datatype User = User(
    id: int,
    username: Option<string>,
    email: Option<string>,
    isArtist: bool,
    name: Option<string>,
    userType: Option<string>)

  /**
   * `JSON.stringify` and `JSON.parse` on user objects.  `decode` yields None
   * where `JSON.parse` throws.
   */
  datatype JsonCodec = JsonCodec(encode: User -> string, decode: string -> Option<User>)

  /**
   * What the runtime guarantees of the codec: text it produces is non-empty and
   * parses back to the same user; the text "undefined" does not parse.
   */
  ghost predicate Faithful(c: JsonCodec)
  {
    c.decode("undefined").None? &&
    forall u :: c.encode(u) != "" && c.decode(c.encode(u)) == Some(u)
  }

  /**
   * The string `localStorage.setItem(key, JSON.stringify(user))` stores:
   * `JSON.stringify(undefined)` is undefined, which storage turns into "undefined".
   */
  function StoredUserText(c: JsonCodec, user: Option<User>): string
  {
    if user.Some? then c.encode(user.value) else "undefined"
  }

  /** A parsed JSON body of an auth endpoint: only the fields the pages read. */
  datatype AuthBody = AuthBody(
    error: Option<string>,
    message: Option<string>,
    accessToken: Option<string>,
    user: Option<User>)

  /** A `fetch` response: its status and its body, None when the body is not JSON. */
  datatype Response = Response(status: int, body: Option<AuthBody>)

  predicate Ok(r: Response)
  {
    200 <= r.status <= 299
  }

  /** A registered callback; `id` is its identity (JavaScript reference equality). */
  datatype Listener = Listener(id: nat, throws: bool)

  /** The second argument a callback receives: none at all, or the current user (null as None). */
  datatype UserArg = NoArgument | Passed(user: Option<User>)

  /** One invocation of a callback. */
  datatype Notice = Notice(listener: nat, authenticated: bool, user: UserArg)

  /** The invocations `authListeners.forEach(...)` makes: every listener, in order. */
  function Fanout(listeners: seq<Listener>, authenticated: bool, arg: UserArg): (r: seq<Notice>)
    ensures |r| == |listeners|
    ensures forall k :: 0 <= k < |r| ==> r[k] == Notice(listeners[k].id, authenticated, arg)
  {
    seq(|listeners|, k requires 0 <= k < |listeners| => Notice(listeners[k].id, authenticated, arg))
  }

  /** Calling one more listener extends the fan-out by its notice. */
  lemma FanoutStep(listeners: seq<Listener>, i: nat, authenticated: bool, arg: UserArg)
    requires i < |listeners|
    ensures Fanout(listeners[..i + 1], authenticated, arg) ==
      Fanout(listeners[..i], authenticated, arg) + [Notice(listeners[i].id, authenticated, arg)]
  {
  }

  /** How many of the listeners throw (each such throw is caught and logged). */
  function ThrowingCount(listeners: seq<Listener>): (n: nat)
    ensures n <= |listeners|
  {
    if listeners == [] then 0
    else ThrowingCount(listeners[..|listeners| - 1]) + (if listeners[|listeners| - 1].throws then 1 else 0)
  }

  /** No error is logged exactly when no listener throws, and one per listener exactly when all do. */
  lemma {:induction false} ThrowingCountCounts(listeners: seq<Listener>)
    ensures ThrowingCount(listeners) == 0 <==> forall k :: 0 <= k < |listeners| ==> !listeners[k].throws
    ensures ThrowingCount(listeners) == |listeners| <==> forall k :: 0 <= k < |listeners| ==> listeners[k].throws
  {
    if listeners != [] {
      var init := listeners[..|listeners| - 1];
      ThrowingCountCounts(init);
      assert forall k :: 0 <= k < |init| ==> init[k] == listeners[k];
    }
  }

  /** Calling one more listener logs one more error exactly when it throws. */
  lemma ThrowingCountStep(listeners: seq<Listener>, i: nat)
    requires i < |listeners|
    ensures ThrowingCount(listeners[..i + 1]) == ThrowingCount(listeners[..i]) + if listeners[i].throws then 1 else 0
  {
    assert listeners[..i + 1][..i] == listeners[..i];
  }

  /** The outcome of a `fetch` call: a rejected promise, or a response. */
  datatype Reply = NetworkError(message: string) | Got(response: Response)

  /** Display of a page element set by a manager's UI update. */
  datatype Display = Shown | Hidden | Untouched

  /** The header elements a manager's UI update sets. */
  datatype AuthUi = AuthUi(
    authButtons: Display,
    userMenu: Display,
    displayName: Option<string>,
    addArtwork: Display,
    collection: Display)

  /** The UI of a signed-out visitor, common to all managers (the collection link may be untouched). */
  predicate SignedOutUi(ui: AuthUi)
  {
    ui.authButtons == Shown && ui.userMenu == Hidden && ui.displayName.None? && ui.addArtwork == Hidden
  }

  /** What the stored token and stored user text amount to, for managers that require both. */
  datatype Hydration = NoSession | Restored(user: User) | Corrupt

  /** `if (token && userData) { JSON.parse(userData) ... }`. */
  function Hydrate(items: map<string, string>, codec: JsonCodec): (h: Hydration)
    ensures h.NoSession? <==> !Truthy(Lookup(items, AuthTokenKey)) || !Truthy(Lookup(items, UserKey))
    ensures h.Restored? ==> codec.decode(items[UserKey]) == Some(h.user)
    ensures h.Corrupt? ==> codec.decode(items[UserKey]).None?
  {
    var token := Lookup(items, AuthTokenKey);
    var userData := Lookup(items, UserKey);
    if Truthy(token) && Truthy(userData) then
      match codec.decode(userData.value)
      case Some(u) => Restored(u)
      case None => Corrupt
    else NoSession
  }

  /** Storage after a logout that removes both keys. */
  function SignedOut(items: map<string, string>): (r: map<string, string>)
    ensures AuthTokenKey !in r && UserKey !in r
    ensures forall k :: k in r <==> k in items && k != AuthTokenKey && k != UserKey
  {
    items - {AuthTokenKey, UserKey}
  }

  /** Signing out twice leaves the storage as signing out once. */
  lemma SignedOutIdempotent(items: map<string, string>)
    ensures SignedOut(SignedOut(items)) == SignedOut(items)
  {
  }

  /** What a login stores (a non-empty token and the encoded user) is restored on the next page. */
  lemma LoginStorageRestores(items: map<string, string>, token: string, u: User, codec: JsonCodec)
    requires Faithful(codec) && token != ""
    ensures Hydrate(items[AuthTokenKey := token][UserKey := codec.encode(u)], codec) == Restored(u)
  {
    var after := items[AuthTokenKey := token][UserKey := codec.encode(u)];
    assert Lookup(after, AuthTokenKey) == Some(token);
    assert Lookup(after, UserKey) == Some(codec.encode(u));
  }

  /** A login stored with an empty token is not restored: the empty string is falsy. */
  lemma EmptyTokenNotRestored(items: map<string, string>, u: User, codec: JsonCodec)
    ensures Hydrate(items[AuthTokenKey := ""][UserKey := codec.encode(u)], codec) == NoSession
  {
    assert Lookup(items[AuthTokenKey := ""][UserKey := codec.encode(u)], AuthTokenKey) == Some("");
  }

  /** After a logout nothing is restored. */
  lemma SignedOutNotRestored(items: map<string, string>, codec: JsonCodec)
    ensures Hydrate(SignedOut(items), codec) == NoSession
  {
    assert Lookup(SignedOut(items), AuthTokenKey).None?;
  }

  /** A manager's `authListeners` array, with the trace of the calls made to its callbacks. */
  class ListenerRegistry {
    var listeners: seq<Listener>
    /** Every callback invocation so far, in order. */
    var delivered: seq<Notice>
    /** `console.error` reports of callbacks that threw. */
    var errorsLogged: nat

    constructor()
      ensures listeners == [] && delivered == [] && errorsLogged == 0
    {
      listeners := [];
      delivered := [];
      errorsLogged := 0;
    }

    /** `addAuthListener`: `push`. */
    method Add(l: Listener)
      modifies this
      ensures listeners == old(listeners) + [l]
      ensures delivered == old(delivered) && errorsLogged == old(errorsLogged)
    {
      listeners := listeners + [l];
    }

    /** `removeAuthListener` and the unsubscribe closure: keeps every other listener, in order. */
    method Remove(id: nat)
      modifies this
      ensures listeners == Filter(old(listeners), (l: Listener) => l.id != id)
      ensures forall l :: l in listeners ==> l.id != id
      ensures forall l :: l in old(listeners) && l.id != id ==> l in listeners
      ensures delivered == old(delivered) && errorsLogged == old(errorsLogged)
    {
      listeners := Filter(listeners, (l: Listener) => l.id != id);
    }

    /**
     * `notifyAuthListeners`: calls every listener in order; a listener that
     * throws is reported and the loop goes on with the next one.
     */
    method Notify(authenticated: bool, arg: UserArg)
      modifies this
      ensures listeners == old(listeners)
      ensures delivered == old(delivered) + Fanout(listeners, authenticated, arg)
      ensures errorsLogged == old(errorsLogged) + ThrowingCount(listeners)
    {
      var i := 0;
      while i < |listeners|
        invariant 0 <= i <= |listeners|
        invariant listeners == old(listeners)
        invariant delivered == old(delivered) + Fanout(listeners[..i], authenticated, arg)
        invariant errorsLogged == old(errorsLogged) + ThrowingCount(listeners[..i])
      {
        var callback := listeners[i];
        FanoutStep(listeners, i, authenticated, arg);
        ThrowingCountStep(listeners, i);
        delivered := delivered + [Notice(callback.id, authenticated, arg)];
        if callback.throws {
          errorsLogged := errorsLogged + 1;
        }
        i := i + 1;
      }
      assert listeners[..i] == listeners;
    }
  }
}
