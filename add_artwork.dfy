/**
 * The add-artwork page of `add-artwork.js`: the live preview, the image-URL
 * test, and the submit handler's validation, token and expiry branches.
 */
module AddArtwork {
  import opened Common
  import opened Strings
  import AuthCommon
  import SharedAuthManager

  /** The extensions the image-URL pattern accepts, matched case-insensitively at the very end. */
  const ImageExtensions: seq<string> := [".jpg", ".jpeg", ".png", ".gif", ".webp"]

  /** `isValidImageUrl(url)`; `parses` says whether `new URL(url)` accepts it. */
  predicate IsValidImageUrl(url: string, parses: bool)
  {
    parses &&
    ((exists k :: 0 <= k < |ImageExtensions| && EndsWith(ToLower(url), ImageExtensions[k])) ||
     Contains(url, "unsplash.com") || Contains(url, "images."))
  }

  /** A URL that `new URL` rejects is never valid, whatever it contains. */
  lemma UnparseableUrlRejected(url: string)
    ensures !IsValidImageUrl(url, false)
  {
  }

  /**
   * A parseable URL ending in one of the extensions, written in any case, is
   * accepted (".PNG" as well as ".png").
   */
  lemma {:induction false} ExtensionAcceptedInAnyCase(stem: string, ext: string, k: nat)
    requires k < |ImageExtensions| && ToLower(ext) == ImageExtensions[k]
    ensures IsValidImageUrl(stem + ext, true)
  {
    var url := stem + ext;
    assert ToLower(url)[|url| - |ext|..] == ToLower(ext);
    assert EndsWith(ToLower(url), ImageExtensions[k]);
  }

  /** A parseable URL that mentions a host starting "images." is accepted, whatever its path. */
  lemma {:induction false} ImagesHostAccepted(url: string, host: string)
    requires Contains(url, host) && StartsWith(host, "images.")
    ensures IsValidImageUrl(url, true)
  {
    assert OccursAt(host, "images.", 0);
    assert Contains(host, "images.");
    ContainsTransitive(url, host, "images.");
  }

  /** A text field's preview: the trimmed input, or the field's default when that is empty. */
  function PreviewText(raw: string, default: string): (r: string)
    ensures JsTrim(raw) == [] ==> r == default
    ensures JsTrim(raw) != [] ==> r == JsTrim(raw)
  {
    var value := JsTrim(raw);
    if value == [] then default else value
  }

  /**
   * The price preview: "$0" for an empty input, otherwise "$" and the
   * locale-formatted integer (`formatted`, which the model takes as given).
   */
  function PricePreview(raw: string, formatted: string): (r: string)
    ensures StartsWith(r, "$")
    ensures JsTrim(raw) == [] ==> r == "$0"
    ensures JsTrim(raw) != [] ==> r[1..] == formatted
  {
    if JsTrim(raw) == [] then "$0" else "$" + formatted
  }

  /** The image preview: the new `src`, or `None` when the preview keeps its picture. */
  function ImagePreview(raw: string, parses: bool): (r: Option<string>)
    ensures r.Some? <==> JsTrim(raw) != [] && IsValidImageUrl(JsTrim(raw), parses)
    ensures r.Some? ==> r.value == JsTrim(raw)
  {
    var value := JsTrim(raw);
    if value != [] && IsValidImageUrl(value, parses) then Some(value) else None
  }

  /** The form as `handleAddArtwork` reads it; `startingPrice` is `None` when `parseFloat` gives NaN. */
  datatype ArtworkForm = ArtworkForm(
    rawTitle: string, rawDescription: string, startingPrice: Option<real>,
    rawImageUrl: string, category: string)

  /** The JSON body posted to `/api/artworks`. */
  datatype ArtworkBody = ArtworkBody(
    title: string, description: string, startingPrice: real, imageUrl: string, category: string)

  /** An error response's body; `{}` when it does not parse. */
  datatype ErrorBody = ErrorBody(error: Option<string>, msg: Option<string>)

  /** What the POST yields: a thrown error, or a response (`parsed` is false when an ok body does not parse). */
  datatype ArtworkReply =
    | Threw(message: string)
    | Answered(status: nat, ok: bool, errorBody: ErrorBody, parsed: bool)

  datatype AddOutcome =
    | TitleRequired
    | InvalidPrice
    | LoginRequired
    | SessionExpired
    | AddFailed(message: string)
    | RuntimeFailure
    | ArtworkAdded(body: ArtworkBody)

  /** `!formData.starting_price || formData.starting_price < 1`. */
  predicate BadPrice(price: Option<real>)
  {
    price.None? || price.value == 0.0 || price.value < 1.0
  }

  /** The 401 whose `msg` mentions "expired". */
  predicate ExpiredToken(reply: ArtworkReply)
  {
    reply.Answered? && !reply.ok && reply.status == 401 &&
    Truthy(reply.errorBody.msg) && Contains(reply.errorBody.msg.value, "expired")
  }

  /** The message thrown for any other error response. */
  function ErrorMessage(status: nat, body: ErrorBody): (r: string)
    ensures r != []
    ensures Truthy(body.error) ==> r == body.error.value
    ensures !Truthy(body.error) && Truthy(body.msg) ==> r == body.msg.value
  {
    OrElse(body.error, OrElse(body.msg, "Failed to add artwork (" + NatToString(status) + ")"))
  }

  /**
   * The `window.authManager` the page runs with: none, the manager of
   * `js/auth-manager.js`, which has `authenticatedFetch`, or one of the two
   * other managers, which have neither it nor `handleTokenExpiration`.
   */
  datatype PageManager = NoManager | FetchingManager | PlainManager

  /**
   * `JSON.parse(localStorage.getItem('kunsthaus_user') || '{}')` throws: the
   * stored user is a non-empty text that `parses` rejects.
   */
  predicate StoredUserUnreadable(storedUser: Option<string>, parses: string -> bool)
  {
    Truthy(storedUser) && !parses(storedUser.value)
  }

  /** Whether the submit handler gets as far as the POST. */
  predicate SendsRequest(form: ArtworkForm, storedUser: Option<string>, parses: string -> bool, token: Option<string>)
  {
    JsTrim(form.rawTitle) != [] && !BadPrice(form.startingPrice) &&
    !StoredUserUnreadable(storedUser, parses) && Truthy(token)
  }

  /** The 401 that `authenticatedFetch` turns into a sign-out and a thrown "Session expired". */
  predicate WrapperExpires(manager: PageManager, reply: ArtworkReply)
  {
    manager == FetchingManager && reply.Answered? && reply.status == 401
  }

  /** The body the handler posts: trimmed texts, the parsed price, the category as selected. */
  function BodyOf(form: ArtworkForm): ArtworkBody
    requires form.startingPrice.Some?
  {
    ArtworkBody(JsTrim(form.rawTitle), JsTrim(form.rawDescription), form.startingPrice.value,
                JsTrim(form.rawImageUrl), form.category)
  }

  /**
   * The outcome of `handleAddArtwork`, given the stored token and user.  With
   * the fetching manager every 401 is answered by the wrapper before the page
   * sees it; with another manager the page's expiry branch calls
   * `handleTokenExpiration`, which that manager lacks, and fails with a
   * runtime error; only without a manager does the page sign out itself.
   */
  function AddOutcomeFor(form: ArtworkForm, token: Option<string>, storedUser: Option<string>,
                         parses: string -> bool, manager: PageManager, reply: ArtworkReply): (r: AddOutcome)
    ensures JsTrim(form.rawTitle) == [] ==> r == TitleRequired
    ensures JsTrim(form.rawTitle) != [] && BadPrice(form.startingPrice) ==> r == InvalidPrice
    ensures JsTrim(form.rawTitle) != [] && !BadPrice(form.startingPrice) && StoredUserUnreadable(storedUser, parses) ==>
      r == RuntimeFailure
    ensures (JsTrim(form.rawTitle) != [] && !BadPrice(form.startingPrice) &&
             !StoredUserUnreadable(storedUser, parses) && !Truthy(token)) ==> r == LoginRequired
    ensures r == SessionExpired <==> SendsRequest(form, storedUser, parses, token) && ExpiredToken(reply) && manager == NoManager
    ensures SendsRequest(form, storedUser, parses, token) && WrapperExpires(manager, reply) ==>
      r == AddFailed(SharedAuthManager.SessionExpiredMessage)
    ensures SendsRequest(form, storedUser, parses, token) && ExpiredToken(reply) && manager == PlainManager ==>
      r == RuntimeFailure
    ensures r.ArtworkAdded? <==>
      SendsRequest(form, storedUser, parses, token) && reply.Answered? && reply.ok && reply.parsed &&
      !WrapperExpires(manager, reply)
    ensures r.ArtworkAdded? ==> r.body == BodyOf(form) && r.body.title != [] && r.body.startingPrice >= 1.0
    ensures (SendsRequest(form, storedUser, parses, token) && reply.Answered? && !reply.ok &&
             !ExpiredToken(reply) && !WrapperExpires(manager, reply)) ==>
      r == AddFailed(ErrorMessage(reply.status, reply.errorBody))
    ensures SendsRequest(form, storedUser, parses, token) && reply.Threw? ==>
      r == AddFailed(if reply.message == [] then "Failed to add artwork" else reply.message)
  {
    if JsTrim(form.rawTitle) == [] then TitleRequired
    else if BadPrice(form.startingPrice) then InvalidPrice
    else if StoredUserUnreadable(storedUser, parses) then RuntimeFailure
    else if !Truthy(token) then LoginRequired
    else match reply
      case Threw(message) =>
        // `error.message || 'Failed to add artwork'`
        AddFailed(if message == [] then "Failed to add artwork" else message)
      case Answered(status, ok, errorBody, parsed) =>
        if WrapperExpires(manager, reply) then AddFailed(SharedAuthManager.SessionExpiredMessage)
        else if !ok then
          if ExpiredToken(reply) then
            if manager == NoManager then SessionExpired else RuntimeFailure
          else AddFailed(ErrorMessage(status, errorBody))
        else if !parsed then RuntimeFailure
        else ArtworkAdded(BodyOf(form))
  }

  /** An expired token signs the visitor out exactly when the page has no manager or the fetching one. */
  lemma ExpiryClearsSessionOnlyWithoutHandler(form: ArtworkForm, token: Option<string>, storedUser: Option<string>,
                                              parses: string -> bool, manager: PageManager, reply: ArtworkReply)
    requires SendsRequest(form, storedUser, parses, token) && ExpiredToken(reply)
    ensures var r := AddOutcomeFor(form, token, storedUser, parses, manager, reply);
      (r == SessionExpired || r == AddFailed(SharedAuthManager.SessionExpiredMessage)) <==> manager != PlainManager
  {
  }

  /** The reply as the wrapper sees it: only its status matters there. */
  function AsFetchReply(reply: ArtworkReply): AuthCommon.Reply
  {
    match reply
    case Threw(message) => AuthCommon.NetworkError(message)
    case Answered(status, _, _, _) => AuthCommon.Got(AuthCommon.Response(status, None))
  }

  /**
   * `handleAddArtwork`, sending through `shared.authenticatedFetch` when the
   * page has the fetching manager.  Storage changes only when a session
   * ends: the page's own expiry branch or the wrapper's sign-out removes both
   * session keys.
   */
  method HandleAddArtwork(storage: LocalStorage, form: ArtworkForm, parses: string -> bool, manager: PageManager,
                          shared: SharedAuthManager.AuthManager?, reply: ArtworkReply)
    returns (outcome: AddOutcome, requested: bool)
    requires manager == FetchingManager ==> shared != null && shared.storage == storage
    modifies storage, if shared != null then {shared, shared.authListeners} else {}
    ensures requested <==> SendsRequest(form, old(storage.GetItem(UserKey)), parses, old(storage.GetItem(AuthTokenKey)))
    ensures outcome == AddOutcomeFor(form, old(storage.GetItem(AuthTokenKey)), old(storage.GetItem(UserKey)),
                                     parses, manager, reply)
    ensures outcome == SessionExpired ==> storage.items == AuthCommon.SignedOut(old(storage.items))
    ensures requested && WrapperExpires(manager, reply) ==>
      storage.items == AuthCommon.SignedOut(old(storage.items)) && shared.currentUser.None?
    ensures outcome != SessionExpired && !(requested && WrapperExpires(manager, reply)) ==>
      storage.items == old(storage.items)
  {
    var token := storage.GetItem(AuthTokenKey);
    var storedUser := storage.GetItem(UserKey);
    requested := SendsRequest(form, storedUser, parses, token);
    outcome := AddOutcomeFor(form, token, storedUser, parses, manager, reply);
    if requested && manager == FetchingManager {
      var result, sent := shared.AuthenticatedFetch(map[], AsFetchReply(reply));
    } else if outcome == SessionExpired {
      storage.RemoveItem(AuthTokenKey);
      storage.RemoveItem(UserKey);
    }
  }
}
