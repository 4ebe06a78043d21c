/**
 * The account page of `js/account.js`: the checks made before the profile and
 * password requests, the notification and theme preferences kept in storage,
 * and the activity list built from the user's artworks.
 */
module Account {
  import opened Common
  import opened Strings
  import opened AuthCommon

  /** What became of a request that was sent. */
  datatype RequestResult = Succeeded | Failed(message: string)

  /**
   * The result of a request sent with `fetch` whose ok body is never read: an
   * error response gives its `error` or `fallback`, a thrown `fetch` its
   * message or `fallback`, and any ok response succeeds.
   */
  function SentResult(reply: Reply, fallback: string): (r: RequestResult)
    ensures r.Succeeded? <==> reply.Got? && Ok(reply.response)
    ensures reply.Got? && !Ok(reply.response) ==>
      r == Failed(OrElse(if reply.response.body.Some? then reply.response.body.value.error else None, fallback))
    ensures reply.NetworkError? ==> r == Failed(if reply.message == "" then fallback else reply.message)
    ensures r.Failed? && fallback != "" ==> r.message != ""
  {
    match reply
    case NetworkError(message) => Failed(if message == "" then fallback else message)
    case Got(response) =>
      if !Ok(response) then
        Failed(OrElse(if response.body.Some? then response.body.value.error else None, fallback))
      else Succeeded
  }

  /**
   * The result of a request sent with `fetch` whose ok body is then parsed:
   * as `SentResult`, except that an ok response whose body does not parse
   * fails with the parser's message.
   */
  function ResultOf(reply: Reply, fallback: string, parseError: string): (r: RequestResult)
    ensures r.Succeeded? <==> reply.Got? && Ok(reply.response) && reply.response.body.Some?
    ensures reply.Got? && !Ok(reply.response) ==>
      r == Failed(OrElse(if reply.response.body.Some? then reply.response.body.value.error else None, fallback))
    ensures r.Failed? && fallback != "" ==> r.message != ""
  {
    if reply.Got? && Ok(reply.response) && reply.response.body.None? then
      Failed(if parseError == "" then fallback else parseError)
    else SentResult(reply, fallback)
  }

  /** Reading the ok body makes a difference only when it does not parse. */
  lemma ResultOfDiffersOnlyOnUnreadBody(reply: Reply, fallback: string, parseError: string)
    ensures ResultOf(reply, fallback, parseError) != SentResult(reply, fallback) <==>
      reply.Got? && Ok(reply.response) && reply.response.body.None?
  {
  }

  // ---------------------------------------------------------------- profile

  /** The body of `PUT /api/user/profile`. */
  datatype ProfileBody = ProfileBody(email: string, artistName: string, bio: string)

  datatype ProfileSubmission =
    | NameRequired
    | NoProfileToken
    | ProfileSent(body: ProfileBody, result: RequestResult)

  /**
   * `handleProfileUpdate` on the raw field values, with the stored token and
   * the reply the request would get.
   */
  function ProfileUpdate(rawEmail: string, rawName: string, rawBio: string, token: Option<string>,
                         reply: Reply, parseError: string): (r: ProfileSubmission)
    ensures r == NameRequired <==> JsTrim(rawName) == []
    ensures r == NoProfileToken <==> JsTrim(rawName) != [] && !Truthy(token)
    ensures r.ProfileSent? ==>
      r.body == ProfileBody(JsTrim(rawEmail), JsTrim(rawName), JsTrim(rawBio)) && r.body.artistName != [] &&
      r.result == ResultOf(reply, "Failed to update profile", parseError)
  {
    var body := ProfileBody(JsTrim(rawEmail), JsTrim(rawName), JsTrim(rawBio));
    if body.artistName == [] then NameRequired
    else if !Truthy(token) then NoProfileToken
    else ProfileSent(body, ResultOf(reply, "Failed to update profile", parseError))
  }

  // --------------------------------------------------------------- password

  /** The body of `POST /api/user/change-password`. */
  datatype PasswordBody = PasswordBody(currentPassword: string, newPassword: string)

  datatype PasswordSubmission =
    | FieldsMissing
    | NewPasswordsDiffer
    | NewPasswordTooShort
    | NoPasswordToken
    | PasswordSent(body: PasswordBody, result: RequestResult)

  /** The position of each refusal in the order `handlePasswordUpdate` checks them. */
  function SubmissionRank(s: PasswordSubmission): nat
  {
    match s
    case FieldsMissing => 0
    case NewPasswordsDiffer => 1
    case NewPasswordTooShort => 2
    case NoPasswordToken => 3
    case PasswordSent(_, _) => 4
  }

  /** Whether the check that `s` reports fails on these inputs. */
  predicate Refuses(s: PasswordSubmission, current: string, newPassword: string, confirm: string,
                    token: Option<string>)
  {
    match s
    case FieldsMissing => current == [] || newPassword == [] || confirm == []
    case NewPasswordsDiffer => newPassword != confirm
    case NewPasswordTooShort => Utf16Length(newPassword) < 8
    case NoPasswordToken => !Truthy(token)
    case PasswordSent(_, _) => false
  }

  /** `handlePasswordUpdate`: the first failing check, or the request. */
  function PasswordUpdate(current: string, newPassword: string, confirm: string, token: Option<string>,
                          reply: Reply): (r: PasswordSubmission)
    ensures !r.PasswordSent? ==> Refuses(r, current, newPassword, confirm, token)
    ensures forall s :: SubmissionRank(s) < SubmissionRank(r) ==> !Refuses(s, current, newPassword, confirm, token)
    ensures r.PasswordSent? ==>
      r.body == PasswordBody(current, newPassword) && Utf16Length(newPassword) >= 8 && newPassword == confirm &&
      r.result == SentResult(reply, "Failed to update password")
    ensures r.PasswordSent? ==> (r.result.Succeeded? <==> reply.Got? && Ok(reply.response))
  {
    if current == [] || newPassword == [] || confirm == [] then FieldsMissing
    else if newPassword != confirm then NewPasswordsDiffer
    else if Utf16Length(newPassword) < 8 then NewPasswordTooShort
    else if !Truthy(token) then NoPasswordToken
    else PasswordSent(PasswordBody(current, newPassword), SentResult(reply, "Failed to update password"))
  }

  // ------------------------------------------------------------ preferences

  const ThemeKey := "kunsthaus_theme"
  const PreferencesKey := "kunsthaus_preferences"
  const DefaultTheme := "auto"

  /** A property of the parsed preferences object: missing, a boolean, or any other value. */
  datatype Flag = Absent | Bool(b: bool) | OtherValue

  /** The four properties of the stored preferences object that the page reads. */
  datatype StoredPreferences = StoredPreferences(
    notifyAuctions: Flag, notifyBids: Flag, notifyNewsletter: Flag, notifyMarketing: Flag)

  /**
   * `JSON.stringify` and `JSON.parse` of the preferences object; `decode`
   * yields None where parsing throws or gives `null`.
   */
  datatype PreferencesCodec = PreferencesCodec(
    encode: StoredPreferences -> string, decode: string -> Option<StoredPreferences>)

  ghost predicate FaithfulPreferences(c: PreferencesCodec)
  {
    c.decode("{}") == Some(StoredPreferences(Absent, Absent, Absent, Absent)) &&
    forall p :: c.encode(p) != "" && c.decode(c.encode(p)) == Some(p)
  }

  /** The form's state: the checked theme and the four checkboxes. */
  datatype Preferences = Preferences(
    theme: string, notifyAuctions: bool, notifyBids: bool, notifyNewsletter: bool, notifyMarketing: bool)

  /** `loadPreferences` on the stored items: None where `JSON.parse` throws. */
  function LoadPreferences(items: map<string, string>, codec: PreferencesCodec): (r: Option<Preferences>)
    ensures r.None? <==> codec.decode(OrElse(Lookup(items, PreferencesKey), "{}")).None?
    ensures r.Some? ==>
      var p := codec.decode(OrElse(Lookup(items, PreferencesKey), "{}")).value;
      r.value.theme == OrElse(Lookup(items, ThemeKey), DefaultTheme) &&
      (r.value.notifyAuctions <==> p.notifyAuctions != Bool(false)) &&
      (r.value.notifyBids <==> p.notifyBids != Bool(false)) &&
      (r.value.notifyNewsletter <==> p.notifyNewsletter == Bool(true)) &&
      (r.value.notifyMarketing <==> p.notifyMarketing == Bool(true))
  {
    var theme := OrElse(Lookup(items, ThemeKey), DefaultTheme);
    match codec.decode(OrElse(Lookup(items, PreferencesKey), "{}"))
    case None => None
    case Some(p) =>
      Some(Preferences(theme, p.notifyAuctions != Bool(false), p.notifyBids != Bool(false),
                       p.notifyNewsletter == Bool(true), p.notifyMarketing == Bool(true)))
  }

  /** The object `handlePreferencesUpdate` serialises: the four booleans. */
  function StoredFrom(p: Preferences): StoredPreferences
  {
    StoredPreferences(Bool(p.notifyAuctions), Bool(p.notifyBids), Bool(p.notifyNewsletter), Bool(p.notifyMarketing))
  }

  /** Storage after `handlePreferencesUpdate` saves `p`. */
  function SavedItems(items: map<string, string>, p: Preferences, codec: PreferencesCodec): map<string, string>
  {
    items[ThemeKey := p.theme][PreferencesKey := codec.encode(StoredFrom(p))]
  }

  /** Saved preferences load back as saved, provided a theme was chosen. */
  lemma SaveThenLoad(items: map<string, string>, p: Preferences, codec: PreferencesCodec)
    requires FaithfulPreferences(codec) && p.theme != ""
    ensures LoadPreferences(SavedItems(items, p, codec), codec) == Some(p)
  {
    var after := SavedItems(items, p, codec);
    assert Lookup(after, PreferencesKey) == Some(codec.encode(StoredFrom(p)));
    assert Lookup(after, ThemeKey) == Some(p.theme);
  }

  /** With nothing stored, the page shows the two notification boxes checked and the theme "auto". */
  lemma NothingStoredGivesDefaults(items: map<string, string>, codec: PreferencesCodec)
    requires FaithfulPreferences(codec)
    requires ThemeKey !in items && PreferencesKey !in items
    ensures LoadPreferences(items, codec) == Some(Preferences(DefaultTheme, true, true, false, false))
  {
    assert Lookup(items, PreferencesKey).None?;
  }

  /** The page's storage: `handlePreferencesUpdate` writes exactly the two keys. */
  class AccountPage {
    const storage: LocalStorage

    constructor(s: LocalStorage)
      ensures storage == s
    {
      storage := s;
    }

    /** `handlePreferencesUpdate` with the checked theme and the four checkboxes. */
    method SavePreferences(p: Preferences, codec: PreferencesCodec)
      modifies storage
      ensures storage.items == SavedItems(old(storage.items), p, codec)
      ensures forall k :: k != ThemeKey && k != PreferencesKey ==> Lookup(storage.items, k) == Lookup(old(storage.items), k)
    {
      storage.SetItem(ThemeKey, p.theme);
      storage.SetItem(PreferencesKey, codec.encode(StoredFrom(p)));
    }

    /** `loadPreferences`. */
    function CurrentPreferences(codec: PreferencesCodec): Option<Preferences>
      reads storage
    {
      LoadPreferences(storage.items, codec)
    }
  }

  // --------------------------------------------------------------- activity

  /** The fields of an artwork of `/api/user/artworks` the activity list shows. */
  datatype ArtworkSummary = ArtworkSummary(title: string, price: Option<real>)

  datatype ActivityKind = LoginEntry | ArtworkEntry

  /** One row of the activity list; `amount` is shown only for a truthy price. */
  datatype Activity = Activity(kind: ActivityKind, title: string, amount: Option<real>)

  const LoginActivity := Activity(LoginEntry, "Logged in to account", None)

  function ArtworkActivity(a: ArtworkSummary): (r: Activity)
    ensures r.kind == ArtworkEntry
    ensures r.amount.Some? <==> a.price.Some? && a.price.value != 0.0
  {
    Activity(ArtworkEntry, "Created artwork \"" + a.title + "\"",
             if a.price.Some? && a.price.value != 0.0 then a.price else None)
  }

  /** The activities `loadUserActivity` lists: the login entry, then one per artwork in order. */
  function UserActivity(artworks: seq<ArtworkSummary>): (r: seq<Activity>)
    ensures |r| == |artworks| + 1 && r != []
    ensures r[0] == LoginActivity
    ensures forall i :: 0 <= i < |artworks| ==> r[i + 1] == ArtworkActivity(artworks[i])
    ensures forall i :: 1 <= i < |r| ==> r[i].kind == ArtworkEntry
  {
    [LoginActivity] + seq(|artworks|, i requires 0 <= i < |artworks| => ArtworkActivity(artworks[i]))
  }

  /** What the activity panel shows. */
  datatype ActivityPanel = ActivityError | NoActivity | Listed(items: seq<Activity>)

  /**
   * `loadUserActivity` with the stored token and the artworks the request
   * returns (None when it fails); the empty-state branch is never reached.
   */
  function ActivityPanelFor(token: Option<string>, artworks: Option<seq<ArtworkSummary>>): (r: ActivityPanel)
    ensures r.ActivityError? <==> !Truthy(token) || artworks.None?
    ensures r != NoActivity
    ensures r.Listed? ==> r.items == UserActivity(artworks.value)
  {
    if !Truthy(token) || artworks.None? then ActivityError
    else
      var activities := UserActivity(artworks.value);
      if |activities| == 0 then NoActivity else Listed(activities)
  }
}
