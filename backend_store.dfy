/**
 * The Flask backend's tables (`backend/app.py`) as an in-memory store, and the
 * routes that change them: registration, profile and password updates, and
 * artwork creation; plus the login check.  Rows are numbered from 1 in
 * insertion order, as SQLite assigns integer primary keys when nothing is
 * deleted.  Password hashing is a parameter of the store.
 */
module BackendStore {
  import opened Common
  import opened Strings

  /** A `user` row. */
  datatype UserRow = UserRow(id: nat, username: string, email: string, passwordHash: string, isArtist: bool)

  /** An `artist` row: the artist profile of the user `userId`. */
  datatype ArtistRow = ArtistRow(
    id: nat, userId: nat, name: string, bio: Option<string>, specialty: Option<string>,
    profileImage: Option<string>, featured: bool)

  /** An `artwork` row; the nullable columns are options. */
  datatype ArtworkRow = ArtworkRow(
    id: nat, title: string, description: Option<string>, category: Option<string>,
    price: Option<real>, imageUrl: Option<string>, userId: nat, artistId: Option<nat>)

  /** `generate_password_hash` and `check_password_hash`. */
  datatype PasswordHasher = PasswordHasher(hash: string -> string, check: (string, string) -> bool)

  /** A hash accepts exactly the password it was made from. */
  ghost predicate Sound(h: PasswordHasher)
  {
    forall p, q :: h.check(h.hash(p), q) <==> p == q
  }

  /** A JSON reply: `{'error': message}` with an error status, or a body with a success status. */
  datatype ApiResponse<T> = Failure(status: nat, error: string) | Success(status: nat, body: T)

  /** A rejected request's status and error message. */
  datatype Rejection = Rejection(status: nat, message: string)

  /** `dict.get(key, default)`: the default only when the key is absent (an empty string is kept). */
  function GetOr(o: Option<string>, default: string): string
  {
    if o.Some? then o.value else default
  }

  /** `query.first()`: the position of the first row satisfying `p`. */
  function FirstIndex<T>(s: seq<T>, p: T -> bool): (r: Option<nat>)
    ensures r.Some? ==> r.value < |s| && p(s[r.value])
    ensures r.Some? ==> forall j :: 0 <= j < r.value ==> !p(s[j])
    ensures r.None? ==> forall j :: 0 <= j < |s| ==> !p(s[j])
  {
    if s == [] then None
    else if p(s[0]) then Some(0)
    else match FirstIndex(s[1..], p)
      case None => None
      case Some(k) => Some(k + 1)
  }

  /** Users are numbered 1, 2, ... and no two share a username or an email (the unique columns). */
  predicate UsersWellFormed(users: seq<UserRow>)
  {
    (forall i :: 0 <= i < |users| ==> users[i].id == i + 1) &&
    (forall i, j :: 0 <= i < j < |users| ==>
      users[i].username != users[j].username && users[i].email != users[j].email)
  }

  /** Artist profiles are numbered 1, 2, ..., belong to existing users, at most one per user. */
  predicate ArtistsWellFormed(artists: seq<ArtistRow>, userCount: nat)
  {
    (forall i :: 0 <= i < |artists| ==> artists[i].id == i + 1 && 1 <= artists[i].userId <= userCount) &&
    (forall i, j :: 0 <= i < j < |artists| ==> artists[i].userId != artists[j].userId)
  }

  /** Artworks are numbered 1, 2, ..., and their owner and artist profile exist and agree. */
  predicate ArtworksWellFormed(artworks: seq<ArtworkRow>, userCount: nat, artists: seq<ArtistRow>)
  {
    forall i :: 0 <= i < |artworks| ==>
      artworks[i].id == i + 1 && 1 <= artworks[i].userId <= userCount &&
      (artworks[i].artistId.Some? ==>
        1 <= artworks[i].artistId.value <= |artists| &&
        artists[artworks[i].artistId.value - 1].userId == artworks[i].userId)
  }

  /** `User.query.get(id)`: the position of the user with that id. */
  function UserIndex(users: seq<UserRow>, id: int): (r: Option<nat>)
    ensures r.Some? ==> r.value < |users| && users[r.value].id == id
    ensures r.None? ==> forall j :: 0 <= j < |users| ==> users[j].id != id
    ensures UsersWellFormed(users) ==> (r.Some? <==> 1 <= id <= |users|) && (r.Some? ==> r.value == id - 1)
  {
    var r := FirstIndex(users, (u: UserRow) => u.id == id);
    assert UsersWellFormed(users) && 1 <= id <= |users| ==> users[id - 1].id == id;
    r
  }

  /** `user.artist_profile`: the position of the profile of user `userId`. */
  function ProfileIndex(artists: seq<ArtistRow>, userId: nat): (r: Option<nat>)
    ensures r.Some? ==> r.value < |artists| && artists[r.value].userId == userId
    ensures r.None? ==> forall j :: 0 <= j < |artists| ==> artists[j].userId != userId
  {
    FirstIndex(artists, (a: ArtistRow) => a.userId == userId)
  }

  predicate UsernameTaken(users: seq<UserRow>, name: string)
  {
    exists i :: 0 <= i < |users| && users[i].username == name
  }

  predicate EmailTaken(users: seq<UserRow>, email: string)
  {
    exists i :: 0 <= i < |users| && users[i].email == email
  }

  /** `User.query.filter(User.email == email, User.id != id).first()` finds a row. */
  predicate EmailTakenByOther(users: seq<UserRow>, email: string, id: int)
  {
    exists i :: 0 <= i < |users| && users[i].email == email && users[i].id != id
  }

  /** The JSON body of `POST /api/auth/register`; `None` for an absent key. */
  datatype RegisterRequest = RegisterRequest(
    username: Option<string>, email: Option<string>, password: Option<string>,
    isArtist: bool, artistName: Option<string>, bio: Option<string>, specialty: Option<string>)

  const MissingCredentials := "Username, email, and password are required"
  const ShortPassword := "Password must be at least 8 characters long"
  const UsernameExists := "Username already exists"
  const EmailExists := "Email already exists"

  /** `register`'s checks, in order; every rejection is a 400. */
  function RegisterRejection(users: seq<UserRow>, req: RegisterRequest): (r: Option<string>)
    ensures r.None? <==>
      Truthy(req.username) && Truthy(req.email) && Truthy(req.password) &&
      |req.password.value| >= 8 &&
      !UsernameTaken(users, req.username.value) && !EmailTaken(users, req.email.value)
    ensures r == Some(MissingCredentials) <==> !Truthy(req.username) || !Truthy(req.email) || !Truthy(req.password)
    ensures r == Some(ShortPassword) <==>
      Truthy(req.username) && Truthy(req.email) && Truthy(req.password) && |req.password.value| < 8
    ensures r == Some(UsernameExists) <==>
      Truthy(req.username) && Truthy(req.email) && Truthy(req.password) && |req.password.value| >= 8 &&
      UsernameTaken(users, req.username.value)
    ensures r == Some(EmailExists) ==>
      !UsernameTaken(users, req.username.value) && EmailTaken(users, req.email.value)
  {
    if !Truthy(req.username) || !Truthy(req.email) || !Truthy(req.password) then Some(MissingCredentials)
    else if |req.password.value| < 8 then Some(ShortPassword)
    else if UsernameTaken(users, req.username.value) then Some(UsernameExists)
    else if EmailTaken(users, req.email.value) then Some(EmailExists)
    else None
  }

  /** The user row `register` inserts. */
  function NewUser(users: seq<UserRow>, req: RegisterRequest, h: PasswordHasher): UserRow
    requires req.username.Some? && req.email.Some? && req.password.Some?
  {
    UserRow(|users| + 1, req.username.value, req.email.value, h.hash(req.password.value), req.isArtist)
  }

  /** The artist profile `register` inserts for an artist: named `artist_name`, or the username when absent. */
  function NewProfile(artists: seq<ArtistRow>, user: UserRow, req: RegisterRequest): ArtistRow
  {
    ArtistRow(|artists| + 1, user.id, GetOr(req.artistName, user.username),
              Some(GetOr(req.bio, "")), Some(GetOr(req.specialty, "")), None, false)
  }

  /** The JSON body of `POST /api/auth/login`: `username` may hold a username or an email. */
  datatype LoginRequest = LoginRequest(username: Option<string>, password: Option<string>)

  /** Whether `u` is a row the login query selects for `name`. */
  predicate LoginMatches(u: UserRow, name: string)
  {
    u.username == name || u.email == name
  }

  /**
   * `scan` is the order in which the database returns the rows of the login
   * query's table: the query has no `ORDER BY`, so `.first()` may give any
   * matching row.  A scan order lists every row position.
   */
  predicate ScanOrder(scan: seq<nat>, n: nat)
  {
    forall k :: 0 <= k < n ==> k in scan
  }

  /** The first user in `scan` whose username or email is `name`. */
  function LoginMatch(users: seq<UserRow>, name: string, scan: seq<nat>): (r: Option<nat>)
    ensures r.Some? ==> r.value < |users| && LoginMatches(users[r.value], name) && r.value in scan
    ensures r.None? ==> forall j :: 0 <= j < |users| && j in scan ==> !LoginMatches(users[j], name)
  {
    if scan == [] then None
    else if scan[0] < |users| && LoginMatches(users[scan[0]], name) then Some(scan[0])
    else LoginMatch(users, name, scan[1..])
  }

  /** A name that only one row matches selects that row in every scan order. */
  lemma {:induction false} SoleMatchSelected(users: seq<UserRow>, name: string, scan: seq<nat>, i: nat)
    requires i < |users| && i in scan && LoginMatches(users[i], name)
    requires forall j :: 0 <= j < |users| && j != i ==> !LoginMatches(users[j], name)
    ensures LoginMatch(users, name, scan) == Some(i)
  {
    if scan[0] != i {
      SoleMatchSelected(users, name, scan[1..], i);
    }
  }

  /** The lookup reads only the username and email of each row. */
  lemma {:induction false} LoginMatchReadsNames(users: seq<UserRow>, other: seq<UserRow>, name: string, scan: seq<nat>)
    requires |users| == |other|
    requires forall j :: 0 <= j < |users| ==> other[j].username == users[j].username && other[j].email == users[j].email
    ensures LoginMatch(other, name, scan) == LoginMatch(users, name, scan)
  {
    if scan != [] {
      LoginMatchReadsNames(users, other, name, scan[1..]);
    }
  }

  /** `login`: the matched user when the password checks against its hash. */
  function LoginResult(users: seq<UserRow>, h: PasswordHasher, req: LoginRequest, scan: seq<nat>): (r: ApiResponse<UserRow>)
    requires ScanOrder(scan, |users|)
    ensures r == Failure(400, "Username and password are required") <==> !Truthy(req.username) || !Truthy(req.password)
    ensures r.Failure? ==> r.status == 400 || r == Failure(401, "Invalid credentials")
    ensures r.Success? <==>
      Truthy(req.username) && Truthy(req.password) && LoginMatch(users, req.username.value, scan).Some? &&
      h.check(users[LoginMatch(users, req.username.value, scan).value].passwordHash, req.password.value)
    ensures r.Success? ==>
      r.status == 200 && r.body in users && LoginMatches(r.body, req.username.value) &&
      h.check(r.body.passwordHash, req.password.value)
    ensures (Truthy(req.username) && Truthy(req.password) &&
             forall j :: 0 <= j < |users| ==> !LoginMatches(users[j], req.username.value)) ==>
      r == Failure(401, "Invalid credentials")
  {
    if !Truthy(req.username) || !Truthy(req.password) then Failure(400, "Username and password are required")
    else match LoginMatch(users, req.username.value, scan)
      case None => Failure(401, "Invalid credentials")
      case Some(i) =>
        if !h.check(users[i].passwordHash, req.password.value) then Failure(401, "Invalid credentials")
        else Success(200, users[i])
  }

  /** A newly registered account logs in with its username when no older account has that username as email. */
  lemma RegisteredUserLogsIn(users: seq<UserRow>, h: PasswordHasher, req: RegisterRequest, scan: seq<nat>)
    requires Sound(h) && RegisterRejection(users, req).None?
    requires !EmailTaken(users, req.username.value)
    requires ScanOrder(scan, |users| + 1)
    ensures LoginResult(users + [NewUser(users, req, h)], h, LoginRequest(req.username, req.password), scan) ==
      Success(200, NewUser(users, req, h))
  {
    var all := users + [NewUser(users, req, h)];
    var name := req.username.value;
    assert all[|users|].username == name;
    assert forall j :: 0 <= j < |users| ==> all[j] == users[j] && users[j].username != name && users[j].email != name;
    SoleMatchSelected(all, name, scan, |users|);
  }

  /**
   * Registration checks a new username against usernames only.  When an
   * older account's email is the new username, both rows match the login
   * lookup, and the outcome depends on the order the database returns them
   * in: read in id order the older account wins and the new account's own
   * password is refused; read the other way round the login succeeds.
   */
  lemma UsernameShadowedByOlderEmail(h: PasswordHasher)
    requires Sound(h)
    ensures var users := [UserRow(1, "alice", "bob", h.hash("alice-secret"), false)];
      var req := RegisterRequest(Some("bob"), Some("bob@example.com"), Some("bob-secret"), false, None, None, None);
      var login := LoginRequest(Some("bob"), Some("bob-secret"));
      RegisterRejection(users, req).None? &&
      LoginResult(users + [NewUser(users, req, h)], h, login, [0, 1]) == Failure(401, "Invalid credentials") &&
      LoginResult(users + [NewUser(users, req, h)], h, login, [1, 0]) == Success(200, NewUser(users, req, h))
  {
    var users := [UserRow(1, "alice", "bob", h.hash("alice-secret"), false)];
    var req := RegisterRequest(Some("bob"), Some("bob@example.com"), Some("bob-secret"), false, None, None, None);
    assert !UsernameTaken(users, "bob");
    assert !EmailTaken(users, "bob@example.com");
    var all := users + [NewUser(users, req, h)];
    assert LoginMatch(all, "bob", [0, 1]) == Some(0);
    assert LoginMatch(all, "bob", [1, 0]) == Some(1);
    assert !h.check(h.hash("alice-secret"), "bob-secret");
  }

  /** The JSON body of `POST /api/user/change-password`. */
  datatype PasswordChange = PasswordChange(current: Option<string>, replacement: Option<string>)

  /** `change_password`'s checks, in order. */
  function PasswordChangeRejection(users: seq<UserRow>, h: PasswordHasher, userId: int, req: PasswordChange): (r: Option<Rejection>)
    ensures r == Some(Rejection(404, "User not found")) <==> UserIndex(users, userId).None?
    ensures r.None? <==>
      UserIndex(users, userId).Some? && Truthy(req.current) && Truthy(req.replacement) &&
      h.check(users[UserIndex(users, userId).value].passwordHash, req.current.value) && |req.replacement.value| >= 8
    ensures r == Some(Rejection(400, "Current password is incorrect")) <==>
      UserIndex(users, userId).Some? && Truthy(req.current) && Truthy(req.replacement) &&
      !h.check(users[UserIndex(users, userId).value].passwordHash, req.current.value)
    ensures r.Some? ==> r.value.status in {400, 404}
  {
    match UserIndex(users, userId)
    case None => Some(Rejection(404, "User not found"))
    case Some(i) =>
      if !Truthy(req.current) || !Truthy(req.replacement) then
        Some(Rejection(400, "Current password and new password are required"))
      else if !h.check(users[i].passwordHash, req.current.value) then
        Some(Rejection(400, "Current password is incorrect"))
      else if |req.replacement.value| < 8 then
        Some(Rejection(400, "New password must be at least 8 characters long"))
      else None
  }

  /** After a password change the new password logs in and the old one no longer does. */
  lemma NewPasswordReplacesOld(users: seq<UserRow>, h: PasswordHasher, i: nat, oldPassword: string, newPassword: string,
                               scan: seq<nat>)
    requires Sound(h) && i < |users| && oldPassword != newPassword && newPassword != []
    requires ScanOrder(scan, |users|)
    requires users[i].username != [] && LoginMatch(users, users[i].username, scan) == Some(i)
    ensures var changed := users[i := users[i].(passwordHash := h.hash(newPassword))];
      LoginResult(changed, h, LoginRequest(Some(users[i].username), Some(newPassword)), scan) == Success(200, changed[i]) &&
      (oldPassword != [] ==>
        LoginResult(changed, h, LoginRequest(Some(users[i].username), Some(oldPassword)), scan) ==
          Failure(401, "Invalid credentials"))
  {
    var changed := users[i := users[i].(passwordHash := h.hash(newPassword))];
    LoginMatchReadsNames(users, changed, users[i].username, scan);
  }

  /** The JSON body of `PUT /api/user/profile`; `None` for an absent key. */
  datatype ProfileUpdate = ProfileUpdate(
    email: Option<string>, artistName: Option<string>, bio: Option<string>,
    specialty: Option<string>, profileImage: Option<string>)

  /** The artist profile after the update: each present key replaces its column. */
  function UpdatedProfile(a: ArtistRow, req: ProfileUpdate): (b: ArtistRow)
    ensures b.id == a.id && b.userId == a.userId && b.featured == a.featured
    ensures b.name == GetOr(req.artistName, a.name)
    ensures b.bio == (if req.bio.Some? then req.bio else a.bio)
    ensures b.specialty == (if req.specialty.Some? then req.specialty else a.specialty)
    ensures b.profileImage == (if req.profileImage.Some? then req.profileImage else a.profileImage)
  {
    a.(name := GetOr(req.artistName, a.name),
       bio := if req.bio.Some? then req.bio else a.bio,
       specialty := if req.specialty.Some? then req.specialty else a.specialty,
       profileImage := if req.profileImage.Some? then req.profileImage else a.profileImage)
  }

  /** The JSON body of `POST /api/artworks`; `startingPrice` is `None` when absent. */
  datatype ArtworkRequest = ArtworkRequest(
    title: Option<string>, startingPrice: Option<real>, description: Option<string>,
    category: Option<string>, imageUrl: Option<string>)

  /** `create_artwork`'s checks, in order: the user, the artist flag, the title, a positive price. */
  function ArtworkRejection(users: seq<UserRow>, userId: int, req: ArtworkRequest): (r: Option<Rejection>)
    ensures r == Some(Rejection(404, "User not found")) <==> UserIndex(users, userId).None?
    ensures r == Some(Rejection(403, "Only artists can create artworks")) <==>
      UserIndex(users, userId).Some? && !users[UserIndex(users, userId).value].isArtist
    ensures r == Some(Rejection(400, "Title is required")) <==>
      UserIndex(users, userId).Some? && users[UserIndex(users, userId).value].isArtist && !Truthy(req.title)
    ensures r == Some(Rejection(400, "Valid starting price is required")) <==>
      UserIndex(users, userId).Some? && users[UserIndex(users, userId).value].isArtist && Truthy(req.title) &&
      (req.startingPrice.None? || req.startingPrice.value <= 0.0)
    ensures r.None? <==>
      UserIndex(users, userId).Some? && users[UserIndex(users, userId).value].isArtist && Truthy(req.title) &&
      req.startingPrice.Some? && req.startingPrice.value > 0.0
  {
    match UserIndex(users, userId)
    case None => Some(Rejection(404, "User not found"))
    case Some(i) =>
      if !users[i].isArtist then Some(Rejection(403, "Only artists can create artworks"))
      else if !Truthy(req.title) then Some(Rejection(400, "Title is required"))
      // `not price` rejects 0, `price < 0` the negatives
      else if req.startingPrice.None? || req.startingPrice.value == 0.0 || req.startingPrice.value < 0.0 then
        Some(Rejection(400, "Valid starting price is required"))
      else None
  }

  /** The profile `create_artwork` makes for an artist who has none. */
  function DefaultProfile(artists: seq<ArtistRow>, user: UserRow): ArtistRow
  {
    ArtistRow(|artists| + 1, user.id, user.username, Some(""), Some("Contemporary Art"), None, false)
  }

  /** The artwork row `create_artwork` inserts, with the body's defaults for absent keys. */
  function NewArtwork(artworks: seq<ArtworkRow>, user: UserRow, artistId: nat, req: ArtworkRequest): ArtworkRow
    requires req.title.Some? && req.startingPrice.Some?
  {
    ArtworkRow(|artworks| + 1, req.title.value, Some(GetOr(req.description, "")),
               Some(GetOr(req.category, "contemporary")), req.startingPrice,
               Some(GetOr(req.imageUrl, "")), user.id, Some(artistId))
  }

  /** Giving user `i` an email no other user has keeps the users well formed. */
  lemma EmailChangeKeepsWellFormed(users: seq<UserRow>, i: nat, email: string)
    requires UsersWellFormed(users) && i < |users|
    requires !EmailTakenByOther(users, email, users[i].id)
    ensures UsersWellFormed(users[i := users[i].(email := email)])
  {
    var changed := users[i := users[i].(email := email)];
    forall a, b | 0 <= a < b < |changed|
      ensures changed[a].username != changed[b].username && changed[a].email != changed[b].email
    {
      if a == i || b == i {
        var other := if a == i then b else a;
        assert users[other].id != users[i].id;
      }
    }
  }

  /** Replacing a profile by one with the same id and owner keeps the tables well formed. */
  lemma ProfileEditKeepsWellFormed(artworks: seq<ArtworkRow>, n: nat, artists: seq<ArtistRow>, k: nat, p: ArtistRow)
    requires ArtistsWellFormed(artists, n) && ArtworksWellFormed(artworks, n, artists)
    requires k < |artists| && p.id == artists[k].id && p.userId == artists[k].userId
    ensures ArtistsWellFormed(artists[k := p], n) && ArtworksWellFormed(artworks, n, artists[k := p])
  {
  }

  /** A new profile numbered next, for an existing user without one, keeps the tables well formed. */
  lemma ProfileAppendKeepsWellFormed(artworks: seq<ArtworkRow>, n: nat, artists: seq<ArtistRow>, p: ArtistRow)
    requires ArtistsWellFormed(artists, n) && ArtworksWellFormed(artworks, n, artists)
    requires p.id == |artists| + 1 && 1 <= p.userId <= n
    requires forall j :: 0 <= j < |artists| ==> artists[j].userId != p.userId
    ensures ArtistsWellFormed(artists + [p], n) && ArtworksWellFormed(artworks, n, artists + [p])
  {
    var grown := artists + [p];
    forall i | 0 <= i < |artworks| && artworks[i].artistId.Some?
      ensures grown[artworks[i].artistId.value - 1] == artists[artworks[i].artistId.value - 1]
    {
    }
  }

  /** A new artwork numbered next, whose owner and profile exist and agree, keeps the artworks well formed. */
  lemma ArtworkAppendKeepsWellFormed(artworks: seq<ArtworkRow>, n: nat, artists: seq<ArtistRow>, w: ArtworkRow)
    requires ArtworksWellFormed(artworks, n, artists)
    requires w.id == |artworks| + 1 && 1 <= w.userId <= n
    requires w.artistId.Some? ==> 1 <= w.artistId.value <= |artists| && artists[w.artistId.value - 1].userId == w.userId
    ensures ArtworksWellFormed(artworks + [w], n, artists)
  {
    var grown := artworks + [w];
    forall i | 0 <= i < |grown|
      ensures grown[i] == if i < |artworks| then artworks[i] else w
    {
    }
  }

  /** The profile `create_artwork` files an artwork under, and the profile table after it. */
  function ProfileFor(artists: seq<ArtistRow>, user: UserRow): (ArtistRow, seq<ArtistRow>)
  {
    var existing := ProfileIndex(artists, user.id);
    if existing.Some? then (artists[existing.value], artists)
    else (DefaultProfile(artists, user), artists + [DefaultProfile(artists, user)])
  }

  /** The chosen profile belongs to the user and sits at its id, and the tables stay well formed. */
  lemma ProfileForKeepsWellFormed(users: seq<UserRow>, artists: seq<ArtistRow>, artworks: seq<ArtworkRow>, i: nat)
    requires UsersWellFormed(users) && ArtistsWellFormed(artists, |users|)
    requires ArtworksWellFormed(artworks, |users|, artists) && i < |users|
    ensures var (profile, grown) := ProfileFor(artists, users[i]);
      ArtistsWellFormed(grown, |users|) && ArtworksWellFormed(artworks, |users|, grown) &&
      1 <= profile.id <= |grown| && grown[profile.id - 1] == profile && profile.userId == users[i].id
  {
    var user := users[i];
    var existing := ProfileIndex(artists, user.id);
    if existing.None? {
      ProfileAppendKeepsWellFormed(artworks, |users|, artists, DefaultProfile(artists, user));
    }
  }

  /** A created artwork and the name of its artist, as the reply carries them. */
  datatype CreatedArtwork = CreatedArtwork(artwork: ArtworkRow, artist: string)

  /** The database behind the routes. */
  class Database {
    var users: seq<UserRow>
    var artists: seq<ArtistRow>
    var artworks: seq<ArtworkRow>
    const hasher: PasswordHasher

    ghost predicate Valid()
      reads this
    {
      UsersWellFormed(users) && ArtistsWellFormed(artists, |users|) &&
      ArtworksWellFormed(artworks, |users|, artists)
    }

    /** `db.create_all()` on an empty database. */
    constructor(h: PasswordHasher)
      ensures users == [] && artists == [] && artworks == [] && hasher == h
      ensures Valid()
    {
      users := [];
      artists := [];
      artworks := [];
      hasher := h;
    }

    /**
     * `register`: a 400 for the first failed check; otherwise one new user,
     * and one artist profile exactly when the request is an artist's.
     */
    method Register(req: RegisterRequest) returns (r: ApiResponse<UserRow>)
      requires Valid()
      modifies this
      ensures Valid()
      ensures RegisterRejection(old(users), req).Some? ==>
        r == Failure(400, RegisterRejection(old(users), req).value) &&
        users == old(users) && artists == old(artists)
      ensures RegisterRejection(old(users), req).None? ==>
        var user := NewUser(old(users), req, hasher);
        r == Success(201, user) && users == old(users) + [user] &&
        artists == old(artists) + (if req.isArtist then [NewProfile(old(artists), user, req)] else [])
      ensures artworks == old(artworks)
    {
      var rejection := RegisterRejection(users, req);
      if rejection.Some? {
        return Failure(400, rejection.value);
      }
      var user := NewUser(users, req, hasher);
      users := users + [user];
      if req.isArtist {
        artists := artists + [NewProfile(artists, user, req)];
      }
      r := Success(201, user);
    }

    /** `change_password`: only the user's hash changes, and only when every check passes. */
    method ChangePassword(userId: int, req: PasswordChange) returns (r: ApiResponse<string>)
      requires Valid()
      modifies this
      ensures Valid()
      ensures PasswordChangeRejection(old(users), hasher, userId, req).Some? ==>
        var rejection := PasswordChangeRejection(old(users), hasher, userId, req).value;
        r == Failure(rejection.status, rejection.message) && users == old(users)
      ensures PasswordChangeRejection(old(users), hasher, userId, req).None? ==>
        var i := userId - 1;
        0 <= i < |old(users)| &&
        r == Success(200, "Password changed successfully") &&
        users == old(users)[i := old(users)[i].(passwordHash := hasher.hash(req.replacement.value))]
      ensures artists == old(artists) && artworks == old(artworks)
    {
      var rejection := PasswordChangeRejection(users, hasher, userId, req);
      if rejection.Some? {
        return Failure(rejection.value.status, rejection.value.message);
      }
      var i := UserIndex(users, userId).value;
      users := users[i := users[i].(passwordHash := hasher.hash(req.replacement.value))];
      r := Success(200, "Password changed successfully");
    }

    /**
     * `update_user_profile`: a new email must not belong to another user;
     * an artist's profile columns take the keys present in the body.
     */
    method UpdateProfile(userId: int, req: ProfileUpdate) returns (r: ApiResponse<string>)
      requires Valid()
      modifies this
      ensures Valid()
      ensures UserIndex(old(users), userId).None? ==>
        r == Failure(404, "User not found") && users == old(users) && artists == old(artists)
      ensures (UserIndex(old(users), userId).Some? && req.email.Some? &&
               EmailTakenByOther(old(users), req.email.value, userId)) ==>
        r == Failure(400, EmailExists) && users == old(users) && artists == old(artists)
      ensures (UserIndex(old(users), userId).Some? &&
               !(req.email.Some? && EmailTakenByOther(old(users), req.email.value, userId))) ==>
        var i := userId - 1;
        var user := old(users)[i];
        var profile := ProfileIndex(old(artists), user.id);
        r == Success(200, "Profile updated successfully") &&
        users == old(users)[i := user.(email := GetOr(req.email, user.email))] &&
        artists == (if user.isArtist && profile.Some?
                    then old(artists)[profile.value := UpdatedProfile(old(artists)[profile.value], req)]
                    else old(artists))
      ensures artworks == old(artworks)
    {
      var found := UserIndex(users, userId);
      if found.None? {
        return Failure(404, "User not found");
      }
      var i := found.value;
      if req.email.Some? && EmailTakenByOther(users, req.email.value, userId) {
        return Failure(400, EmailExists);
      }
      var user := users[i].(email := GetOr(req.email, users[i].email));
      EmailChangeKeepsWellFormed(users, i, user.email);
      users := users[i := user];
      var profile := ProfileIndex(artists, user.id);
      if user.isArtist && profile.Some? {
        var k := profile.value;
        ProfileEditKeepsWellFormed(artworks, |users|, artists, k, UpdatedProfile(artists[k], req));
        artists := artists[k := UpdatedProfile(artists[k], req)];
      }
      r := Success(200, "Profile updated successfully");
    }

    /**
     * `create_artwork`: after the checks, the artist's profile (made with
     * defaults when missing) and a new artwork row referring to it.
     */
    method CreateArtwork(userId: int, req: ArtworkRequest) returns (r: ApiResponse<CreatedArtwork>)
      requires Valid()
      modifies this
      ensures Valid()
      ensures users == old(users)
      ensures ArtworkRejection(old(users), userId, req).Some? ==>
        var rejection := ArtworkRejection(old(users), userId, req).value;
        r == Failure(rejection.status, rejection.message) &&
        artists == old(artists) && artworks == old(artworks)
      ensures ArtworkRejection(old(users), userId, req).None? ==>
        var user := old(users)[userId - 1];
        var existing := ProfileIndex(old(artists), user.id);
        var profile := if existing.Some? then old(artists)[existing.value] else DefaultProfile(old(artists), user);
        artists == old(artists) + (if existing.Some? then [] else [profile]) &&
        artworks == old(artworks) + [NewArtwork(old(artworks), user, profile.id, req)] &&
        r == Success(201, CreatedArtwork(NewArtwork(old(artworks), user, profile.id, req), profile.name))
    {
      var rejection := ArtworkRejection(users, userId, req);
      if rejection.Some? {
        return Failure(rejection.value.status, rejection.value.message);
      }
      var i := UserIndex(users, userId).value;
      var user := users[i];
      ProfileForKeepsWellFormed(users, artists, artworks, i);
      var (profile, grown) := ProfileFor(artists, user);
      artists := grown;
      var artwork := NewArtwork(artworks, user, profile.id, req);
      ArtworkAppendKeepsWellFormed(artworks, |users|, artists, artwork);
      artworks := artworks + [artwork];
      r := Success(201, CreatedArtwork(artwork, profile.name));
    }
  }
}
