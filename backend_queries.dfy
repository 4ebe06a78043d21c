/**
 * The backend's read-only routes over the store: the auction listing derived
 * from the artworks, the site search, and which file a non-API path serves.
 */
module BackendQueries {
  import opened Common
  import opened Strings
  import opened BackendStore

  const UnknownArtist := "Unknown Artist"

  /** The artist name a listing shows: the profile `artist_id` names, or "Unknown Artist". */
  function ArtistName(artists: seq<ArtistRow>, artistId: Option<nat>): (r: string)
    ensures artistId.None? || artistId.value == 0 ==> r == UnknownArtist
    ensures artistId.Some? && artistId.value != 0 ==>
      var k := FirstIndex(artists, (a: ArtistRow) => a.id == artistId.value);
      r == if k.Some? then artists[k.value].name else UnknownArtist
  {
    // `if artwork.artist_id:` is false for a null id and for 0
    if artistId.None? || artistId.value == 0 then UnknownArtist
    else match FirstIndex(artists, (a: ArtistRow) => a.id == artistId.value)
      case None => UnknownArtist
      case Some(k) => artists[k].name
  }

  /** On a well-formed store every artwork with an artist shows its profile's name. */
  lemma ListedArtistIsProfile(artworks: seq<ArtworkRow>, userCount: nat, artists: seq<ArtistRow>, i: nat)
    requires ArtistsWellFormed(artists, userCount) && ArtworksWellFormed(artworks, userCount, artists)
    requires i < |artworks| && artworks[i].artistId.Some?
    ensures ArtistName(artists, artworks[i].artistId) == artists[artworks[i].artistId.value - 1].name
  {
    var id := artworks[i].artistId.value;
    assert artists[id - 1].id == id;
  }

  /** One entry of `GET /api/auctions`; the end time, which reads the clock, is left out. */
  datatype AuctionJson = AuctionJson(
    id: nat, title: string, artist: string, image: Option<string>, category: Option<string>,
    description: Option<string>, startingBid: real, currentBid: real, status: string,
    bidCount: nat, timeRemaining: string)

  /** The auction shown for an artwork: the bid and bid count are simulated from its id. */
  function AuctionOf(w: ArtworkRow, artists: seq<ArtistRow>): (a: AuctionJson)
    requires w.price.Some?
    ensures a.id == w.id && a.title == w.title && a.startingBid == w.price.value
    ensures a.currentBid - a.startingBid == (100 * w.id) as real && a.currentBid >= a.startingBid
    ensures a.bidCount == 2 * w.id && a.status == "live" && a.timeRemaining == "23:59:59"
    ensures a.artist == ArtistName(artists, w.artistId)
  {
    AuctionJson(w.id, w.title, ArtistName(artists, w.artistId), w.imageUrl, w.category, w.description,
                w.price.value, w.price.value + (w.id * 100) as real, "live", w.id * 2, "23:59:59")
  }

  /** The listing's fixed pagination block. */
  datatype AuctionPage = AuctionPage(auctions: seq<AuctionJson>, page: nat, pages: nat, perPage: nat, total: nat)

  predicate AllPriced(artworks: seq<ArtworkRow>)
  {
    forall i :: 0 <= i < |artworks| ==> artworks[i].price.Some?
  }

  /** Python's message for `None + int`, which a null price raises. */
  const NullPriceError := "unsupported operand type(s) for +: 'NoneType' and 'int'"

  /**
   * `get_auctions`: one live auction per artwork, in table order, on a
   * single page; a null price aborts the whole listing with a 500.
   */
  method GetAuctions(db: Database) returns (r: ApiResponse<AuctionPage>)
    ensures r.Success? <==> AllPriced(db.artworks)
    ensures r.Failure? ==> r == Failure(500, NullPriceError)
    ensures r.Success? ==>
      r.status == 200 &&
      |r.body.auctions| == |db.artworks| &&
      (forall i :: 0 <= i < |db.artworks| ==> r.body.auctions[i] == AuctionOf(db.artworks[i], db.artists)) &&
      r.body.page == 1 && r.body.perPage == 12 && r.body.total == |db.artworks| &&
      (r.body.pages == 1 <==> db.artworks != []) && (r.body.pages == 0 <==> db.artworks == [])
  {
    var artworks := db.artworks;
    var auctions: seq<AuctionJson> := [];
    var i := 0;
    while i < |artworks|
      invariant 0 <= i <= |artworks|
      invariant AllPriced(artworks[..i])
      invariant |auctions| == i
      invariant forall j :: 0 <= j < i ==> artworks[j].price.Some? && auctions[j] == AuctionOf(artworks[j], db.artists)
    {
      if artworks[i].price.None? {
        assert !AllPriced(artworks);
        return Failure(500, NullPriceError);
      }
      auctions := auctions + [AuctionOf(artworks[i], db.artists)];
      i := i + 1;
    }
    r := Success(200, AuctionPage(auctions, 1, if auctions != [] then 1 else 0, 12, |auctions|));
  }

  /** At most this many artworks and this many artists come back from a search. */
  const SearchLimit := 12

  /** SQLAlchemy's `column.contains(q)`, a `LIKE '%q%'` that SQLite compares ignoring ASCII case; NULL never matches. */
  predicate Like(column: Option<string>, q: string)
  {
    column.Some? && Contains(ToLower(column.value), ToLower(q))
  }

  predicate ArtworkMatches(q: string, w: ArtworkRow)
  {
    Like(Some(w.title), q) || Like(w.description, q)
  }

  predicate ArtistMatches(q: string, a: ArtistRow)
  {
    Like(Some(a.name), q) || Like(a.bio, q) || Like(a.specialty, q)
  }

  /** `.limit(n)`: the first `n` rows. */
  function Limit<T>(s: seq<T>, n: nat): (r: seq<T>)
    ensures |r| <= n && |r| <= |s| && r == s[..|r|]
    ensures |s| <= n ==> r == s
    ensures |s| > n ==> |r| == n
  {
    if |s| <= n then s else s[..n]
  }

  datatype ArtworkHit = ArtworkHit(
    id: nat, title: string, description: Option<string>, category: Option<string>,
    price: Option<real>, image: Option<string>, artist: string, kind: string)

  datatype ArtistHit = ArtistHit(
    id: nat, name: string, bio: Option<string>, specialty: Option<string>,
    image: Option<string>, works: nat, kind: string)

  function ArtworkHitOf(w: ArtworkRow, artists: seq<ArtistRow>): ArtworkHit
  {
    ArtworkHit(w.id, w.title, w.description, w.category, w.price, w.imageUrl, ArtistName(artists, w.artistId), "artwork")
  }

  /** `Artwork.query.filter_by(artist_id=a.id).count()`. */
  function WorksOf(a: ArtistRow, artworks: seq<ArtworkRow>): (n: nat)
    ensures n <= |artworks|
  {
    |Filter(artworks, (w: ArtworkRow) => w.artistId == Some(a.id))|
  }

  function ArtistHitOf(a: ArtistRow, artworks: seq<ArtworkRow>): ArtistHit
  {
    ArtistHit(a.id, a.name, a.bio, a.specialty, a.profileImage, WorksOf(a, artworks), "artist")
  }

  /** The reply of `GET /api/search`: a hint for a blank query, or the results. */
  datatype SearchJson =
    | BlankQuery(message: string)
    | SearchResults(query: string, artworks: seq<ArtworkHit>, artists: seq<ArtistHit>, totalResults: nat)

  /** The artwork rows a query selects: all matches when there are fewer than twelve. */
  function ArtworkRows(artworks: seq<ArtworkRow>, q: string): (r: seq<ArtworkRow>)
    ensures |r| <= SearchLimit
    ensures forall i :: 0 <= i < |r| ==> ArtworkMatches(q, r[i]) && r[i] in artworks
    ensures |r| < SearchLimit ==> forall w :: w in artworks && ArtworkMatches(q, w) ==> w in r
  {
    Limit(Filter(artworks, (w: ArtworkRow) => ArtworkMatches(q, w)), SearchLimit)
  }

  /** The artist rows a query selects: all matches when there are fewer than twelve. */
  function ArtistRows(artists: seq<ArtistRow>, q: string): (r: seq<ArtistRow>)
    ensures |r| <= SearchLimit
    ensures forall i :: 0 <= i < |r| ==> ArtistMatches(q, r[i]) && r[i] in artists
    ensures |r| < SearchLimit ==> forall a :: a in artists && ArtistMatches(q, a) ==> a in r
  {
    Limit(Filter(artists, (a: ArtistRow) => ArtistMatches(q, a)), SearchLimit)
  }

  /** The loop that formats the artwork rows of a search. */
  method FormatArtworks(works: seq<ArtworkRow>, artists: seq<ArtistRow>) returns (hits: seq<ArtworkHit>)
    ensures |hits| == |works|
    ensures forall j :: 0 <= j < |works| ==> hits[j] == ArtworkHitOf(works[j], artists)
  {
    hits := [];
    var i := 0;
    while i < |works|
      invariant 0 <= i <= |works| && |hits| == i
      invariant forall j :: 0 <= j < i ==> hits[j] == ArtworkHitOf(works[j], artists)
    {
      hits := hits + [ArtworkHitOf(works[i], artists)];
      i := i + 1;
    }
  }

  /** The loop that formats the artist rows of a search, counting each artist's works. */
  method FormatArtists(people: seq<ArtistRow>, artworks: seq<ArtworkRow>) returns (hits: seq<ArtistHit>)
    ensures |hits| == |people|
    ensures forall j :: 0 <= j < |people| ==> hits[j] == ArtistHitOf(people[j], artworks)
  {
    hits := [];
    var i := 0;
    while i < |people|
      invariant 0 <= i <= |people| && |hits| == i
      invariant forall j :: 0 <= j < i ==> hits[j] == ArtistHitOf(people[j], artworks)
    {
      hits := hits + [ArtistHitOf(people[i], artworks)];
      i := i + 1;
    }
  }

  /**
   * `search`: the stripped query; a blank one returns nothing to show.
   * Otherwise the first twelve matching artworks and artists, formatted.
   */
  method Search(db: Database, rawQuery: string) returns (r: SearchJson)
    ensures PyStrip(rawQuery) == [] <==> r == BlankQuery("Please provide a search query")
    ensures r.SearchResults? ==>
      var q := PyStrip(rawQuery);
      var works := ArtworkRows(db.artworks, q);
      var people := ArtistRows(db.artists, q);
      r.query == q &&
      |r.artworks| == |works| && |r.artists| == |people| &&
      (forall i :: 0 <= i < |works| ==> r.artworks[i] == ArtworkHitOf(works[i], db.artists)) &&
      (forall i :: 0 <= i < |people| ==> r.artists[i] == ArtistHitOf(people[i], db.artworks)) &&
      r.totalResults == |r.artworks| + |r.artists|
    ensures r.SearchResults? ==> |r.artworks| <= SearchLimit && |r.artists| <= SearchLimit
  {
    var q := PyStrip(rawQuery);
    if q == [] {
      return BlankQuery("Please provide a search query");
    }
    var works := ArtworkRows(db.artworks, q);
    var people := ArtistRows(db.artists, q);
    var artworkResults := FormatArtworks(works, db.artists);
    var artistResults := FormatArtists(people, db.artworks);
    r := SearchResults(q, artworkResults, artistResults, |artworkResults| + |artistResults|);
  }

  /** The extensions `serve_static` hands out as files. */
  const StaticExtensions: seq<string> := [".html", ".css", ".js", ".png", ".jpg", ".jpeg", ".gif", ".svg", ".ico"]

  predicate HasStaticExtension(filename: string)
  {
    exists k :: 0 <= k < |StaticExtensions| && EndsWith(filename, StaticExtensions[k])
  }

  /**
   * The file `serve_static(filename)` would send: the file itself, or the
   * single-page `index.html`.  The application is created with
   * `static_url_path=''`, so Flask's own static rule `/<path:filename>` is
   * registered first and claims every path this view would; `ServePath`
   * shows what a request gets instead.
   */
  function ServeStatic(filename: string): (r: string)
    ensures HasStaticExtension(filename) ==> r == filename
    ensures !HasStaticExtension(filename) ==> r == "index.html"
    ensures HasStaticExtension(r)
  {
    if HasStaticExtension(filename) then filename
    else
      assert EndsWith("index.html", StaticExtensions[0]);
      "index.html"
  }

  /** What a GET that no API route matches produces. */
  datatype Served = File(name: string) | JsonNotFound

  /** The 404 handler: JSON for `/api/` paths, the front page for the rest. */
  function NotFound(path: string): (r: Served)
    ensures r == JsonNotFound <==> StartsWith(path, "/api/")
    ensures r != JsonNotFound ==> r == File("index.html")
  {
    if StartsWith(path, "/api/") then JsonNotFound else File("index.html")
  }

  /**
   * A GET of `path` that no API route claims.  `/` is the `index` view.
   * Any other path is taken by the static rule, which sends the file when
   * the folder has it and otherwise raises the 404 that `NotFound` answers;
   * the extension list of `serve_static` plays no part.  `onDisk` says which
   * files the folder has.
   */
  function ServePath(path: string, onDisk: string -> bool): (r: Served)
    requires StartsWith(path, "/")
    ensures path == "/" ==> r == File("index.html")
    ensures path != "/" && onDisk(path[1..]) ==> r == File(path[1..])
    ensures r == JsonNotFound <==> path != "/" && !onDisk(path[1..]) && StartsWith(path, "/api/")
    ensures r.File? ==> r.name == "index.html" || onDisk(r.name)
  {
    if path == "/" then File("index.html")
    else if onDisk(path[1..]) then File(path[1..])
    else NotFound(path)
  }

  /** A missing API path gets the JSON 404, extension or not. */
  lemma MissingApiPathGetsJson404(name: string, onDisk: string -> bool)
    requires !onDisk("api/" + name)
    ensures ServePath("/api/" + name, onDisk) == JsonNotFound
  {
    var path := "/api/" + name;
    assert path[1..] == "api/" + name;
    assert path[..5] == "/api/";
  }

  /**
   * The shadowed view would have sent the front page for a missing API path
   * without a listed extension; the static rule answers it with the JSON 404.
   */
  lemma ShadowedViewDiffersOnApiPaths(onDisk: string -> bool)
    requires !onDisk("api/missing")
    ensures ServeStatic("api/missing") == "index.html"
    ensures ServePath("/api/missing", onDisk) == JsonNotFound
  {
    var name := "api/missing";
    forall k | 0 <= k < |StaticExtensions|
      ensures !EndsWith(name, StaticExtensions[k])
    {
      assert name[|name| - 1] == 'g';
    }
    assert "api/" + "missing" == name;
    MissingApiPathGetsJson404("missing", onDisk);
  }
}
