/**
 * The gallery page of `js/gallery.js`: artworks loaded from `/api/artworks`
 * with defaults, narrowed by category, price range and status.
 */
module Gallery {
  import opened Common
  import opened Strings

  datatype Artwork = Artwork(
    id: int,
    title: string,
    artist: string,
    price: real,
    image: string,
    category: string,
    description: string,
    status: string)

  /** One entry of the `artworks` list `/api/artworks` returns; absent or null fields are `None`. */
  datatype BackendArtwork = BackendArtwork(
    id: int,
    title: string,
    artist: Option<string>,
    price: Option<real>,
    image: Option<string>,
    category: Option<string>,
    description: Option<string>)

  const DefaultImage := "https://images.unsplash.com/photo-1541961017774-22349e4a1262?w=400&h=300&fit=crop"
  const DefaultDescription := "Beautiful artwork available for bidding."

  /** The `data.artworks.map(...)` transform. */
  function FromBackend(b: BackendArtwork): (a: Artwork)
    ensures a.id == b.id && a.title == b.title
    ensures a.artist == (if Truthy(b.artist) then b.artist.value else "Unknown Artist")
    ensures a.price == (if b.price.Some? then b.price.value else 0.0)
    ensures a.category == (if Truthy(b.category) then b.category.value else "abstract")
    ensures a.image == (if Truthy(b.image) then b.image.value else DefaultImage)
    ensures a.description == (if Truthy(b.description) then b.description.value else DefaultDescription)
    ensures a.status == "active"
  {
    Artwork(b.id, b.title, OrElse(b.artist, "Unknown Artist"),
            if b.price.Some? then b.price.value else 0.0,
            OrElse(b.image, DefaultImage), OrElse(b.category, "abstract"),
            OrElse(b.description, DefaultDescription), "active")
  }

  function Loaded(backend: seq<BackendArtwork>): seq<Artwork>
  {
    seq(|backend|, i requires 0 <= i < |backend| => FromBackend(backend[i]))
  }

  /** The `switch (priceRange)` of `applyFilters`: bounds are inclusive, an unknown range keeps everything. */
  predicate InPriceRange(price: real, range: string)
  {
    if range == "0-1000" then price <= 1000.0
    else if range == "1000-3000" then 1000.0 <= price <= 3000.0
    else if range == "3000-5000" then 3000.0 <= price <= 5000.0
    else if range == "5000+" then price >= 5000.0
    else true
  }

  datatype GalleryFilter = GalleryFilter(category: string, priceRange: string, status: string)

  /** The predicate passed to `galleryArtworks.filter`; `"all"` is a wildcard. */
  predicate Matches(a: Artwork, f: GalleryFilter)
  {
    (f.category == "all" || a.category == f.category) &&
    (f.priceRange == "all" || InPriceRange(a.price, f.priceRange)) &&
    (f.status == "all" || a.status == f.status)
  }

  /** The four named ranges. */
  predicate NamedRange(range: string)
  {
    range == "0-1000" || range == "1000-3000" || range == "3000-5000" || range == "5000+"
  }

  /** The shared boundaries 1000, 3000 and 5000 each fall in two ranges. */
  lemma BoundariesInTwoRanges()
    ensures InPriceRange(1000.0, "0-1000") && InPriceRange(1000.0, "1000-3000")
    ensures InPriceRange(3000.0, "1000-3000") && InPriceRange(3000.0, "3000-5000")
    ensures InPriceRange(5000.0, "3000-5000") && InPriceRange(5000.0, "5000+")
  {
  }

  /** Every price falls in some named range, and away from the boundaries in exactly one. */
  lemma RangesCover(price: real)
    ensures exists r :: NamedRange(r) && InPriceRange(price, r)
    ensures price != 1000.0 && price != 3000.0 && price != 5000.0 ==>
            forall r, q :: NamedRange(r) && NamedRange(q) && InPriceRange(price, r) && InPriceRange(price, q) ==> r == q
  {
    if price <= 1000.0 {
      assert NamedRange("0-1000") && InPriceRange(price, "0-1000");
    } else if price <= 3000.0 {
      assert NamedRange("1000-3000") && InPriceRange(price, "1000-3000");
    } else if price <= 5000.0 {
      assert NamedRange("3000-5000") && InPriceRange(price, "3000-5000");
    } else {
      assert NamedRange("5000+") && InPriceRange(price, "5000+");
    }
  }

  datatype ResultsCount = NoArtworksAvailable | ShowingArtworks(count: nat)

  class GalleryPage {
    var galleryArtworks: seq<Artwork>
    var filteredArtworks: seq<Artwork>

    constructor()
      ensures galleryArtworks == [] && filteredArtworks == []
    {
      galleryArtworks := [];
      filteredArtworks := [];
    }

    /** `loadArtworksFromBackend`, given the parsed list, or `None` on any failure. */
    method LoadArtworksFromBackend(reply: Option<seq<BackendArtwork>>)
      modifies this
      ensures reply.None? ==> galleryArtworks == [] && filteredArtworks == []
      ensures reply.Some? ==> galleryArtworks == Loaded(reply.value) && filteredArtworks == galleryArtworks
      ensures reply.Some? ==> |galleryArtworks| == |reply.value|
    {
      if reply.None? {
        galleryArtworks := [];
        filteredArtworks := [];
      } else {
        galleryArtworks := Loaded(reply.value);
        filteredArtworks := galleryArtworks;
      }
    }

    method ApplyFilters(f: GalleryFilter)
      modifies this
      ensures galleryArtworks == old(galleryArtworks)
      ensures filteredArtworks == Filter(galleryArtworks, a => Matches(a, f))
    {
      filteredArtworks := Filter(galleryArtworks, a => Matches(a, f));
    }

    /** `updateResultsCount`. */
    function Results(): (r: ResultsCount)
      reads this
      ensures r.NoArtworksAvailable? <==> filteredArtworks == []
      ensures r.ShowingArtworks? ==> r.count == |filteredArtworks| > 0
    {
      if |filteredArtworks| == 0 then NoArtworksAvailable else ShowingArtworks(|filteredArtworks|)
    }
  }

  /** The text of the results line. */
  function ResultsText(r: ResultsCount): (t: string)
    ensures t == "No artworks available" <==> r.NoArtworksAvailable?
    ensures r.ShowingArtworks? ==>
      StartsWith(t, "Showing ") && EndsWith(t, " artworks") && |t| > |"Showing "| + |" artworks"| &&
      var digits := t[|"Showing "|..|t| - |" artworks"|];
      (forall i :: 0 <= i < |digits| ==> IsDigit(digits[i])) && DigitsValue(digits) == r.count
  {
    match r
    case NoArtworksAvailable => "No artworks available"
    case ShowingArtworks(n) =>
      var digits := NatToString(n);
      NatToStringRoundTrip(n);
      var t := "Showing " + digits + " artworks";
      assert t[|"Showing "|..|t| - |" artworks"|] == digits;
      assert t[0] != "No artworks available"[0];
      t
  }

  /** Every loaded artwork is "active": that status keeps the list, any other empties it. */
  lemma {:induction false} StatusFilterOnLoaded(backend: seq<BackendArtwork>, status: string)
    ensures status == "active" ==>
      Filter(Loaded(backend), a => Matches(a, GalleryFilter("all", "all", status))) == Loaded(backend)
    ensures status != "active" && status != "all" ==>
      Filter(Loaded(backend), a => Matches(a, GalleryFilter("all", "all", status))) == []
  {
    var data := Loaded(backend);
    var f := GalleryFilter("all", "all", status);
    forall i | 0 <= i < |data|
      ensures data[i].status == "active"
    {
      assert data[i] == FromBackend(backend[i]);
    }
    if status == "active" {
      FilterKeepsAll(data, a => Matches(a, f));
    } else if status != "all" {
      FilterDropsAll(data, a => Matches(a, f));
    }
  }

  /** The filtered list is an order-preserving selection of the loaded list. */
  lemma FilteredIsSelection(data: seq<Artwork>, f: GalleryFilter)
    ensures SubsequenceOf(Filter(data, a => Matches(a, f)), data)
    ensures forall a :: multiset(Filter(data, x => Matches(x, f)))[a] ==
                        if Matches(a, f) then multiset(data)[a] else 0
  {
    FilterIsOrderedSelection(data, a => Matches(a, f));
  }
}
