/**
 * The search page of the root `search.js`: the results `/api/search` returns,
 * the sections shown for them, and the result-type and sort selects.
 */
module SearchPage {
  import opened Common
  import opened Strings

  /**
   * An artwork hit; `/api/search` sends no `works` for artworks, and
   * `description` and `price` may be null.
   */
  datatype ArtworkHit = ArtworkHit(
    id: int, title: string, description: Option<string>, category: string,
    price: Option<real>, image: string, artist: string)

  /** An artist hit; `bio` and `specialty` may be null. */
  datatype ArtistHit = ArtistHit(
    id: int, name: string, bio: Option<string>, specialty: Option<string>, image: string, works: nat)

  /** What the search request yields: a failure of any kind, or the two (possibly absent) lists. */
  datatype SearchReply =
    | SearchFailed
    | SearchData(artworks: Option<seq<ArtworkHit>>, artists: Option<seq<ArtistHit>>)

  /** `a.price - b.price` treats a null price as 0. */
  function PriceKey(a: ArtworkHit): real
  {
    if a.price.Some? then a.price.value else 0.0
  }

  function WorksKey(a: ArtistHit): real
  {
    a.works as real
  }

  /** The page's section visibility and counters. */
  datatype SearchDisplay = SearchDisplay(
    noResults: bool, artworksSection: bool, artistsSection: bool,
    artworkCount: nat, artistCount: nat, total: nat)

  /** `displaySearchResults` (and `showNoResults` when there is nothing). */
  function DisplayFor(artworks: seq<ArtworkHit>, artists: seq<ArtistHit>): (d: SearchDisplay)
    ensures d.total == |artworks| + |artists|
    ensures d.artworkCount == |artworks| && d.artistCount == |artists|
    ensures d.noResults <==> d.total == 0
    ensures d.artworksSection <==> artworks != []
    ensures d.artistsSection <==> artists != []
    ensures d.noResults ==> !d.artworksSection && !d.artistsSection
  {
    var total := |artworks| + |artists|;
    if total == 0 then SearchDisplay(true, false, false, 0, 0, 0)
    else SearchDisplay(false, |artworks| > 0, |artists| > 0, |artworks|, |artists|, total)
  }

  /**
   * `highlightSearchTerm(text, term)` throws: with a non-empty term it
   * compiles `(term)` as a regular expression (`compiles` says whether that
   * succeeds) and calls `replace` on the text, which fails on null.
   */
  predicate HighlightThrows(text: Option<string>, term: string, compiles: string -> bool)
  {
    term != "" && (!compiles(term) || text.None?)
  }

  /** The artwork card throws: a highlighted field throws, or `price.toLocaleString()` meets a null price. */
  predicate ArtworkCardThrows(a: ArtworkHit, term: string, compiles: string -> bool)
  {
    HighlightThrows(Some(a.title), term, compiles) || HighlightThrows(Some(a.artist), term, compiles) ||
    HighlightThrows(a.description, term, compiles) || a.price.None?
  }

  /** The artist card throws: its name, specialty or bio highlight throws. */
  predicate ArtistCardThrows(a: ArtistHit, term: string, compiles: string -> bool)
  {
    HighlightThrows(Some(a.name), term, compiles) || HighlightThrows(a.specialty, term, compiles) ||
    HighlightThrows(a.bio, term, compiles)
  }

  /**
   * `displaySearchResults` throws: with no hits it only shows "no results";
   * otherwise it renders every artwork card and every artist card.
   */
  predicate RenderThrows(artworks: seq<ArtworkHit>, artists: seq<ArtistHit>, term: string, compiles: string -> bool)
  {
    |artworks| + |artists| > 0 &&
    ((exists i :: 0 <= i < |artworks| && ArtworkCardThrows(artworks[i], term, compiles)) ||
     (exists i :: 0 <= i < |artists| && ArtistCardThrows(artists[i], term, compiles)))
  }

  /** The list `data.artworks || []` or `data.artists || []` gives. */
  function OrEmpty<T>(list: Option<seq<T>>): seq<T>
  {
    if list.Some? then list.value else []
  }

  /**
   * Rendering throws exactly when there is a hit and either the query is a
   * non-empty pattern that does not compile, or some hit has a null price, or
   * (with a non-empty query) a null description, specialty or bio.
   */
  lemma {:induction false} RenderThrowsCases(artworks: seq<ArtworkHit>, artists: seq<ArtistHit>, term: string, compiles: string -> bool)
    ensures RenderThrows(artworks, artists, term, compiles) <==>
      |artworks| + |artists| > 0 &&
      ((term != "" && !compiles(term)) ||
       (exists i :: 0 <= i < |artworks| && artworks[i].price.None?) ||
       (term != "" && exists i :: 0 <= i < |artworks| && artworks[i].description.None?) ||
       (term != "" && exists i :: 0 <= i < |artists| && (artists[i].bio.None? || artists[i].specialty.None?)))
  {
    if |artworks| + |artists| > 0 && term != "" && !compiles(term) {
      if |artworks| > 0 {
        assert ArtworkCardThrows(artworks[0], term, compiles);
      } else {
        assert ArtistCardThrows(artists[0], term, compiles);
      }
    }
  }

  /** With an empty query nothing is highlighted, so only a null price throws. */
  lemma EmptyQueryThrowsOnlyOnNullPrice(artworks: seq<ArtworkHit>, artists: seq<ArtistHit>, compiles: string -> bool)
    ensures RenderThrows(artworks, artists, "", compiles) <==>
      exists i :: 0 <= i < |artworks| && artworks[i].price.None?
  {
    if exists i :: 0 <= i < |artworks| && artworks[i].price.None? {
      var i :| 0 <= i < |artworks| && artworks[i].price.None?;
      assert ArtworkCardThrows(artworks[i], "", compiles);
    }
  }

  /** The two lists `applyFilters` renders. */
  datatype Filtered = Filtered(artworks: seq<ArtworkHit>, artists: seq<ArtistHit>)

  /** The `resultType` step: "artworks" drops the artists, "artists" drops the artworks. */
  function ByType(artworks: seq<ArtworkHit>, artists: seq<ArtistHit>, resultType: string): (r: Filtered)
    ensures resultType == "artworks" ==> r == Filtered(artworks, [])
    ensures resultType == "artists" ==> r == Filtered([], artists)
    ensures resultType != "artworks" && resultType != "artists" ==> r == Filtered(artworks, artists)
  {
    if resultType == "artworks" then Filtered(artworks, [])
    else if resultType == "artists" then Filtered([], artists)
    else Filtered(artworks, artists)
  }

  /**
   * The `sortBy` step.  Artwork hits carry no `works`, so the "popular"
   * comparator yields NaN for every pair, which `sort` treats as equal: the
   * artworks keep their order.
   */
  function Sorted(f: Filtered, sortBy: string): (r: Filtered)
    ensures multiset(r.artworks) == multiset(f.artworks) && multiset(r.artists) == multiset(f.artists)
    ensures sortBy == "price-low" ==> SortedBy(r.artworks, PriceKey, false)
    ensures sortBy == "price-high" ==> SortedBy(r.artworks, PriceKey, true)
    ensures sortBy == "popular" ==> SortedBy(r.artists, WorksKey, true) && r.artworks == f.artworks
    ensures sortBy != "popular" ==> r.artists == f.artists
  {
    if sortBy == "price-low" then Filtered(SortBy(f.artworks, PriceKey, false), f.artists)
    else if sortBy == "price-high" then Filtered(SortBy(f.artworks, PriceKey, true), f.artists)
    else if sortBy == "popular" then Filtered(f.artworks, SortBy(f.artists, WorksKey, true))
    else f
  }

  class SearchPage {
    var artworks: seq<ArtworkHit>
    var artists: seq<ArtistHit>
    var currentQuery: string

    constructor()
      ensures artworks == [] && artists == [] && currentQuery == ""
    {
      artworks := [];
      artists := [];
      currentQuery := "";
    }

    /**
     * `performSearch(query)`: remembers the lower-cased query and takes the
     * hits; a failed request, or a render that throws, leaves no hits and
     * shows "no results".  `compiles` says which patterns `new RegExp` accepts.
     */
    method PerformSearch(query: string, reply: SearchReply, compiles: string -> bool) returns (d: SearchDisplay)
      modifies this
      ensures currentQuery == ToLower(query)
      ensures reply.SearchFailed? ==> artworks == [] && artists == []
      ensures reply.SearchData? && !RenderThrows(OrEmpty(reply.artworks), OrEmpty(reply.artists), currentQuery, compiles) ==>
        artworks == OrEmpty(reply.artworks) && artists == OrEmpty(reply.artists)
      ensures reply.SearchData? && RenderThrows(OrEmpty(reply.artworks), OrEmpty(reply.artists), currentQuery, compiles) ==>
        artworks == [] && artists == [] && d.noResults
      ensures d == DisplayFor(artworks, artists)
      ensures !RenderThrows(artworks, artists, currentQuery, compiles)
      ensures reply.SearchFailed? ==> d.noResults && d.total == 0
    {
      currentQuery := ToLower(query);
      match reply {
        case SearchFailed =>
          artworks := [];
          artists := [];
        case SearchData(works, people) =>
          artworks := OrEmpty(works);
          artists := OrEmpty(people);
          if RenderThrows(artworks, artists, currentQuery, compiles) {
            artworks := [];
            artists := [];
          }
      }
      d := DisplayFor(artworks, artists);
    }

    /**
     * `applyFilters`: copies of the hits, cut by result type and then sorted;
     * the stored hits are untouched.
     */
    method ApplyFilters(resultType: string, sortBy: string) returns (shown: Filtered, total: nat)
      ensures shown == Sorted(ByType(artworks, artists, resultType), sortBy)
      ensures total == |shown.artworks| + |shown.artists|
      ensures resultType == "artworks" ==> shown.artists == [] && total == |artworks|
      ensures resultType == "artists" ==> shown.artworks == [] && total == |artists|
      ensures multiset(shown.artworks) <= multiset(artworks) && multiset(shown.artists) <= multiset(artists)
    {
      var filteredArtworks := artworks;
      var filteredArtists := artists;
      if resultType == "artworks" {
        filteredArtists := [];
      } else if resultType == "artists" {
        filteredArtworks := [];
      }
      shown := Sorted(Filtered(filteredArtworks, filteredArtists), sortBy);
      total := |shown.artworks| + |shown.artists|;
    }
  }
}
