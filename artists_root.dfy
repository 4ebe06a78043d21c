/**
 * The artists page of the root `artists.js`: the same backend loading as
 * `js/artists.js`, but the filters and the search box run over the page's
 * static `allArtists` list, and the grid shows the first `displayedCount`
 * matches, eight more per "Load more" click.
 */
module ArtistsPage {
  import opened Common
  import opened Strings
  import opened ArtistsDirectory

  const PageSize := 8

  /** The `specialtyMap` of `applyFilters`: select value to specialty word. */
  const SpecialtyMap: map<string, string> := map[
    "abstract" := "Abstract",
    "contemporary" := "Contemporary",
    "landscape" := "Landscape",
    "portrait" := "Portrait",
    "digital" := "Digital",
    "sculpture" := "Sculpture"]

  /** `specialtyMap[specialty]?.toLowerCase() || specialty`. */
  function SpecialtyNeedle(specialty: string): string
  {
    if specialty in SpecialtyMap && SpecialtyMap[specialty] != "" then ToLower(SpecialtyMap[specialty])
    else specialty
  }

  /** A word that differs from a lower-case key only by its capital first letter lower-cases to the key. */
  lemma LowersToKey(word: string, key: string)
    requires |word| == |key| > 0 && word[1..] == key[1..] && LowerChar(word[0]) == key[0]
    requires forall i :: 1 <= i < |key| ==> IsLowerAscii(key[i])
    ensures ToLower(word) == key
  {
    forall i | 1 <= i < |key|
      ensures ToLower(word)[i] == key[i]
    {
      assert word[i] == word[1..][i - 1] == key[1..][i - 1] == key[i];
    }
  }

  /** Each word of the map lower-cases to its select value. */
  lemma MappedWordsLower()
    ensures ToLower("Abstract") == "abstract" && ToLower("Contemporary") == "contemporary"
    ensures ToLower("Landscape") == "landscape" && ToLower("Portrait") == "portrait"
    ensures ToLower("Digital") == "digital" && ToLower("Sculpture") == "sculpture"
  {
    assert ToLower("Abstract") == "abstract" by { LowersToKey("Abstract", "abstract"); }
    assert ToLower("Contemporary") == "contemporary" by { LowersToKey("Contemporary", "contemporary"); }
    assert ToLower("Landscape") == "landscape" by { LowersToKey("Landscape", "landscape"); }
    assert ToLower("Portrait") == "portrait" by { LowersToKey("Portrait", "portrait"); }
    assert ToLower("Digital") == "digital" by { LowersToKey("Digital", "digital"); }
    assert ToLower("Sculpture") == "sculpture" by { LowersToKey("Sculpture", "sculpture"); }
  }

  /** Every mapped word lower-cases back to its select value, so the needle is the select value itself. */
  lemma {:induction false} NeedleIsSelectValue(specialty: string)
    ensures SpecialtyNeedle(specialty) == specialty
  {
    if specialty in SpecialtyMap {
      MappedWordsLower();
    }
  }

  /** The select boxes and the search box as `applyFilters` reads them. */
  datatype PageFilter = PageFilter(specialty: string, experience: string, location: string, search: string)

  /** The search box matches when its lower-cased text is empty or occurs in the name, specialty or bio. */
  predicate SearchMatches(a: Artist, term: string)
  {
    term == [] ||
    Contains(ToLower(a.name), term) || Contains(ToLower(a.specialty), term) || Contains(ToLower(a.bio), term)
  }

  /** The predicate passed to `allArtists.filter`. */
  predicate PageMatches(a: Artist, f: PageFilter)
  {
    (f.specialty == "all" || Contains(ToLower(a.specialty), SpecialtyNeedle(f.specialty))) &&
    (f.experience == "all" || a.experience == f.experience) &&
    (f.location == "all" || a.location == f.location) &&
    SearchMatches(a, ToLower(f.search))
  }

  function Min(a: int, b: int): (r: int)
    ensures r <= a && r <= b && (r == a || r == b)
  {
    if a < b then a else b
  }

  class ArtistsPage {
    /** The page's hard-coded artist list, which the filters read. */
    const allArtists: seq<Artist>
    var artistsData: seq<Artist>
    var filteredArtists: seq<Artist>
    var displayedCount: int

    constructor(staticArtists: seq<Artist>)
      ensures allArtists == staticArtists
      ensures artistsData == [] && filteredArtists == [] && displayedCount == PageSize
    {
      allArtists := staticArtists;
      artistsData := [];
      filteredArtists := [];
      displayedCount := PageSize;
    }

    /** `loadArtistsFromBackend`; the page size is left as it was. */
    method LoadArtistsFromBackend(reply: Option<seq<BackendArtist>>)
      modifies this
      ensures reply.None? ==> artistsData == [] && filteredArtists == []
      ensures reply.Some? ==> artistsData == Loaded(reply.value) && filteredArtists == artistsData
      ensures displayedCount == old(displayedCount)
    {
      if reply.None? {
        artistsData := [];
        filteredArtists := [];
      } else {
        artistsData := Loaded(reply.value);
        filteredArtists := artistsData;
      }
    }

    /**
     * `applyFilters`: the matches among the static list (the loaded artists
     * are ignored), with the first page shown.
     */
    method ApplyFilters(f: PageFilter)
      modifies this
      ensures artistsData == old(artistsData)
      ensures filteredArtists == Filter(allArtists, a => PageMatches(a, f))
      ensures displayedCount == Min(PageSize, |filteredArtists|)
      ensures LoadMoreHidden() <==> |filteredArtists| <= PageSize
    {
      filteredArtists := Filter(allArtists, a => PageMatches(a, f));
      displayedCount := Min(PageSize, |filteredArtists|);
    }

    /** The "Load more" click handler. */
    method LoadMore()
      modifies this
      ensures artistsData == old(artistsData) && filteredArtists == old(filteredArtists)
      ensures displayedCount == Min(old(displayedCount) + PageSize, |filteredArtists|)
      ensures displayedCount <= |filteredArtists|
      ensures old(displayedCount) <= |filteredArtists| ==> displayedCount >= old(displayedCount)
      ensures LoadMoreHidden() <==> old(displayedCount) + PageSize >= |filteredArtists|
    {
      displayedCount := Min(displayedCount + PageSize, |filteredArtists|);
    }

    /** `updateLoadMoreButton`: the button is hidden once everything is shown. */
    predicate LoadMoreHidden()
      reads this
    {
      displayedCount >= |filteredArtists|
    }

    /** The number `updateResultsCount` reports as shown. */
    function ShowingCount(): (r: int)
      reads this
      ensures r <= |filteredArtists| && r <= displayedCount
      ensures r == |filteredArtists| || r == displayedCount
    {
      Min(displayedCount, |filteredArtists|)
    }
  }

  /**
   * Typing more of a search term never brings an artist back: when the old
   * term occurs in the new one, every match of the new term matched before.
   */
  lemma {:induction false} LongerSearchNarrows(all: seq<Artist>, f: PageFilter, longer: string)
    requires Contains(ToLower(longer), ToLower(f.search))
    ensures forall a :: PageMatches(a, f.(search := longer)) ==> PageMatches(a, f)
    ensures var narrower := Filter(all, x => PageMatches(x, f.(search := longer)));
            forall i :: 0 <= i < |narrower| ==> narrower[i] in Filter(all, x => PageMatches(x, f))
  {
    var term := ToLower(f.search);
    var t2 := ToLower(longer);
    forall a | PageMatches(a, f.(search := longer))
      ensures PageMatches(a, f)
    {
      if term != [] {
        if Contains(ToLower(a.name), t2) {
          ContainsTransitive(ToLower(a.name), t2, term);
        } else if Contains(ToLower(a.specialty), t2) {
          ContainsTransitive(ToLower(a.specialty), t2, term);
        } else {
          ContainsTransitive(ToLower(a.bio), t2, term);
        }
      }
    }
  }

  /** Clicking "Load more" k times after filtering shows min(8(k+1), n) artists. */
  function ShownAfterClicks(k: nat, n: nat): (r: nat)
    ensures r == if PageSize * (k + 1) <= n then PageSize * (k + 1) else n
  {
    if k == 0 then Min(PageSize, n) else Min(ShownAfterClicks(k - 1, n) + PageSize, n)
  }
}
