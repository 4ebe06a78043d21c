/**
 * The artists directory of `js/artists.js`: artists loaded from `/api/artists`
 * with fixed defaults, narrowed by three select boxes.  The artist record and
 * the loading transform are shared with the root `artists.js`, which copies
 * them verbatim.
 */
module ArtistsDirectory {
  import opened Common
  import opened Strings

  /** An artist card's data. */
  datatype Artist = Artist(
    id: int,
    name: string,
    specialty: string,
    works: int,
    avatar: string,
    experience: string,
    location: string,
    bio: string,
    yearsActive: int,
    featured: bool)

  /** One entry of the `artists` list `/api/artists` returns; absent or null fields are `None`. */
  datatype BackendArtist = BackendArtist(
    id: int,
    name: string,
    bio: Option<string>,
    specialty: Option<string>,
    works: Option<int>,
    image: Option<string>,
    featured: Option<bool>)

  const DefaultBio := "Passionate artist creating beautiful works."
  const DefaultSpecialty := "Contemporary Art"
  const DefaultAvatar := "https://images.unsplash.com/photo-1494790108755-2616c9c0e8e0?w=300&h=300&fit=crop"
  const DefaultExperience := "established"
  const DefaultLocation := "local"
  const DefaultYearsActive := 5

  /** The `data.artists.map(...)` transform: `||` defaults plus three constants. */
  function FromBackend(b: BackendArtist): (a: Artist)
    ensures a.id == b.id && a.name == b.name
    ensures a.bio == (if Truthy(b.bio) then b.bio.value else DefaultBio)
    ensures a.specialty == (if Truthy(b.specialty) then b.specialty.value else DefaultSpecialty)
    ensures a.avatar == (if Truthy(b.image) then b.image.value else DefaultAvatar)
    ensures a.works == (if b.works.Some? then b.works.value else 0)
    ensures a.featured <==> b.featured == Some(true)
    ensures a.experience == DefaultExperience && a.location == DefaultLocation
    ensures a.yearsActive == DefaultYearsActive
    ensures a.bio != [] && a.specialty != [] && a.avatar != []
  {
    Artist(b.id, b.name, OrElse(b.specialty, DefaultSpecialty),
           if b.works.Some? then b.works.value else 0,
           OrElse(b.image, DefaultAvatar), DefaultExperience, DefaultLocation,
           OrElse(b.bio, DefaultBio), DefaultYearsActive,
           b.featured == Some(true))
  }

  /** The loaded list: one artist per backend entry, in order. */
  function Loaded(backend: seq<BackendArtist>): seq<Artist>
  {
    seq(|backend|, i requires 0 <= i < |backend| => FromBackend(backend[i]))
  }

  /** `document.getElementById(id)?.value || 'all'`: a missing or empty select means "all". */
  function Selected(select: Option<string>): string
  {
    OrElse(select, "all")
  }

  datatype Criteria = Criteria(specialty: string, experience: string, location: string)

  /** The predicate passed to `artistsData.filter`; `"all"` is a wildcard for each criterion. */
  predicate Matches(a: Artist, c: Criteria)
  {
    (c.specialty == "all" || Contains(ToLower(a.specialty), ToLower(c.specialty))) &&
    (c.experience == "all" || a.experience == c.experience) &&
    (c.location == "all" || a.location == c.location)
  }

  class ArtistsList {
    var artistsData: seq<Artist>
    var filteredArtists: seq<Artist>

    constructor()
      ensures artistsData == [] && filteredArtists == []
    {
      artistsData := [];
      filteredArtists := [];
    }

    /**
     * `loadArtists`, given the parsed `artists` list, or `None` when the
     * response is not ok, the body does not parse or the request throws.
     */
    method LoadArtists(reply: Option<seq<BackendArtist>>)
      modifies this
      ensures reply.None? ==> artistsData == [] && filteredArtists == []
      ensures reply.Some? ==> artistsData == Loaded(reply.value) && filteredArtists == artistsData
      ensures reply.Some? ==> |artistsData| == |reply.value|
    {
      if reply.None? {
        artistsData := [];
        filteredArtists := [];
      } else {
        artistsData := Loaded(reply.value);
        filteredArtists := artistsData;
      }
    }

    /** `applyFilters`, given the three select boxes (`None` when the element is missing). */
    method ApplyFilters(specialty: Option<string>, experience: Option<string>, location: Option<string>)
      modifies this
      ensures artistsData == old(artistsData)
      ensures filteredArtists ==
        Filter(artistsData, a => Matches(a, Criteria(Selected(specialty), Selected(experience), Selected(location))))
    {
      var c := Criteria(Selected(specialty), Selected(experience), Selected(location));
      filteredArtists := Filter(artistsData, a => Matches(a, c));
    }

    /** `updateResultsCount`: the text reads back as the number of filtered artists. */
    function ResultsCount(): (r: string)
      reads this
      ensures |r| > |"Showing "| + |" artists"|
      ensures StartsWith(r, "Showing ") && EndsWith(r, " artists")
      ensures var digits := r[|"Showing "|..|r| - |" artists"|];
              (forall i :: 0 <= i < |digits| ==> IsDigit(digits[i])) &&
              DigitsValue(digits) == |filteredArtists|
    {
      var digits := NatToString(|filteredArtists|);
      NatToStringRoundTrip(|filteredArtists|);
      var r := "Showing " + digits + " artists";
      assert r[|"Showing "|..|r| - |" artists"|] == digits;
      r
    }
  }

  /** With every select on "all", the filter keeps the whole list in order. */
  lemma {:induction false} AllSelectsKeepAll(data: seq<Artist>)
    ensures Filter(data, a => Matches(a, Criteria("all", "all", "all"))) == data
  {
    FilterKeepsAll(data, a => Matches(a, Criteria("all", "all", "all")));
  }

  /**
   * Every loaded artist is "established" and "local", so any other experience
   * or location filter leaves nothing.
   */
  lemma {:induction false} FixedDefaultsEmptyOtherFilters(backend: seq<BackendArtist>, c: Criteria)
    requires (c.experience != "all" && c.experience != DefaultExperience) ||
             (c.location != "all" && c.location != DefaultLocation)
    ensures Filter(Loaded(backend), a => Matches(a, c)) == []
  {
    var data := Loaded(backend);
    forall i | 0 <= i < |data|
      ensures !Matches(data[i], c)
    {
      assert data[i] == FromBackend(backend[i]);
    }
    FilterDropsAll(data, a => Matches(a, c));
  }

  /** The filtered list is an order-preserving selection of the loaded list. */
  lemma FilteredIsSelection(data: seq<Artist>, c: Criteria)
    ensures SubsequenceOf(Filter(data, a => Matches(a, c)), data)
    ensures forall a :: multiset(Filter(data, x => Matches(x, c)))[a] ==
                        if Matches(a, c) then multiset(data)[a] else 0
  {
    FilterIsOrderedSelection(data, a => Matches(a, c));
  }
}
