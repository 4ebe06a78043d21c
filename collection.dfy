/**
 * The collector's page of `js/my-collection.js`: a list of artworks kept as JSON
 * under `user_collection` in storage, its statistics, adding and removing
 * entries, and the category filter and sort applied to the rendered cards.
 */
module MyCollection {
  import opened Common
  import opened Strings

  const CollectionKey := "user_collection"

  /** One stored entry; `price` is None when the stored object has no usable price. */
  datatype Item = Item(
    id: string,
    title: string,
    artist: string,
    category: string,
    price: Option<real>,
    purchaseDate: string,
    notes: string,
    image: string,
    dateAdded: int)

  /** `item.price || 0`. */
  function PriceOrZero(item: Item): real
  {
    if item.price.Some? then item.price.value else 0.0
  }

  /**
   * `JSON.stringify` and `JSON.parse` of the stored list; `decode` yields None
   * where parsing throws.
   */
  datatype CollectionCodec = CollectionCodec(encode: seq<Item> -> string, decode: string -> Option<seq<Item>>)

  ghost predicate Faithful(c: CollectionCodec)
  {
    c.decode("[]") == Some([]) && forall items :: c.encode(items) != "" && c.decode(c.encode(items)) == Some(items)
  }

  /** `JSON.parse(localStorage.getItem('user_collection') || '[]')`. */
  function StoredCollection(items: map<string, string>, codec: CollectionCodec): Option<seq<Item>>
  {
    codec.decode(OrElse(Lookup(items, CollectionKey), "[]"))
  }

  // ------------------------------------------------------------- statistics

  /** `collection.reduce((sum, item) => sum + (item.price || 0), 0)`. */
  function TotalValue(c: seq<Item>): real
  {
    if c == [] then 0.0 else TotalValue(c[..|c| - 1]) + PriceOrZero(c[|c| - 1])
  }

  /** The distinct artist names. */
  function Artists(c: seq<Item>): set<string>
  {
    set i | 0 <= i < |c| :: c[i].artist
  }

  /** `Math.max(...dates)` for a non-empty list, None for an empty one. */
  function Latest(c: seq<Item>): (r: Option<int>)
    ensures r.None? <==> c == []
    ensures r.Some? ==> forall i :: 0 <= i < |c| ==> c[i].dateAdded <= r.value
    ensures r.Some? ==> exists i :: 0 <= i < |c| && c[i].dateAdded == r.value
  {
    if c == [] then None
    else
      var last := c[|c| - 1].dateAdded;
      match Latest(c[..|c| - 1])
      case None => Some(last)
      case Some(m) => Some(if m >= last then m else last)
  }

  datatype Stats = Stats(count: nat, totalValue: real, artists: nat, latest: Option<int>)

  /** `updateCollectionStats`. */
  function CollectionStats(c: seq<Item>): (r: Stats)
    ensures r.count == |c| && r.artists == |Artists(c)| && r.latest == Latest(c)
    ensures r.artists <= r.count
    ensures r.totalValue == TotalValue(c)
  {
    ArtistsBounded(c);
    Stats(|c|, TotalValue(c), |Artists(c)|, Latest(c))
  }

  lemma {:induction false} ArtistsBounded(c: seq<Item>)
    ensures |Artists(c)| <= |c|
  {
    if c != [] {
      var init := c[..|c| - 1];
      ArtistsBounded(init);
      ArtistsAppend(init, c[|c| - 1]);
      assert init + [c[|c| - 1]] == c;
    }
  }

  lemma ArtistsAppend(c: seq<Item>, x: Item)
    ensures Artists(c + [x]) == Artists(c) + {x.artist}
  {
    var d := c + [x];
    forall a | a in Artists(d) ensures a in Artists(c) + {x.artist} {
      var i :| 0 <= i < |d| && d[i].artist == a;
      if i < |c| {
        assert d[i] == c[i];
      }
    }
    forall a | a in Artists(c) ensures a in Artists(d) {
      var i :| 0 <= i < |c| && c[i].artist == a;
      assert d[i] == c[i];
    }
    assert d[|c|] == x;
  }

  /** Appending an entry adds one to the count, its price to the value, and its artist if new. */
  lemma StatsAfterAppend(c: seq<Item>, x: Item)
    ensures CollectionStats(c + [x]).count == CollectionStats(c).count + 1
    ensures CollectionStats(c + [x]).totalValue == CollectionStats(c).totalValue + PriceOrZero(x)
    ensures CollectionStats(c + [x]).artists ==
            CollectionStats(c).artists + (if x.artist in Artists(c) then 0 else 1)
    ensures CollectionStats(c + [x]).latest.value >= x.dateAdded
  {
    assert (c + [x])[..|c|] == c;
    ArtistsAppend(c, x);
  }

  // ------------------------------------------------------------- add / remove

  /** The price of a new entry: `parseFloat(input) || 0` (None stands for NaN). */
  function PriceFrom(parsed: Option<real>): (r: real)
    ensures parsed.Some? ==> r == parsed.value
    ensures parsed.None? ==> r == 0.0
  {
    if parsed.Some? then parsed.value else 0.0
  }

  /** The fields of the add form, as typed. */
  datatype AddForm = AddForm(
    title: string, artist: string, category: string, price: Option<real>,
    purchaseDate: string, notes: string, image: string)

  /** The entry `handleAddToCollection` builds; `id` is the clock as text. */
  function NewItem(form: AddForm, now: nat): (item: Item)
    ensures item.title == JsTrim(form.title) && item.artist == JsTrim(form.artist)
    ensures item.category == form.category && item.price == Some(PriceFrom(form.price))
    ensures item.id == NatToString(now) && item.dateAdded == now
  {
    Item(NatToString(now), JsTrim(form.title), JsTrim(form.artist), form.category,
         Some(PriceFrom(form.price)), form.purchaseDate, JsTrim(form.notes), JsTrim(form.image), now)
  }

  datatype AddOutcome = RequiredFieldsMissing | AddFailed | Added(item: Item)

  /** Keeps the entries whose id differs from `id` (`item.id !== itemId`). */
  function WithoutId(c: seq<Item>, id: string): (r: seq<Item>)
    ensures forall x :: x in r <==> x in c && x.id != id
  {
    Filter(c, (x: Item) => x.id != id)
  }

  /** Removing the id of an entry just appended restores a list that did not hold that id. */
  lemma {:induction false} AddThenRemove(c: seq<Item>, x: Item)
    requires forall i :: 0 <= i < |c| ==> c[i].id != x.id
    ensures WithoutId(c + [x], x.id) == c
  {
    if c == [] {
      assert c + [x] == [x];
    } else {
      AddThenRemove(c[1..], x);
      assert (c + [x])[1..] == c[1..] + [x];
      assert c == [c[0]] + c[1..];
    }
  }

  /** What an add writes is read back: the earlier entries, then the new one. */
  lemma AddedIsStored(items: map<string, string>, c: seq<Item>, item: Item, codec: CollectionCodec)
    requires Faithful(codec)
    ensures StoredCollection(items[CollectionKey := codec.encode(c + [item])], codec) == Some(c + [item])
  {
    assert Lookup(items[CollectionKey := codec.encode(c + [item])], CollectionKey) == Some(codec.encode(c + [item]));
  }

  /** The page's storage, holding the collection. */
  class CollectionStore {
    const storage: LocalStorage

    constructor(s: LocalStorage)
      ensures storage == s
    {
      storage := s;
    }

    function Current(codec: CollectionCodec): Option<seq<Item>>
      reads storage
    {
      StoredCollection(storage.items, codec)
    }

    /**
     * `handleAddToCollection`: a missing title, artist or category changes
     * nothing; otherwise the entry is appended to the stored list, unless that
     * list does not parse.
     */
    method AddToCollection(form: AddForm, now: nat, codec: CollectionCodec) returns (outcome: AddOutcome)
      modifies storage
      ensures outcome == RequiredFieldsMissing <==>
        JsTrim(form.title) == [] || JsTrim(form.artist) == [] || form.category == []
      ensures outcome == AddFailed <==> outcome != RequiredFieldsMissing && old(Current(codec)).None?
      ensures !outcome.Added? ==> storage.items == old(storage.items)
      ensures outcome.Added? ==>
        outcome.item == NewItem(form, now) &&
        storage.items == old(storage.items)[CollectionKey := codec.encode(old(Current(codec)).value + [outcome.item])]
    {
      var item := NewItem(form, now);
      if item.title == [] || item.artist == [] || item.category == [] {
        return RequiredFieldsMissing;
      }
      var collection := Current(codec);
      if collection.None? {
        return AddFailed;
      }
      storage.SetItem(CollectionKey, codec.encode(collection.value + [item]));
      outcome := Added(item);
    }

    /**
     * `removeFromCollection(itemId, showConfirm)`; `confirmed` is the answer to
     * the confirmation dialog, asked only when `showConfirm` holds.
     */
    method RemoveFromCollection(id: string, showConfirm: bool, confirmed: bool, codec: CollectionCodec)
      returns (removed: bool)
      modifies storage
      ensures removed <==> (!showConfirm || confirmed) && old(Current(codec)).Some?
      ensures !removed ==> storage.items == old(storage.items)
      ensures removed ==>
        storage.items == old(storage.items)[CollectionKey := codec.encode(WithoutId(old(Current(codec)).value, id))]
    {
      if showConfirm && !confirmed {
        return false;
      }
      var collection := Current(codec);
      if collection.None? {
        return false;
      }
      storage.SetItem(CollectionKey, codec.encode(WithoutId(collection.value, id)));
      removed := true;
    }

    /**
     * `editCollectionItem`: the first entry with that id is handed to the form
     * and every entry with that id is removed at once, without confirmation.
     */
    method EditCollectionItem(id: string, codec: CollectionCodec) returns (editing: Option<Item>)
      modifies storage
      ensures old(Current(codec)).None? || editing.None? ==> storage.items == old(storage.items)
      ensures old(Current(codec)).None? ==> editing.None?
      ensures old(Current(codec)).Some? ==>
        var c := old(Current(codec)).value;
        (editing.Some? <==> exists i :: 0 <= i < |c| && c[i].id == id) &&
        (editing.Some? ==>
          (exists i :: 0 <= i < |c| && editing.value == c[i] && c[i].id == id &&
             forall j :: 0 <= j < i ==> c[j].id != id) &&
          storage.items == old(storage.items)[CollectionKey := codec.encode(WithoutId(c, id))])
    {
      var collection := Current(codec);
      if collection.None? {
        return None;
      }
      var c := collection.value;
      var i := 0;
      while i < |c| && c[i].id != id
        invariant 0 <= i <= |c|
        invariant forall j :: 0 <= j < i ==> c[j].id != id
      {
        i := i + 1;
      }
      if i == |c| {
        return None;
      }
      editing := Some(c[i]);
      var removed := RemoveFromCollection(id, false, false, codec);
    }
  }

  // ---------------------------------------------------------------- the view

  /** Whether a card stays visible under the category filter (`!filter || category === filter`). */
  predicate ShownUnder(item: Item, categoryFilter: string)
  {
    categoryFilter == [] || item.category == categoryFilter
  }

  /**
   * The order the visible cards are re-appended in: by price for
   * `price-desc`/`price-asc`, by a collation key for `title`, as they are for
   * any other value.
   */
  function Arranged(visible: seq<Item>, sortFilter: string, collation: string -> real): (r: seq<Item>)
    ensures multiset(r) == multiset(visible)
    ensures sortFilter == "price-desc" ==> SortedBy(r, PriceOrZero, true)
    ensures sortFilter == "price-asc" ==> SortedBy(r, PriceOrZero, false)
    ensures sortFilter == "title" ==> SortedBy(r, (x: Item) => collation(x.title), false)
    ensures sortFilter != "price-desc" && sortFilter != "price-asc" && sortFilter != "title" ==> r == visible
  {
    if sortFilter == "price-desc" then SortBy(visible, PriceOrZero, true)
    else if sortFilter == "price-asc" then SortBy(visible, PriceOrZero, false)
    else if sortFilter == "title" then SortBy(visible, (x: Item) => collation(x.title), false)
    else visible
  }

  /** The hidden cards, in their order, then the visible ones arranged for `sortFilter`. */
  function Rearranged(cards: seq<Item>, categoryFilter: string, sortFilter: string, collation: string -> real)
    : (r: seq<Item>)
    ensures multiset(r) == multiset(cards)
  {
    var visible := (x: Item) => ShownUnder(x, categoryFilter);
    var hiddenP := (x: Item) => !ShownUnder(x, categoryFilter);
    FilterSplits(cards, visible, hiddenP);
    Filter(cards, hiddenP) + Arranged(Filter(cards, visible), sortFilter, collation)
  }

  /** The rendered cards of the grid, in document order, with their display state. */
  class CollectionView {
    var cards: seq<Item>
    var shown: seq<bool>

    /** `displayCollection`: one visible card per entry, in order. */
    constructor(collection: seq<Item>)
      ensures cards == collection && |shown| == |cards|
      ensures forall i :: 0 <= i < |shown| ==> shown[i]
    {
      cards := collection;
      shown := seq(|collection|, i => true);
    }

    /**
     * `applyFilters`: every card is shown iff it passes the category filter;
     * with a sort selected the visible cards are re-appended in sorted order,
     * after the hidden ones.
     */
    method ApplyFilters(categoryFilter: string, sortFilter: string, collation: string -> real)
      modifies this
      ensures |shown| == |cards| && multiset(cards) == multiset(old(cards))
      ensures forall i :: 0 <= i < |cards| ==> (shown[i] <==> ShownUnder(cards[i], categoryFilter))
      ensures sortFilter == [] ==> cards == old(cards)
      ensures sortFilter != [] ==> cards == Rearranged(old(cards), categoryFilter, sortFilter, collation)
    {
      if sortFilter != [] {
        cards := Rearranged(cards, categoryFilter, sortFilter, collation);
      }
      var display: seq<bool> := [];
      var i := 0;
      while i < |cards|
        invariant 0 <= i <= |cards| && |display| == i
        invariant forall j :: 0 <= j < i ==> (display[j] <==> ShownUnder(cards[j], categoryFilter))
      {
        display := display + [ShownUnder(cards[i], categoryFilter)];
        i := i + 1;
      }
      shown := display;
    }
  }

  /** A filter and its complement split a list's multiset. */
  lemma {:induction false} FilterSplits<T(!new)>(s: seq<T>, p: T -> bool, notP: T -> bool)
    requires forall x :: notP(x) == !p(x)
    ensures multiset(Filter(s, notP)) + multiset(Filter(s, p)) == multiset(s)
  {
    if s != [] {
      var x, rest := s[0], s[1..];
      FilterSplits(rest, p, notP);
      assert s == [x] + rest;
      assert multiset(s) == multiset{x} + multiset(rest);
      if p(x) {
        assert !notP(x);
        assert multiset(Filter(s, p)) == multiset{x} + multiset(Filter(rest, p));
        assert Filter(s, notP) == Filter(rest, notP);
      } else {
        assert notP(x);
        assert Filter(s, p) == Filter(rest, p);
        assert multiset(Filter(s, notP)) == multiset{x} + multiset(Filter(rest, notP));
      }
    }
  }
}
