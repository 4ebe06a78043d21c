/**
 * The auctions page controller (`auctions-enhanced.js`): the listing loaded from
 * `/api/auctions`, the status/category/price filter, paging by six, the bidding
 * modal's minimum bid and suggestions, bid submission, and the countdown and
 * bid-age texts.
 *
 * In the page, `filteredAuctions` holds the very objects of `auctionData`
 * (`[...auctionData]` and `filter` copy references), so a bid that mutates an
 * auction shows in both lists.  The model keeps that sharing: the filtered list
 * is a list of positions into `auctionData`.
 */
module Auctions {
  import opened Common
  import opened Strings

  const DefaultAuctionImage :=
    "https://images.unsplash.com/photo-1541961017774-22349e4a1262?w=400&h=300&fit=crop"

  /** Page size of the listing and the step of "load more". */
  const PageSize := 6

  /** Amount by which a bid must exceed the current bid. */
  const BidIncrement: real := 50.0

  /** The `artwork` object nested in a backend auction. */
  datatype BackendArtwork = BackendArtwork(title: string, artist: string, image: Option<string>)

  /** One element of `data.auctions` as `/api/auctions` returns it. */
  datatype BackendAuction = BackendAuction(
    id: int,
    artwork: BackendArtwork,
    currentBid: real,
    startingBid: real,
    status: string,
    endTime: int,
    bidCount: Option<int>,
    timeRemaining: string)

  /** An entry of an auction's bid history; `bidder` is the user's `name`, possibly undefined. */
  datatype BidRecord = BidRecord(bidder: Option<string>, amount: real, time: int)

  /** An auction as the page keeps it. */
  datatype Auction = Auction(
    id: int,
    title: string,
    artist: string,
    currentBid: real,
    startingBid: real,
    image: string,
    status: string,
    category: string,
    endTime: int,
    bidCount: int,
    timeRemaining: string,
    bidHistory: seq<BidRecord>)

  /** The page's copy of a backend auction: the category is always "abstract". */
  function FromBackend(b: BackendAuction): (a: Auction)
    ensures a.id == b.id && a.title == b.artwork.title && a.artist == b.artwork.artist
    ensures a.currentBid == b.currentBid && a.startingBid == b.startingBid
    ensures a.status == b.status && a.category == "abstract" && a.bidHistory == []
    ensures a.bidCount == (if b.bidCount.Some? then b.bidCount.value else 0)
    ensures a.image == OrElse(b.artwork.image, DefaultAuctionImage)
  {
    Auction(b.id, b.artwork.title, b.artwork.artist, b.currentBid, b.startingBid,
            OrElse(b.artwork.image, DefaultAuctionImage), b.status, "abstract", b.endTime,
            if b.bidCount.Some? then b.bidCount.value else 0, b.timeRemaining, [])
  }

  /** The three filter selects; `None` is a select missing from the page. */
  datatype AuctionFilter = AuctionFilter(status: Option<string>, category: Option<string>, price: Option<string>)

  /** A select narrows the list unless it is missing or reads "all". */
  predicate Narrows(select: Option<string>)
  {
    select.Some? && select.value != "all"
  }

  /** The price buckets on the starting bid; an unknown bucket admits every price. */
  predicate InPriceBucket(price: real, bucket: string)
  {
    if bucket == "0-500" then price <= 500.0
    else if bucket == "500-2000" then 500.0 < price <= 2000.0
    else if bucket == "2000-5000" then 2000.0 < price <= 5000.0
    else if bucket == "5000+" then price > 5000.0
    else true
  }

  predicate StatusMatches(a: Auction, f: AuctionFilter)
  {
    !Narrows(f.status) || a.status == f.status.value
  }

  predicate CategoryMatches(a: Auction, f: AuctionFilter)
  {
    !Narrows(f.category) || a.category == f.category.value
  }

  predicate PriceMatches(a: Auction, f: AuctionFilter)
  {
    !Narrows(f.price) || InPriceBucket(a.startingBid, f.price.value)
  }

  /** An auction passes the filter iff it passes every narrowing select. */
  predicate Matches(a: Auction, f: AuctionFilter)
  {
    StatusMatches(a, f) && CategoryMatches(a, f) && PriceMatches(a, f)
  }

  /** The four named buckets are mutually exclusive and cover every price. */
  lemma PriceBucketsPartition(price: real)
    ensures InPriceBucket(price, "0-500") || InPriceBucket(price, "500-2000") ||
            InPriceBucket(price, "2000-5000") || InPriceBucket(price, "5000+")
    ensures !(InPriceBucket(price, "0-500") && InPriceBucket(price, "500-2000"))
    ensures !(InPriceBucket(price, "0-500") && InPriceBucket(price, "2000-5000"))
    ensures !(InPriceBucket(price, "0-500") && InPriceBucket(price, "5000+"))
    ensures !(InPriceBucket(price, "500-2000") && InPriceBucket(price, "2000-5000"))
    ensures !(InPriceBucket(price, "500-2000") && InPriceBucket(price, "5000+"))
    ensures !(InPriceBucket(price, "2000-5000") && InPriceBucket(price, "5000+"))
  {
  }

  /** The minimum acceptable bid, used both by the modal and by submission. */
  function MinimumBid(a: Auction): (m: real)
    ensures m > a.currentBid
  {
    a.currentBid + BidIncrement
  }

  /** The four quick-bid buttons of the modal. */
  function BidSuggestions(minBid: real): (r: seq<real>)
    ensures |r| == 4 && r[0] == minBid
    ensures forall i, j :: 0 <= i < j < |r| ==> r[i] < r[j]
  {
    [minBid, minBid + 100.0, minBid + 250.0, minBid + 500.0]
  }

  /** Position of the first auction with the given id (`Array.prototype.find`). */
  function FindAuction(data: seq<Auction>, id: int): (r: Option<nat>)
    ensures r.Some? ==> r.value < |data| && data[r.value].id == id
    ensures r.Some? ==> forall k :: 0 <= k < r.value ==> data[k].id != id
    ensures r.None? ==> forall k :: 0 <= k < |data| ==> data[k].id != id
  {
    if data == [] then None
    else if data[0].id == id then Some(0)
    else match FindAuction(data[1..], id)
      case None => None
      case Some(k) => Some(k + 1)
  }

  /** What the page's auth manager reports when a bid button is pressed. */
  datatype SessionView = NoAuthManager | AuthManagerView(authenticated: bool, user: Option<Bidder>)

  /** The part of the current user the bid path reads. */
  datatype Bidder = Bidder(name: Option<string>)

  datatype BidGate = LoginRequired | OpenModal(auction: Auction) | NoSuchAuction

  /** What the page does when a bid button is pressed (`handleBid`). */
  function BidButton(session: SessionView, data: seq<Auction>, id: int): (r: BidGate)
    ensures r.OpenModal? <==>
      session.AuthManagerView? && session.authenticated && session.user.Some? && FindAuction(data, id).Some?
    ensures r.OpenModal? ==> r.auction.id == id && r.auction in data
  {
    if session.NoAuthManager? || !session.authenticated || session.user.None? then LoginRequired
    else match FindAuction(data, id)
      case None => NoSuchAuction
      case Some(k) => OpenModal(data[k])
  }

  /** The outcome of `authManager.authenticatedFetch('/api/bids/', ...)` as the page sees it. */
  datatype BidReply =
    | ManagerMissing                                  // `window.authManager` is undefined
    | FetchThrew(message: string)                     // the wrapper or `fetch` threw
    | Replied(ok: bool, body: Option<Option<string>>) // body: JSON with an optional `error`; None: not JSON

  /** The `error` field of an error body; a body that is not JSON reads as `{}`. */
  function ErrorField(body: Option<Option<string>>): Option<string>
  {
    if body.Some? then body.value else None
  }

  datatype Failure = Message(text: string) | RuntimeError

  datatype BidOutcome =
    | FormError
    | InvalidAmount
    | AuctionNotFound
    | BelowMinimum(minBid: real)
    | Placed(amount: real)
    | Failed(reason: Failure)

  /** A parsed bid amount passes the first check iff it is a number (not NaN) and positive. */
  predicate ValidAmount(amount: Option<real>)
  {
    amount.Some? && amount.value > 0.0
  }

  /** `bidHistory` after a successful bid by `bidder`: the new bid first. */
  function WithBid(a: Auction, amount: real, bidder: Bidder, now: int): (r: Auction)
    ensures r.currentBid == amount && r.bidCount == a.bidCount + 1
    ensures |r.bidHistory| == |a.bidHistory| + 1 && r.bidHistory[1..] == a.bidHistory
    ensures r.bidHistory[0] == BidRecord(bidder.name, amount, now)
    ensures r == a.(currentBid := r.currentBid, bidCount := r.bidCount, bidHistory := r.bidHistory)
  {
    a.(currentBid := amount, bidCount := a.bidCount + 1,
       bidHistory := [BidRecord(bidder.name, amount, now)] + a.bidHistory)
  }

  /** Division by 60000 of a number written as `q * 60000 + r`. */
  lemma DivMinute(x: int, q: int, r: int)
    requires 0 <= r < 60000 && x == q * 60000 + r
    ensures x / 60000 == q && x % 60000 == r
  {
  }

  /** The three divisions of `getTimeRemaining` decompose a positive difference. */
  lemma CountdownDecomposes(diff: int)
    requires diff > 0
    ensures var h, m, s := diff / 3600000, (diff % 3600000) / 60000, (diff % 60000) / 1000;
      m < 60 && s < 60 && h * 3600000 + m * 60000 + s * 1000 <= diff < h * 3600000 + m * 60000 + s * 1000 + 1000
  {
    var h := diff / 3600000;
    var r1 := diff % 3600000;
    var m := r1 / 60000;
    var r2 := r1 % 60000;
    assert diff == h * 3600000 + r1;
    assert r1 == m * 60000 + r2 && m < 60;
    DivMinute(diff, h * 60 + m, r2);
    var s := r2 / 1000;
    assert r2 == s * 1000 + r2 % 1000 && s < 60;
  }

  /** The countdown of an auction card. */
  datatype Countdown = Ended | Left(hours: nat, minutes: nat, seconds: nat)

  /** `getTimeRemaining`, on the difference `end - now` in milliseconds. */
  function TimeRemaining(diff: int): (r: Countdown)
    ensures diff <= 0 <==> r.Ended?
    ensures r.Left? ==> r.minutes < 60 && r.seconds < 60
    ensures r.Left? ==>
      var shown := r.hours * 3600000 + r.minutes * 60000 + r.seconds * 1000;
      shown <= diff < shown + 1000
  {
    if diff <= 0 then Ended
    else
      CountdownDecomposes(diff);
      Left(diff / 3600000, (diff % 3600000) / 60000, (diff % 60000) / 1000)
  }

  /**
   * The countdown text: "Auction Ended", or the hours, minutes and seconds in
   * decimal with their unit letters, the hours part only when there are hours left.
   */
  function CountdownText(c: Countdown): (r: string)
    ensures c.Ended? ==> r == "Auction Ended"
    ensures c.Left? && c.hours > 0 ==>
      exists hs, ms, ss :: Numeral(hs, c.hours) && Numeral(ms, c.minutes) && Numeral(ss, c.seconds) &&
        r == hs + "h " + ms + "m " + ss + "s"
    ensures c.Left? && c.hours == 0 ==>
      exists ms, ss :: Numeral(ms, c.minutes) && Numeral(ss, c.seconds) && r == ms + "m " + ss + "s"
  {
    match c
    case Ended => "Auction Ended"
    case Left(h, m, s) =>
      NatToStringRoundTrip(h);
      NatToStringRoundTrip(m);
      NatToStringRoundTrip(s);
      assert Numeral(NatToString(h), h) && Numeral(NatToString(m), m) && Numeral(NatToString(s), s);
      if h > 0 then NatToString(h) + "h " + NatToString(m) + "m " + NatToString(s) + "s"
      else NatToString(m) + "m " + NatToString(s) + "s"
  }

  /** How long ago a bid was placed, as `formatBidTime` words it. */
  datatype BidAge =
    | Recently
    | Verbatim(text: string)
    | JustNow
    | MinutesAgo(minutes: int)
    | HoursAgo(hours: int)
    | DaysAgo(days: int)
    | NaNDaysAgo

  /**
   * `formatBidTime(timeString)`; `elapsed` is `now - new Date(timeString)` in
   * milliseconds, or None when the date does not parse (the difference is NaN).
   */
  function FormatBidTime(timeString: string, elapsed: Option<int>): (r: BidAge)
    ensures timeString == "" ==> r == Recently
    ensures timeString != "" && Contains(timeString, "ago") ==> r == Verbatim(timeString)
    ensures timeString != "" && !Contains(timeString, "ago") && elapsed.None? ==> r == NaNDaysAgo
    ensures r.JustNow? ==> elapsed.Some? && elapsed.value < 60000
    ensures r.MinutesAgo? ==> 1 <= r.minutes < 60 && elapsed.Some? && r.minutes == elapsed.value / 60000
    ensures r.HoursAgo? ==> 1 <= r.hours < 24 && elapsed.Some? && r.hours == elapsed.value / 3600000
    ensures r.DaysAgo? ==> elapsed.Some? && elapsed.value >= 86400000 && r.days == elapsed.value / 86400000 && r.days >= 1
    // each range of elapsed times gets its bucket
    ensures (timeString != "" && !Contains(timeString, "ago") && elapsed.Some?) ==>
      (elapsed.value < 60000 ==> r == JustNow) &&
      (60000 <= elapsed.value < 3600000 ==> r == MinutesAgo(elapsed.value / 60000)) &&
      (3600000 <= elapsed.value < 86400000 ==> r == HoursAgo(elapsed.value / 3600000)) &&
      (86400000 <= elapsed.value ==> r == DaysAgo(elapsed.value / 86400000))
  {
    if timeString == "" then Recently
    else if Contains(timeString, "ago") then Verbatim(timeString)
    else match elapsed
      case None => NaNDaysAgo
      case Some(ms) =>
        if ms / 60000 < 1 then JustNow
        else if ms / 60000 < 60 then MinutesAgo(ms / 60000)
        else if ms / 3600000 < 24 then HoursAgo(ms / 3600000)
        else DaysAgo(ms / 86400000)
  }

  /** The results counter text. */
  datatype ResultsCount = NoAuctionsAvailable | Showing(shown: nat, total: nat)

  /** The module-level state of the auctions page. */
  class AuctionsPage {
    var auctionData: seq<Auction>
    /** `filteredAuctions`, as the positions in `auctionData` of the objects it holds. */
    var filteredIdx: seq<nat>
    var displayedCount: int

    ghost predicate Valid()
      reads this
    {
      InBounds(auctionData, filteredIdx) && displayedCount >= PageSize
    }

    /** The auctions the filtered list refers to, as they are now. */
    function FilteredAuctions(): (r: seq<Auction>)
      requires Valid()
      reads this
      ensures |r| == |filteredIdx|
    {
      Project(auctionData, filteredIdx)
    }

    constructor()
      ensures Valid()
      ensures auctionData == [] && filteredIdx == [] && displayedCount == PageSize
    {
      auctionData := [];
      filteredIdx := [];
      displayedCount := PageSize;
    }

    /**
     * `loadAuctionsFromBackend`: `reply` is the decoded `data.auctions`, or None
     * when the response is not ok, the request fails or the body is unusable.
     */
    method LoadAuctions(reply: Option<seq<BackendAuction>>)
      requires Valid()
      modifies this
      ensures Valid()
      ensures displayedCount == old(displayedCount)
      ensures reply.None? ==> auctionData == [] && filteredIdx == []
      ensures reply.Some? ==> |auctionData| == |reply.value|
      ensures reply.Some? ==> forall i :: 0 <= i < |auctionData| ==> auctionData[i] == FromBackend(reply.value[i])
      ensures reply.Some? ==> FilteredAuctions() == auctionData
    {
      match reply {
        case None =>
          auctionData := [];
          filteredIdx := [];
        case Some(backend) =>
          auctionData := seq(|backend|, i requires 0 <= i < |backend| => FromBackend(backend[i]));
          filteredIdx := Positions(|auctionData|);
          ProjectAll(auctionData);
      }
    }

    /** `applyFilters`: the three selects are applied one after the other, as the page does. */
    method ApplyFilters(f: AuctionFilter)
      requires Valid()
      modifies this
      ensures Valid()
      ensures auctionData == old(auctionData) && displayedCount == old(displayedCount)
      ensures FilteredAuctions() == Filter(auctionData, a => Matches(a, f))
    {
      var data := auctionData;
      var all := Positions(|data|);
      var byStatus := Filter(all, (i: nat) => i < |data| && StatusMatches(data[i], f));
      var byCategory := Filter(byStatus, (i: nat) => i < |data| && CategoryMatches(data[i], f));
      var byPrice := Filter(byCategory, (i: nat) => i < |data| && PriceMatches(data[i], f));
      FilterTwice(all, (i: nat) => i < |data| && StatusMatches(data[i], f),
                  (i: nat) => i < |data| && CategoryMatches(data[i], f),
                  (i: nat) => i < |data| && StatusMatches(data[i], f) && CategoryMatches(data[i], f));
      FilterTwice(all, (i: nat) => i < |data| && StatusMatches(data[i], f) && CategoryMatches(data[i], f),
                  (i: nat) => i < |data| && PriceMatches(data[i], f),
                  (i: nat) => i < |data| && Matches(data[i], f));
      ProjectAll(data);
      ProjectFilter(data, all, (i: nat) => i < |data| && Matches(data[i], f), a => Matches(a, f));
      filteredIdx := byPrice;
    }

    /** The "load more" button. */
    method LoadMore()
      requires Valid()
      modifies this
      ensures Valid()
      ensures displayedCount == old(displayedCount) + PageSize
      ensures auctionData == old(auctionData) && filteredIdx == old(filteredIdx)
    {
      displayedCount := displayedCount + PageSize;
    }

    /** The cards on screen: `filteredAuctions.slice(0, displayedCount)`. */
    function Displayed(): (r: seq<Auction>)
      requires Valid()
      reads this
      ensures |r| == if displayedCount < |filteredIdx| then displayedCount else |filteredIdx|
      ensures r == FilteredAuctions()[..|r|]
    {
      var all := FilteredAuctions();
      if displayedCount < |all| then all[..displayedCount] else all
    }

    /** `updateResultsCount`. */
    function Results(): (r: ResultsCount)
      requires Valid()
      reads this
      ensures r.NoAuctionsAvailable? <==> |filteredIdx| == 0
      ensures r.Showing? ==> r.total == |filteredIdx| && r.shown == |Displayed()|
      ensures r.Showing? ==> 1 <= r.shown <= r.total
    {
      if |filteredIdx| == 0 then NoAuctionsAvailable
      else Showing(|Displayed()|, |filteredIdx|)
    }

    /** Whether a bid gets past the form, amount, auction and minimum checks of `handleBidSubmit`. */
    static predicate BidChecksPass(data: seq<Auction>, hasInput: bool, amount: Option<real>, auctionId: Option<int>)
    {
      hasInput && ValidAmount(amount) && auctionId.Some? && FindAuction(data, auctionId.value).Some? &&
      amount.value >= MinimumBid(data[FindAuction(data, auctionId.value).value])
    }

    /**
     * `handleBidSubmit`.  `amount` is `parseFloat` of the input (None for NaN),
     * `auctionId` is `parseInt` of the form's data attribute (None for NaN),
     * `user` is what `getCurrentUser()` returned, `now` the clock.  `attempted`
     * tells whether the authorised request was issued.
     */
    method SubmitBid(hasInput: bool, amount: Option<real>, auctionId: Option<int>,
                     user: Option<Bidder>, reply: BidReply, now: int)
      returns (outcome: BidOutcome, attempted: bool)
      requires Valid()
      modifies this
      ensures Valid()
      ensures filteredIdx == old(filteredIdx) && displayedCount == old(displayedCount)
      ensures |auctionData| == |old(auctionData)|
      // local validation, in order, before any request and without any change
      ensures !hasInput ==> outcome == FormError
      ensures hasInput && !ValidAmount(amount) ==> outcome == InvalidAmount
      ensures (hasInput && ValidAmount(amount) &&
               (auctionId.None? || FindAuction(old(auctionData), auctionId.value).None?)) ==>
              outcome == AuctionNotFound
      ensures outcome.FormError? || outcome.InvalidAmount? || outcome.AuctionNotFound? || outcome.BelowMinimum? ==>
              !attempted && auctionData == old(auctionData)
      ensures outcome.BelowMinimum? ==>
              var k := FindAuction(old(auctionData), auctionId.value).value;
              outcome.minBid == MinimumBid(old(auctionData)[k]) && amount.value < outcome.minBid
      ensures (hasInput && ValidAmount(amount) && auctionId.Some? && FindAuction(old(auctionData), auctionId.value).Some? &&
               amount.value < MinimumBid(old(auctionData)[FindAuction(old(auctionData), auctionId.value).value])) ==>
              outcome == BelowMinimum(MinimumBid(old(auctionData)[FindAuction(old(auctionData), auctionId.value).value]))
      // once the local checks pass, the reply decides
      ensures BidChecksPass(old(auctionData), hasInput, amount, auctionId) && reply.ManagerMissing? ==>
              outcome == Failed(RuntimeError) && !attempted && auctionData == old(auctionData)
      ensures BidChecksPass(old(auctionData), hasInput, amount, auctionId) && !reply.ManagerMissing? ==> attempted
      ensures BidChecksPass(old(auctionData), hasInput, amount, auctionId) && reply.Replied? && reply.ok && reply.body.None? ==>
              outcome == Failed(RuntimeError) && auctionData == old(auctionData)
      ensures BidChecksPass(old(auctionData), hasInput, amount, auctionId) && reply.Replied? && reply.ok && reply.body.Some? ==>
              var k := FindAuction(old(auctionData), auctionId.value).value;
              if user.Some? then
                outcome == Placed(amount.value) &&
                auctionData == old(auctionData)[k := WithBid(old(auctionData)[k], amount.value, user.value, now)]
              else
                outcome == Failed(RuntimeError) &&
                auctionData == old(auctionData)[k := old(auctionData)[k].(currentBid := amount.value,
                                                                           bidCount := old(auctionData)[k].bidCount + 1)]
      // a placed bid updates exactly the found auction
      ensures outcome.Placed? ==>
              attempted && user.Some? && reply.Replied? && reply.ok && reply.body.Some? &&
              var k := FindAuction(old(auctionData), auctionId.value).value;
              outcome.amount == amount.value && outcome.amount >= MinimumBid(old(auctionData)[k]) &&
              auctionData == old(auctionData)[k := WithBid(old(auctionData)[k], amount.value, user.value, now)]
      // a refused or failed request changes nothing
      ensures outcome.Failed? && !(reply.Replied? && reply.ok && reply.body.Some?) ==>
              auctionData == old(auctionData)
      ensures outcome.Failed? && reply.Replied? && !reply.ok ==>
              outcome.reason == Message(OrElse(ErrorField(reply.body), "Failed to place bid"))
      ensures reply.FetchThrew? && outcome.Failed? ==>
              outcome.reason == Message(if reply.message == "" then "Failed to place bid" else reply.message)
    {
      attempted := false;
      if !hasInput {
        return FormError, false;
      }
      if !ValidAmount(amount) {
        return InvalidAmount, false;
      }
      if auctionId.None? {
        return AuctionNotFound, false;
      }
      var found := FindAuction(auctionData, auctionId.value);
      if found.None? {
        return AuctionNotFound, false;
      }
      var k := found.value;
      var auction := auctionData[k];
      var minBid := MinimumBid(auction);
      if amount.value < minBid {
        return BelowMinimum(minBid), false;
      }
      match reply {
        case ManagerMissing =>
          // `window.authManager.getCurrentUser()` throws before any request
          outcome := Failed(RuntimeError);
        case FetchThrew(message) =>
          attempted := true;
          // `error.message || 'Failed to place bid'`
          outcome := Failed(Message(if message == "" then "Failed to place bid" else message));
        case Replied(ok, body) =>
          attempted := true;
          if !ok {
            outcome := Failed(Message(OrElse(ErrorField(body), "Failed to place bid")));
          } else if body.None? {
            // `response.json()` rejects before anything is updated
            outcome := Failed(RuntimeError);
          } else if user.None? {
            // `currentBid` and `bidCount` are written, then `currentUser.name` throws
            auctionData := auctionData[k := auction.(currentBid := amount.value, bidCount := auction.bidCount + 1)];
            outcome := Failed(RuntimeError);
          } else {
            auctionData := auctionData[k := WithBid(auction, amount.value, user.value, now)];
            outcome := Placed(amount.value);
          }
      }
    }
  }

  /** Right after a load, the wildcard filter keeps the whole listing. */
  lemma WildcardKeepsAll(data: seq<Auction>)
    ensures Filter(data, a => Matches(a, AuctionFilter(Some("all"), Some("all"), Some("all")))) == data
  {
    FilterKeepsAll(data, a => Matches(a, AuctionFilter(Some("all"), Some("all"), Some("all"))));
  }

  /** Every loaded auction is "abstract", so any other category select empties the listing. */
  lemma {:induction false} OtherCategoryEmpties(backend: seq<BackendAuction>, f: AuctionFilter)
    requires f.category.Some? && f.category.value != "all" && f.category.value != "abstract"
    ensures Filter(seq(|backend|, i requires 0 <= i < |backend| => FromBackend(backend[i])), a => Matches(a, f)) == []
  {
    var data := seq(|backend|, i requires 0 <= i < |backend| => FromBackend(backend[i]));
    FilterDropsAll(data, a => Matches(a, f));
  }

  /** After a placed bid, the next minimum bid is the new bid plus the increment. */
  lemma NextMinimumFollowsBid(a: Auction, amount: real, bidder: Bidder, now: int)
    requires amount >= MinimumBid(a)
    ensures MinimumBid(WithBid(a, amount, bidder, now)) == amount + BidIncrement
    ensures MinimumBid(WithBid(a, amount, bidder, now)) >= MinimumBid(a) + BidIncrement
  {
  }
}
