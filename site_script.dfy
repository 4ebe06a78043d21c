/**
 * The shared page script `js/script.js`: the header's signed-in state, the
 * bid button (which only navigates), and a three-entry ticker.  Its sign-up
 * handler performs the same checks as `script.js`, `HomeScript.CheckSignupForm`.
 */
module SiteScript {
  import opened Common
  import opened Strings
  import opened AuthCommon
  import opened HomeScript

  /** The number of updates the ticker cycles through. */
  const TickerSize := 3

  /** The header after `updateUIBasedOnAuth(flag)`: `hasManager` says whether `window.authManager` exists. */
  function HeaderUi(flag: bool, hasManager: bool, currentUser: Option<User>): (ui: AuthUi)
    ensures !(flag && hasManager && currentUser.Some?) <==> ui.authButtons == Shown
    ensures !(flag && hasManager && currentUser.Some?) ==> SignedOutUi(ui) && ui.collection == Hidden
    ensures flag && hasManager && currentUser.Some? ==>
      ui.userMenu == Shown && ui.collection == Shown &&
      ui.displayName == Some(OrElse(currentUser.value.name, OrElse(currentUser.value.username, "User")))
    ensures ui.addArtwork == Shown <==>
      flag && hasManager && currentUser.Some? &&
      (currentUser.value.userType == Some("artist") || currentUser.value.userType == Some("both"))
    ensures ui.displayName.Some? ==> ui.displayName.value != []
  {
    if flag && hasManager && currentUser.Some? then
      var u := currentUser.value;
      var addArtwork := if u.userType == Some("artist") || u.userType == Some("both") then Shown else Untouched;
      AuthUi(Hidden, Shown, Some(OrElse(u.name, OrElse(u.username, "User"))), addArtwork, Shown)
    else
      AuthUi(Shown, Hidden, None, Hidden, Hidden)
  }

  /** A signed-in collector's header leaves the add-artwork link as the page had it. */
  lemma CollectorLeavesAddArtworkLink(u: User)
    requires u.userType == Some("collector")
    ensures HeaderUi(true, true, Some(u)).addArtwork == Untouched
  {
  }

  datatype BidNavigation = LoginFirst | GoTo(url: string)

  const AuctionLinkPrefix := "auctions.html?artwork="

  /** `handleBid(artworkId)`: a signed-in visitor is sent to the artwork's auction, anyone else to log in. */
  function HandleBid(signedIn: bool, artworkId: nat): (r: BidNavigation)
    ensures r.LoginFirst? <==> !signedIn
    ensures r.GoTo? ==>
      StartsWith(r.url, AuctionLinkPrefix) && |r.url| > |AuctionLinkPrefix| &&
      var id := r.url[|AuctionLinkPrefix|..];
      (forall i :: 0 <= i < |id| ==> IsDigit(id[i])) && DigitsValue(id) == artworkId
  {
    if !signedIn then LoginFirst
    else
      var url := AuctionLinkPrefix + NatToString(artworkId);
      NatToStringRoundTrip(artworkId);
      assert url[|AuctionLinkPrefix|..] == NatToString(artworkId);
      GoTo(url)
  }

  /** Different artworks lead to different auction links. */
  lemma BidLinksDistinct(a: nat, b: nat)
    requires a != b
    ensures HandleBid(true, a) != HandleBid(true, b)
  {
  }

  /** The page's ticker: three updates, visited in a cycle. */
  method NewSiteTicker() returns (t: Ticker)
    ensures fresh(t) && t.size == TickerSize && t.currentIndex == 0 && t.Valid()
  {
    t := new Ticker(TickerSize);
  }
}
