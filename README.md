# kunstHaus auction site — a Dafny model

kunstHaus is an online art gallery and auction house. A Flask back end
(`backend/app.py`) keeps users, artist profiles and artworks in a SQL
database. It answers registration, login, profile and password changes,
artwork creation, an auction listing derived from the artworks, a search, and
the static pages of the front end. The front end (`kunsthaus-canvas-bids/`) is
a set of plain JavaScript pages:

- the auction page with its filters, countdowns and bid modal;
- the gallery, the two artist directories, the search page, the "add artwork" form and the personal collection;
- the account page;
- the home page scripts;
- the shared navigation bar;
- three separate session managers, which keep the signed-in user in `localStorage` and tell listeners when it changes.

This project models that core in Dafny, one module per source file:

- **Page state.** What a page keeps between events, or what a class keeps in its fields, is a Dafny `class`. Its methods change exactly the fields the source changes. Examples: the auction listing, the filtered lists and how many cards are shown, a session manager's current user and listeners, the rate limiter's counters, the navbar's toggles, and the database tables.
- **Pure rules.** The decisions the source takes on values are functions. Examples: validation orders, e-mail and password rules, strength scores, price buckets, countdown arithmetic, filters and sorts, routing.
- **Properties.** What the source promises is stated in the contracts of these members and in lemmas that relate several calls. Examples: logging out twice is logging out once; a saved preference set loads back; a user who just registered can log in; the ticker visits every update in turn.

The outside world enters as parameters:

- **Server replies.** Every server reply is an input datatype (a thrown error, or a status with a body that may fail to parse).
- **Browser storage.** `localStorage` is a class holding a `map<string, string>`.
- **JSON and hashing.** `JSON.parse`/`JSON.stringify` and the password hasher are function values. The lemmas that need a round trip or a sound hash take it as a hypothesis (`Faithful`, `Sound`).
- **Clock and browser facts.** The clock, `confirm()`, the DOM facts a handler looks up, and the formatting routines of the runtime are plain arguments.

Shared modules:

- `Common` holds `Option`, the storage class, an order-preserving filter, a sort by a numeric key, and small helpers for JavaScript truthiness and `||`.
- `Strings` holds JavaScript and Python whitespace classes, trimming, ASCII lower-casing, JavaScript's UTF-16 `length`, substring search, first-occurrence replacement, path segments and decimal rendering.
- `PasswordTiers` shows that the sign-up page and the server count a password's length in different units. The page counts UTF-16 code units and the server counts code points (Python's `len`), so a password with an emoji can pass the page's rules and still be refused by `register`.

## Model

| member | source | states |
|---|---|---|
| Auctions.FromBackend | kunsthaus-canvas-bids/auctions-enhanced.js:80-95 | the page's record copies id, title, artist and both bids, falls back to the stock image, forces category "abstract", starts with no bid history and takes a missing bid count as 0 |
| Auctions.PriceBucketsPartition | kunsthaus-canvas-bids/auctions-enhanced.js:390-398 | the four price buckets on the starting bid are pairwise exclusive and together cover every price |
| Auctions.MinimumBid | kunsthaus-canvas-bids/auctions-enhanced.js:549 | the minimum acceptable bid lies strictly above the current bid |
| Auctions.BidSuggestions | kunsthaus-canvas-bids/auctions-enhanced.js:558-562 | exactly four quick bids, the first being the minimum bid, strictly increasing |
| Auctions.FindAuction | kunsthaus-canvas-bids/auctions-enhanced.js:346 | the position of the first auction with the id, or none exactly when no auction has it |
| Auctions.BidButton | kunsthaus-canvas-bids/auctions-enhanced.js:325-349 | the bidding modal opens iff an auth manager reports a signed-in visitor with user data and the id is listed, and then for the auction with that id |
| Auctions.WithBid | kunsthaus-canvas-bids/auctions-enhanced.js:761-770 | a placed bid becomes the current bid, the bid count grows by exactly one, the history gains exactly the new bid at its front, and nothing else of the auction changes |
| Auctions.CountdownDecomposes | kunsthaus-canvas-bids/auctions-enhanced.js:253-255 | for a positive difference the minutes and seconds are below 60 and hours, minutes and seconds account for the difference to within one second |
| Auctions.TimeRemaining | kunsthaus-canvas-bids/auctions-enhanced.js:246-255 | "ended" iff the difference is not positive; otherwise minutes and seconds below 60 and the shown time is the difference rounded down to the second |
| Auctions.CountdownText | kunsthaus-canvas-bids/auctions-enhanced.js:251-261 | "Auction Ended" for an ended auction; otherwise "Hh Mm Ss", or "Mm Ss" when no hours are left, where each numeral is decimal and reads back as that field |
| Auctions.FormatBidTime | kunsthaus-canvas-bids/auctions-enhanced.js:676-698 | an empty time is "Recently", a text with "ago" is kept verbatim, a date that does not parse gives "NaN days ago"; otherwise under a minute is "just now", under an hour the floored minutes, under a day the floored hours, and beyond that the floored days, each bucket exactly for its range of elapsed times |
| Auctions.AuctionsPage.FilteredAuctions | kunsthaus-canvas-bids/auctions-enhanced.js:4 | the filtered list holds one auction per position it refers to in the listing |
| Auctions.AuctionsPage.constructor | kunsthaus-canvas-bids/auctions-enhanced.js:3-5 | the page starts with an empty listing, an empty filtered list and six cards per page |
| Auctions.AuctionsPage.LoadAuctions | kunsthaus-canvas-bids/auctions-enhanced.js:62-143 | a successful load replaces the listing by exactly one page record per backend auction, in order, and resets the filtered list to the whole listing; a failed load leaves both lists empty |
| Auctions.AuctionsPage.ApplyFilters | kunsthaus-canvas-bids/auctions-enhanced.js:370-402 | the filtered list becomes the order-preserving selection of the listing passing every narrowing select, and the listing is unchanged |
| Auctions.AuctionsPage.LoadMore | kunsthaus-canvas-bids/auctions-enhanced.js:408-412 | "load more" shows six more cards and changes neither list |
| Auctions.AuctionsPage.Displayed | kunsthaus-canvas-bids/auctions-enhanced.js:174 | the cards on screen are the first min(shown, filtered) auctions of the filtered list |
| Auctions.AuctionsPage.Results | kunsthaus-canvas-bids/auctions-enhanced.js:276-286 | "No auctions available" iff the filtered list is empty; otherwise between one and all filtered auctions, as many as are on screen, of the filtered total |
| Auctions.AuctionsPage.SubmitBid | kunsthaus-canvas-bids/auctions-enhanced.js:707-797 | checks, in order and before any request, the form, the amount, the auction and the minimum bid, changing nothing when one fails (a bid under the minimum reports that minimum); once they pass, a missing auth manager fails before any request, a thrown or refused request changes nothing and reports its error or "Failed to place bid", an ok reply with an unreadable body changes nothing, and an ok reply with a body places the bid on exactly the found auction, or, when no current user is returned, leaves that auction with the new price and count but no history entry and fails |
| Auctions.WildcardKeepsAll | kunsthaus-canvas-bids/auctions-enhanced.js:378-390 | "all" in every select keeps the whole listing |
| Auctions.OtherCategoryEmpties | kunsthaus-canvas-bids/auctions-enhanced.js:385-387 | since every loaded auction is "abstract", any other category select empties the filtered list (with line 89) |
| Auctions.NextMinimumFollowsBid | kunsthaus-canvas-bids/auctions-enhanced.js:762 | after a placed bid the next minimum is the bid plus 50, so the minimum grows by at least 50 (with lines 549, 732) |
| AuthCommon.Fanout | kunsthaus-canvas-bids/js/auth-manager.js:160-168 | every registered listener is called exactly once, in registration order, with the flag and the argument of the notification |
| AuthCommon.ThrowingCount | kunsthaus-canvas-bids/js/auth-manager.js:160-168 | at most one logged error per listener: a throwing listener is caught and the fan-out goes on |
| AuthCommon.ThrowingCountCounts | kunsthaus-canvas-bids/js/auth-manager.js:160-168 | the count of logged errors is the count of throwing listeners: none exactly when no listener throws, and one per listener exactly when all throw |
| AuthCommon.Hydrate | kunsthaus-canvas-bids/js/auth-manager.js:29-45 | no session iff the stored token or the stored user is missing or empty; otherwise the session is restored iff the stored user parses, and is reported corrupt iff it does not |
| AuthCommon.SignedOut | kunsthaus-canvas-bids/js/auth-manager.js:99-102 | signing out removes exactly the token and the stored user and keeps every other key |
| AuthCommon.SignedOutIdempotent | kunsthaus-canvas-bids/js/auth-manager.js:99-108 | signing out twice leaves the same storage as signing out once |
| AuthCommon.LoginStorageRestores | kunsthaus-canvas-bids/js/auth-manager.js:124-127 | what a login stores with a non-empty token is restored as the same user on the next page load |
| AuthCommon.EmptyTokenNotRestored | kunsthaus-canvas-bids/js/auth-manager.js:33 | a session stored with an empty token is not restored |
| AuthCommon.SignedOutNotRestored | kunsthaus-canvas-bids/js/auth-manager.js:101-102 | after signing out no session is restored (with line 33) |
| AuthCommon.ListenerRegistry.constructor | kunsthaus-canvas-bids/js/auth-manager.js:5 | a manager starts with no listeners and nothing delivered |
| AuthCommon.ListenerRegistry.Add | kunsthaus-canvas-bids/js/auth-manager.js:152-154 | registering appends the listener at the end and calls nobody |
| AuthCommon.ListenerRegistry.Remove | kunsthaus-canvas-bids/js/auth-manager.js:156-158 | removing drops every registration of that listener and keeps all others in order |
| AuthCommon.ListenerRegistry.Notify | kunsthaus-canvas-bids/js/auth-manager.js:160-168 | notification delivers to every listener in order and logs one error per throwing listener, without changing the registrations |
| SharedAuthManager.RequestHeaders | kunsthaus-canvas-bids/js/auth-manager.js:178-182 | the request carries a JSON content type and a bearer token unless the caller supplies those headers, whose values then win; every caller header is sent as given |
| SharedAuthManager.LocalPart | kunsthaus-canvas-bids/js/auth-manager.js:67 | the text of an e-mail address before its first "@": it holds no "@", the address starts with it, the character after it (if any) is "@", and an address without "@" is its own local part |
| SharedAuthManager.DisplayName | kunsthaus-canvas-bids/js/auth-manager.js:66-68 | the header name is never empty: the username when present and non-empty; otherwise, with an e-mail, its local part when that is non-empty and "User" when it is empty; with no e-mail, "User" |
| SharedAuthManager.AuthUiFor | kunsthaus-canvas-bids/js/auth-manager.js:52-87 | signed-out chrome iff nobody is signed in; a signed-in user sees the collection link and their display name, and the add-artwork link iff they are an artist |
| SharedAuthManager.AuthManager.constructor | kunsthaus-canvas-bids/js/auth-manager.js:3-27 | on page load a stored session is restored as is, a missing one leaves nobody signed in, and an unparseable stored user signs out |
| SharedAuthManager.AuthManager.CheckAuthStatus | kunsthaus-canvas-bids/js/auth-manager.js:29-45 | a restorable session becomes the current user and listeners hear true; a missing key leaves nobody signed in and listeners hear false; an unparseable user signs out |
| SharedAuthManager.AuthManager.Logout | kunsthaus-canvas-bids/js/auth-manager.js:99-122 | both keys removed, nobody signed in, listeners hear false, and the page goes home |
| SharedAuthManager.AuthManager.Login | kunsthaus-canvas-bids/js/auth-manager.js:124-137 | both keys written, the user becomes current and authenticated, and listeners hear true with that user |
| SharedAuthManager.AuthManager.AddAuthListener | kunsthaus-canvas-bids/js/auth-manager.js:152-154 | the listener is appended and nobody is called |
| SharedAuthManager.AuthManager.RemoveAuthListener | kunsthaus-canvas-bids/js/auth-manager.js:156-158 | every registration of the listener is dropped and the others keep their order |
| SharedAuthManager.AuthManager.AuthenticatedFetch | kunsthaus-canvas-bids/js/auth-manager.js:171-196 | without a token it throws before any request and changes nothing; otherwise it sends the merged headers; a 401 signs out (token and user removed, current user cleared, every listener notified with `false`, redirect to index.html) and throws "Session expired"; any other response is returned unchanged and a network error rethrown, with storage, user, notifications and redirect unchanged |
| RootAuthManager.StoredText | kunsthaus-canvas-bids/auth-manager.js:55 | storing an absent value writes the text "undefined" |
| RootAuthManager.AuthUiFor | kunsthaus-canvas-bids/auth-manager.js:96-135 | signed-out chrome with both links hidden unless the flag is set and a user is present; then the add-artwork link shows iff the user is an artist and the collection link iff they are not |
| RootAuthManager.AuthManager.constructor | kunsthaus-canvas-bids/auth-manager.js:3-22 | a stored session is restored; a missing one leaves nobody signed in; an unparseable stored user signs out |
| RootAuthManager.AuthManager.CheckAuthState | kunsthaus-canvas-bids/auth-manager.js:24-35 | authenticated iff the stored token is non-empty and a user is current; nothing changes |
| RootAuthManager.AuthManager.Logout | kunsthaus-canvas-bids/auth-manager.js:68-76 | both keys removed, nobody signed in, listeners hear false |
| RootAuthManager.AuthManager.Login | kunsthaus-canvas-bids/auth-manager.js:37-66 | signs in iff the reply is ok with a body, storing the token and the user, setting the user and telling listeners true; otherwise nothing changes and the server's error or "Login failed" is raised |
| RootAuthManager.AuthManager.AddAuthListener | kunsthaus-canvas-bids/auth-manager.js:78-80 | the listener is appended and nobody is called |
| RootAuthManager.AuthManager.RemoveAuthListener | kunsthaus-canvas-bids/auth-manager.js:82-84 | every registration of the listener is dropped and the others keep their order |
| RootAuthManager.MissingTokenStillTruthy | kunsthaus-canvas-bids/auth-manager.js:55 | a login reply without a token still stores a non-empty token ("undefined") |
| SessionAuthManager.AuthUiFor | kunsthaus-canvas-bids/js/auth.js:106-133 | signed-out chrome unless the flag is set and a user is present; the add-artwork link shows iff that user is an artist or both; the display name is the user's name or "Account" |
| SessionAuthManager.AuthManager.constructor | kunsthaus-canvas-bids/js/auth.js:7-25 | a new manager has no listeners and no redirect; `init()` restores a stored user that parses as the current user before its first `await`, drops a stored user that does not parse from storage, and leaves nobody signed in when no user is stored |
| SessionAuthManager.AuthManager.UpdateUIBasedOnAuth | kunsthaus-canvas-bids/js/auth.js:106-144 | every header update tells every listener the flag and the current user |
| SessionAuthManager.AuthManager.CheckAuthState | kunsthaus-canvas-bids/js/auth.js:19-61 | authenticated iff the stored user parses and the server confirms the session, and then the server's user is current and stored; otherwise nobody is signed in and the stored user is removed |
| SessionAuthManager.AuthManager.Login | kunsthaus-canvas-bids/js/auth.js:63-89 | signs in iff the server confirms, storing and setting its user and telling listeners true; otherwise nothing changes and the server's message or "Login failed" is raised |
| SessionAuthManager.AuthManager.Logout | kunsthaus-canvas-bids/js/auth.js:91-157 | whatever the server does, nobody is signed in, the stored user is removed, listeners hear false, and a protected page goes home |
| SessionAuthManager.AuthManager.AddAuthListener | kunsthaus-canvas-bids/js/auth.js:160-166 | the listener is appended and a handle for exactly it is returned |
| SessionAuthManager.AuthManager.Unsubscribe | kunsthaus-canvas-bids/js/auth.js:163-165 | unsubscribing drops exactly that listener and keeps the others in order |
| SessionAuthManager.SubscribeThenUnsubscribe | kunsthaus-canvas-bids/js/auth.js:160-166 | subscribing a new listener and then unsubscribing it gives back the original list |
| PasswordStrength.FeedbackText | kunsthaus-canvas-bids/auth.js:334-346 | every missing criterion has a non-empty feedback line |
| PasswordStrength.FeedbackTextInjective | kunsthaus-canvas-bids/auth.js:334-346 | different criteria have different feedback lines, so the feedback names exactly which criteria are missing |
| PasswordStrength.CriteriaComplete | kunsthaus-canvas-bids/auth.js:333-346 | the meter checks every criterion |
| PasswordStrength.FeedbackTexts | kunsthaus-canvas-bids/auth.js:334-346 | one feedback line per criterion of the list |
| PasswordStrength.Tally | kunsthaus-canvas-bids/auth.js:330-348 | over a list of criteria, score plus feedback length is the list's length, the feedback names exactly the unmet criteria in the list's order, and the score is full iff all are met |
| PasswordStrength.CalculatePasswordStrength | kunsthaus-canvas-bids/auth.js:329-349 | the score is at most 5 and score plus feedback length is exactly 5; the score is 5 iff every criterion holds; the feedback names exactly the unmet criteria, in the fixed order; the length criterion counts UTF-16 code units |
| PasswordStrength.MeterFor | kunsthaus-canvas-bids/auth.js:357-372 | no label iff the score is 0, "Strong" iff the score is 5 or more |
| PasswordStrength.MeterMonotone | kunsthaus-canvas-bids/auth.js:357-372 | a higher score never shows a lower label |
| PasswordStrength.StrongIffAllCriteria | kunsthaus-canvas-bids/auth.js:329-372 | the label is "Strong" exactly when the password meets every criterion |
| AuthForms.EmailScanSound | kunsthaus-canvas-bids/auth.js:50-53 | every address the model accepts matches the pattern local@host.top with no whitespace or "@" in any part |
| AuthForms.EmailScanComplete | kunsthaus-canvas-bids/auth.js:50-53 | every string matching that pattern is accepted |
| AuthForms.IsValidEmailIff | kunsthaus-canvas-bids/auth.js:50-53 | e-mail validation accepts exactly the strings the regular expression matches |
| AuthForms.DomainPart | kunsthaus-canvas-bids/auth.js:51 | a matched host and top-level part form a domain with no whitespace or "@" and a dot inside it |
| AuthForms.FirstAt | kunsthaus-canvas-bids/auth.js:51 | in a matching address the first "@" is the one after the local part |
| AuthForms.ValidatePassword | kunsthaus-canvas-bids/auth.js:56-84 | valid iff no rule is broken; otherwise the reported rule is broken and every earlier rule (length, upper, lower, digit, special) holds; the length is JavaScript's, in UTF-16 code units |
| AuthForms.SpecialCharsAreSymbols | kunsthaus-canvas-bids/auth.js:345 | every character of the special set counts as a symbol for the meter (with line 61) |
| AuthForms.ValidPasswordScoresFive | kunsthaus-canvas-bids/auth.js:56-84 | a password the rules accept scores 5 on the meter (with lines 329-349) |
| AuthForms.SpaceScoresFiveButIsRefused | kunsthaus-canvas-bids/auth.js:345 | "Abcdefg1 " scores 5 on the meter yet is refused for lacking a special character (with line 61) |
| AuthForms.CeilMinutes | kunsthaus-canvas-bids/auth.js:101 | the minutes shown are the remaining time rounded up to whole minutes |
| AuthForms.LockoutMinutesBounded | kunsthaus-canvas-bids/auth.js:90-101 | inside the lockout window the message names between 0 and 15 minutes |
| AuthForms.LoginRateLimiter.constructor | kunsthaus-canvas-bids/auth.js:87-88 | the limiter starts with no failures at time 0 |
| AuthForms.LoginRateLimiter.CheckRateLimit | kunsthaus-canvas-bids/auth.js:92-106 | more than 15 minutes after the last failure the counter is reset first (the count `AttemptsAt` gives); the check refuses iff 5 or more failures remain, naming the minutes left (at most 15) |
| AuthForms.LoginRateLimiter.RecordLoginAttempt | kunsthaus-canvas-bids/auth.js:108-115 | a success resets the counter; a failure adds exactly one and stamps the time |
| AuthForms.LoginRateLimiter.SubmitLogin | kunsthaus-canvas-bids/auth.js:130-209 | empty fields, then an invalid e-mail, then the rate limit refuse before any request; for valid fields the limit refuses exactly when the failures still counted at that time reach 5, naming the minutes left; a request is sent iff none of them refuses; an ok reply resets the counter, a refused one counts exactly one more failure and reports the server's error or "Login failed", and a failed fetch leaves the counter as the check left it |
| Strings.Utf16Length | kunsthaus-canvas-bids/auth.js:63 | JavaScript's `length`: at least the number of code points and at most twice it |
| Strings.Utf16LengthAppend | kunsthaus-canvas-bids/auth.js:63 | the code-unit length of a concatenation is the sum of the lengths |
| Strings.Utf16LengthOfBmp | kunsthaus-canvas-bids/auth.js:63 | for text without characters above U+FFFF the code-unit length is the code-point count |
| PasswordTiers.AstralPasswordAccepted | kunsthaus-canvas-bids/auth.js:56-84 | "Aa1!" followed by two emoji has six code points yet passes every rule, the length rule included |
| PasswordTiers.SevenPointPasswordAccepted | kunsthaus-canvas-bids/auth.js:56-84 | "Aa1!xy" followed by one emoji has seven code points and passes every rule |
| PasswordTiers.FormAcceptsServerRefuses | backend/app.py:66-67 | that password passes the sign-up form's rules, and `register` refuses it with "Password must be at least 8 characters long", because Python's `len` counts code points |
| Strings.CollapseRuns | kunsthaus-canvas-bids/auth.js:270 | `replace(/\s+/g, '_')` over a character class: the result is never longer than the input |
| Strings.CollapseLeavesNoRun | kunsthaus-canvas-bids/auth.js:270 | when "_" is outside the class, no character of the class is left after the replacement |
| Strings.CollapseKeepsPlain | kunsthaus-canvas-bids/auth.js:270 | text with no character of the class is unchanged |
| Strings.CollapseRun | kunsthaus-canvas-bids/auth.js:270 | a whole run of the class becomes exactly one "_", and an empty one nothing |
| Strings.CollapseAppend | kunsthaus-canvas-bids/auth.js:270 | the replacement of a concatenation is the replacement of the first part followed by that of the second, continuing any run the first part ends in |
| Strings.CollapseSplits | kunsthaus-canvas-bids/auth.js:270 | text cut at a point that does not split a run is replaced part by part |
| AuthForms.SignupUsername | kunsthaus-canvas-bids/auth.js:270 | the username of `${first}_${last}` lower-cased with whitespace runs replaced: it is the first name lower-cased with each whitespace run made one "_", then "_", then the last name treated alike (no run crosses the joining "_"); it contains no whitespace |
| AuthForms.SignupUsernameOfPlainNames | kunsthaus-canvas-bids/auth.js:270 | for names without whitespace the username is first_last in lower case |
| AuthForms.RegisterRequest | kunsthaus-canvas-bids/auth.js:250-277 | is_artist iff the type is artist or both, an artist name ("first last") iff is_artist, the specialty "Contemporary Art" iff the type is artist, the non-empty bio chosen by the type, and the username, e-mail and password as given |
| AuthForms.ValidateSignup | kunsthaus-canvas-bids/auth.js:211-248 | a missing name iff either trimmed name is empty; each later refusal only when its own check fails; accepted iff every check passes, and then the request is built from the trimmed names and normalised e-mail |
| AuthForms.SignupReportsFirstRefusal | kunsthaus-canvas-bids/auth.js:211-248 | the refusal reported is one whose check fails, and every check before it in the page's order (name, e-mail, passwords equal, terms, password rules) passes |
| AuthForms.AcceptedSignupIsStrong | kunsthaus-canvas-bids/auth.js:211-248 | an accepted sign-up has a password the meter labels "Strong" and an e-mail matching the pattern |
| Account.SentResult | kunsthaus-canvas-bids/js/account.js:252-268 | a request whose ok body is not read succeeds exactly on an ok reply; an error reply reports the server's `error` or the fallback, and a thrown fetch its message or the fallback, never an empty message |
| Account.ResultOf | kunsthaus-canvas-bids/js/account.js:122-125 | a request succeeds iff the reply is ok with a readable body; a refused reply reports the server's error or the page's fallback message, never an empty one |
| Account.ResultOfDiffersOnlyOnUnreadBody | kunsthaus-canvas-bids/js/account.js:122-125 | reading the ok body changes the result exactly when that body does not parse |
| Account.ProfileUpdate | kunsthaus-canvas-bids/js/account.js:87-138 | an empty trimmed name is refused first; then a missing token stops it; only otherwise is the trimmed e-mail, name and bio sent, and the outcome follows the reply |
| Account.PasswordUpdate | kunsthaus-canvas-bids/js/account.js:219-275 | the refusal reported is the first that applies of: an empty field, new and confirmation differ, new shorter than 8 UTF-16 code units, no token; a request with the current and new password is sent only when none applies, and it succeeds exactly on an ok reply, whose body is never read |
| Account.LoadPreferences | kunsthaus-canvas-bids/js/account.js:300-315 | the theme defaults to "auto"; auction and bid notices are on unless stored exactly false; newsletter and marketing are on only if stored exactly true; unreadable stored preferences throw |
| Account.SaveThenLoad | kunsthaus-canvas-bids/js/account.js:300-332 | preferences saved by the form are loaded back unchanged |
| Account.NothingStoredGivesDefaults | kunsthaus-canvas-bids/js/account.js:302-314 | with nothing stored the page shows "auto", auctions and bids on, newsletter and marketing off |
| Account.AccountPage.constructor | kunsthaus-canvas-bids/js/account.js:300-302 | the page reads and writes the browser storage it is given |
| Account.AccountPage.SavePreferences | kunsthaus-canvas-bids/js/account.js:317-340 | saving writes exactly the theme and the four notice flags and leaves every other key as it was |
| Account.ArtworkActivity | kunsthaus-canvas-bids/js/account.js:373-379 | an artwork becomes an artwork entry, with an amount iff its price is present and non-zero |
| Account.UserActivity | kunsthaus-canvas-bids/js/account.js:373-387 | the activity list is the login entry followed by one entry per artwork in order, so it has one more entry than there are artworks |
| Account.ActivityPanelFor | kunsthaus-canvas-bids/js/account.js:343-392 | an error panel iff there is no token or the artworks cannot be loaded; the "no recent activity" panel never appears; otherwise the activity list |
| MyCollection.Latest | kunsthaus-canvas-bids/js/my-collection.js:138-139 | no latest addition iff the collection is empty; otherwise the largest time added of any item |
| MyCollection.CollectionStats | kunsthaus-canvas-bids/js/my-collection.js:134-139 | the count is the number of items, the value the sum of prices with missing ones as 0, the artists the number of distinct artists (never more than the count), and the latest addition as above |
| MyCollection.ArtistsBounded | kunsthaus-canvas-bids/js/my-collection.js:137 | there are never more distinct artists than items |
| MyCollection.ArtistsAppend | kunsthaus-canvas-bids/js/my-collection.js:247 | appending an item adds exactly its artist to the set of artists (with line 137) |
| MyCollection.StatsAfterAppend | kunsthaus-canvas-bids/js/my-collection.js:134-139 | appending an item adds one to the count, its price to the value, one artist iff the artist is new, and makes the latest addition at least its time (with line 247) |
| MyCollection.PriceFrom | kunsthaus-canvas-bids/js/my-collection.js:225 | the parsed price, or 0 when it does not parse |
| MyCollection.NewItem | kunsthaus-canvas-bids/js/my-collection.js:220-230 | the new item has the trimmed title and artist, the chosen category, the parsed price, and the clock as its id and time added |
| MyCollection.WithoutId | kunsthaus-canvas-bids/js/my-collection.js:312 | keeps exactly the items whose id differs |
| MyCollection.AddThenRemove | kunsthaus-canvas-bids/js/my-collection.js:312 | adding an item with a fresh id and then removing that id gives the collection back (with line 247) |
| MyCollection.AddedIsStored | kunsthaus-canvas-bids/js/my-collection.js:244-250 | the stored collection after adding reads back as the old one with the item at the end |
| MyCollection.CollectionStore.constructor | kunsthaus-canvas-bids/js/my-collection.js:244 | the collection is kept in the given browser storage |
| MyCollection.CollectionStore.AddToCollection | kunsthaus-canvas-bids/js/my-collection.js:217-268 | refused iff the trimmed title, the trimmed artist or the category is empty; an unreadable stored collection fails; otherwise exactly the new item is appended and stored, and a refused or failed add stores nothing |
| MyCollection.CollectionStore.RemoveFromCollection | kunsthaus-canvas-bids/js/my-collection.js:305-321 | removal happens iff no confirmation was asked or it was given (and the stored collection reads); then every item with the id is dropped and the rest kept in order; otherwise storage is unchanged |
| MyCollection.CollectionStore.EditCollectionItem | kunsthaus-canvas-bids/js/my-collection.js:282-302 | an item is opened for editing iff one has the id; the item opened is the first entry with that id (`find`), and every entry with the id is then removed from the stored collection at once, without confirmation; otherwise nothing changes |
| MyCollection.Arranged | kunsthaus-canvas-bids/js/my-collection.js:187-201 | the visible cards are reordered, never added or dropped: by price descending or ascending, or by title, and left in place for any other choice |
| MyCollection.Rearranged | kunsthaus-canvas-bids/js/my-collection.js:184-204 | re-appending the sorted visible cards after the hidden ones is a permutation of the grid |
| MyCollection.CollectionView.constructor | kunsthaus-canvas-bids/js/my-collection.js:80-125 | the grid shows every card of the collection |
| MyCollection.CollectionView.ApplyFilters | kunsthaus-canvas-bids/js/my-collection.js:171-206 | a card is shown iff the category filter is empty or equals its category; the grid is only ever permuted, and left in order when no sort is chosen |
| MyCollection.FilterSplits | kunsthaus-canvas-bids/js/my-collection.js:184-204 | the hidden and the visible cards together are exactly the grid |
| ArtistsDirectory.FromBackend | kunsthaus-canvas-bids/js/artists.js:30-41 | each loaded artist keeps id and name, takes the stock bio, specialty and avatar when those are missing or empty, 0 works when missing, featured only when true, and the fixed experience "established", location "local" and 5 years active |
| ArtistsDirectory.ArtistsList.constructor | kunsthaus-canvas-bids/js/artists.js:2-3 | the page starts with both lists empty |
| ArtistsDirectory.ArtistsList.LoadArtists | kunsthaus-canvas-bids/js/artists.js:15-52 | a successful load gives exactly one artist per backend artist, in order, and shows them all; a failed load empties both lists |
| ArtistsDirectory.ArtistsList.ApplyFilters | kunsthaus-canvas-bids/js/artists.js:95-109 | the shown list is the order-preserving selection of the loaded artists matching every select, a missing select reading "all" |
| ArtistsDirectory.ArtistsList.ResultsCount | kunsthaus-canvas-bids/js/artists.js:111-115 | the counter reads "Showing n artists" with n the number of filtered artists |
| ArtistsDirectory.AllSelectsKeepAll | kunsthaus-canvas-bids/js/artists.js:100-105 | "all" in every select keeps every artist |
| ArtistsDirectory.FixedDefaultsEmptyOtherFilters | kunsthaus-canvas-bids/js/artists.js:102-103 | an experience other than "all"/"established" or a location other than "all"/"local" empties the list of loaded artists (with lines 38-39) |
| ArtistsDirectory.FilteredIsSelection | kunsthaus-canvas-bids/js/artists.js:100-105 | the filtered list is a subsequence of the artists, keeping every matching artist as often as it occurs and no other |
| ArtistsPage.LowersToKey | kunsthaus-canvas-bids/artists.js:279-287 | a capitalised map value lower-cases to its lower-case key |
| ArtistsPage.NeedleIsSelectValue | kunsthaus-canvas-bids/artists.js:279-287 | the specialty searched for is always the select's own value, since each mapped name lower-cases back to its key |
| ArtistsPage.ArtistsPage.constructor | kunsthaus-canvas-bids/artists.js:151-153 | the page starts with the static artists, no loaded ones, and eight to show (with line 4) |
| ArtistsPage.ArtistsPage.LoadArtistsFromBackend | kunsthaus-canvas-bids/artists.js:167-211 | a successful load gives one artist per backend artist in order and shows them all; a failed load empties both lists; the count shown is kept |
| ArtistsPage.ArtistsPage.ApplyFilters | kunsthaus-canvas-bids/artists.js:270-308 | the shown list is the order-preserving selection of the static artists (not the loaded ones) matching every criterion; eight or fewer are shown, and "load more" is hidden iff all fit |
| ArtistsPage.ArtistsPage.LoadMore | kunsthaus-canvas-bids/artists.js:324-332 | shows min(shown + 8, filtered) artists, never more than the list, and no fewer than before when no more than the list was shown; the button hides iff everything then fits |
| ArtistsPage.ArtistsPage.ShowingCount | kunsthaus-canvas-bids/artists.js:334-338 | the counter shows min(shown, filtered) |
| ArtistsPage.LongerSearchNarrows | kunsthaus-canvas-bids/artists.js:297-299 | a search term containing the previous one never admits an artist the previous one refused |
| ArtistsPage.ShownAfterClicks | kunsthaus-canvas-bids/artists.js:304-327 | after filtering and k clicks on "load more", min(8(k + 1), filtered) artists are shown |
| Gallery.FromBackend | kunsthaus-canvas-bids/js/gallery.js:38-50 | each artwork keeps id and title, falls back to "Unknown Artist", price 0, category "abstract", the stock image and description, and gets status "active" |
| Gallery.BoundariesInTwoRanges | kunsthaus-canvas-bids/js/gallery.js:169-184 | the prices 1000, 3000 and 5000 each pass two neighbouring ranges |
| Gallery.RangesCover | kunsthaus-canvas-bids/js/gallery.js:169-184 | every price passes some named range, and a price off the boundaries passes exactly one |
| Gallery.GalleryPage.constructor | kunsthaus-canvas-bids/js/gallery.js:2-3 | the page starts with both lists empty |
| Gallery.GalleryPage.LoadArtworksFromBackend | kunsthaus-canvas-bids/js/gallery.js:22-67 | a successful load gives one artwork per backend artwork, in order, and shows them all; a failed load empties both lists |
| Gallery.GalleryPage.ApplyFilters | kunsthaus-canvas-bids/js/gallery.js:159-195 | the shown list is the order-preserving selection of the artworks matching category, price range and status together |
| Gallery.GalleryPage.Results | kunsthaus-canvas-bids/js/gallery.js:198-205 | "no artworks" iff the filtered list is empty, otherwise its positive length |
| Gallery.ResultsText | kunsthaus-canvas-bids/js/gallery.js:200-204 | "No artworks available" exactly for the empty result, otherwise "Showing n artworks" with n the count |
| Gallery.StatusFilterOnLoaded | kunsthaus-canvas-bids/js/gallery.js:188 | every loaded artwork is "active": that status keeps all of them and any other status but "all" keeps none (with line 48) |
| Gallery.FilteredIsSelection | kunsthaus-canvas-bids/js/gallery.js:164-191 | the filtered list is a subsequence of the artworks keeping exactly the matching ones, each as often as it occurs |
| SearchPage.DisplayFor | kunsthaus-canvas-bids/search.js:137-164 | the total is the sum of the two list lengths; "no results" shows exactly when the total is 0; each section shows exactly when its own list is non-empty |
| SearchPage.ByType | kunsthaus-canvas-bids/search.js:267-274 | "artworks" keeps only the artworks, "artists" only the artists, any other value keeps both |
| SearchPage.Sorted | kunsthaus-canvas-bids/search.js:277-284 | both lists stay permutations of their input; price-low orders artworks by ascending price, price-high by descending price; popular orders artists by descending work count and leaves artworks as they were; the artists keep their order under every other sort |
| SearchPage.RenderThrowsCases | kunsthaus-canvas-bids/search.js:137-244 | rendering the results throws exactly when there is a hit and either the query is non-empty and does not compile as a pattern, or some artwork has a null price, or (with a non-empty query) some artwork has a null description or some artist a null specialty or bio |
| SearchPage.EmptyQueryThrowsOnlyOnNullPrice | kunsthaus-canvas-bids/search.js:240-244 | with an empty query nothing is highlighted, so rendering throws exactly when some artwork's price is null |
| SearchPage.SearchPage.constructor | kunsthaus-canvas-bids/search.js:66-67 | the page starts with no results and an empty query |
| SearchPage.SearchPage.PerformSearch | kunsthaus-canvas-bids/search.js:102-135 | the query is stored lower-cased; a failed search empties both lists and shows "no results"; a successful one stores each list (an empty list where the reply has none) unless rendering them throws (a null price; or, with a non-empty query, a pattern that does not compile or a null description, specialty or bio), in which case both lists are emptied and "no results" is shown; the stored lists never make rendering throw; the display is the one for the stored lists |
| SearchPage.SearchPage.ApplyFilters | kunsthaus-canvas-bids/search.js:262-313 | the shown results are the type selection, then sorted; the count shown is their total; each shown list is a sub-multiset of the stored results |
| AddArtwork.UnparseableUrlRejected | kunsthaus-canvas-bids/add-artwork.js:85-92 | `isValidImageUrl`: a URL that `new URL` rejects is invalid, whatever it contains |
| AddArtwork.ExtensionAcceptedInAnyCase | kunsthaus-canvas-bids/add-artwork.js:85-92 | `isValidImageUrl`: a parseable URL ending in .jpg, .jpeg, .png, .gif or .webp, in any letter case, is valid |
| AddArtwork.ImagesHostAccepted | kunsthaus-canvas-bids/add-artwork.js:85-92 | `isValidImageUrl`: a parseable URL that mentions a host starting "images." is valid, whatever its extension |
| AddArtwork.PreviewText | kunsthaus-canvas-bids/add-artwork.js:63-78 | a blank field previews its default text; any other value previews its trimmed text |
| AddArtwork.PricePreview | kunsthaus-canvas-bids/add-artwork.js:50-76 | the price preview always starts with "$": "$0" for a blank field, otherwise "$" followed by the formatted amount |
| AddArtwork.ImagePreview | kunsthaus-canvas-bids/add-artwork.js:65-71 | the image preview changes exactly when the trimmed value is non-blank and a valid image URL, and it then shows that value |
| AddArtwork.ErrorMessage | kunsthaus-canvas-bids/add-artwork.js:190 | the error message is never empty: the body's `error` when present, otherwise its `msg`, otherwise a message with the status |
| AddArtwork.AddOutcomeFor | kunsthaus-canvas-bids/add-artwork.js:94-243 | a blank title, a missing or sub-1 price, a stored user that fails to parse and a missing token stop the submission in that order; with the manager of `js/auth-manager.js` (its `authenticatedFetch`, lines 171-194) any 401 fails with "Session expired. Please log in again."; "session expired" from the page itself happens exactly on a 401 whose `msg` mentions "expired" with no manager, and with a manager lacking `handleTokenExpiration` that branch is a runtime failure; the artwork is added exactly on an ok reply (not a wrapper 401) whose body parses, and it has the trimmed title and a price of at least 1; other failures carry the reply's or the thrown error's message |
| AddArtwork.HandleAddArtwork | kunsthaus-canvas-bids/add-artwork.js:94-243 | the request is sent exactly when the form passes the checks, the stored user parses and a token is stored, through `SharedAuthManager.AuthManager.AuthenticatedFetch` when the page has that manager; the outcome is AddOutcomeFor's; storage loses the token and the user when the page's own expiry branch runs or the wrapper answers a 401 (which also clears the current user), and is otherwise unchanged |
| AddArtwork.ExpiryClearsSessionOnlyWithoutHandler | kunsthaus-canvas-bids/add-artwork.js:168-186 | an expired-token reply ends the session exactly when the page has no manager or the fetching one; with a manager lacking `handleTokenExpiration` it does not |
| HomeScript.Ticker.constructor | kunsthaus-canvas-bids/script.js:66 | the ticker starts at the first update |
| HomeScript.Ticker.Tick | kunsthaus-canvas-bids/script.js:73-91 | a tick shows the current update and moves to the next one, from the last back to the first; the index stays in range |
| HomeScript.NewHomeTicker | kunsthaus-canvas-bids/script.js:58-66 | the home page's ticker cycles through five updates from the first |
| HomeScript.IndexAfterTicks | kunsthaus-canvas-bids/script.js:91 | the index after any number of ticks is within the update list |
| HomeScript.IndexAfterTicksIsMod | kunsthaus-canvas-bids/script.js:91 | after n ticks the ticker is at update n modulo the list length, so every update is shown in turn |
| HomeScript.HandleBid | kunsthaus-canvas-bids/script.js:271-344 | a visitor without a session is asked to log in; a missing or disabled button does nothing; an empty, non-numeric or non-positive amount is refused; the bid is placed exactly on an ok reply that parses, with the parsed amount; a failure message is never empty |
| HomeScript.WhitespaceBidIsPosted | kunsthaus-canvas-bids/script.js:290-310 | a whitespace-only answer passes the amount check and is posted with no amount |
| HomeScript.HandleLogin | kunsthaus-canvas-bids/script.js:469-501 | an empty email or password is refused; the login succeeds exactly when both are filled, an auth manager exists and it accepts them; a failure message is never empty |
| HomeScript.CheckSignupForm | kunsthaus-canvas-bids/script.js:503-540 | a page without the name, email and password fields is not a sign-up form; otherwise the form is refused exactly when a required field is empty, then when the passwords differ, then when the password is shorter than 8 UTF-16 code units; exactly the remaining forms are posted, with the form's values and the defaults for missing fields |
| HomeScript.MissingOptionalFieldsDefault | kunsthaus-canvas-bids/script.js:522-525 | without a user-type select the account is a collector's; without a confirmation field the passwords never differ |
| HomeScript.BioGroupDisplay | kunsthaus-canvas-bids/script.js:697-710 | the bio field shows exactly for artists and for "both" |
| SiteScript.HeaderUi | kunsthaus-canvas-bids/js/script.js:30-58 | the sign-in buttons show exactly when there is no signed-in user; a signed-in user gets the user menu, the collection link and a non-empty display name (name, else username, else "User"); the add-artwork link shows exactly for a signed-in artist or "both" |
| SiteScript.CollectorLeavesAddArtworkLink | kunsthaus-canvas-bids/js/script.js:47-49 | a signed-in collector's header leaves the add-artwork link as the page had it |
| SiteScript.HandleBid | kunsthaus-canvas-bids/js/script.js:255-268 | without a session the visitor is asked to log in; otherwise the page goes to the auction link whose id is the artwork's id in decimal |
| SiteScript.BidLinksDistinct | kunsthaus-canvas-bids/js/script.js:267 | different artworks lead to different auction links |
| SiteScript.NewSiteTicker | kunsthaus-canvas-bids/js/script.js:61-88 | this page's ticker cycles through three updates from the first |
| Navbar.GetCurrentPage | kunsthaus-canvas-bids/js/enhanced-navbar.js:27-31 | the page name never contains "/"; a last path segment without ".html" is the page name itself |
| Navbar.StripHtmlOfPlainName | kunsthaus-canvas-bids/js/enhanced-navbar.js:30 | removing the first ".html" from "name.html" gives "name" back when the name has no dot |
| Navbar.CurrentPageOfHtmlFile | kunsthaus-canvas-bids/js/enhanced-navbar.js:27-31 | the page at "dir/name.html" is named "name" |
| Navbar.DirectoryIsIndex | kunsthaus-canvas-bids/js/enhanced-navbar.js:29-30 | a location that is empty or ends in "/" is the index page |
| Navbar.ActiveLinks | kunsthaus-canvas-bids/js/enhanced-navbar.js:228-245 | one flag per link, in order, each set exactly when that link names the current page (or "" or "index" on the index page) |
| Navbar.HtmlLinkActiveIff | kunsthaus-canvas-bids/js/enhanced-navbar.js:234-242 | the link "name.html" is active exactly on the page "name", or, for an empty name, on the index page |
| Navbar.OwnLinkActive | kunsthaus-canvas-bids/js/enhanced-navbar.js:234-242 | on "dir/name.html" the link "link.html" is active exactly when link is name (with lines 27-31) |
| Navbar.RootLinksActiveAtRoot | kunsthaus-canvas-bids/js/enhanced-navbar.js:234-242 | at the site's root both "./" and "index.html" are active |
| Navbar.NextFocus | kunsthaus-canvas-bids/js/enhanced-navbar.js:280-294 | the next focus stays in range; ArrowRight moves one forward and wraps from the last to the first, ArrowLeft one back and wraps from the first to the last |
| Navbar.BadgeText | kunsthaus-canvas-bids/js/enhanced-navbar.js:320 | the badge reads "99+" exactly for counts above 99; otherwise it is the count's one or two decimal digits |
| Navbar.BadgeAfter | kunsthaus-canvas-bids/js/enhanced-navbar.js:303-325 | a positive count shows the badge with its text when a badge exists or a user menu can take a new one, and otherwise leaves none; a count of 0 or less hides an existing badge and keeps its text; a visible badge means a positive count |
| Navbar.ChromeFor | kunsthaus-canvas-bids/js/enhanced-navbar.js:76-106 | the button's aria-expanded is the menu state; the icon is "x" and the page scroll is locked exactly when the menu is open |
| Navbar.EnhancedNavbar.constructor | kunsthaus-canvas-bids/js/enhanced-navbar.js:9-15 | the menu and search start closed, the current page comes from the location, the count is 0 and any badge is hidden (with lines 297-301) |
| Navbar.EnhancedNavbar.ToggleMobileMenu | kunsthaus-canvas-bids/js/enhanced-navbar.js:67-90 | the menu state flips and the button shows the new state; nothing else changes |
| Navbar.EnhancedNavbar.CloseMobileMenu | kunsthaus-canvas-bids/js/enhanced-navbar.js:92-111 | the menu ends closed; a closed menu is left untouched; an open one gets the closed button; a button in sync stays in sync |
| Navbar.EnhancedNavbar.ToggleMobileSearch | kunsthaus-canvas-bids/js/enhanced-navbar.js:126-141 | the search expansion flips; nothing else changes |
| Navbar.EnhancedNavbar.UpdateNotificationBadge | kunsthaus-canvas-bids/js/enhanced-navbar.js:303-325 | the count is recorded and the badge becomes BadgeAfter of the old one; a count of 0 or less never leaves a visible badge |
| Navbar.EnhancedNavbar.SetActiveNavItem | kunsthaus-canvas-bids/js/enhanced-navbar.js:334-337 | the current page becomes the given one and the links are marked for it; nothing else changes |
| BackendStore.FirstIndex | backend/app.py:69-72 | a lookup by a key: the index found holds the first row matching the filter, and none is found only when no row matches; used where at most one row can match or only existence matters |
| BackendStore.UserIndex | backend/app.py:350 | `User.query.get(id)`: the row found has that id, and none is found only when no row has it; with ids 1..n in order, a user exists exactly for ids 1..n, at position id - 1 (with lines 150, 189, 265) |
| BackendStore.RegisterRejection | backend/app.py:63-73 | a registration is accepted exactly when username, email and password are all non-empty, the password has at least 8 code points (Python `len`), and neither the username nor the email is taken; each error is given exactly in its turn |
| BackendStore.LoginMatch | backend/app.py:119-121 | `.first()` of the login query, with no `ORDER BY`: in the order the database returns the rows, the user selected is the first whose username or email equals the name; none is selected only when no listed row has it |
| BackendStore.SoleMatchSelected | backend/app.py:119-121 | when only one row matches the name, every row order selects it |
| BackendStore.LoginMatchReadsNames | backend/app.py:119-121 | the selection depends only on the rows' usernames and emails, so changing a password does not change which row a name selects |
| BackendStore.LoginResult | backend/app.py:111-124 | a missing username or password is a 400; in any row order, the login succeeds exactly when the user selected for the name has a hash that checks against the password, and returns that user; a name no user has is a 401, as is every other failure |
| BackendStore.RegisteredUserLogsIn | backend/app.py:58-124 | with a sound hasher and in any row order, a user just registered logs in with the same username and password, unless the username is an older account's email |
| BackendStore.UsernameShadowedByOlderEmail | backend/app.py:119-124 | a username equal to an older account's email is accepted at registration (lines 69-73); logging in with it then depends on the row order: in id order the older account is selected and the login fails, in the reverse order it succeeds |
| BackendStore.PasswordChangeRejection | backend/app.py:263-279 | an unknown user is a 404; a change is accepted exactly for a known user, both passwords given, the current one checking against the stored hash, and a new one of at least 8 characters; a wrong current password is its own 400 |
| BackendStore.NewPasswordReplacesOld | backend/app.py:258-285 | in any row order in which the user's username selects that user, after a change the new password logs in and a different old password no longer does (with lines 119-124) |
| BackendStore.UpdatedProfile | backend/app.py:201-211 | each profile field given in the request replaces the stored one; the others, the id, the owner and the featured flag are kept |
| BackendStore.ArtworkRejection | backend/app.py:350-365 | an unknown user is a 404, a non-artist a 403, a missing title a 400 and a missing or non-positive price a 400, each exactly in its turn; an artwork is accepted exactly when none applies |
| BackendStore.Database.constructor | backend/app.py:25-55 | the database starts empty with the given password hasher |
| BackendStore.Database.Register | backend/app.py:58-109 | a rejected registration is a 400 with the rejection and changes nothing; an accepted one appends the new user, with an artist profile when the user is an artist, and answers 201 with that user; artworks are untouched; the ids stay consecutive |
| BackendStore.Database.ChangePassword | backend/app.py:258-289 | a rejection is answered with its status and message and changes nothing; otherwise only that user's hash is replaced by the new password's; profiles and artworks are untouched |
| BackendStore.Database.UpdateProfile | backend/app.py:182-220 | an unknown user is a 404 and an email taken by another user a 400, both changing nothing; otherwise the email is replaced when given and an artist's profile becomes UpdatedProfile; artworks are untouched |
| BackendStore.Database.CreateArtwork | backend/app.py:345-409 | a rejection changes nothing; otherwise an artist without a profile gets a default one, the artwork is appended under the user's profile and answered with 201 and the profile's name; users are untouched |
| BackendQueries.ArtistName | backend/app.py:467-472 | no artist id (or id 0) gives "Unknown Artist"; otherwise the name of the first profile with that id, or "Unknown Artist" when there is none (with lines 536-540) |
| BackendQueries.ListedArtistIsProfile | backend/app.py:379-388 | for a well-formed database the name listed with an artwork is its profile's name (with lines 467-472) |
| BackendQueries.AuctionOf | backend/app.py:474-492 | an auction has the artwork's id and title, the price as starting bid, a current bid 100 times the id above it, twice the id as bid count, status "live" and the artwork's artist name |
| BackendQueries.GetAuctions | backend/app.py:459-505 | the listing succeeds exactly when every artwork has a price, with one auction per artwork in order, page 1 of 12 per page, the total count, and one page exactly when there are auctions; a null price is a 500 |
| BackendQueries.ArtworkRows | backend/app.py:520-524 | at most 12 artworks, each matching the query in its title or description; below 12 every matching artwork is there |
| BackendQueries.ArtistRows | backend/app.py:527-531 | at most 12 profiles, each matching in its name, bio or specialty; below 12 every matching profile is there |
| BackendQueries.FormatArtworks | backend/app.py:534-551 | one result per artwork row, in order, each the row's search entry |
| BackendQueries.FormatArtists | backend/app.py:554-565 | one result per profile row, in order, each with its artwork count |
| BackendQueries.Search | backend/app.py:508-575 | a blank query (after strip) is answered with exactly the "Please provide a search query" message; otherwise the stripped query, the matching rows formatted, at most 12 of each, and a total that is the sum of both counts |
| BackendQueries.ServeStatic | backend/app.py:720-726 | the view would send a file with a listed extension itself and index.html for anything else; what it would send always has a listed extension (the view is shadowed by the static rule, see ServePath) |
| BackendQueries.NotFound | backend/app.py:729-735 | an /api/ path gets the JSON 404 exactly when it starts with /api/; every other path gets index.html |
| BackendQueries.ServePath | backend/app.py:714-735 | with `static_url_path=''` (line 10) Flask's static rule claims every non-root path before `serve_static` (line 720): `/` gets index.html, a file the folder has is sent whatever its extension, and a missing one falls to the 404 handler, so the JSON 404 happens exactly for a missing path under /api/; anything sent is index.html or a file that exists |
| BackendQueries.MissingApiPathGetsJson404 | backend/app.py:729-735 | a missing path under /api/ gets the JSON 404, with or without an extension |
| BackendQueries.ShadowedViewDiffersOnApiPaths | backend/app.py:720-735 | for a missing /api/ path without an extension the shadowed view would send index.html, while the request gets the JSON 404 |

## Left out

### Not modelled

- **Page rendering.** Template strings, `innerHTML`, styles, Lucide icons, notifications, modal animations, scroll and parallax effects are not modelled; only the visibility of the elements the logic decides is.
- **Timers.** Automatic refreshes (`setInterval`), delayed redirects (`setTimeout`) and the search debounce are not modelled; each handler is modelled as one run to completion, with no interleaving between a manual and a periodic refresh.
- **Randomness.** The `Math.random` watcher counts and the sample bid histories are not modelled.
- **Dates and locale.** Dates are integer milliseconds, and date parsing is left out: a bid time enters as the elapsed milliseconds, None when the date does not parse. `toLocaleString` and `toLocaleDateString` are parameters, with no assumptions about them.
- **Number parsing.** `parseFloat`, `parseInt` and `Number` enter as already-parsed `Option<real>` values (None for NaN); floating-point rounding is not modelled.
- **JSON and hashing.** `JSON.parse`/`JSON.stringify` and the back end's password hashing are abstract function values. The round trip and the soundness of the hash are hypotheses of the lemmas that need them. JWT creation and checking are left out: the back end receives the authenticated user id as an argument.
- **Malformed request bodies.** Request bodies that are not JSON objects, or whose fields have the wrong types, are not modelled.
- **Server failures.** Commit failures, rollbacks and the catch-all 500 answers are not modelled; the one 500 the model keeps is a null price in the auction listing.
- **Case folding.** Lower-casing covers ASCII letters only, with no Unicode case folding. SQL `LIKE` is an ASCII case-insensitive substring test, and its `%` and `_` wildcards inside the query are not modelled.
- **Back-end routes outside this core.** The user profile read, the user's artworks, the artwork and artist listings, statistics, health, the sample data generator and the 500 handler are not part of this model.
- **Static files.** The front end's folder is taken to hold `index.html`; Werkzeug's path-safety checks are folded into the `onDisk` parameter (a path they refuse is not on disk).
- **Client calls to missing routes.** The client's bid requests go to `/api/bids/...` routes the back end does not define. Their replies are inputs, with no server semantics.
- **Search term highlighting.** The marked-up text `highlightSearchTerm` in `search.js` produces is not modelled, and which patterns JavaScript's regular expressions accept is a parameter (`compiles`). Only whether highlighting throws is modelled.
- **Stray code in `search.js`.** The object-literal fragment at the top of `search.js` (lines 5-64), and its first `searchResults` declaration, do not parse and are not part of this model.
- **`script.js` does not parse as written.** Its last statement is split across two lines by a stray comment. The functions before it are modelled as written.
- **Navbar.** The user dropdown, scroll behaviour, `showNotification` and `refreshNavbar` are not modelled. The notification count is an `int`, as JavaScript numbers are.
- **Other files.** The theme, UI-enhancement, console-info and auth-status scripts, the database viewer and test scripts, `backend/run.py` and `backend/seed.py` are not part of this model.
- **Listener callbacks.** A listener is its identity and whether it throws. The effects of a listener are not modelled; the fan-out records who was called, with what, and in what order.

### Weaker or partial contracts

- MyCollection.Arranged: `localeCompare` on titles is modelled as comparing a real-valued collation key of each title. That assumes the locale order is a total preorder given by such a key; ties keep no particular order.
- SearchPage.Sorted: the sort is not proved stable. The "popular" sort compares artworks by a `works` field the search reply does not have, which makes every comparison NaN; the model keeps the artworks in their order.
- Common.SortBy: `Array.prototype.sort` is modelled as an insertion sort by a numeric key. Its result is sorted and a permutation, but equal keys are not proved to keep their order.
- AddArtwork.AddOutcomeFor: the parser's own message when the stored user does not parse, and the message of the TypeError raised by calling the missing `handleTokenExpiration`, are not modelled; both are reported as a runtime failure.
- AuthForms.LoginRateLimiter.SubmitLogin: storing the returned user and the redirect after a successful login are not modelled; only the rate limiter and the outcome are.
- HomeScript.HandleBid: a success reply whose body fails to parse shows the parser's own message. That message is not modelled.
- SessionAuthManager.AuthManager.CheckAuthState: modelled as one whole call of `checkAuthState`. The remainder of the check the constructor starts is not a separate member: running `CheckAuthState` after the constructor repeats the quick restore, whose notices in the source went to the empty listener list of construction time.
