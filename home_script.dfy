/**
 * The home page script `script.js`: the live-auction ticker, the bid button,
 * and the login and sign-up modals' checks.  The sign-up check and the ticker
 * are the same in `js/script.js`, which uses them from here.
 */
module HomeScript {
  import opened Common
  import opened AuthCommon
  import Strings

  /**
   * The ticker's closure: an index into a fixed list of `size` updates,
   * shown and then advanced every tick.
   */
  class Ticker {
    const size: nat
    var currentIndex: nat

    ghost predicate Valid()
      reads this
    {
      currentIndex < size
    }

    constructor(n: nat)
      requires n > 0
      ensures size == n && currentIndex == 0 && Valid()
    {
      size := n;
      currentIndex := 0;
    }

    /** `updateTicker`: shows the update at the current index, then moves on, wrapping around. */
    method Tick() returns (shown: nat)
      requires Valid()
      modifies this
      ensures Valid()
      ensures shown == old(currentIndex) && shown < size
      ensures currentIndex == (old(currentIndex) + 1) % size
      ensures old(currentIndex) + 1 < size ==> currentIndex == old(currentIndex) + 1
      ensures old(currentIndex) + 1 == size ==> currentIndex == 0
    {
      shown := currentIndex;
      currentIndex := (currentIndex + 1) % size;
    }
  }

  /** The number of updates the home page's ticker cycles through. */
  const HomeTickerSize := 5

  /** The home page's ticker: five updates, starting from the first. */
  method NewHomeTicker() returns (t: Ticker)
    ensures fresh(t) && t.size == HomeTickerSize && t.currentIndex == 0 && t.Valid()
  {
    t := new Ticker(HomeTickerSize);
  }

  /** The index after `n` ticks from the start, tick by tick. */
  function IndexAfterTicks(n: nat, size: nat): (r: nat)
    requires size > 0
    ensures r < size
  {
    if n == 0 then 0 else (IndexAfterTicks(n - 1, size) + 1) % size
  }

  /** After `n` ticks the ticker shows update `n mod size`: it cycles through all of them in order. */
  lemma {:induction false} IndexAfterTicksIsMod(n: nat, size: nat)
    requires size > 0
    ensures IndexAfterTicks(n, size) == n % size
  {
    if n > 0 {
      IndexAfterTicksIsMod(n - 1, size);
      var q, m := (n - 1) / size, (n - 1) % size;
      assert n - 1 == q * size + m;
      assert IndexAfterTicks(n, size) == (m + 1) % size;
      if m + 1 < size {
        ModUnique(m + 1, size, 0, m + 1);
        ModUnique(n, size, q, m + 1);
      } else {
        ModUnique(size, size, 1, 0);
        assert n == (q + 1) * size;
        ModUnique(n, size, q + 1, 0);
      }
    }
  }

  /** What `prompt('Enter your bid amount:')` returned, with `Number(text)` and `parseFloat(text)` (None for NaN). */
  datatype BidPrompt =
    | Cancelled
    | Entered(text: string, number: Option<real>, parsed: Option<real>)

  /** `!bidAmount || isNaN(bidAmount) || parseFloat(bidAmount) <= 0`; a NaN `parseFloat` is not `<= 0`. */
  predicate RejectedAmount(p: BidPrompt)
  {
    p.Cancelled? || p.text == [] || p.number.None? || (p.parsed.Some? && p.parsed.value <= 0.0)
  }

  /** What `/api/bids/` yields: a thrown error, or a response (`error` from a body that may not parse). */
  datatype BidReply = BidThrew(message: string) | BidAnswered(ok: bool, error: Option<string>, parsed: bool)

  /**
   * What `handleBid` ends in.  `BidRuntimeFailure` is a success reply whose body
   * does not parse: the parser's own error message is shown, which the model leaves out.
   */
  datatype BidOutcome =
    | PleaseLogin
    | NoBidButton
    | InvalidBid
    | BidPlaced(amount: Option<real>)
    | BidFailed(message: string)
    | BidRuntimeFailure

  /**
   * `handleBid(artworkId)`: `signedIn` is `window.authManager` existing and
   * reporting a session, `buttonUsable` the bid button being found and enabled.
   * The amount posted is `parseFloat` of the text (`None` is sent as `null`).
   */
  function HandleBid(signedIn: bool, buttonUsable: bool, prompt: BidPrompt, reply: BidReply): (r: BidOutcome)
    ensures !signedIn <==> r == PleaseLogin
    ensures signedIn && !buttonUsable ==> r == NoBidButton
    ensures r == InvalidBid <==> signedIn && buttonUsable && RejectedAmount(prompt)
    ensures r.BidPlaced? <==> signedIn && buttonUsable && !RejectedAmount(prompt) && reply.BidAnswered? && reply.ok && reply.parsed
    ensures r.BidPlaced? ==> r.amount == prompt.parsed && (r.amount.Some? ==> r.amount.value > 0.0)
    ensures r.BidFailed? ==> r.message != []
    ensures signedIn && buttonUsable && prompt.Entered? && prompt.parsed.Some? && prompt.parsed.value <= 0.0 ==> r == InvalidBid
  {
    if !signedIn then PleaseLogin
    else if !buttonUsable then NoBidButton
    else if RejectedAmount(prompt) then InvalidBid
    else match reply
      case BidThrew(message) =>
        BidFailed(if message == [] then "Failed to place bid" else message)
      case BidAnswered(ok, error, parsed) =>
        if !ok then BidFailed(OrElse(error, "Failed to place bid"))
        else if !parsed then BidRuntimeFailure
        else BidPlaced(prompt.parsed)
  }

  /**
   * A whitespace-only answer gets through: `Number(" ")` is 0, not NaN, and
   * `parseFloat(" ")` is NaN, which is not `<= 0`; the bid is posted with no amount.
   */
  lemma WhitespaceBidIsPosted()
    ensures HandleBid(true, true, Entered(" ", Some(0.0), None), BidAnswered(true, None, true)) == BidPlaced(None)
  {
  }

  datatype LoginOutcome = FieldsMissing | NoAuthSystem | Welcome | LoginFailed(message: string)

  /**
   * `handleLogin`: both fields are required; `hasAuthManager` says whether
   * `window.authManager` exists, `loginError` what its `login` rejected with (None on success).
   */
  function HandleLogin(email: string, password: string, hasAuthManager: bool, loginError: Option<string>): (r: LoginOutcome)
    ensures r == FieldsMissing <==> email == [] || password == []
    ensures r == Welcome <==> email != [] && password != [] && hasAuthManager && loginError.None?
    ensures r.LoginFailed? ==> r.message != [] && hasAuthManager
  {
    if email == [] || password == [] then FieldsMissing
    else if !hasAuthManager then NoAuthSystem
    else if loginError.None? then Welcome
    else LoginFailed(OrElse(loginError, "Login failed"))
  }

  /** The sign-up form's elements: `None` for an element the page does not have. */
  datatype SignupFields = SignupFields(
    name: Option<string>, email: Option<string>, userType: Option<string>,
    bio: Option<string>, password: Option<string>, confirm: Option<string>)

  /** The JSON body posted to `/api/auth/signup`. */
  datatype SignupBody = SignupBody(name: string, email: string, password: string, userType: string, bio: string)

  datatype SignupCheck =
    | NotSignupForm
    | RequiredFieldsMissing
    | PasswordsDiffer
    | PasswordTooShort
    | SignupReady(body: SignupBody)

  /** The user type read from the form: "collector" when the select is missing. */
  function UserTypeOf(f: SignupFields): string
  {
    if f.userType.Some? then f.userType.value else "collector"
  }

  /** The confirmation read from the form: the password itself when the field is missing. */
  function ConfirmOf(f: SignupFields): string
    requires f.password.Some?
  {
    if f.confirm.Some? then f.confirm.value else f.password.value
  }

  predicate HasFormElements(f: SignupFields)
  {
    f.name.Some? && f.email.Some? && f.password.Some?
  }

  predicate FieldsFilled(f: SignupFields)
    requires HasFormElements(f)
  {
    f.name.value != [] && f.email.value != [] && f.password.value != [] &&
    ConfirmOf(f) != [] && UserTypeOf(f) != []
  }

  /** `handleSignup`'s checks, in order: the form's elements, required fields, matching passwords, length. */
  function CheckSignupForm(f: SignupFields): (r: SignupCheck)
    ensures !HasFormElements(f) <==> r == NotSignupForm
    ensures HasFormElements(f) ==> (r == RequiredFieldsMissing <==> !FieldsFilled(f))
    ensures r == PasswordsDiffer ==> f.password.value != ConfirmOf(f) && f.confirm.Some?
    ensures r == PasswordTooShort ==> f.password.value == ConfirmOf(f) && Strings.Utf16Length(f.password.value) < 8
    ensures r.SignupReady? <==>
      HasFormElements(f) && FieldsFilled(f) && f.password.value == ConfirmOf(f) && Strings.Utf16Length(f.password.value) >= 8
    ensures r.SignupReady? ==>
      r.body == SignupBody(f.name.value, f.email.value, f.password.value, UserTypeOf(f),
                           if f.bio.Some? then f.bio.value else "")
  {
    if !HasFormElements(f) then NotSignupForm
    else if !FieldsFilled(f) then RequiredFieldsMissing
    else if f.password.value != ConfirmOf(f) then PasswordsDiffer
    else if Strings.Utf16Length(f.password.value) < 8 then PasswordTooShort
    else SignupReady(SignupBody(f.name.value, f.email.value, f.password.value, UserTypeOf(f),
                                if f.bio.Some? then f.bio.value else ""))
  }

  /** Without a user-type select the account is a collector's; without a confirmation field it never mismatches. */
  lemma MissingOptionalFieldsDefault(f: SignupFields)
    requires HasFormElements(f) && f.userType.None? && f.confirm.None?
    ensures CheckSignupForm(f) != PasswordsDiffer
    ensures CheckSignupForm(f).SignupReady? ==> CheckSignupForm(f).body.userType == "collector"
  {
  }

  /** `initUserTypeHandling`: the bio field is shown for artists and for "both", hidden otherwise. */
  function BioGroupDisplay(userType: string): (d: Display)
    ensures d == Shown <==> userType == "artist" || userType == "both"
    ensures d != Untouched
  {
    if userType == "artist" || userType == "both" then Shown else Hidden
  }
}
