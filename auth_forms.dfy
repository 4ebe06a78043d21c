/**
 * The sign-in and sign-up forms of `auth.js`: the e-mail pattern, the ordered
 * password rules, the login rate limiter with its two module-level variables,
 * the login form's checks, and the registration request built from the sign-up
 * form.
 */
module AuthForms {
  import opened Common
  import opened Strings
  import opened PasswordStrength

  // ---------------------------------------------------------------- e-mail

  /** A character of the class `[^\s@]`. */
  predicate EmailChar(c: char)
  {
    !IsJsWhitespace(c) && c != '@'
  }

  predicate AllEmailChars(s: string)
  {
    forall i :: 0 <= i < |s| ==> EmailChar(s[i])
  }

  /** `D` has a dot that is neither its first nor its last character. */
  predicate HasInnerDot(d: string)
  {
    exists j :: 0 < j < |d| - 1 && d[j] == '.'
  }

  /** `isValidEmail`, decided by locating the `@`. */
  predicate IsValidEmail(email: string)
  {
    match IndexOf(email, "@")
    case None => false
    case Some(at) => at > 0 && AllEmailChars(email[..at]) &&
                     AllEmailChars(email[at + 1..]) && HasInnerDot(email[at + 1..])
  }

  function Address(local: string, host: string, top: string): string
  {
    local + "@" + host + "." + top
  }

  /** The language of `^[^\s@]+@[^\s@]+\.[^\s@]+$`. */
  ghost predicate MatchesEmailPattern(email: string)
  {
    exists local, host, top :: email == Address(local, host, top) &&
      local != [] && host != [] && top != [] &&
      AllEmailChars(local) && AllEmailChars(host) && AllEmailChars(top)
  }

  /** Every string the scan accepts matches the regular expression. */
  lemma EmailScanSound(email: string)
    requires IsValidEmail(email)
    ensures MatchesEmailPattern(email)
  {
    var at := IndexOf(email, "@").value;
    var local, d := email[..at], email[at + 1..];
    assert email == local + "@" + d by {
      assert email[at..at + 1] == "@";
    }
    var j :| 0 < j < |d| - 1 && d[j] == '.';
    var host, top := d[..j], d[j + 1..];
    assert d == host + "." + top;
    assert AllEmailChars(host) && AllEmailChars(top) by {
      forall i | 0 <= i < |host| ensures EmailChar(host[i]) {
        assert host[i] == d[i];
      }
      forall i | 0 <= i < |top| ensures EmailChar(top[i]) {
        assert top[i] == d[j + 1 + i];
      }
    }
    PatternWitness(email, local, host, top);
  }

  /** A split of `email` into three non-empty parts of `[^\s@]` shows that it matches. */
  lemma PatternWitness(email: string, local: string, host: string, top: string)
    requires email == local + "@" + (host + "." + top)
    requires local != [] && host != [] && top != []
    requires AllEmailChars(local) && AllEmailChars(host) && AllEmailChars(top)
    ensures MatchesEmailPattern(email)
  {
    assert email == Address(local, host, top);
  }

  /** The domain part of a matching string, seen as one piece. */
  lemma DomainPart(host: string, top: string)
    requires host != [] && top != [] && AllEmailChars(host) && AllEmailChars(top)
    ensures AllEmailChars(host + "." + top) && HasInnerDot(host + "." + top)
  {
    var d := host + "." + top;
    assert d[|host|] == '.';
    forall i | 0 <= i < |d| ensures EmailChar(d[i]) {
      if i < |host| {
        assert d[i] == host[i];
      } else if i > |host| {
        assert d[i] == top[i - |host| - 1];
      }
    }
  }

  /** The first `@` of `local + "@" + rest` follows `local` when `local` has none. */
  lemma FirstAt(email: string, local: string, rest: string)
    requires email == local + "@" + rest && AllEmailChars(local)
    ensures IndexOf(email, "@") == Some(|local|)
  {
    assert email[|local|..|local| + 1] == "@";
    assert OccursAt(email, "@", |local|);
    forall j | 0 <= j < |local| ensures !OccursAt(email, "@", j) {
      assert email[j] == local[j];
    }
    var r := IndexOf(email, "@");
    assert r.Some? && r.value <= |local|;
  }

  /** Every string the regular expression matches is accepted by the scan. */
  lemma EmailScanComplete(email: string)
    requires MatchesEmailPattern(email)
    ensures IsValidEmail(email)
  {
    var local, host, top :| email == Address(local, host, top) &&
      local != [] && host != [] && top != [] &&
      AllEmailChars(local) && AllEmailChars(host) && AllEmailChars(top);
    var at := |local|;
    var d := host + "." + top;
    assert email == local + "@" + d;
    assert email[..at] == local && email[at + 1..] == d;
    FirstAt(email, local, d);
    DomainPart(host, top);
  }

  /** The scan accepts exactly the strings the regular expression matches. */
  lemma IsValidEmailIff(email: string)
    ensures IsValidEmail(email) <==> MatchesEmailPattern(email)
  {
    if IsValidEmail(email) {
      EmailScanSound(email);
    }
    if MatchesEmailPattern(email) {
      EmailScanComplete(email);
    }
  }

  // -------------------------------------------------------------- passwords

  /** The result of `validatePassword`: the first failing rule, or success. */
  datatype PasswordCheck = TooShort | NoUppercase | NoLowercase | NoNumber | NoSpecial | PasswordOk

  const SpecialChars := "!@#$%^&*(),.?\":{}|<>"

  function CheckMessage(v: PasswordCheck): string
  {
    match v
    case TooShort => "Password must be at least 8 characters long"
    case NoUppercase => "Password must contain at least one uppercase letter"
    case NoLowercase => "Password must contain at least one lowercase letter"
    case NoNumber => "Password must contain at least one number"
    case NoSpecial => "Password must contain at least one special character"
    case PasswordOk => "Password is strong"
  }

  /** The position of a rule in the order `validatePassword` checks them. */
  function CheckRank(v: PasswordCheck): nat
  {
    match v
    case TooShort => 0
    case NoUppercase => 1
    case NoLowercase => 2
    case NoNumber => 3
    case NoSpecial => 4
    case PasswordOk => 5
  }

  /** Whether `password` breaks the rule that `v` reports. */
  predicate Breaks(password: string, v: PasswordCheck)
  {
    match v
    case TooShort => Utf16Length(password) < 8
    case NoUppercase => !Satisfies(password, HasUpper)
    case NoLowercase => !Satisfies(password, HasLower)
    case NoNumber => !Satisfies(password, HasDigit)
    case NoSpecial => !exists i :: 0 <= i < |password| && password[i] in SpecialChars
    case PasswordOk => false
  }

  /** `validatePassword`: valid iff no rule is broken; otherwise the first broken rule. */
  function ValidatePassword(password: string): (v: PasswordCheck)
    ensures v == PasswordOk ==> forall w :: !Breaks(password, w)
    ensures v != PasswordOk ==> Breaks(password, v)
    ensures forall w :: CheckRank(w) < CheckRank(v) ==> !Breaks(password, w)
  {
    if Utf16Length(password) < 8 then TooShort
    else if !Satisfies(password, HasUpper) then NoUppercase
    else if !Satisfies(password, HasLower) then NoLowercase
    else if !Satisfies(password, HasDigit) then NoNumber
    else if !exists i :: 0 <= i < |password| && password[i] in SpecialChars then NoSpecial
    else PasswordOk
  }

  /** Every character of the special set is non-alphanumeric. */
  lemma SpecialCharsAreSymbols(c: char)
    requires c in SpecialChars
    ensures !IsAlphanumericAscii(c)
  {
    var k :| 0 <= k < |SpecialChars| && SpecialChars[k] == c;
    assert SpecialChars == ['!', '@', '#', '$', '%', '^', '&', '*', '(', ')', ',', '.', '?', '"', ':', '{', '}', '|', '<', '>'];
  }

  /** A password `validatePassword` accepts meets every criterion of the meter. */
  lemma ValidPasswordScoresFive(password: string)
    requires ValidatePassword(password) == PasswordOk
    ensures CalculatePasswordStrength(password).score == 5
  {
    assert !Breaks(password, NoSpecial);
    var i :| 0 <= i < |password| && password[i] in SpecialChars;
    SpecialCharsAreSymbols(password[i]);
    assert Satisfies(password, HasSymbol);
    forall c: Criterion ensures Satisfies(password, c) {
      match c
      case MinLength => assert !Breaks(password, TooShort);
      case HasLower => assert !Breaks(password, NoLowercase);
      case HasUpper => assert !Breaks(password, NoUppercase);
      case HasDigit => assert !Breaks(password, NoNumber);
      case HasSymbol =>
    }
  }

  /**
   * The meter counts any non-alphanumeric character as special, the rules only
   * the listed ones: a space as the only symbol scores 5 and is still refused.
   */
  lemma SpaceScoresFiveButIsRefused()
    ensures CalculatePasswordStrength("Abcdefg1 ").score == 5
    ensures ValidatePassword("Abcdefg1 ") == NoSpecial
  {
    var p := "Abcdefg1 ";
    MeetsEveryCriterion(p);
    forall i | 0 <= i < |p|
      ensures IsAlphanumericAscii(p[i]) || p[i] == ' '
    {
    }
    NoListedSymbolIn(p);
  }

  /** "Abcdefg1 " has eight characters or more, a lower-case and an upper-case letter, a digit and a symbol. */
  lemma MeetsEveryCriterion(p: string)
    requires p == "Abcdefg1 "
    ensures forall c :: Satisfies(p, c)
  {
    forall c: Criterion ensures Satisfies(p, c) {
      match c
      case MinLength =>
      case HasLower => assert IsLowerAscii(p[1]);
      case HasUpper => assert IsUpperAscii(p[0]);
      case HasDigit => assert IsDigit(p[7]);
      case HasSymbol => assert !IsAlphanumericAscii(p[8]);
    }
  }

  /** A password of letters, digits and spaces has none of the listed special characters. */
  lemma NoListedSymbolIn(p: string)
    requires forall i :: 0 <= i < |p| ==> IsAlphanumericAscii(p[i]) || p[i] == ' '
    ensures !exists i :: 0 <= i < |p| && p[i] in SpecialChars
  {
    forall i | 0 <= i < |p| ensures p[i] !in SpecialChars {
      if p[i] == ' ' {
        assert SpecialChars == ['!', '@', '#', '$', '%', '^', '&', '*', '(', ')', ',', '.', '?', '"', ':', '{', '}', '|', '<', '>'];
      } else if p[i] in SpecialChars {
        SpecialCharsAreSymbols(p[i]);
      }
    }
  }

  // ----------------------------------------------------------- rate limiter

  const MaxLoginAttempts := 5
  /** Fifteen minutes, in milliseconds. */
  const LockoutDuration := 15 * 60 * 1000
  const MinuteMs := 60000

  /** `Math.ceil(ms / 60000)`. */
  function CeilMinutes(ms: int): (r: int)
    ensures (r - 1) * MinuteMs < ms <= r * MinuteMs
  {
    if ms % MinuteMs == 0 then ms / MinuteMs else ms / MinuteMs + 1
  }

  /** Within the lockout window the message names between 0 and 15 minutes. */
  lemma LockoutMinutesBounded(elapsed: int)
    requires 0 <= elapsed <= LockoutDuration
    ensures 0 <= CeilMinutes(LockoutDuration - elapsed) <= 15
  {
  }

  /** What `checkRateLimit` does: returns, or throws naming the minutes left. */
  datatype RateCheck = Allowed | Locked(remainingMinutes: int)

  /** How the login form's request ended. */
  datatype LoginReply = NetworkFailure(message: string) | Answered(ok: bool, error: Option<string>)

  datatype LoginFormOutcome =
    | MissingFields
    | InvalidEmail
    | TooManyAttempts(minutes: int)
    | LoginRejected(message: string)
    | SignedIn

  /** The module-level `loginAttempts` and `lastLoginAttempt` of the sign-in page. */
  class LoginRateLimiter {
    var loginAttempts: nat
    var lastLoginAttempt: int

    constructor()
      ensures loginAttempts == 0 && lastLoginAttempt == 0
    {
      loginAttempts := 0;
      lastLoginAttempt := 0;
    }

    /** The failure count `checkRateLimit` goes on at time `now`: zero once the lockout has passed. */
    function AttemptsAt(now: int): nat
      reads this
    {
      if now - lastLoginAttempt > LockoutDuration then 0 else loginAttempts
    }

    /**
     * `checkRateLimit` at time `now`: the counter is reset once the lockout has
     * passed since the last failure; five or more failures lock the form.
     */
    method CheckRateLimit(now: int) returns (r: RateCheck)
      modifies this
      ensures lastLoginAttempt == old(lastLoginAttempt)
      ensures loginAttempts == old(AttemptsAt(now))
      ensures r.Locked? <==> loginAttempts >= MaxLoginAttempts
      ensures r.Locked? ==> r.remainingMinutes == CeilMinutes(LockoutDuration - (now - lastLoginAttempt))
      ensures r.Locked? && now >= lastLoginAttempt ==> 0 <= r.remainingMinutes <= 15
    {
      if now - lastLoginAttempt > LockoutDuration {
        loginAttempts := 0;
      }
      if loginAttempts >= MaxLoginAttempts {
        if now >= lastLoginAttempt {
          LockoutMinutesBounded(now - lastLoginAttempt);
        }
        return Locked(CeilMinutes(LockoutDuration - (now - lastLoginAttempt)));
      }
      return Allowed;
    }

    /** `recordLoginAttempt(success)` at time `now`. */
    method RecordLoginAttempt(success: bool, now: int)
      modifies this
      ensures success ==> loginAttempts == 0 && lastLoginAttempt == old(lastLoginAttempt)
      ensures !success ==> loginAttempts == old(loginAttempts) + 1 && lastLoginAttempt == now
    {
      if success {
        loginAttempts := 0;
      } else {
        loginAttempts := loginAttempts + 1;
        lastLoginAttempt := now;
      }
    }

    /**
     * `handleLoginSubmit`: the fields are checked, then the rate limit at `now`;
     * only then is the request made, whose answer is recorded at `later`.  A
     * request that never gets an answer records nothing.
     */
    method SubmitLogin(rawEmail: string, password: string, now: int, reply: LoginReply, later: int)
      returns (outcome: LoginFormOutcome, requested: bool)
      modifies this
      ensures var email := ToLower(JsTrim(rawEmail));
        (email == [] || password == [] ==> outcome == MissingFields && !requested) &&
        (email != [] && password != [] && !IsValidEmail(email) ==> outcome == InvalidEmail && !requested)
      ensures outcome.MissingFields? || outcome.InvalidEmail? ==> unchanged(this)
      ensures outcome.TooManyAttempts? ==> !requested && lastLoginAttempt == old(lastLoginAttempt)
      ensures requested <==> !(outcome.MissingFields? || outcome.InvalidEmail? || outcome.TooManyAttempts?)
      ensures requested && reply.Answered? && reply.ok ==> outcome == SignedIn && loginAttempts == 0
      ensures requested && reply.Answered? && !reply.ok ==>
        outcome == LoginRejected(OrElse(reply.error, "Login failed")) &&
        loginAttempts >= 1 && lastLoginAttempt == later
      ensures requested && reply.NetworkFailure? ==>
        outcome == LoginRejected(if reply.message == "" then "Login error" else reply.message)
      // once the form is filled in correctly, the counter decides the lock-out
      ensures var email := ToLower(JsTrim(rawEmail));
        email != [] && password != [] && IsValidEmail(email) ==>
          (outcome.TooManyAttempts? <==> old(AttemptsAt(now)) >= MaxLoginAttempts) &&
          (outcome.TooManyAttempts? ==>
             outcome.minutes == CeilMinutes(LockoutDuration - (now - old(lastLoginAttempt))) &&
             loginAttempts == old(AttemptsAt(now)))
      ensures requested && reply.Answered? && !reply.ok ==> loginAttempts == old(AttemptsAt(now)) + 1
      ensures requested && reply.NetworkFailure? ==>
        loginAttempts == old(AttemptsAt(now)) && lastLoginAttempt == old(lastLoginAttempt)
    {
      var email := ToLower(JsTrim(rawEmail));
      if email == [] || password == [] {
        return MissingFields, false;
      }
      if !IsValidEmail(email) {
        return InvalidEmail, false;
      }
      var check := CheckRateLimit(now);
      if check.Locked? {
        return TooManyAttempts(check.remainingMinutes), false;
      }
      requested := true;
      match reply {
        case NetworkFailure(message) =>
          outcome := LoginRejected(if message == "" then "Login error" else message);
        case Answered(ok, error) =>
          if ok {
            RecordLoginAttempt(true, later);
            outcome := SignedIn;
          } else {
            RecordLoginAttempt(false, later);
            outcome := LoginRejected(OrElse(error, "Login failed"));
          }
      }
    }
  }

  // ---------------------------------------------------------------- sign-up

  /** `replace(/\s+/g, '_')`: every maximal run of whitespace becomes one underscore. */
  function CollapseWhitespace(s: string): string
  {
    CollapseRuns(s, IsJsWhitespace, false)
  }

  /**
   * The username sent on sign-up: `${firstName}_${lastName}`, lower-cased,
   * runs of whitespace as `_`.  The joining underscore is not whitespace, so
   * each name is collapsed on its own.
   */
  function SignupUsername(firstName: string, lastName: string): (r: string)
    ensures forall i :: 0 <= i < |r| ==> !IsJsWhitespace(r[i])
    ensures r == CollapseWhitespace(ToLower(firstName)) + "_" + CollapseWhitespace(ToLower(lastName))
  {
    var first, last := ToLower(firstName), ToLower(lastName);
    assert ToLower(firstName + "_" + lastName) == first + "_" + last;
    CollapseSplits(first, "_", IsJsWhitespace);
    CollapseSplits(first + "_", last, IsJsWhitespace);
    CollapseKeepsPlain("_", IsJsWhitespace, false);
    CollapseLeavesNoRun(first + "_" + last, IsJsWhitespace, false);
    CollapseWhitespace(ToLower(firstName + "_" + lastName))
  }

  /** Names without inner whitespace are simply lower-cased and joined by `_`. */
  lemma {:induction false} SignupUsernameOfPlainNames(firstName: string, lastName: string)
    requires forall i :: 0 <= i < |firstName| ==> !IsJsWhitespace(firstName[i])
    requires forall i :: 0 <= i < |lastName| ==> !IsJsWhitespace(lastName[i])
    ensures SignupUsername(firstName, lastName) == ToLower(firstName) + "_" + ToLower(lastName)
  {
    var first, last := ToLower(firstName), ToLower(lastName);
    assert forall i :: 0 <= i < |first| ==> first[i] == LowerChar(firstName[i]);
    assert forall i :: 0 <= i < |last| ==> last[i] == LowerChar(lastName[i]);
    CollapseKeepsPlain(first, IsJsWhitespace, false);
    CollapseKeepsPlain(last, IsJsWhitespace, false);
  }

  predicate IsArtistType(userType: string)
  {
    userType == "artist" || userType == "both"
  }

  /** The body of `POST /api/auth/register` (an absent field is None). */
  datatype RegisterBody = RegisterBody(
    username: string,
    email: string,
    password: string,
    isArtist: bool,
    artistName: Option<string>,
    bio: string,
    specialty: Option<string>)

  /** The bio the sign-up form sends for each user type. */
  function SignupBio(userType: string): string
  {
    if userType == "artist" then "Artist and creator at kunstHaus"
    else if userType == "both" then "Artist and art collector at kunstHaus"
    else "Art enthusiast and collector at kunstHaus"
  }

  /** The registration request the sign-up form sends for trimmed names and a normalised e-mail. */
  function RegisterRequest(firstName: string, lastName: string, email: string, password: string,
                           userType: string): (b: RegisterBody)
    ensures b.isArtist <==> IsArtistType(userType)
    ensures b.artistName.Some? <==> b.isArtist
    ensures b.artistName.Some? ==> b.artistName.value == firstName + " " + lastName
    ensures b.specialty.Some? <==> userType == "artist"
    ensures b.username == SignupUsername(firstName, lastName) && b.email == email && b.password == password
    ensures b.bio == SignupBio(userType) && b.bio != []
    ensures b.specialty.Some? ==> b.specialty.value == "Contemporary Art"
  {
    RegisterBody(
      SignupUsername(firstName, lastName), email, password,
      IsArtistType(userType),
      if IsArtistType(userType) then Some(firstName + " " + lastName) else None,
      SignupBio(userType),
      if userType == "artist" then Some("Contemporary Art") else None)
  }

  /** What `handleSignupSubmit` decides before any request. */
  datatype SignupCheck =
    | MissingName
    | BadEmail
    | PasswordMismatch
    | TermsNotAccepted
    | WeakPassword(check: PasswordCheck)
    | SignupOk(body: RegisterBody)

  /** The position of each refusal in the order `handleSignupSubmit` checks them. */
  function SignupRank(c: SignupCheck): nat
  {
    match c
    case MissingName => 0
    case BadEmail => 1
    case PasswordMismatch => 2
    case TermsNotAccepted => 3
    case WeakPassword(_) => 4
    case SignupOk(_) => 5
  }

  /** Whether the check that `c` reports fails on the trimmed names and the normalised e-mail. */
  predicate SignupRefuses(c: SignupCheck, firstName: string, lastName: string, email: string,
                          password: string, confirmPassword: string, terms: bool)
  {
    match c
    case MissingName => firstName == [] || lastName == []
    case BadEmail => !IsValidEmail(email)
    case PasswordMismatch => password != confirmPassword
    case TermsNotAccepted => !terms
    case WeakPassword(_) => ValidatePassword(password) != PasswordOk
    case SignupOk(_) => false
  }

  /** `handleSignupSubmit`'s checks on the raw field values, in the page's order. */
  function ValidateSignup(rawFirst: string, rawLast: string, rawEmail: string, password: string,
                          confirmPassword: string, userType: string, terms: bool): (r: SignupCheck)
    ensures r == MissingName <==> JsTrim(rawFirst) == [] || JsTrim(rawLast) == []
    ensures r == BadEmail ==> !IsValidEmail(ToLower(JsTrim(rawEmail)))
    ensures r == PasswordMismatch ==> password != confirmPassword
    ensures r == TermsNotAccepted ==> !terms
    ensures r.WeakPassword? ==> r.check == ValidatePassword(password) && r.check != PasswordOk
    ensures r.SignupOk? <==>
      JsTrim(rawFirst) != [] && JsTrim(rawLast) != [] && IsValidEmail(ToLower(JsTrim(rawEmail))) &&
      password == confirmPassword && terms && ValidatePassword(password) == PasswordOk
    ensures r.SignupOk? ==>
      r.body == RegisterRequest(JsTrim(rawFirst), JsTrim(rawLast), ToLower(JsTrim(rawEmail)), password, userType)
  {
    var firstName := JsTrim(rawFirst);
    var lastName := JsTrim(rawLast);
    var email := ToLower(JsTrim(rawEmail));
    if firstName == [] || lastName == [] then MissingName
    else if !IsValidEmail(email) then BadEmail
    else if password != confirmPassword then PasswordMismatch
    else if !terms then TermsNotAccepted
    else if ValidatePassword(password) != PasswordOk then WeakPassword(ValidatePassword(password))
    else SignupOk(RegisterRequest(firstName, lastName, email, password, userType))
  }

  /** The refusal reported is the first check of `handleSignupSubmit` that fails. */
  lemma {:induction false} SignupReportsFirstRefusal(rawFirst: string, rawLast: string, rawEmail: string,
                                                     password: string, confirmPassword: string,
                                                     userType: string, terms: bool)
    ensures var r := ValidateSignup(rawFirst, rawLast, rawEmail, password, confirmPassword, userType, terms);
      var first, last, email := JsTrim(rawFirst), JsTrim(rawLast), ToLower(JsTrim(rawEmail));
      (!r.SignupOk? ==> SignupRefuses(r, first, last, email, password, confirmPassword, terms)) &&
      forall c :: SignupRank(c) < SignupRank(r) ==> !SignupRefuses(c, first, last, email, password, confirmPassword, terms)
  {
    var first, last, email := JsTrim(rawFirst), JsTrim(rawLast), ToLower(JsTrim(rawEmail));
    var r := ValidateSignup(rawFirst, rawLast, rawEmail, password, confirmPassword, userType, terms);
    forall c | SignupRank(c) < SignupRank(r)
      ensures !SignupRefuses(c, first, last, email, password, confirmPassword, terms)
    {
      match c
      case MissingName => assert r != MissingName;
      case BadEmail => assert SignupRank(r) > 1;
      case PasswordMismatch => assert SignupRank(r) > 2;
      case TermsNotAccepted => assert SignupRank(r) > 3;
      case WeakPassword(_) => assert r.SignupOk?;
      case SignupOk(_) =>
    }
  }

  /** An accepted sign-up carries a username without whitespace and a password the meter rates "Strong". */
  lemma AcceptedSignupIsStrong(rawFirst: string, rawLast: string, rawEmail: string, password: string,
                               confirmPassword: string, userType: string, terms: bool)
    requires ValidateSignup(rawFirst, rawLast, rawEmail, password, confirmPassword, userType, terms).SignupOk?
    ensures MeterFor(CalculatePasswordStrength(password).score) == Strong
    ensures MatchesEmailPattern(ToLower(JsTrim(rawEmail)))
  {
    ValidPasswordScoresFive(password);
    IsValidEmailIff(ToLower(JsTrim(rawEmail)));
  }
}
