/**
 * The password-strength meter that the sign-up page (`auth.js`) and the account
 * page (`js/account.js`) both define: five criteria checked in a fixed order, a
 * score counting the satisfied ones, the names of the missing ones, and the
 * label shown for a score.
 */
module PasswordStrength {
  import opened Common
  import opened Strings

  /** The meter's criteria, in the order they are checked. */
  datatype Criterion = MinLength | HasLower | HasUpper | HasDigit | HasSymbol

  const Criteria: seq<Criterion> := [MinLength, HasLower, HasUpper, HasDigit, HasSymbol]

  predicate IsAlphanumericAscii(c: char)
  {
    IsUpperAscii(c) || IsLowerAscii(c) || IsDigit(c)
  }

  /** Whether `password` meets criterion `c` (`/[a-z]/`, `/[A-Z]/`, `/[0-9]/`, `/[^A-Za-z0-9]/`). */
  predicate Satisfies(password: string, c: Criterion)
  {
    match c
    case MinLength => Utf16Length(password) >= 8
    case HasLower => exists i :: 0 <= i < |password| && IsLowerAscii(password[i])
    case HasUpper => exists i :: 0 <= i < |password| && IsUpperAscii(password[i])
    case HasDigit => exists i :: 0 <= i < |password| && IsDigit(password[i])
    case HasSymbol => exists i :: 0 <= i < |password| && !IsAlphanumericAscii(password[i])
  }

  /** The feedback line of a criterion that is not met. */
  function FeedbackText(c: Criterion): (r: string)
    ensures r != []
  {
    match c
    case MinLength => "At least 8 characters"
    case HasLower => "Lowercase letter"
    case HasUpper => "Uppercase letter"
    case HasDigit => "Number"
    case HasSymbol => "Special character"
  }

  /** Different criteria have different feedback lines. */
  lemma FeedbackTextInjective(c: Criterion, d: Criterion)
    requires FeedbackText(c) == FeedbackText(d)
    ensures c == d
  {
  }

  /** The list names every criterion. */
  lemma CriteriaComplete(c: Criterion)
    ensures c in Criteria
  {
    match c
    case MinLength => assert Criteria[0] == c;
    case HasLower => assert Criteria[1] == c;
    case HasUpper => assert Criteria[2] == c;
    case HasDigit => assert Criteria[3] == c;
    case HasSymbol => assert Criteria[4] == c;
  }

  /** The feedback lines of a list of criteria, in that list's order. */
  function FeedbackTexts(cs: seq<Criterion>): (r: seq<string>)
    ensures |r| == |cs|
  {
    if cs == [] then [] else [FeedbackText(cs[0])] + FeedbackTexts(cs[1..])
  }

  datatype Strength = Strength(score: nat, feedback: seq<string>)

  /**
   * Checks `cs` in order: every met criterion adds one to the score, every
   * missed one appends its feedback line.
   */
  function Tally(password: string, cs: seq<Criterion>): (r: Strength)
    ensures r.score + |r.feedback| == |cs|
    ensures forall c :: FeedbackText(c) in r.feedback <==> c in cs && !Satisfies(password, c)
    ensures r.score == |cs| <==> forall c :: c in cs ==> Satisfies(password, c)
    ensures SubsequenceOf(r.feedback, FeedbackTexts(cs))
  {
    if cs == [] then Strength(0, [])
    else
      var rest := Tally(password, cs[1..]);
      assert forall c :: c in cs <==> c == cs[0] || c in cs[1..];
      assert forall c :: FeedbackText(c) == FeedbackText(cs[0]) ==> c == cs[0] by {
        forall c | FeedbackText(c) == FeedbackText(cs[0]) {
          FeedbackTextInjective(c, cs[0]);
        }
      }
      if Satisfies(password, cs[0]) then
        Strength(rest.score + 1, rest.feedback)
      else
        var fb := [FeedbackText(cs[0])] + rest.feedback;
        assert fb[1..] == rest.feedback;
        Strength(rest.score, fb)
  }

  /** `calculatePasswordStrength`. */
  function CalculatePasswordStrength(password: string): (r: Strength)
    ensures r.score <= 5 && r.score + |r.feedback| == 5
    ensures r.score == 5 <==> forall c :: Satisfies(password, c)
    ensures forall c :: FeedbackText(c) in r.feedback <==> !Satisfies(password, c)
    ensures SubsequenceOf(r.feedback, FeedbackTexts(Criteria))
  {
    var r := Tally(password, Criteria);
    assert forall c :: c in Criteria by {
      forall c: Criterion ensures c in Criteria {
        CriteriaComplete(c);
      }
    }
    r
  }

  /** The label `updatePasswordStrength` shows; `Blank` shows nothing at all. */
  datatype Meter = Blank | Weak | Fair | Good | Strong

  function MeterLevel(m: Meter): nat
  {
    match m
    case Blank => 0
    case Weak => 1
    case Fair => 2
    case Good => 3
    case Strong => 4
  }

  function MeterFor(score: nat): (m: Meter)
    ensures m == Blank <==> score == 0
    ensures m == Strong <==> score >= 5
  {
    if score == 0 then Blank
    else if score <= 2 then Weak
    else if score <= 3 then Fair
    else if score <= 4 then Good
    else Strong
  }

  /** A higher score never shows a lower label. */
  lemma MeterMonotone(a: nat, b: nat)
    requires a <= b
    ensures MeterLevel(MeterFor(a)) <= MeterLevel(MeterFor(b))
  {
  }

  /** The label is "Strong" exactly when every criterion is met. */
  lemma StrongIffAllCriteria(password: string)
    ensures MeterFor(CalculatePasswordStrength(password).score) == Strong <==>
            forall c :: Satisfies(password, c)
  {
  }
}
