/**
 * The two tiers count a password's length differently: the sign-up page's
 * `validatePassword` (`auth.js`) uses JavaScript's `length`, in UTF-16 code
 * units, and `register` in `app.py` uses Python's `len`, in code points.
 */
module PasswordTiers {
  import opened Common
  import opened Strings
  import AuthForms
  import BackendStore

  const Grin := '\U{1F600}'

  /** Two emoji count four code units, so six code points pass the eight-character rule. */
  lemma AstralPasswordAccepted()
    ensures |"Aa1!" + [Grin, Grin]| == 6
    ensures AuthForms.ValidatePassword("Aa1!" + [Grin, Grin]) == AuthForms.PasswordOk
  {
    var p := "Aa1!" + [Grin, Grin];
    assert Utf16Length(p[5..]) == 2;
    assert Utf16Length(p[4..]) == 4;
    assert Utf16Length(p[3..]) == 5;
    assert Utf16Length(p[2..]) == 6;
    assert Utf16Length(p[1..]) == 7;
    assert Utf16Length(p) == 8;
    assert IsUpperAscii(p[0]) && IsLowerAscii(p[1]) && IsDigit(p[2]);
    assert p[3] in AuthForms.SpecialChars;
  }

  /** "Aa1!xy" and one emoji: eight code units, seven code points, and every rule of the form met. */
  lemma SevenPointPasswordAccepted()
    ensures |"Aa1!xy" + [Grin]| == 7
    ensures AuthForms.ValidatePassword("Aa1!xy" + [Grin]) == AuthForms.PasswordOk
  {
    var p := "Aa1!xy" + [Grin];
    assert Utf16Length(p[6..]) == 2;
    assert Utf16Length(p[5..]) == 3;
    assert Utf16Length(p[4..]) == 4;
    assert Utf16Length(p[3..]) == 5;
    assert Utf16Length(p[2..]) == 6;
    assert Utf16Length(p[1..]) == 7;
    assert Utf16Length(p) == 8;
    assert IsUpperAscii(p[0]) && IsLowerAscii(p[1]) && IsDigit(p[2]);
    assert p[3] in AuthForms.SpecialChars;
  }

  /** The server refuses any password of fewer than eight code points, once the three fields are present. */
  lemma ServerRefusesShort(users: seq<BackendStore.UserRow>, req: BackendStore.RegisterRequest)
    requires Truthy(req.username) && Truthy(req.email) && Truthy(req.password) && |req.password.value| < 8
    ensures BackendStore.RegisterRejection(users, req) == Some(BackendStore.ShortPassword)
  {
  }

  /**
   * A password the sign-up form accepts can still be refused by the server as
   * too short.
   */
  lemma FormAcceptsServerRefuses(users: seq<BackendStore.UserRow>)
    ensures AuthForms.ValidatePassword("Aa1!xy" + [Grin]) == AuthForms.PasswordOk
    ensures BackendStore.RegisterRejection(users, BackendStore.RegisterRequest(
      Some("ada"), Some("ada@example.com"), Some("Aa1!xy" + [Grin]), false, None, None, None)) ==
      Some(BackendStore.ShortPassword)
  {
    SevenPointPasswordAccepted();
    ServerRefusesShort(users, BackendStore.RegisterRequest(
      Some("ada"), Some("ada@example.com"), Some("Aa1!xy" + [Grin]), false, None, None, None));
  }
}
