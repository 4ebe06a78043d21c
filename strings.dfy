/**
 * String operations of the JavaScript and Python runtimes that the model uses:
 * whitespace classes, trimming, lower-casing, substring search, first-occurrence
 * replacement, path segments and decimal rendering of numbers.
 */
module Strings {
  import opened Common

  /** ECMAScript `WhiteSpace` and `LineTerminator` code points (the `\s` class and `trim`). */
  predicate IsJsWhitespace(c: char)
  {
    c == ' ' || c == '\t' || c == '\n' || c == '\r' || c == '\U{000B}' || c == '\U{000C}' ||
    c == '\U{00A0}' || c == '\U{1680}' || ('\U{2000}' <= c <= '\U{200A}') ||
    c == '\U{2028}' || c == '\U{2029}' || c == '\U{202F}' || c == '\U{205F}' ||
    c == '\U{3000}' || c == '\U{FEFF}'
  }

  /** Code points that Python's `str.strip()` removes. */
  predicate IsPyWhitespace(c: char)
  {
    c == ' ' || c == '\t' || c == '\n' || c == '\r' || c == '\U{000B}' || c == '\U{000C}' ||
    ('\U{001C}' <= c <= '\U{001F}') || c == '\U{0085}' || c == '\U{00A0}' || c == '\U{1680}' ||
    ('\U{2000}' <= c <= '\U{200A}') || c == '\U{2028}' || c == '\U{2029}' ||
    c == '\U{202F}' || c == '\U{205F}' || c == '\U{3000}'
  }

  /** Drops the leading characters of class `ws`. */
  function TrimStart(s: string, ws: char -> bool): (r: string)
    ensures |r| <= |s| && r == s[|s| - |r|..]
    ensures r == [] || !ws(r[0])
    ensures forall i :: 0 <= i < |s| - |r| ==> ws(s[i])
  {
    if s != [] && ws(s[0]) then TrimStart(s[1..], ws) else s
  }

  /** Drops the trailing characters of class `ws`. */
  function TrimEnd(s: string, ws: char -> bool): (r: string)
    ensures |r| <= |s| && r == s[..|r|]
    ensures r == [] || !ws(r[|r| - 1])
    ensures forall i :: |r| <= i < |s| ==> ws(s[i])
  {
    if s != [] && ws(s[|s| - 1]) then TrimEnd(s[..|s| - 1], ws) else s
  }

  lemma AppendAssoc(p: string, x: string, y: string)
    ensures p + (x + y) == (p + x) + y
  {
  }

  /** What a character `c` becomes: itself, an underscore opening a run of class `ws`, or nothing inside one. */
  function HeadPiece(c: char, ws: char -> bool, inRun: bool): string
  {
    if !ws(c) then [c] else if inRun then [] else "_"
  }

  /**
   * Replaces every maximal run of characters of class `ws` by one underscore
   * (`replace(/\s+/g, '_')` for JavaScript's `\s`); `inRun` says whether the
   * text before `s` ended inside such a run.
   */
  function CollapseRuns(s: string, ws: char -> bool, inRun: bool): (r: string)
    ensures |r| <= |s|
  {
    if s == [] then [] else HeadPiece(s[0], ws, inRun) + CollapseRuns(s[1..], ws, ws(s[0]))
  }

  /** Whether the text is inside a run after `s`, having been in one before it iff `inRun`. */
  function EndsInRun(s: string, ws: char -> bool, inRun: bool): bool
  {
    if s == [] then inRun else ws(s[|s| - 1])
  }

  lemma CollapseUnfolds(s: string, ws: char -> bool, inRun: bool)
    requires s != []
    ensures CollapseRuns(s, ws, inRun) == HeadPiece(s[0], ws, inRun) + CollapseRuns(s[1..], ws, ws(s[0]))
  {
  }

  /** No character of the class is left, as long as the underscore is not one. */
  lemma {:induction false} CollapseLeavesNoRun(s: string, ws: char -> bool, inRun: bool)
    requires !ws('_')
    ensures forall i :: 0 <= i < |CollapseRuns(s, ws, inRun)| ==> !ws(CollapseRuns(s, ws, inRun)[i])
    decreases |s|
  {
    if s != [] {
      CollapseLeavesNoRun(s[1..], ws, ws(s[0]));
      var h, r := HeadPiece(s[0], ws, inRun), CollapseRuns(s[1..], ws, ws(s[0]));
      assert CollapseRuns(s, ws, inRun) == h + r;
      assert forall i :: 0 <= i < |h| ==> !ws(h[i]);
    }
  }

  /** A text with no character of the class is left as it is. */
  lemma {:induction false} CollapseKeepsPlain(s: string, ws: char -> bool, inRun: bool)
    requires forall i :: 0 <= i < |s| ==> !ws(s[i])
    ensures CollapseRuns(s, ws, inRun) == s
    decreases |s|
  {
    if s != [] {
      assert !ws(s[0]);
      CollapseKeepsPlain(s[1..], ws, false);
      assert s == [s[0]] + s[1..];
    }
  }

  /** A run of the class alone becomes one underscore, or nothing when it continues a run. */
  lemma {:induction false} CollapseRun(w: string, ws: char -> bool, inRun: bool)
    requires forall i :: 0 <= i < |w| ==> ws(w[i])
    ensures CollapseRuns(w, ws, inRun) == if w == [] || inRun then [] else "_"
    decreases |w|
  {
    if w != [] {
      CollapseRun(w[1..], ws, true);
    }
  }

  /** Collapsing a concatenation collapses each part, the second one knowing how the first ended. */
  lemma {:induction false} CollapseAppend(a: string, b: string, ws: char -> bool, inRun: bool)
    ensures CollapseRuns(a + b, ws, inRun) ==
      CollapseRuns(a, ws, inRun) + CollapseRuns(b, ws, EndsInRun(a, ws, inRun))
    decreases |a|
  {
    if a == [] {
      assert a + b == b;
    } else {
      var tail := a[1..];
      assert (a + b)[0] == a[0] && (a + b)[1..] == tail + b;
      CollapseUnfolds(a + b, ws, inRun);
      CollapseUnfolds(a, ws, inRun);
      CollapseAppend(tail, b, ws, ws(a[0]));
      assert EndsInRun(tail, ws, ws(a[0])) == EndsInRun(a, ws, inRun);
      AppendAssoc(HeadPiece(a[0], ws, inRun), CollapseRuns(tail, ws, ws(a[0])),
                  CollapseRuns(b, ws, EndsInRun(a, ws, inRun)));
    }
  }

  /**
   * At a cut that does not fall inside a run the two parts collapse on their
   * own; with `CollapseRun` and `CollapseKeepsPlain` this says that each
   * maximal run becomes exactly one underscore and every other character stays.
   */
  lemma CollapseSplits(a: string, b: string, ws: char -> bool)
    requires a == [] || b == [] || !ws(a[|a| - 1]) || !ws(b[0])
    ensures CollapseRuns(a + b, ws, false) == CollapseRuns(a, ws, false) + CollapseRuns(b, ws, false)
  {
    CollapseAppend(a, b, ws, false);
    if b != [] {
      assert CollapseRuns(b, ws, EndsInRun(a, ws, false)) == CollapseRuns(b, ws, false);
    }
  }

  /** A prefix of a suffix of `s` occurs in `s`, where the suffix starts. */
  lemma PrefixOfSuffixOccurs(s: string, t: string, r: string)
    requires |t| <= |s| && t == s[|s| - |t|..]
    requires |r| <= |t| && r == t[..|r|]
    ensures OccursAt(s, r, |s| - |t|)
  {
    var k := |s| - |t|;
    forall j | 0 <= j < |r|
      ensures s[k..k + |r|][j] == r[j]
    {
      assert r[j] == t[j] == s[k + j];
    }
  }

  /** Removes whitespace of class `ws` at both ends. */
  function Trim(s: string, ws: char -> bool): (r: string)
    ensures r == [] || (!ws(r[0]) && !ws(r[|r| - 1]))
    ensures exists i :: OccursAt(s, r, i)
  {
    var t := TrimStart(s, ws);
    var r := TrimEnd(t, ws);
    PrefixOfSuffixOccurs(s, t, r);
    r
  }

  lemma TrimIdempotent(s: string, ws: char -> bool)
    ensures Trim(Trim(s, ws), ws) == Trim(s, ws)
  {
  }

  /** JavaScript `String.prototype.trim`. */
  function JsTrim(s: string): string
  {
    Trim(s, IsJsWhitespace)
  }

  /** Python `str.strip()` without arguments. */
  function PyStrip(s: string): string
  {
    Trim(s, IsPyWhitespace)
  }

  predicate IsUpperAscii(c: char)
  {
    'A' <= c <= 'Z'
  }

  predicate IsLowerAscii(c: char)
  {
    'a' <= c <= 'z'
  }

  predicate IsDigit(c: char)
  {
    '0' <= c <= '9'
  }

  function LowerChar(c: char): (r: char)
    ensures !IsUpperAscii(r)
    ensures IsUpperAscii(c) ==> IsLowerAscii(r)
    ensures !IsUpperAscii(c) ==> r == c
  {
    if IsUpperAscii(c) then (c as int + 32) as char else c
  }

  /** `toLowerCase`, on the ASCII letters. */
  function ToLower(s: string): (r: string)
    ensures |r| == |s|
    ensures forall i :: 0 <= i < |r| ==> r[i] == LowerChar(s[i])
  {
    seq(|s|, i requires 0 <= i < |s| => LowerChar(s[i]))
  }

  lemma ToLowerIdempotent(s: string)
    ensures ToLower(ToLower(s)) == ToLower(s)
  {
  }

  /** The UTF-16 code units of one character: two for a code point above U+FFFF (a surrogate pair). */
  function Utf16Units(c: char): nat
  {
    if c as int > 0xFFFF then 2 else 1
  }

  /** JavaScript's `length`: the string counted in UTF-16 code units, not in code points. */
  function Utf16Length(s: string): (n: nat)
    ensures |s| <= n <= 2 * |s|
  {
    if s == [] then 0 else Utf16Units(s[0]) + Utf16Length(s[1..])
  }

  /** The code-unit count of a concatenation is the sum of the counts. */
  lemma {:induction false} Utf16LengthAppend(a: string, b: string)
    ensures Utf16Length(a + b) == Utf16Length(a) + Utf16Length(b)
  {
    if a != [] {
      assert (a + b)[1..] == a[1..] + b;
      Utf16LengthAppend(a[1..], b);
    } else {
      assert a + b == b;
    }
  }

  /** Within the Basic Multilingual Plane the code-unit count is the code-point count. */
  lemma {:induction false} Utf16LengthOfBmp(s: string)
    requires forall i :: 0 <= i < |s| ==> s[i] as int <= 0xFFFF
    ensures Utf16Length(s) == |s|
  {
    if s != [] {
      Utf16LengthOfBmp(s[1..]);
    }
  }

  predicate StartsWith(s: string, prefix: string)
  {
    |prefix| <= |s| && s[..|prefix|] == prefix
  }

  predicate EndsWith(s: string, suffix: string)
  {
    |suffix| <= |s| && s[|s| - |suffix|..] == suffix
  }

  /** `pat` occurs in `s` starting at position `i`. */
  predicate OccursAt(s: string, pat: string, i: int)
  {
    0 <= i && i + |pat| <= |s| && s[i..i + |pat|] == pat
  }

  function IndexFrom(s: string, pat: string, from: nat): (r: Option<nat>)
    requires from <= |s|
    ensures r.Some? ==> from <= r.value && OccursAt(s, pat, r.value)
    ensures r.Some? ==> forall j :: from <= j < r.value ==> !OccursAt(s, pat, j)
    ensures r.None? ==> forall j :: from <= j ==> !OccursAt(s, pat, j)
    decreases |s| - from
  {
    if from + |pat| > |s| then None
    else if s[from..from + |pat|] == pat then Some(from)
    else IndexFrom(s, pat, from + 1)
  }

  /** `indexOf`: the first position where `pat` occurs in `s`, if any. */
  function IndexOf(s: string, pat: string): (r: Option<nat>)
    ensures r.Some? ==> OccursAt(s, pat, r.value)
    ensures r.Some? ==> forall j :: 0 <= j < r.value ==> !OccursAt(s, pat, j)
    ensures r.None? ==> forall j :: !OccursAt(s, pat, j)
  {
    IndexFrom(s, pat, 0)
  }

  /** `includes` (JavaScript) and `in` on strings (Python). */
  predicate Contains(s: string, pat: string)
  {
    IndexOf(s, pat).Some?
  }

  lemma ContainsIff(s: string, pat: string)
    ensures Contains(s, pat) <==> exists i :: OccursAt(s, pat, i)
  {
  }

  /** Every string contains the empty string. */
  lemma ContainsEmpty(s: string)
    ensures Contains(s, "")
  {
    assert OccursAt(s, "", 0);
  }

  /** A substring of a substring of `s` is a substring of `s`. */
  lemma ContainsTransitive(s: string, mid: string, pat: string)
    requires Contains(s, mid) && Contains(mid, pat)
    ensures Contains(s, pat)
  {
    var i := IndexOf(s, mid).value;
    var j := IndexOf(mid, pat).value;
    assert s[i..i + |mid|] == mid;
    assert s[i..i + |mid|][j..j + |pat|] == s[i + j..i + j + |pat|];
    assert s[i + j..i + j + |pat|] == mid[j..j + |pat|];
    assert OccursAt(s, pat, i + j);
  }

  /** `String.prototype.replace` with a string pattern: only the first occurrence is replaced. */
  function ReplaceFirst(s: string, pat: string, rep: string): (r: string)
    ensures !Contains(s, pat) ==> r == s
    ensures Contains(s, pat) ==>
      var i := IndexOf(s, pat).value;
      r == s[..i] + rep + s[i + |pat|..]
  {
    match IndexOf(s, pat)
    case None => s
    case Some(i) => s[..i] + rep + s[i + |pat|..]
  }

  lemma {:induction false} ReplaceFirstAbsent(s: string, pat: string, rep: string)
    requires !Contains(s, pat)
    ensures ReplaceFirst(s, pat, rep) == s
  {
  }

  /** Deleting the first occurrence of a pattern adds no character. */
  lemma ReplaceFirstByEmptyKeepsOut(s: string, pat: string, c: char)
    requires c !in s
    ensures c !in ReplaceFirst(s, pat, "")
  {
    if Contains(s, pat) {
      var i := IndexOf(s, pat).value;
      var left, right := s[..i], s[i + |pat|..];
      assert ReplaceFirst(s, pat, "") == left + right;
      assert c !in left && c !in right;
    }
  }

  /** The text after the last `/` of `path` (`path.split('/').pop()`). */
  function LastSegment(path: string): (r: string)
    ensures |r| <= |path| && r == path[|path| - |r|..]
    ensures '/' !in r
    ensures |r| < |path| ==> path[|path| - |r| - 1] == '/'
  {
    if path == [] then []
    else if path[|path| - 1] == '/' then []
    else LastSegment(path[..|path| - 1]) + [path[|path| - 1]]
  }

  /** The last segment of `dir/name` is `name` when `name` has no `/`. */
  lemma {:induction false} LastSegmentAppend(dir: string, name: string)
    requires '/' !in name
    ensures LastSegment(dir + "/" + name) == name
    decreases |name|
  {
    var path := dir + "/" + name;
    if name == [] {
      assert path[|path| - 1] == '/';
    } else {
      var init := name[..|name| - 1];
      assert path[..|path| - 1] == dir + "/" + init;
      assert name[|name| - 1] in name;
      LastSegmentAppend(dir, init);
      assert name == init + [name[|name| - 1]];
    }
  }

  function DigitChar(d: nat): (c: char)
    requires d < 10
    ensures IsDigit(c)
  {
    ('0' as int + d) as char
  }

  /** Decimal rendering of a natural number, as `String(n)` or `n.toString()` produce it. */
  function NatToString(n: nat): (r: string)
    ensures |r| >= 1
    ensures forall i :: 0 <= i < |r| ==> IsDigit(r[i])
    ensures n > 0 ==> r[0] != '0'
    decreases n
  {
    if n < 10 then [DigitChar(n)] else NatToString(n / 10) + [DigitChar(n % 10)]
  }

  /** The number a string of decimal digits denotes. */
  function DigitsValue(s: string): nat
    requires forall i :: 0 <= i < |s| ==> IsDigit(s[i])
  {
    if s == [] then 0
    else
      assert IsDigit(s[|s| - 1]);
      10 * DigitsValue(s[..|s| - 1]) + (s[|s| - 1] as int - '0' as int)
  }

  /** `s` is a non-empty string of decimal digits denoting `n`. */
  predicate Numeral(s: string, n: nat)
  {
    |s| >= 1 && (forall i :: 0 <= i < |s| ==> IsDigit(s[i])) && DigitsValue(s) == n
  }

  lemma {:induction false} NatToStringRoundTrip(n: nat)
    ensures DigitsValue(NatToString(n)) == n
    decreases n
  {
    if n >= 10 {
      NatToStringRoundTrip(n / 10);
      var r := NatToString(n);
      assert r[..|r| - 1] == NatToString(n / 10);
    }
  }
}
