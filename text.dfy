/**
 * The string operations the views rely on: `toLowerCase`, `includes`,
 * `startsWith`, `trim`, number-to-decimal conversion and string ordering.
 * Case mapping is ASCII-only (see README).
 */
module Text {

  /** ASCII `toLowerCase` of one character; every other character is kept. */
  function LowerChar(c: char): char {
    if 'A' <= c <= 'Z' then (c as int + 32) as char else c
  }

  /** `s.toLowerCase()`, ASCII letters only. */
  function Lower(s: string): string {
    seq(|s|, i requires 0 <= i < |s| => LowerChar(s[i]))
  }

  /** `s.startsWith(prefix)`. */
  predicate StartsWith(s: string, prefix: string) {
    |prefix| <= |s| && s[..|prefix|] == prefix
  }

  /** `s.includes(t)`: `t` occurs in `s` at some position (the empty string occurs everywhere). */
  predicate Contains(s: string, t: string)
    decreases |s|
  {
    StartsWith(s, t) || (|s| > 0 && Contains(s[1..], t))
  }

  /** `t` sits in `s` starting at index `k`. */
  predicate OccursAt(s: string, t: string, k: nat) {
    k + |t| <= |s| && s[k..k + |t|] == t
  }

  /** `Contains` holds exactly when `t` sits at some index of `s`. */
  lemma {:induction false} ContainsIffAt(s: string, t: string)
    ensures Contains(s, t) <==> exists k :: OccursAt(s, t, k)
  {
    if Contains(s, t) {
      if !StartsWith(s, t) {
        ContainsIffAt(s[1..], t);
        var k: nat :| OccursAt(s[1..], t, k);
        assert s[k + 1..k + 1 + |t|] == s[1..][k..k + |t|];
        assert OccursAt(s, t, k + 1);
      } else {
        assert OccursAt(s, t, 0);
      }
    }
    if exists k :: OccursAt(s, t, k) {
      var k: nat :| OccursAt(s, t, k);
      ContainsAt(s, t, k);
    }
  }

  /** A string that sits at index `k` is contained. */
  lemma {:induction false} ContainsAt(s: string, t: string, k: nat)
    requires OccursAt(s, t, k)
    ensures Contains(s, t)
  {
    if k > 0 {
      assert s[1..][k - 1..k - 1 + |t|] == s[k..k + |t|];
      ContainsAt(s[1..], t, k - 1);
    }
  }

  /** A string whose first character does not occur in `s` is not contained in `s`. */
  lemma {:induction false} NotContainsFirstChar(s: string, t: string)
    requires |t| > 0 && t[0] !in s
    ensures !Contains(s, t)
  {
    if |s| > 0 {
      assert t[0] !in s[1..] by {
        forall i | 0 <= i < |s[1..]| ensures s[1..][i] != t[0] {
          assert s[1..][i] == s[i + 1];
        }
      }
      NotContainsFirstChar(s[1..], t);
    }
  }

  /** A contained string stays contained once something is put in front. */
  lemma {:induction false} ContainsAfterPrefix(prefix: string, s: string, t: string)
    requires Contains(s, t)
    ensures Contains(prefix + s, t)
  {
    ContainsIffAt(s, t);
    var k: nat :| OccursAt(s, t, k);
    assert (prefix + s)[|prefix| + k..|prefix| + k + |t|] == s[k..k + |t|];
    ContainsAt(prefix + s, t, |prefix| + k);
  }

  /**
   * The characters `String.prototype.trim` strips: the ECMAScript WhiteSpace
   * and LineTerminator code points.
   */
  predicate IsJsWhitespace(c: char) {
    ('\U{0009}' <= c <= '\U{000D}') || c == '\U{0020}' || c == '\U{00A0}' || c == '\U{1680}'
    || ('\U{2000}' <= c <= '\U{200A}') || c == '\U{2028}' || c == '\U{2029}' || c == '\U{202F}'
    || c == '\U{205F}' || c == '\U{3000}' || c == '\U{FEFF}'
  }

  /** `s.trimStart()`. */
  function TrimStart(s: string): (r: string)
    ensures |r| <= |s|
    ensures r == s[|s| - |r|..]
    ensures r == [] || !IsJsWhitespace(r[0])
    ensures forall i :: 0 <= i < |s| - |r| ==> IsJsWhitespace(s[i])
  {
    if s != [] && IsJsWhitespace(s[0]) then TrimStart(s[1..]) else s
  }

  /** `s.trimEnd()`. */
  function TrimEnd(s: string): (r: string)
    ensures |r| <= |s|
    ensures r == s[..|r|]
    ensures r == [] || !IsJsWhitespace(r[|r| - 1])
    ensures forall i :: |r| <= i < |s| ==> IsJsWhitespace(s[i])
  {
    if s != [] && IsJsWhitespace(s[|s| - 1]) then TrimEnd(s[..|s| - 1]) else s
  }

  /** `s.trim()`. */
  function Trim(s: string): string {
    TrimEnd(TrimStart(s))
  }

  /** `!s.trim()`: the trimmed string is empty exactly when `s` is all whitespace. */
  lemma TrimEmptyIffBlank(s: string)
    ensures Trim(s) == "" <==> forall i :: 0 <= i < |s| ==> IsJsWhitespace(s[i])
  {
    var t := TrimStart(s);
    if Trim(s) == "" {
      assert t == [];
    }
    if forall i :: 0 <= i < |s| ==> IsJsWhitespace(s[i]) {
      assert t == [];
    }
  }

  /** Lowering twice is lowering once. */
  lemma LowerIdempotent(s: string)
    ensures Lower(Lower(s)) == Lower(s)
  {
  }

  /** Lowering changes no whitespace, so it keeps a blank string blank and a non-blank one non-blank. */
  lemma LowerKeepsBlank(s: string)
    ensures IsBlank(Lower(s)) <==> IsBlank(s)
  {
    TrimEmptyIffBlank(s);
    TrimEmptyIffBlank(Lower(s));
    forall i | 0 <= i < |s| ensures IsJsWhitespace(Lower(s)[i]) == IsJsWhitespace(s[i]) {
      LowerCharKeepsWhitespace(s[i]);
    }
  }

  lemma LowerCharKeepsWhitespace(c: char)
    ensures IsJsWhitespace(LowerChar(c)) == IsJsWhitespace(c)
  {
    if 'A' <= c <= 'Z' {
      assert !IsJsWhitespace(c) && 'a' <= LowerChar(c) <= 'z';
    }
  }

  /** A string with a character that is not whitespace is not blank. */
  lemma NotBlankAt(s: string, i: nat)
    requires i < |s| && !IsJsWhitespace(s[i])
    ensures !IsBlank(s)
  {
    TrimEmptyIffBlank(s);
  }

  /** Lower-casing a string without capital letters changes nothing. */
  lemma LowerOfNoCapitals(s: string)
    requires forall i :: 0 <= i < |s| ==> !('A' <= s[i] <= 'Z')
    ensures Lower(s) == s
  {
    assert forall i :: 0 <= i < |s| ==> Lower(s)[i] == s[i];
  }

  /** `true` when the search box holds nothing but whitespace (`!term.trim()`). */
  predicate IsBlank(s: string) {
    Trim(s) == ""
  }

  /** A decimal digit `0`..`9`. */
  predicate IsDigit(c: char) {
    '0' <= c <= '9'
  }

  /** Every character is a decimal digit. */
  predicate AllDigits(s: string) {
    forall i :: 0 <= i < |s| ==> IsDigit(s[i])
  }

  /** `String(n)` for a natural number: its decimal digits, most significant first. */
  function NatToString(n: nat): (r: string)
    ensures |r| > 0 && AllDigits(r)
    ensures |r| > 1 ==> r[0] != '0'
    decreases n
  {
    var d := ['0' + (n % 10) as char];
    if n < 10 then d else NatToString(n / 10) + d
  }

  /** The value of a string of decimal digits. */
  function DigitsValue(s: string): nat
    requires AllDigits(s)
  {
    if s == [] then 0 else DigitsValue(s[..|s| - 1]) * 10 + (s[|s| - 1] - '0') as nat
  }

  /** `NatToString` writes exactly the number it is given. */
  lemma {:induction false} NatToStringValue(n: nat)
    ensures DigitsValue(NatToString(n)) == n
    decreases n
  {
    var r := NatToString(n);
    if n >= 10 {
      NatToStringValue(n / 10);
      assert r[..|r| - 1] == NatToString(n / 10);
    }
  }

  /** `a < b` on strings: lexicographic comparison of characters. */
  predicate Less(a: string, b: string)
    decreases |a|
  {
    if b == [] then false
    else if a == [] then true
    else if a[0] != b[0] then a[0] < b[0]
    else Less(a[1..], b[1..])
  }

  /** Two strings with a common prefix compare as the first characters after it do. */
  lemma {:induction false} LessAt(a: string, b: string, k: nat)
    requires k < |a| && k < |b| && a[..k] == b[..k] && a[k] < b[k]
    ensures Less(a, b)
  {
    if k > 0 {
      assert a[0] == a[..k][0] && b[0] == b[..k][0];
      assert a[1..][..k - 1] == a[..k][1..] && b[1..][..k - 1] == b[..k][1..];
      LessAt(a[1..], b[1..], k - 1);
    }
  }

  /** ASCII lower-casing never introduces a character that is neither it nor its upper-case form. */
  lemma LowerOmits(s: string, c: char)
    requires 'a' <= c <= 'z'
    requires c !in s && (c as int - 32) as char !in s
    ensures c !in Lower(s)
  {
    forall i | 0 <= i < |s| ensures Lower(s)[i] != c {
      assert s[i] != c && s[i] != (c as int - 32) as char;
    }
  }
}
