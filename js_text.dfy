/** The JavaScript string built-ins the pages rely on: `trim`, `\s`, `toLowerCase`,
    `includes`, `startsWith`, the relational `<` on strings and the decimal
    rendering of an integer (`toString` and template literals). Strings are
    sequences of characters; lengths count characters. */
module JsText {

  /** A character that `\s` matches and that `trim` strips: the WhiteSpace and
      LineTerminator code points of ECMAScript (tab, line feed, vertical tab,
      form feed, carriage return, the Unicode space separators, U+2028, U+2029
      and the byte-order mark U+FEFF). */
  predicate IsWhiteSpace(c: char) {
    var n := c as int;
    || (0x9 <= n <= 0xD)
    || n == 0x20 || n == 0xA0 || n == 0x1680
    || (0x2000 <= n <= 0x200A)
    || n == 0x2028 || n == 0x2029 || n == 0x202F || n == 0x205F
    || n == 0x3000 || n == 0xFEFF
  }

  predicate AllWhiteSpace(s: string) {
    forall i :: 0 <= i < |s| ==> IsWhiteSpace(s[i])
  }

  /** `s.trimStart()`: drops the leading white space. */
  function TrimStart(s: string): string {
    if s != [] && IsWhiteSpace(s[0]) then TrimStart(s[1..]) else s
  }

  /** `s.trimEnd()`: drops the trailing white space. */
  function TrimEnd(s: string): string {
    if s != [] && IsWhiteSpace(s[|s| - 1]) then TrimEnd(s[..|s| - 1]) else s
  }

  /** `s.trim()`: both at once. */
  function Trim(s: string): string {
    TrimEnd(TrimStart(s))
  }

  /** `!s.trim()`: the string is empty once trimmed. */
  predicate IsBlank(s: string) {
    Trim(s) == ""
  }

  /** `trimStart` leaves a suffix that does not start with white space, and
      what it drops is all white space. */
  lemma {:induction false} TrimStartSuffix(s: string)
    ensures |TrimStart(s)| <= |s| && TrimStart(s) == s[|s| - |TrimStart(s)|..]
    ensures AllWhiteSpace(s[..|s| - |TrimStart(s)|])
    ensures TrimStart(s) != [] ==> !IsWhiteSpace(TrimStart(s)[0])
  {
    if s != [] && IsWhiteSpace(s[0]) {
      TrimStartSuffix(s[1..]);
      var k := |s| - |TrimStart(s)|;
      forall i | 0 <= i < k ensures IsWhiteSpace(s[..k][i]) {
        if i == 0 {
          assert s[..k][0] == s[0];
        } else {
          assert s[..k][i] == s[1..][..k - 1][i - 1];
        }
      }
    }
  }

  /** `trimEnd` leaves a prefix that does not end with white space, and what it
      drops is all white space. */
  lemma {:induction false} TrimEndPrefix(s: string)
    ensures |TrimEnd(s)| <= |s| && TrimEnd(s) == s[..|TrimEnd(s)|]
    ensures AllWhiteSpace(s[|TrimEnd(s)|..])
    ensures TrimEnd(s) != [] ==> !IsWhiteSpace(TrimEnd(s)[|TrimEnd(s)| - 1])
  {
    if s != [] && IsWhiteSpace(s[|s| - 1]) {
      var init := s[..|s| - 1];
      TrimEndPrefix(init);
      var k := |TrimEnd(s)|;
      assert init[..k] == s[..k];
      forall i | 0 <= i < |s| - k ensures IsWhiteSpace(s[k..][i]) {
        if i < |s| - 1 - k {
          assert s[k..][i] == init[k..][i];
        }
      }
    }
  }

  /** `trim` leaves a slice of `s` that neither starts nor ends with white
      space, after dropping only white space. */
  lemma TrimSlice(s: string)
    ensures |TrimStart(s)| <= |s|
    ensures var r, k := Trim(s), |s| - |TrimStart(s)|;
      && k + |r| <= |s| && r == s[k..k + |r|]
      && AllWhiteSpace(s[..k]) && AllWhiteSpace(s[k + |r|..])
      && (r != [] ==> !IsWhiteSpace(r[0]) && !IsWhiteSpace(r[|r| - 1]))
  {
    var t := TrimStart(s);
    TrimStartSuffix(s);
    TrimEndPrefix(t);
    var r := Trim(s);
    if r != [] {
      assert r[0] == t[0];
    }
    SliceShape(s, t, r);
  }

  /** A prefix `r` of a suffix `t` of `s` is a slice of `s`. What `t` leaves
      out of `s`, and what `r` leaves out of `t`, is white space when it is
      so in the larger string's terms. */
  lemma SliceShape(s: string, t: string, r: string)
    requires |t| <= |s| && t == s[|s| - |t|..] && AllWhiteSpace(s[..|s| - |t|])
    requires |r| <= |t| && r == t[..|r|] && AllWhiteSpace(t[|r|..])
    ensures var k := |s| - |t|;
      && k + |r| <= |s| && r == s[k..k + |r|]
      && AllWhiteSpace(s[..k]) && AllWhiteSpace(s[k + |r|..])
  {
    var k := |s| - |t|;
    assert s[k + |r|..] == t[|r|..];
  }

  /** A string is blank exactly when every character of it is white space. */
  lemma BlankIffAllWhiteSpace(s: string)
    ensures IsBlank(s) <==> AllWhiteSpace(s)
  {
    TrimSlice(s);
    var k := |s| - |TrimStart(s)|;
    if IsBlank(s) {
      assert s == s[..k] + s[k..];
      forall i | 0 <= i < |s| ensures IsWhiteSpace(s[i]) {
        if i < k {
          assert s[..k][i] == s[i];
        } else {
          assert s[k..][i - k] == s[i];
        }
      }
    } else {
      assert s[k] == Trim(s)[0];
    }
  }

  /** The ASCII case mapping that `toLowerCase` applies to `A`..`Z`. */
  function LowerChar(c: char): char {
    if 'A' <= c <= 'Z' then (c as int + 32) as char else c
  }

  /** `s.toLowerCase()`, restricted to the ASCII letters. */
  function ToLower(s: string): (r: string)
    ensures |r| == |s|
  {
    seq(|s|, i requires 0 <= i < |s| => LowerChar(s[i]))
  }

  /** `hay.includes(needle)`: `needle` occurs in `hay` at some position. */
  predicate Includes(hay: string, needle: string) {
    exists i :: 0 <= i <= |hay| - |needle| && OccursAt(hay, needle, i)
  }

  predicate OccursAt(hay: string, needle: string, i: int)
    requires 0 <= i <= |hay| - |needle|
  {
    hay[i..i + |needle|] == needle
  }

  /** The empty string is included in every string. */
  lemma IncludesEmpty(hay: string)
    ensures Includes(hay, "")
  {
    assert OccursAt(hay, "", 0);
  }

  /** `s.startsWith(prefix)`. */
  predicate StartsWith(s: string, prefix: string) {
    |prefix| <= |s| && s[..|prefix|] == prefix
  }

  /** The relational `a < b` on two JavaScript strings: lexicographic order on
      characters, where a proper prefix is smaller. */
  predicate Less(a: string, b: string) {
    if a == [] then b != []
    else if b == [] then false
    else if a[0] != b[0] then a[0] < b[0]
    else Less(a[1..], b[1..])
  }

  lemma {:induction false} LessIrreflexive(a: string)
    ensures !Less(a, a)
  {
    if a != [] { LessIrreflexive(a[1..]); }
  }

  lemma {:induction false} LessAsymmetric(a: string, b: string)
    ensures Less(a, b) ==> !Less(b, a)
  {
    if a != [] && b != [] && a[0] == b[0] { LessAsymmetric(a[1..], b[1..]); }
  }

  lemma {:induction false} LessTransitive(a: string, b: string, c: string)
    ensures Less(a, b) && Less(b, c) ==> Less(a, c)
  {
    if a != [] && b != [] && c != [] && a[0] == b[0] == c[0] {
      LessTransitive(a[1..], b[1..], c[1..]);
    }
  }

  /** Two different strings are always ordered one way or the other. */
  lemma {:induction false} LessTotal(a: string, b: string)
    ensures a == b || Less(a, b) || Less(b, a)
  {
    if a != [] && b != [] && a[0] == b[0] {
      LessTotal(a[1..], b[1..]);
      if a[1..] == b[1..] { assert a == [a[0]] + a[1..] && b == [b[0]] + b[1..]; }
    }
  }

  /** The character `'0'` to `'9'` of a decimal digit. */
  function DigitChar(d: nat): char
    requires d < 10
  {
    ('0' as int + d) as char
  }

  /** The decimal digits of a non-negative integer, without leading zeros. */
  function NatToString(n: nat): (r: string)
    ensures 1 <= |r|
    ensures n >= 10 ==> |r| >= 2
    ensures r[0] != '-'
  {
    if n < 10 then [DigitChar(n)] else NatToString(n / 10) + [DigitChar(n % 10)]
  }

  /** `String(n)` for an integer `n`, as `toString` and template literals render it. */
  function IntToString(n: int): (r: string)
    ensures |r| >= 1
  {
    if n < 0 then "-" + NatToString(-n) else NatToString(n)
  }

  lemma DigitCharInjective(d: nat, e: nat)
    requires d < 10 && e < 10
    ensures DigitChar(d) == DigitChar(e) ==> d == e
  {
  }

  /** Different numbers are rendered differently. */
  lemma {:induction false} NatToStringInjective(n: nat, m: nat)
    ensures NatToString(n) == NatToString(m) ==> n == m
  {
    var r, q := NatToString(n), NatToString(m);
    if r == q && n >= 10 && m >= 10 {
      assert NatToString(n / 10) == r[..|r| - 1] == q[..|q| - 1] == NatToString(m / 10);
      NatToStringInjective(n / 10, m / 10);
      DigitCharInjective(n % 10, m % 10);
    } else if r == q && n < 10 && m < 10 {
      DigitCharInjective(n, m);
    }
  }

  lemma IntToStringInjective(n: int, m: int)
    ensures IntToString(n) == IntToString(m) ==> n == m
  {
    if IntToString(n) == IntToString(m) {
      if n < 0 && m < 0 {
        assert NatToString(-n) == IntToString(n)[1..] == IntToString(m)[1..] == NatToString(-m);
        NatToStringInjective(-n, -m);
      } else if n >= 0 && m >= 0 {
        NatToStringInjective(n, m);
      }
    }
  }

  /** The one-character rendering `"d"` of a digit is produced by that digit and
      by no other integer. */
  lemma SingleDigitRendering(n: int, d: nat)
    requires d < 10
    ensures IntToString(n) == [DigitChar(d)] <==> n == d
  {
    if IntToString(n) == [DigitChar(d)] {
      if n >= 0 {
        assert n < 10;
      }
    }
  }
}
