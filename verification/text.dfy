/**
 * String primitives of the JavaScript runtime that the modelled code relies
 * on: `String.prototype.includes`, `trim`, `toLowerCase`, the `\s` class of
 * regular expressions, `length` (counted in UTF-16 code units) and the
 * decimal rendering of an integer in a template literal.
 */
module Text {

  /** ECMAScript WhiteSpace and LineTerminator code points: the set that both
      `String.prototype.trim` and the regular-expression class `\s` use. */
  predicate IsWhitespace(c: char) {
    || c == '\t' || c == '\n' || c == '\U{000B}' || c == '\U{000C}' || c == '\r'
    || c == ' ' || c == '\U{00A0}' || c == '\U{1680}'
    || ('\U{2000}' <= c <= '\U{200A}')
    || c == '\U{2028}' || c == '\U{2029}' || c == '\U{202F}' || c == '\U{205F}'
    || c == '\U{3000}' || c == '\U{FEFF}'
  }

  predicate AllWhitespace(s: string) {
    forall i | 0 <= i < |s| :: IsWhitespace(s[i])
  }

  predicate StartsWith(s: string, prefix: string) {
    |prefix| <= |s| && s[..|prefix|] == prefix
  }

  /** `s.includes(k)`: `k` occurs in `s` at some position. */
  predicate Contains(s: string, k: string)
    ensures Contains(s, k) ==> |k| <= |s|
    decreases |s|
  {
    StartsWith(s, k) || (|s| > 0 && Contains(s[1..], k))
  }

  /** A string contains every infix placed in it. */
  lemma {:induction false} ContainsInfix(a: string, k: string, b: string)
    ensures Contains(a + k + b, k)
  {
    if a == [] {
      assert a + k + b == k + b;
      assert (k + b)[..|k|] == k;
    } else {
      assert (a + k + b)[1..] == a[1..] + k + b;
      ContainsInfix(a[1..], k, b);
    }
  }

  /** Relates the recursive definition to a position: `k` occurs at index `i`. */
  lemma {:induction false} ContainsAt(s: string, k: string, i: nat)
    requires i + |k| <= |s| && s[i..i + |k|] == k
    ensures Contains(s, k)
  {
    if i == 0 {
      assert s[..|k|] == s[0..|k|];
    } else {
      assert s[1..][i - 1..i - 1 + |k|] == s[i..i + |k|];
      ContainsAt(s[1..], k, i - 1);
    }
  }

  /** Every occurrence found by the recursive definition is at some index. */
  lemma {:induction false} ContainsWitness(s: string, k: string) returns (i: nat)
    requires Contains(s, k)
    ensures i + |k| <= |s| && s[i..i + |k|] == k
    decreases |s|
  {
    if StartsWith(s, k) {
      i := 0;
    } else {
      var j := ContainsWitness(s[1..], k);
      assert s[1..][j..j + |k|] == s[j + 1..j + 1 + |k|];
      i := j + 1;
    }
  }

  // ---------------------------------------------------------------------
  // Trimming

  /** The leading-whitespace removal half of `trim`. */
  function TrimStart(s: string): (r: string)
    ensures |r| <= |s| && r == s[|s| - |r|..]
    ensures AllWhitespace(s[..|s| - |r|])
    ensures r == [] || !IsWhitespace(r[0])
    decreases |s|
  {
    if s != [] && IsWhitespace(s[0]) then
      var r := TrimStart(s[1..]);
      assert s[..|s| - |r|] == [s[0]] + s[1..][..|s| - 1 - |r|];
      r
    else s
  }

  /** The trailing-whitespace removal half of `trim`. */
  function TrimEnd(s: string): (r: string)
    ensures |r| <= |s| && r == s[..|r|]
    ensures AllWhitespace(s[|r|..])
    ensures r == [] || !IsWhitespace(r[|r| - 1])
    decreases |s|
  {
    if s != [] && IsWhitespace(s[|s| - 1]) then
      var r := TrimEnd(s[..|s| - 1]);
      assert s[|r|..] == s[..|s| - 1][|r|..] + [s[|s| - 1]];
      r
    else s
  }

  /** `r` sits in `s` at index `i` with only whitespace around it. */
  predicate IsTrimmedSlice(s: string, r: string, i: nat) {
    && i + |r| <= |s|
    && r == s[i..i + |r|]
    && AllWhitespace(s[..i])
    && AllWhitespace(s[i + |r|..])
  }

  /** `String.prototype.trim`: the longest slice of `s` that neither starts
      nor ends with whitespace, with only whitespace cut away around it. */
  function Trim(s: string): (r: string)
    ensures r == [] || (!IsWhitespace(r[0]) && !IsWhitespace(r[|r| - 1]))
    ensures IsTrimmedSlice(s, r, |s| - |TrimStart(s)|)
  {
    var t := TrimStart(s);
    var r := TrimEnd(t);
    TrimSlice(s, t, r);
    r
  }

  lemma TrimSlice(s: string, t: string, r: string)
    requires |t| <= |s| && t == s[|s| - |t|..] && AllWhitespace(s[..|s| - |t|])
    requires |r| <= |t| && r == t[..|r|] && AllWhitespace(t[|r|..])
    ensures IsTrimmedSlice(s, r, |s| - |t|)
  {
    var i := |s| - |t|;
    assert s[i + |r|..] == t[|r|..];
    assert s[i..i + |r|] == t[..|r|];
  }

  /** A string that is entirely whitespace trims to the empty string. */
  lemma TrimAllWhitespace(s: string)
    requires AllWhitespace(s)
    ensures Trim(s) == []
  {
  }

  /** Trimming a string without leading or trailing whitespace is the identity. */
  lemma TrimNoOuterWhitespace(s: string)
    requires s == [] || (!IsWhitespace(s[0]) && !IsWhitespace(s[|s| - 1]))
    ensures Trim(s) == s
  {
  }

  /** `trim` is idempotent. */
  lemma TrimIdempotent(s: string)
    ensures Trim(Trim(s)) == Trim(s)
  {
    TrimNoOuterWhitespace(Trim(s));
  }

  // ---------------------------------------------------------------------
  // Case mapping

  /** `toLowerCase` of one code point. ASCII letters are lowered; KELVIN SIGN
      (U+212A) lowers to `k` and LATIN CAPITAL LETTER I WITH DOT ABOVE (U+0130)
      to `i` followed by U+0307 — the only code points outside ASCII whose
      lower-case form contains an ASCII character. Every other code point is
      kept as it is. */
  function LowerChar(c: char): string {
    if 'A' <= c <= 'Z' then [(c as int + 32) as char]
    else if c == '\U{212A}' then "k"
    else if c == '\U{0130}' then "i\U{0307}"
    else [c]
  }

  /** `toLowerCase`: a code point lowers to one or two code points. */
  function ToLowerCase(s: string): (r: string)
    ensures |s| <= |r| <= 2 * |s|
    decreases |s|
  {
    if s == [] then [] else LowerChar(s[0]) + ToLowerCase(s[1..])
  }

  /** On ASCII text lower-casing works character by character: a capital
      letter becomes its small letter and every other character is kept. */
  lemma {:induction false} LowerAscii(s: string)
    requires forall i | 0 <= i < |s| :: s[i] < '\U{80}'
    ensures |ToLowerCase(s)| == |s|
    ensures forall i | 0 <= i < |s| ::
              ToLowerCase(s)[i] == if 'A' <= s[i] <= 'Z' then (s[i] as int + 32) as char else s[i]
    decreases |s|
  {
    if s != [] {
      LowerAscii(s[1..]);
      assert ToLowerCase(s) == LowerChar(s[0]) + ToLowerCase(s[1..]);
      assert |LowerChar(s[0])| == 1;
      forall i | 0 <= i < |s|
        ensures ToLowerCase(s)[i] == if 'A' <= s[i] <= 'Z' then (s[i] as int + 32) as char else s[i]
      {
        if i > 0 {
          assert s[1..][i - 1] == s[i];
        }
      }
    }
  }

  /** No ASCII capital survives lower-casing, and the length changes only
      where U+0130 expands to two code points. */
  lemma {:induction false} LowerCaseShape(s: string)
    ensures forall i | 0 <= i < |ToLowerCase(s)| :: !('A' <= ToLowerCase(s)[i] <= 'Z')
    ensures (forall i | 0 <= i < |s| :: s[i] != '\U{0130}') ==> |ToLowerCase(s)| == |s|
    decreases |s|
  {
    if s != [] {
      var head := LowerChar(s[0]);
      var rest := ToLowerCase(s[1..]);
      LowerCaseShape(s[1..]);
      assert ToLowerCase(s) == head + rest;
      assert forall i | 0 <= i < |s| - 1 :: s[1..][i] == s[i + 1];
      forall i | 0 <= i < |head + rest| ensures !('A' <= (head + rest)[i] <= 'Z') {
        if i >= |head| {
          assert (head + rest)[i] == rest[i - |head|];
        }
      }
    }
  }

  function UpperAsciiChar(c: char): char {
    if 'a' <= c <= 'z' then (c as int - 32) as char else c
  }

  /** Upper-cases the ASCII letters of `s`. */
  function ToUpperAscii(s: string): (r: string)
    ensures |r| == |s|
    decreases |s|
  {
    if s == [] then [] else [UpperAsciiChar(s[0])] + ToUpperAscii(s[1..])
  }

  /** Lower-casing forgets ASCII case: upper-casing first changes nothing. */
  lemma {:induction false} LowerIgnoresAsciiCase(s: string)
    ensures ToLowerCase(ToUpperAscii(s)) == ToLowerCase(s)
    decreases |s|
  {
    if s != [] {
      var u := ToUpperAscii(s);
      assert u[0] == UpperAsciiChar(s[0]) && u[1..] == ToUpperAscii(s[1..]);
      LowerIgnoresAsciiCase(s[1..]);
    }
  }

  lemma {:induction false} LowerConcat(a: string, b: string)
    ensures ToLowerCase(a + b) == ToLowerCase(a) + ToLowerCase(b)
    decreases |a|
  {
    if a != [] {
      assert (a + b)[0] == a[0] && (a + b)[1..] == a[1..] + b;
      LowerConcat(a[1..], b);
      calc {
        ToLowerCase(a + b);
        LowerChar(a[0]) + ToLowerCase(a[1..] + b);
        LowerChar(a[0]) + (ToLowerCase(a[1..]) + ToLowerCase(b));
        (LowerChar(a[0]) + ToLowerCase(a[1..])) + ToLowerCase(b);
      }
    } else {
      assert a + b == b;
    }
  }

  /** Lower-casing twice is lower-casing once. */
  lemma {:induction false} LowerIdempotent(s: string)
    ensures ToLowerCase(ToLowerCase(s)) == ToLowerCase(s)
    decreases |s|
  {
    if s != [] {
      var head := LowerChar(s[0]);
      LowerConcat(head, ToLowerCase(s[1..]));
      LowerIdempotent(s[1..]);
      if |head| == 2 {
        assert head == "i\U{0307}";
        assert head[1..] == "\U{0307}";
      }
    }
  }

  // ---------------------------------------------------------------------
  // Length and numbers

  /** JavaScript's `length`: UTF-16 code units, two for a code point beyond
      the Basic Multilingual Plane. */
  function Utf16Length(s: string): (n: nat)
    ensures |s| <= n <= 2 * |s|
    ensures n == |s| <==> forall i | 0 <= i < |s| :: s[i] as int <= 0xFFFF
    decreases |s|
  {
    if s == [] then 0
    else
      var rest := Utf16Length(s[1..]);
      assert forall i | 1 <= i < |s| :: s[i] == s[1..][i - 1];
      (if s[0] as int > 0xFFFF then 2 else 1) + rest
  }

  predicate IsDigit(c: char) {
    '0' <= c <= '9'
  }

  function DigitChar(d: nat): (c: char)
    requires d < 10
    ensures IsDigit(c)
  {
    ('0' as int + d) as char
  }

  /** The decimal numeral of a natural number: how a template literal renders
      a number below 10^21 (larger ones are rendered in exponent form). */
  function NatToString(n: nat): (r: string)
    ensures |r| >= 1
    ensures forall i | 0 <= i < |r| :: IsDigit(r[i])
    ensures r[0] == '0' ==> n == 0
  {
    if n < 10 then [DigitChar(n)] else NatToString(n / 10) + [DigitChar(n % 10)]
  }

  /** The value of a string of decimal digits (the partner of NatToString). */
  function ParseDigits(s: string): nat
    requires forall i | 0 <= i < |s| :: IsDigit(s[i])
  {
    if s == [] then 0
    else
      assert IsDigit(s[|s| - 1]);
      ParseDigits(s[..|s| - 1]) * 10 + (s[|s| - 1] as int - '0' as int)
  }

  lemma {:induction false} NatToStringRoundTrip(n: nat)
    ensures ParseDigits(NatToString(n)) == n
  {
    if n >= 10 {
      var r := NatToString(n);
      assert r[..|r| - 1] == NatToString(n / 10);
      NatToStringRoundTrip(n / 10);
    }
  }

  /** The decimal numeral of an integer, with a leading `-` when negative; a
      template literal renders an integer of magnitude below 10^21 this way. */
  function IntToString(i: int): (r: string)
    ensures |r| >= 1 && (r[0] == '-' <==> i < 0)
    ensures i >= 0 ==> r == NatToString(i)
    ensures i < 0 ==> r[1..] == NatToString(-i)
  {
    if i < 0 then "-" + NatToString(-i) else NatToString(i)
  }
}
