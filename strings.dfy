/**
 * The JavaScript string operations the client relies on: `trim`, `toLowerCase`
 * (restricted to ASCII letters), `includes`, and the decimal rendering of a
 * number inside a template literal.
 */
module Strings {

  /** The code points `String.prototype.trim` strips: ECMAScript WhiteSpace and LineTerminator. */
  predicate IsJsWhitespace(c: char) {
    || c == '\t' || c == '\n' || c == '\U{B}' || c == '\U{C}' || c == '\r' || c == ' '
    || c == '\U{A0}' || c == '\U{1680}' || ('\U{2000}' <= c <= '\U{200A}')
    || c == '\U{2028}' || c == '\U{2029}' || c == '\U{202F}' || c == '\U{205F}'
    || c == '\U{3000}' || c == '\U{FEFF}'
  }

  /** Strips leading whitespace. */
  function TrimStart(s: string): string
    decreases |s|
  {
    if s != [] && IsJsWhitespace(s[0]) then TrimStart(s[1..]) else s
  }

  /** Strips trailing whitespace. */
  function TrimEnd(s: string): string
    decreases |s|
  {
    if s != [] && IsJsWhitespace(s[|s| - 1]) then TrimEnd(s[..|s| - 1]) else s
  }

  /** `TrimStart` gives the longest suffix that does not start with whitespace. */
  lemma {:induction false} TrimStartSpec(s: string)
    ensures |TrimStart(s)| <= |s| && TrimStart(s) == s[|s| - |TrimStart(s)|..]
    ensures TrimStart(s) == [] || !IsJsWhitespace(TrimStart(s)[0])
    ensures forall i :: 0 <= i < |s| - |TrimStart(s)| ==> IsJsWhitespace(s[i])
    decreases |s|
  {
    if s != [] && IsJsWhitespace(s[0]) {
      TrimStartSpec(s[1..]);
    }
  }

  /** `TrimEnd` gives the longest prefix that does not end with whitespace. */
  lemma {:induction false} TrimEndSpec(s: string)
    ensures |TrimEnd(s)| <= |s| && TrimEnd(s) == s[..|TrimEnd(s)|]
    ensures TrimEnd(s) == [] || !IsJsWhitespace(TrimEnd(s)[|TrimEnd(s)| - 1])
    ensures forall i :: |TrimEnd(s)| <= i < |s| ==> IsJsWhitespace(s[i])
    decreases |s|
  {
    if s != [] && IsJsWhitespace(s[|s| - 1]) {
      TrimEndSpec(s[..|s| - 1]);
    }
  }

  /**
   * `s.trim()`: the piece of `s` left after dropping its leading and trailing
   * whitespace, which neither starts nor ends with whitespace.
   */
  function Trim(s: string): (r: string)
    ensures |r| <= |s|
    ensures exists a :: OccursAt(s, r, a) && (forall i :: 0 <= i < a ==> IsJsWhitespace(s[i]))
                        && (forall i :: a + |r| <= i < |s| ==> IsJsWhitespace(s[i]))
    ensures r == [] || (!IsJsWhitespace(r[0]) && !IsJsWhitespace(r[|r| - 1]))
  {
    TrimStartSpec(s);
    TrimEndSpec(TrimStart(s));
    var r := TrimEnd(TrimStart(s));
    assert s[|s| - |TrimStart(s)|..][..|r|] == s[|s| - |TrimStart(s)|..|s| - |TrimStart(s)| + |r|];
    assert OccursAt(s, r, |s| - |TrimStart(s)|);
    r
  }

  /** `!s.trim()`: the trimmed string is the falsy empty string, that is, `s` is all whitespace. */
  predicate IsBlank(s: string): (b: bool)
    ensures b <==> forall i :: 0 <= i < |s| ==> IsJsWhitespace(s[i])
  {
    TrimEmptyIffAllWhitespace(s);
    Trim(s) == []
  }

  /** Trimming leaves nothing exactly when every character is whitespace. */
  lemma TrimEmptyIffAllWhitespace(s: string)
    ensures Trim(s) == [] <==> forall i :: 0 <= i < |s| ==> IsJsWhitespace(s[i])
  {
    var t := TrimStart(s);
    TrimStartSpec(s);
    TrimEndSpec(t);
    assert t != [] ==> t[0] == s[|s| - |t|];
    assert forall i :: |s| - |t| <= i < |s| ==> s[i] == t[i - (|s| - |t|)];
  }

  function LowerChar(c: char): char {
    if 'A' <= c <= 'Z' then (c as int + 32) as char else c
  }

  function UpperChar(c: char): char {
    if 'a' <= c <= 'z' then (c as int - 32) as char else c
  }

  /** `s.toLowerCase()` on ASCII letters; every other character is kept. */
  function ToLower(s: string): string
    decreases |s|
  {
    if s == [] then [] else [LowerChar(s[0])] + ToLower(s[1..])
  }

  /** `s.toUpperCase()` on ASCII letters; every other character is kept. */
  function ToUpper(s: string): string
    decreases |s|
  {
    if s == [] then [] else [UpperChar(s[0])] + ToUpper(s[1..])
  }

  /** Lower-casing forgets how the input was cased. */
  lemma {:induction false} LowerOfUpper(s: string)
    ensures ToLower(ToUpper(s)) == ToLower(s)
    decreases |s|
  {
    if s != [] {
      LowerOfUpper(s[1..]);
    }
  }

  /** Lower-casing a lower-cased string changes nothing. */
  lemma {:induction false} LowerIdempotent(s: string)
    ensures ToLower(ToLower(s)) == ToLower(s)
    decreases |s|
  {
    if s != [] {
      LowerIdempotent(s[1..]);
    }
  }

  lemma {:induction false} UpperLength(s: string)
    ensures |ToUpper(s)| == |s|
    ensures forall i :: 0 <= i < |s| ==> ToUpper(s)[i] == UpperChar(s[i])
    decreases |s|
  {
    if s != [] {
      UpperLength(s[1..]);
    }
  }

  /** Letters are never whitespace, so changing their case keeps whitespace as it is. */
  lemma UpperKeepsWhitespace(c: char)
    ensures IsJsWhitespace(UpperChar(c)) == IsJsWhitespace(c)
  {
  }

  /** Changing the case of letters neither creates nor removes whitespace, so trimming commutes with it. */
  lemma TrimUpper(s: string)
    ensures Trim(ToUpper(s)) == ToUpper(Trim(s))
  {
    UpperStartCommutes(s);
    UpperEndCommutes(TrimStart(s));
  }

  lemma {:induction false} UpperStartCommutes(s: string)
    ensures TrimStart(ToUpper(s)) == ToUpper(TrimStart(s))
    decreases |s|
  {
    if s != [] {
      UpperKeepsWhitespace(s[0]);
      var u := ToUpper(s);
      assert u[0] == UpperChar(s[0]) && u[1..] == ToUpper(s[1..]);
      if IsJsWhitespace(s[0]) {
        UpperStartCommutes(s[1..]);
      }
    }
  }

  lemma {:induction false} UpperAppend(a: string, b: string)
    ensures ToUpper(a + b) == ToUpper(a) + ToUpper(b)
    decreases |a|
  {
    if a != [] {
      assert (a + b)[1..] == a[1..] + b;
      UpperAppend(a[1..], b);
    } else {
      assert a + b == b;
    }
  }

  lemma {:induction false} UpperEndCommutes(s: string)
    ensures TrimEnd(ToUpper(s)) == ToUpper(TrimEnd(s))
    decreases |s|
  {
    UpperLength(s);
    if s != [] {
      var init := s[..|s| - 1];
      assert s == init + [s[|s| - 1]];
      UpperAppend(init, [s[|s| - 1]]);
      UpperLength(init);
      var u := ToUpper(s);
      assert u[..|u| - 1] == ToUpper(init);
      assert u[|u| - 1] == UpperChar(s[|s| - 1]);
      UpperKeepsWhitespace(s[|s| - 1]);
      if IsJsWhitespace(s[|s| - 1]) {
        UpperEndCommutes(init);
      }
    }
  }

  /** `h` begins with `n`. */
  predicate StartsWith(h: string, n: string) {
    |n| <= |h| && h[..|n|] == n
  }

  /** `h.includes(n)`: `n` occurs in `h` at some offset; the empty string occurs everywhere. */
  predicate Contains(h: string, n: string)
    decreases |h|
  {
    StartsWith(h, n) || (h != [] && Contains(h[1..], n))
  }

  /** `n` occurs in `h` starting at offset `i`. */
  predicate OccursAt(h: string, n: string, i: int) {
    0 <= i && i + |n| <= |h| && h[i..i + |n|] == n
  }

  /** `n` occurs in `h` at some offset. */
  ghost predicate OccursIn(h: string, n: string) {
    exists i :: OccursAt(h, n, i)
  }

  /** `Contains` agrees with the positional definition of a substring. */
  lemma {:induction false} ContainsIffOccurs(h: string, n: string)
    ensures Contains(h, n) <==> exists i :: OccursAt(h, n, i)
    decreases |h|
  {
    if StartsWith(h, n) {
      assert OccursAt(h, n, 0);
    }
    if h != [] {
      ContainsIffOccurs(h[1..], n);
      if exists i :: OccursAt(h[1..], n, i) {
        var i :| OccursAt(h[1..], n, i);
        assert h[i + 1..i + 1 + |n|] == h[1..][i..i + |n|];
        assert OccursAt(h, n, i + 1);
      }
      if exists i :: OccursAt(h, n, i) {
        var i :| OccursAt(h, n, i);
        if i > 0 {
          assert h[1..][i - 1..i - 1 + |n|] == h[i..i + |n|];
          assert OccursAt(h[1..], n, i - 1);
        }
      }
    } else {
      if exists i :: OccursAt(h, n, i) {
        var i :| OccursAt(h, n, i);
        assert i == 0;
      }
    }
  }

  /** The empty string is included in every string. */
  lemma ContainsEmpty(h: string)
    ensures Contains(h, [])
  {
  }

  function DigitChar(d: nat): char
    requires d < 10
  {
    ('0' as int + d) as char
  }

  /** The decimal digits of `n`, most significant first, without leading zeros. */
  function NatToString(n: nat): (r: string)
    ensures 1 <= |r|
    ensures forall i :: 0 <= i < |r| ==> '0' <= r[i] <= '9'
    ensures |r| > 1 ==> r[0] != '0'
    decreases n
  {
    if n < 10 then [DigitChar(n)] else NatToString(n / 10) + [DigitChar(n % 10)]
  }

  /** The number a string of decimal digits denotes. */
  function DecimalValue(s: string): nat
    requires forall i :: 0 <= i < |s| ==> '0' <= s[i] <= '9'
    decreases |s|
  {
    if s == [] then 0 else DecimalValue(s[..|s| - 1]) * 10 + (s[|s| - 1] as int - '0' as int)
  }

  /** Reading back the rendered digits gives the number. */
  lemma {:induction false} NatToStringValue(n: nat)
    ensures DecimalValue(NatToString(n)) == n
    decreases n
  {
    if n >= 10 {
      NatToStringValue(n / 10);
      var r := NatToString(n);
      assert r[..|r| - 1] == NatToString(n / 10);
      assert r[|r| - 1] as int - '0' as int == n % 10;
      assert n == (n / 10) * 10 + n % 10;
    }
  }

  /** `${n}` for an integer `n`. */
  function IntToString(n: int): (r: string)
    ensures 1 <= |r| && (n < 0 <==> r[0] == '-')
    ensures n >= 0 ==> r == NatToString(n) && DecimalValue(r) == n
    ensures n < 0 ==> r[1..] == NatToString(-n) && DecimalValue(r[1..]) == -n
  {
    NatToStringValue(if n < 0 then -n else n);
    if n < 0 then "-" + NatToString(-n) else NatToString(n)
  }
}
