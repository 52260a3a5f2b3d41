/**
 Strings as the source sees them: Python `str` values are sequences of code points,
 compared lexicographically, stripped and lower-cased with the built-in methods.
 */
module Text {

  datatype Option<+T> = None | Some(value: T)

  /** Python's `x or y` on optional strings. */
  function OrElse(x: Option<string>, y: string): string
  {
    if x.Some? && x.value != "" then x.value else y
  }

  // ----- order -----

  /** Python's `a <= b` on strings. */
  predicate StrLe(a: string, b: string)
  {
    a == [] || (b != [] && (a[0] < b[0] || (a[0] == b[0] && StrLe(a[1..], b[1..]))))
  }

  lemma StrLeTotal(a: string, b: string)
    ensures StrLe(a, b) || StrLe(b, a)
  {}

  lemma {:induction false} StrLeAntisymmetric(a: string, b: string)
    requires StrLe(a, b) && StrLe(b, a)
    ensures a == b
  {
    if a != [] && b != [] {
      StrLeAntisymmetric(a[1..], b[1..]);
      assert a == [a[0]] + a[1..] && b == [b[0]] + b[1..];
    }
  }

  lemma {:induction false} StrLeTransitive(a: string, b: string, c: string)
    requires StrLe(a, b) && StrLe(b, c)
    ensures StrLe(a, c)
  {
    if a != [] && b != [] && c != [] && a[0] == b[0] == c[0] {
      StrLeTransitive(a[1..], b[1..], c[1..]);
    }
  }

  // ----- decimal integers, as `str(n)` and `json.dumps(n)` print them -----

  function Digit(d: nat): char
    requires d < 10
  {
    '0' + d as char
  }

  predicate IsDigit(c: char)
  {
    '0' <= c <= '9'
  }

  function DecimalNat(n: nat): (s: string)
    ensures s != [] && forall i :: 0 <= i < |s| ==> IsDigit(s[i])
  {
    if n < 10 then [Digit(n)] else DecimalNat(n / 10) + [Digit(n % 10)]
  }

  function Decimal(n: int): (s: string)
    ensures s != [] && (s[0] == '-' || IsDigit(s[0]))
    ensures forall i :: 1 <= i < |s| ==> IsDigit(s[i])
  {
    if n < 0 then "-" + DecimalNat(-n) else DecimalNat(n)
  }

  lemma {:induction false} DecimalNatInjective(m: nat, n: nat)
    requires DecimalNat(m) == DecimalNat(n)
    ensures m == n
  {
    var s := DecimalNat(m);
    if m < 10 && n < 10 {
      assert s[0] == Digit(m) == Digit(n);
    } else if m >= 10 && n >= 10 {
      assert s[|s| - 1] == Digit(m % 10) == Digit(n % 10);
      assert s[..|s| - 1] == DecimalNat(m / 10) == DecimalNat(n / 10);
      DecimalNatInjective(m / 10, n / 10);
    }
  }

  lemma DecimalInjective(m: int, n: int)
    requires Decimal(m) == Decimal(n)
    ensures m == n
  {
    assert Decimal(m)[0] == '-' <==> m < 0;
    assert Decimal(n)[0] == '-' <==> n < 0;
    if m < 0 {
      assert Decimal(m)[1..] == DecimalNat(-m) && Decimal(n)[1..] == DecimalNat(-n);
      DecimalNatInjective(-m, -n);
    } else {
      DecimalNatInjective(m, n);
    }
  }

  // ----- strip and lower -----

  /** The code points Python's `str.isspace` accepts. */
  predicate IsSpace(c: char)
  {
    || '\t' <= c <= '\r' || '\U{1c}' <= c <= ' '
    || c == '\U{85}' || c == '\U{a0}' || c == '\U{1680}' || '\U{2000}' <= c <= '\U{200a}'
    || c == '\U{2028}' || c == '\U{2029}' || c == '\U{202f}' || c == '\U{205f}' || c == '\U{3000}'
  }

  function LStrip(s: string): string
  {
    if s != [] && IsSpace(s[0]) then LStrip(s[1..]) else s
  }

  function RStrip(s: string): string
  {
    if s != [] && IsSpace(s[|s| - 1]) then RStrip(s[..|s| - 1]) else s
  }

  function Strip(s: string): string
  {
    RStrip(LStrip(s))
  }

  /** No white space at either end: what `strip` leaves alone. */
  predicate Stripped(s: string)
  {
    s == [] || (!IsSpace(s[0]) && !IsSpace(s[|s| - 1]))
  }

  lemma {:induction false} LStripSuffix(s: string)
    ensures LStrip(s) == [] || !IsSpace(LStrip(s)[0])
    ensures |LStrip(s)| <= |s| && LStrip(s) == s[|s| - |LStrip(s)|..]
  {
    if s != [] && IsSpace(s[0]) {
      LStripSuffix(s[1..]);
    }
  }

  lemma {:induction false} RStripPrefix(s: string)
    ensures RStrip(s) == [] || !IsSpace(RStrip(s)[|RStrip(s)| - 1])
    ensures RStrip(s) <= s
  {
    if s != [] && IsSpace(s[|s| - 1]) {
      RStripPrefix(s[..|s| - 1]);
    }
  }

  lemma StripStripped(s: string)
    ensures Stripped(Strip(s))
    ensures Stripped(s) ==> Strip(s) == s
  {
    LStripSuffix(s);
    RStripPrefix(LStrip(s));
  }

  /** `str.lower` on ASCII; other characters are left as they are. */
  function LowerChar(c: char): char
  {
    if 'A' <= c <= 'Z' then c + ('a' - 'A') else c
  }

  function Lower(s: string): (r: string)
    ensures |r| == |s| && forall i :: 0 <= i < |s| ==> r[i] == LowerChar(s[i])
  {
    if s == [] then [] else [LowerChar(s[0])] + Lower(s[1..])
  }

  lemma LowerIdempotent(s: string)
    ensures Lower(Lower(s)) == Lower(s)
  {}

  // ----- digests as text -----

  predicate IsHexLower(c: char)
  {
    '0' <= c <= '9' || 'a' <= c <= 'f'
  }

  /** 64 lower-case hexadecimal characters, the text form of a SHA-256 digest. */
  predicate IsHex64(s: string)
  {
    |s| == 64 && forall i :: 0 <= i < |s| ==> IsHexLower(s[i])
  }

  lemma LowerOfHex(s: string)
    requires IsHex64(s)
    ensures Lower(s) == s
  {}
}
