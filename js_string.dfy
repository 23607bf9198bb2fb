/**
 * The two JavaScript string conversions the link code relies on:
 * `String.prototype.trim` and the conversion of an integral number to
 * text inside a template literal.
 */
module JsString {

  /** A JavaScript WhiteSpace or LineTerminator code point (the set `trim` strips). */
  predicate IsWhitespace(c: char): (r: bool)
    ensures r ==> c as int < 0x1_0000   // all in the Basic Multilingual Plane
    ensures r ==> c != '/' && !IsDigit(c)
  {
    || ('\t' <= c <= '\r')                    // TAB, LF, VT, FF, CR
    || c == ' ' || c == '\U{A0}' || c == '\U{1680}'
    || ('\U{2000}' <= c <= '\U{200A}')
    || c == '\U{2028}' || c == '\U{2029}'     // LINE SEPARATOR, PARAGRAPH SEPARATOR
    || c == '\U{202F}' || c == '\U{205F}' || c == '\U{3000}'
    || c == '\U{FEFF}'                        // ZERO WIDTH NO-BREAK SPACE
  }

  /** Every character of `s` is whitespace (the empty string included). */
  predicate Blank(s: string) {
    forall i :: 0 <= i < |s| ==> IsWhitespace(s[i])
  }

  /** Neither end of `s` is whitespace: what `trim` leaves behind. */
  predicate Trimmed(s: string) {
    s == [] || (!IsWhitespace(s[0]) && !IsWhitespace(s[|s| - 1]))
  }

  /** `s` without its leading whitespace. */
  function TrimStart(s: string): (r: string)
    ensures |r| <= |s| && r == s[|s| - |r|..]
    ensures Blank(s[..|s| - |r|])
    ensures r == [] || !IsWhitespace(r[0])
  {
    if s == [] || !IsWhitespace(s[0]) then s else TrimStart(s[1..])
  }

  /** `s` without its trailing whitespace. */
  function TrimEnd(s: string): (r: string)
    ensures |r| <= |s| && r == s[..|r|]
    ensures Blank(s[|r|..])
    ensures r == [] || !IsWhitespace(r[|r| - 1])
  {
    if s == [] || !IsWhitespace(s[|s| - 1]) then s else TrimEnd(s[..|s| - 1])
  }

  /** `String.prototype.trim`: `s` without whitespace at either end. */
  function Trim(s: string): (r: string)
    ensures |r| <= |s|
    ensures Trimmed(r)
  {
    TrimEnd(TrimStart(s))
  }

  /** Whitespace in front of a string that starts with non-whitespace is all TrimStart removes. */
  lemma {:induction false} TrimStartBlankPrefix(a: string, u: string)
    requires Blank(a)
    requires u == [] || !IsWhitespace(u[0])
    ensures TrimStart(a + u) == u
  {
    if a != [] {
      assert (a + u)[0] == a[0];
      assert (a + u)[1..] == a[1..] + u;
      TrimStartBlankPrefix(a[1..], u);
    } else {
      assert a + u == u;
    }
  }

  /** Whitespace behind a string that ends with non-whitespace is all TrimEnd removes. */
  lemma {:induction false} TrimEndBlankSuffix(u: string, b: string)
    requires Blank(b)
    requires u == [] || !IsWhitespace(u[|u| - 1])
    ensures TrimEnd(u + b) == u
  {
    if b != [] {
      var n := |u + b|;
      assert (u + b)[n - 1] == b[|b| - 1];
      assert (u + b)[..n - 1] == u + b[..|b| - 1];
      TrimEndBlankSuffix(u, b[..|b| - 1]);
    } else {
      assert u + b == u;
    }
  }

  /**
   * Trim, characterised without reference to how it is computed: whenever `s`
   * is blank `a`, then a string `t` with no whitespace at its ends, then blank
   * `b`, trimming `s` gives exactly `t`.
   */
  lemma TrimOfPadded(a: string, t: string, b: string)
    requires Blank(a) && Blank(b) && Trimmed(t)
    ensures Trim(a + t + b) == t
  {
    if t == [] {
      assert a + t + b == (a + b) + [];
      assert Blank(a + b) by {
        forall i | 0 <= i < |a + b| ensures IsWhitespace((a + b)[i]) {
          if i < |a| { assert (a + b)[i] == a[i]; } else { assert (a + b)[i] == b[i - |a|]; }
        }
      }
      TrimStartBlankPrefix(a + b, []);
    } else {
      assert a + t + b == a + (t + b);
      assert (t + b)[0] == t[0];
      TrimStartBlankPrefix(a, t + b);
      TrimEndBlankSuffix(t, b);
    }
  }

  /** A suffix `u` of `s` and a prefix `r` of `u` put back together with what they dropped. */
  lemma Reassemble(s: string, u: string, r: string)
    requires |u| <= |s| && u == s[|s| - |u|..]
    requires |r| <= |u| && r == u[..|r|]
    ensures s == s[..|s| - |u|] + r + u[|r|..]
  {
    assert u == r + u[|r|..];
  }

  /** Conversely, every string is its trim padded on both sides with whitespace. */
  lemma TrimSplit(s: string) returns (a: string, b: string)
    ensures Blank(a) && Blank(b)
    ensures s == a + Trim(s) + b
  {
    var u := TrimStart(s);
    var r := TrimEnd(u);
    a := s[..|s| - |u|];
    b := u[|r|..];
    Reassemble(s, u, r);
  }

  /** Trimming twice is trimming once. */
  lemma TrimIdempotent(s: string)
    ensures Trim(Trim(s)) == Trim(s)
  {
    var t := Trim(s);
    assert t == [] + t + [];
    TrimOfPadded([], t, []);
  }

  /** `trim` gives the empty string exactly for blank input. */
  lemma TrimEmptyIffBlank(s: string)
    ensures Trim(s) == [] <==> Blank(s)
  {
    if Blank(s) {
      assert s == s + [] + [];
      TrimOfPadded(s, [], []);
    }
    if Trim(s) == [] {
      var a, b := TrimSplit(s);
      assert s == a + b;
      forall i | 0 <= i < |s| ensures IsWhitespace(s[i]) {
        if i < |a| { assert s[i] == a[i]; } else { assert s[i] == b[i - |a|]; }
      }
    }
  }

  // ---------------------------------------------------------------------
  // Integral numbers in template literals
  // ---------------------------------------------------------------------

  /**
   * 2^53: up to this magnitude every integer is a JavaScript number, and
   * JavaScript writes it with its exact decimal digits.
   */
  const MaxExactInteger: int := 9_007_199_254_740_992

  predicate IsDigit(c: char) {
    '0' <= c <= '9'
  }

  /** The decimal digits of `n`, most significant first, without leading zeros. */
  function NatToDecimal(n: nat): (r: string)
    decreases n
    ensures r != []
    ensures forall i :: 0 <= i < |r| ==> IsDigit(r[i])
    ensures r[0] == '0' ==> r == "0"
  {
    if n < 10 then [('0' as int + n) as char]
    else NatToDecimal(n / 10) + [('0' as int + n % 10) as char]
  }

  /** The value of a run of decimal digits (the empty run is 0). */
  function DecimalValue(s: string): nat
    requires forall i :: 0 <= i < |s| ==> IsDigit(s[i])
  {
    if s == [] then 0
    else
      assert IsDigit(s[|s| - 1]);
      10 * DecimalValue(s[..|s| - 1]) + (s[|s| - 1] as int - '0' as int)
  }

  /** Reading back the digits of `n` gives `n`. */
  lemma {:induction false} DecimalValueOfNat(n: nat)
    decreases n
    ensures DecimalValue(NatToDecimal(n)) == n
  {
    if n >= 10 {
      var r := NatToDecimal(n);
      assert r[..|r| - 1] == NatToDecimal(n / 10);
      DecimalValueOfNat(n / 10);
    }
  }

  /**
   * `${n}` for an integral number `n` of magnitude at most 2^53: an
   * optional minus sign and the decimal digits of its magnitude.
   */
  function NumberToString(n: int): (r: string)
    requires -MaxExactInteger <= n <= MaxExactInteger
    ensures r != []
    ensures r[0] == '-' <==> n < 0
    ensures forall i :: (if n < 0 then 1 else 0) <= i < |r| ==> IsDigit(r[i])
    ensures DecimalValue(r[(if n < 0 then 1 else 0)..]) == (if n < 0 then -n else n)
    ensures |r| > (if n < 0 then 1 else 0)
    ensures r[if n < 0 then 1 else 0] == '0' ==> n == 0   // no leading zero
  {
    DecimalValueOfNat(if n < 0 then -n else n);
    if n < 0 then
      assert ("-" + NatToDecimal(-n))[1..] == NatToDecimal(-n);
      "-" + NatToDecimal(-n)
    else NatToDecimal(n)
  }

  /** Different numbers are written differently. */
  lemma NumberToStringInjective(m: int, n: int)
    requires -MaxExactInteger <= m <= MaxExactInteger
    requires -MaxExactInteger <= n <= MaxExactInteger
    ensures NumberToString(m) == NumberToString(n) <==> m == n
  {
    if NumberToString(m) == NumberToString(n) {
      var s := NumberToString(m);
      assert (m < 0) == (n < 0);
      if m < 0 {
        assert NatToDecimal(-m) == s[1..] == NatToDecimal(-n);
      }
      DecimalValueOfNat(if m < 0 then -m else m);
      DecimalValueOfNat(if n < 0 then -n else n);
    }
  }
}
