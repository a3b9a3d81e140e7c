/** The few JavaScript string and number primitives the focus timer relies on:
    `String.prototype.trim`, a regular expression that is a plain substring
    test, decimal rendering of integers in template literals, and the
    truncating remainder operator `%`. */
module JsText {

  /** The code points `String.prototype.trim` removes: ECMAScript WhiteSpace
      (tab, vertical tab, form feed, space, no-break space, byte order mark
      and the Unicode space separators) and LineTerminator. */
  predicate IsWhitespace(c: char) {
    var n := c as int;
    n == 0x09 || n == 0x0A || n == 0x0B || n == 0x0C || n == 0x0D || n == 0x20 ||
    n == 0xA0 || n == 0x1680 || (0x2000 <= n <= 0x200A) || n == 0x2028 ||
    n == 0x2029 || n == 0x202F || n == 0x205F || n == 0x3000 || n == 0xFEFF
  }

  predicate AllWhitespace(s: string) {
    forall k :: 0 <= k < |s| ==> IsWhitespace(s[k])
  }

  /** Drops leading whitespace: the result is a suffix of `s`, only whitespace
      was dropped, and the result does not start with whitespace. */
  function TrimStart(s: string): (r: string)
    ensures |r| <= |s| && r == s[|s| - |r|..]
    ensures AllWhitespace(s[..|s| - |r|])
    ensures |r| > 0 ==> !IsWhitespace(r[0])
  {
    if |s| > 0 && IsWhitespace(s[0]) then TrimStart(s[1..]) else s
  }

  /** Drops trailing whitespace: the result is a prefix of `s`, only whitespace
      was dropped, and the result does not end with whitespace. */
  function TrimEnd(s: string): (r: string)
    ensures |r| <= |s| && r == s[..|r|]
    ensures AllWhitespace(s[|r|..])
    ensures |r| > 0 ==> !IsWhitespace(r[|r| - 1])
  {
    if |s| > 0 && IsWhitespace(s[|s| - 1]) then TrimEnd(s[..|s| - 1]) else s
  }

  /** `s.trim()`: the infix of `s` left after removing whitespace at both ends. */
  function Trim(s: string): (r: string)
    ensures TrimmedLead(s) + |r| <= |s|
    ensures |r| > 0 ==> !IsWhitespace(r[0]) && !IsWhitespace(r[|r| - 1])
    ensures r == s[TrimmedLead(s)..TrimmedLead(s) + |r|]
    ensures AllWhitespace(s[..TrimmedLead(s)]) && AllWhitespace(s[TrimmedLead(s) + |r|..])
  {
    var t := TrimStart(s);
    var j := |s| - |t|;
    var r := TrimEnd(t);
    assert t == s[j..];
    assert s[j..j + |r|] == t[..|r|];
    assert s[j + |r|..] == t[|r|..];
    assert |r| > 0 ==> r[0] == t[0];
    r
  }

  /** How many leading characters `Trim` removes. */
  function TrimmedLead(s: string): nat {
    |s| - |TrimStart(s)|
  }

  /** The error condition of category names: `trim()` yields the empty string
      exactly when the name is empty or consists of whitespace only. */
  lemma TrimEmptyIffBlank(s: string)
    ensures Trim(s) == [] <==> AllWhitespace(s)
  {
    var k := TrimmedLead(s);
    if Trim(s) == [] {
      var t := TrimStart(s);
      assert t[0..] == t;
      assert |t| == 0;
      forall m | 0 <= m < |s| ensures IsWhitespace(s[m]) {
        assert s[..k][m] == s[m];
      }
    } else {
      assert s[k] == Trim(s)[0];
    }
  }

  predicate StartsWith(s: string, p: string) {
    |p| <= |s| && s[..|p|] == p
  }

  /** `s.match(/p/)` for a pattern `p` without metacharacters: true when `p`
      occurs somewhere in `s`, tried from each start position in turn. */
  predicate Contains(s: string, p: string)
    decreases |s|
  {
    StartsWith(s, p) || (|s| > 0 && Contains(s[1..], p))
  }

  /** Contains is the substring relation: `p` occurs at some index `i`. */
  lemma {:induction false} ContainsAt(s: string, p: string, i: nat)
    requires i + |p| <= |s| && s[i..i + |p|] == p
    ensures Contains(s, p)
  {
    if i > 0 {
      assert s[1..][i - 1..i - 1 + |p|] == s[i..i + |p|];
      ContainsAt(s[1..], p, i - 1);
    } else {
      assert s[..|p|] == s[0..0 + |p|];
    }
  }

  /** Conversely, when `p` is in `s` there is an index at which it starts. */
  lemma {:induction false} ContainsWitness(s: string, p: string) returns (i: nat)
    requires Contains(s, p)
    ensures i + |p| <= |s| && s[i..i + |p|] == p
    decreases |s|
  {
    if StartsWith(s, p) {
      i := 0;
    } else {
      var j := ContainsWitness(s[1..], p);
      assert s[1..][j..j + |p|] == s[j + 1..j + 1 + |p|];
      i := j + 1;
    }
  }

  function Digit(d: nat): (c: char)
    requires d < 10
    ensures IsDigit(c) && DigitValue(c) == d
  {
    "0123456789"[d]
  }

  predicate IsDigit(c: char) {
    '0' <= c <= '9'
  }

  predicate AllDigits(s: string) {
    forall k :: 0 <= k < |s| ==> IsDigit(s[k])
  }

  function DigitValue(c: char): nat
    requires IsDigit(c)
  {
    (c as int) - ('0' as int)
  }

  /** The number a string of decimal digits denotes (most significant first). */
  function ParseDecimal(s: string): nat
    requires AllDigits(s)
  {
    if s == [] then 0 else ParseDecimal(s[..|s| - 1]) * 10 + DigitValue(s[|s| - 1])
  }

  /** The decimal rendering of a natural number by `${n}`: no sign, no
      leading zero, a single "0" for zero. */
  function NatToString(n: nat): (r: string)
    ensures |r| > 0 && AllDigits(r)
    ensures (|r| == 1) <==> n < 10
    ensures r[0] == '0' ==> n == 0
  {
    if n < 10 then [Digit(n)] else NatToString(n / 10) + [Digit(n % 10)]
  }

  /** Reading back what NatToString wrote gives the number again. */
  lemma {:induction false} ParseNatToString(n: nat)
    ensures ParseDecimal(NatToString(n)) == n
  {
    var r := NatToString(n);
    if n >= 10 {
      ParseNatToString(n / 10);
      assert r[..|r| - 1] == NatToString(n / 10);
    }
  }

  /** `${n}` for any integer: a minus sign in front of negative numbers. */
  function IntToString(n: int): (r: string)
    ensures n >= 0 ==> |r| > 0 && AllDigits(r) && ParseDecimal(r) == n && (r[0] == '0' ==> n == 0)
    ensures n < 0 ==> |r| > 1 && r[0] == '-' && AllDigits(r[1..]) && ParseDecimal(r[1..]) == -n
    ensures n < 0 ==> r[1] != '0'
  {
    if n < 0 then
      ParseNatToString(-n);
      assert ("-" + NatToString(-n))[1..] == NatToString(-n);
      "-" + NatToString(-n)
    else
      ParseNatToString(n);
      NatToString(n)
  }

  /** A leading zero does not change the value of a decimal string. */
  lemma {:induction false} ParseLeadingZero(s: string)
    requires AllDigits(s)
    ensures AllDigits("0" + s) && ParseDecimal("0" + s) == ParseDecimal(s)
  {
    if s != [] {
      ParseLeadingZero(s[..|s| - 1]);
      assert ("0" + s)[..|"0" + s| - 1] == "0" + s[..|s| - 1];
    }
  }

  /** `${n < 10 ? '0' : ''}${n}`: the zero-padding used by the timer display. */
  function Pad2(n: int): string {
    (if n < 10 then "0" else "") + IntToString(n)
  }

  /** For a natural number the padded rendering is at least two digits long,
      exactly two below 100, and still denotes `n`. */
  lemma Pad2Reads(n: nat)
    ensures |Pad2(n)| >= 2 && AllDigits(Pad2(n)) && ParseDecimal(Pad2(n)) == n
    ensures n < 100 ==> |Pad2(n)| == 2
  {
    if n < 10 {
      ParseLeadingZero(NatToString(n));
    } else {
      assert |NatToString(n / 10)| >= 1;
      ParseNatToString(n);
      assert Pad2(n) == IntToString(n);
      if n < 100 {
        assert NatToString(n / 10) == [Digit(n / 10)];
      }
    }
  }

  /** The JavaScript remainder `a % b` for a positive divisor: it takes the
      sign of the dividend, unlike Dafny's Euclidean `%`. */
  function JsRem(a: int, b: int): (r: int)
    requires b > 0
    ensures -b < r < b
    ensures a >= 0 ==> r == a % b
    ensures a < 0 ==> r == -JsRem(-a, b) && r <= 0
    decreases if a < 0 then 1 else 0
  {
    if a >= 0 then a % b else -((-a) % b)
  }
}
