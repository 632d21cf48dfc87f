/** String helpers with the meaning of the Go and JavaScript library calls they stand for. */
module Strings {

  /** strings.HasPrefix */
  predicate HasPrefix(s: string, p: string) {
    |p| <= |s| && s[..|p|] == p
  }

  /** strings.TrimPrefix */
  function TrimPrefix(s: string, p: string): string {
    if HasPrefix(s, p) then s[|p|..] else s
  }

  /** The number of occurrences of c in s. */
  function Count(s: string, c: char): nat {
    if s == [] then 0 else (if s[0] == c then 1 else 0) + Count(s[1..], c)
  }

  lemma {:induction false} CountConcat(a: string, b: string, c: char)
    ensures Count(a + b, c) == Count(a, c) + Count(b, c)
  {
    if a == [] {
      assert a + b == b;
    } else {
      assert (a + b)[1..] == a[1..] + b;
      CountConcat(a[1..], b, c);
    }
  }

  function DigitChar(d: nat): (c: char)
    requires d < 10
  {
    (48 + d) as char
  }

  predicate IsDigit(c: char) {
    '0' <= c <= '9'
  }

  /** strconv.FormatInt(n, 10) / String(n) for a non-negative integer. */
  function NatToString(n: nat): (s: string)
    ensures |s| >= 1
    ensures forall i :: 0 <= i < |s| ==> IsDigit(s[i])
    decreases n
  {
    if n < 10 then [DigitChar(n)] else NatToString(n / 10) + [DigitChar(n % 10)]
  }

  /** The value of a non-empty string of decimal digits. */
  function DigitsValue(s: string): nat
    requires forall i :: 0 <= i < |s| ==> IsDigit(s[i])
  {
    if s == [] then 0
    else
      assert IsDigit(s[|s| - 1]);
      DigitsValue(s[..|s| - 1]) * 10 + (s[|s| - 1] as int - '0' as int)
  }

  lemma {:induction false} NatToStringValue(n: nat)
    ensures DigitsValue(NatToString(n)) == n
    decreases n
  {
    var s := NatToString(n);
    if n >= 10 {
      NatToStringValue(n / 10);
      assert s[..|s| - 1] == NatToString(n / 10);
    }
  }

  /** strconv.FormatInt(i, 10) / String(i) for any integer. */
  function IntToString(i: int): string {
    if i < 0 then "-" + NatToString(-i) else NatToString(i)
  }

  lemma NatToStringInjective(m: nat, n: nat)
    requires NatToString(m) == NatToString(n)
    ensures m == n
  {
    NatToStringValue(m);
    NatToStringValue(n);
  }

  /** A decimal string starts with '-' exactly when the integer is negative. */
  lemma SignVisible(i: int)
    ensures |IntToString(i)| >= 1
    ensures IntToString(i)[0] == '-' <==> i < 0
  {
    if i >= 0 {
      assert IsDigit(NatToString(i)[0]);
    }
  }

  /** Distinct integers print differently, so decimal strings are usable as map keys for IDs. */
  lemma IntToStringInjective(a: int, b: int)
    requires IntToString(a) == IntToString(b)
    ensures a == b
  {
    SignVisible(a);
    SignVisible(b);
    if a < 0 {
      var s := IntToString(a);
      assert NatToString(-a) == s[1..];
      assert NatToString(-b) == s[1..];
      NatToStringInjective(-a, -b);
    } else {
      NatToStringInjective(a, b);
    }
  }

  /** String(n).padStart(2, '0') */
  function PadStart2(s: string): (r: string)
    ensures |r| == if |s| < 2 then 2 else |s|
    ensures r[|r| - |s|..] == s
  {
    if |s| == 0 then "00" else if |s| == 1 then "0" + s else s
  }

  /** The number of bytes of the UTF-8 encoding of a character (Go's len counts bytes). */
  function Utf8Width(c: char): nat {
    if c as int < 0x80 then 1 else if c as int < 0x800 then 2 else if c as int < 0x10000 then 3 else 4
  }

  /** len(s) in Go: the UTF-8 byte length. */
  function Utf8Len(s: string): (n: nat)
    ensures n >= |s|
  {
    if s == [] then 0 else Utf8Width(s[0]) + Utf8Len(s[1..])
  }

  /** The UTF-8 encoding of one character (RFC 3629, section 3). */
  function Utf8Char(c: char): (b: seq<bv8>)
    ensures |b| == Utf8Width(c)
  {
    var n := c as int;
    if n < 0x80 then [n as bv8]
    else if n < 0x800 then [(0xC0 + n / 0x40) as bv8, (0x80 + n % 0x40) as bv8]
    else if n < 0x10000 then [(0xE0 + n / 0x1000) as bv8, (0x80 + n / 0x40 % 0x40) as bv8, (0x80 + n % 0x40) as bv8]
    else [(0xF0 + n / 0x40000) as bv8, (0x80 + n / 0x1000 % 0x40) as bv8, (0x80 + n / 0x40 % 0x40) as bv8, (0x80 + n % 0x40) as bv8]
  }

  /** []byte(s) in Go: the UTF-8 bytes of a string, Utf8Len of them. */
  function Utf8(s: string): (b: seq<bv8>)
    ensures |b| == Utf8Len(s)
  {
    if s == [] then [] else Utf8Char(s[0]) + Utf8(s[1..])
  }

  /** Encoding distributes over concatenation. */
  lemma {:induction false} Utf8Concat(a: string, b: string)
    ensures Utf8(a + b) == Utf8(a) + Utf8(b)
  {
    if a != [] {
      assert (a + b)[1..] == a[1..] + b;
      Utf8Concat(a[1..], b);
    } else {
      assert a + b == b;
    }
  }

  /** s.length in JavaScript: the number of UTF-16 code units. */
  function Utf16Len(s: string): (n: nat)
    ensures n >= |s|
  {
    if s == [] then 0 else (if s[0] as int < 0x10000 then 1 else 2) + Utf16Len(s[1..])
  }

  lemma {:induction false} AsciiLengths(s: string)
    requires forall i :: 0 <= i < |s| ==> s[i] as int < 0x80
    ensures Utf8Len(s) == |s| && Utf16Len(s) == |s|
  {
    if s != [] {
      AsciiLengths(s[1..]);
    }
  }

  /** strings.TrimRight(s, cutset): drop every trailing character that is in cutset. */
  function TrimRight(s: string, cutset: set<char>): (r: string)
    ensures |r| <= |s| && r == s[..|r|]
    ensures r == [] || r[|r| - 1] !in cutset
    ensures forall i :: |r| <= i < |s| ==> s[i] in cutset
  {
    if s == [] || s[|s| - 1] !in cutset then s else TrimRight(s[..|s| - 1], cutset)
  }

  /** The first value of a header or metadata key, or "" (http.Header.Get, metadata.MD.Get()[0]). */
  function FirstValue(m: map<string, seq<string>>, key: string): string {
    if key in m && |m[key]| > 0 then m[key][0] else ""
  }
}
