/**
 * Bytes, decimal and hexadecimal text, and searching in sequences: the
 * pieces of libc and of the Go standard library (strtoul, "%lu", "%x",
 * bytes.Index, strconv.Atoi) that the modelled code relies on.
 */
module Text {

  type Byte = b: int | 0 <= b < 256

  const ULongMax: int := 0xFFFF_FFFF_FFFF_FFFF  // ULONG_MAX on LP64 Linux
  const LongMax: int := 0x7FFF_FFFF_FFFF_FFFF   // LONG_MAX, also Go's maximal int
  const LongMin: int := -0x8000_0000_0000_0000  // LONG_MIN, also Go's minimal int

  predicate IsULong(x: int) { 0 <= x <= ULongMax }
  predicate IsLong(x: int) { LongMin <= x <= LongMax }

  /** C unsigned long and long (LP64). */
  type ULong = x: int | 0 <= x <= ULongMax
  type Long = x: int | LongMin <= x <= LongMax

  /** The bytes of an ASCII string (how C and Go store a string literal). */
  function Ascii(s: string): (r: seq<Byte>)
    requires forall i :: 0 <= i < |s| ==> s[i] as int < 128
    ensures |r| == |s| && forall i :: 0 <= i < |s| ==> r[i] == s[i] as int
  {
    if s == [] then [] else [s[0] as int] + Ascii(s[1..])
  }

  /** The bytes b are the ASCII encoding of s when they agree code by code. */
  lemma AsciiIs(s: string, b: seq<Byte>)
    requires |s| == |b| && forall i :: 0 <= i < |s| ==> s[i] as int < 128 && b[i] == s[i] as int
    ensures Ascii(s) == b
  {
  }

  // ---------------------------------------------------------------- decimal

  predicate IsDigit(b: Byte) { '0' as int <= b <= '9' as int }

  predicate AllDigits(s: seq<Byte>) { forall i :: 0 <= i < |s| ==> IsDigit(s[i]) }

  /** The value of a string of decimal digits, most significant digit first. */
  function DecimalValue(s: seq<Byte>): nat
    requires AllDigits(s)
  {
    if s == [] then 0 else 10 * DecimalValue(s[..|s| - 1]) + (s[|s| - 1] - '0' as int)
  }

  /** The digits printf("%lu") writes for n: no sign, no leading zeros, "0" for zero. */
  function DecimalDigits(n: nat): (s: seq<Byte>)
    ensures |s| >= 1 && AllDigits(s)
    ensures n >= 10 ==> s[0] != '0' as int
  {
    if n < 10 then ['0' as int + n] else DecimalDigits(n / 10) + ['0' as int + n % 10]
  }

  /** The same digits as text (fmt's "%d" of a non-negative number). */
  function DecimalText(n: nat): (s: string)
    ensures |s| == |DecimalDigits(n)| && forall i :: 0 <= i < |s| ==> s[i] as int == DecimalDigits(n)[i]
  {
    var d := DecimalDigits(n);
    seq(|d|, i requires 0 <= i < |d| => d[i] as char)
  }

  /** Reading back what was printed gives the number that was printed. */
  lemma {:induction false} DecimalRoundTrip(n: nat)
    ensures DecimalValue(DecimalDigits(n)) == n
  {
    if n >= 10 {
      var s := DecimalDigits(n);
      assert s[..|s| - 1] == DecimalDigits(n / 10);
      DecimalRoundTrip(n / 10);
    }
  }

  /** Appending a digit multiplies the value by ten and adds the digit. */
  lemma DecimalValueSnoc(s: seq<Byte>, d: Byte)
    requires AllDigits(s) && IsDigit(d)
    ensures AllDigits(s + [d]) && DecimalValue(s + [d]) == 10 * DecimalValue(s) + (d - '0' as int)
  {
    assert (s + [d])[..|s|] == s;
  }

  function Pow10(k: nat): (p: nat)
    ensures p >= 1
  {
    if k == 0 then 1 else 10 * Pow10(k - 1)
  }

  /** A number below 10^k is printed with at most k digits. */
  lemma {:induction false} DecimalDigitsLength(n: nat, k: nat)
    requires 1 <= k && n < Pow10(k)
    ensures |DecimalDigits(n)| <= k
  {
    if n >= 10 {
      assert k >= 2;
      assert n / 10 < Pow10(k - 1);
      DecimalDigitsLength(n / 10, k - 1);
    }
  }

  /** The length of the longest prefix of s made of decimal digits. */
  function DigitPrefixLength(s: seq<Byte>): (k: nat)
    ensures k <= |s| && AllDigits(s[..k])
    ensures k < |s| ==> !IsDigit(s[k])
  {
    if s == [] || !IsDigit(s[0]) then 0
    else
      var k := 1 + DigitPrefixLength(s[1..]);
      assert s[..k] == [s[0]] + s[1..][..k - 1];
      k
  }

  /** Any all-digit prefix that stops at a non-digit (or the end) is the longest one. */
  lemma {:induction false} DigitPrefixLengthIs(s: seq<Byte>, k: nat)
    requires k <= |s| && AllDigits(s[..k]) && (k < |s| ==> !IsDigit(s[k]))
    ensures DigitPrefixLength(s) == k
  {
    if k > 0 {
      assert IsDigit(s[..k][0]);
      assert s[1..][..k - 1] == s[..k][1..];
      DigitPrefixLengthIs(s[1..], k - 1);
    }
  }

  /** A printed number followed by anything that is not a digit: the digits are exactly the number. */
  lemma DigitPrefixOfPrinted(n: nat, rest: seq<Byte>)
    requires rest == [] || !IsDigit(rest[0])
    ensures var s := DecimalDigits(n) + rest;
            DigitPrefixLength(s) == |DecimalDigits(n)| && s[..DigitPrefixLength(s)] == DecimalDigits(n)
  {
    var d := DecimalDigits(n);
    var s := d + rest;
    assert s[..|d|] == d;
    DigitPrefixLengthIs(s, |d|);
  }

  // ---------------------------------------------------------------- C strings

  const Nul: Byte := 0

  /** A C string: the bytes before the first NUL (all of them when there is none). */
  function CString(s: seq<Byte>): (c: seq<Byte>)
    ensures |c| <= |s| && c == s[..|c|] && Nul !in c
    ensures |c| < |s| ==> s[|c|] == Nul
  {
    var i := IndexOfElem(s, Nul);
    if i < 0 then s else s[..i]
  }

  lemma CStringEndsAt(s: seq<Byte>, k: nat)
    requires k < |s| && s[k] == Nul && Nul !in s[..k]
    ensures CString(s) == s[..k]
  {
  }

  // ------------------------------------------------------------ hexadecimal

  function HexChar(d: nat): (c: char)
    requires d < 16
  {
    if d < 10 then ('0' as int + d) as char else ('a' as int + d - 10) as char
  }

  predicate IsHexChar(c: char) { '0' <= c <= '9' || 'a' <= c <= 'f' }

  function HexCharValue(c: char): (d: nat)
    requires IsHexChar(c)
    ensures d < 16 && HexChar(d) == c
  {
    if c <= '9' then c as int - '0' as int else c as int - 'a' as int + 10
  }

  /** Go's fmt "%x" of an unsigned integer: lower-case digits, no leading zeros. */
  function HexString(n: nat): (s: string)
    ensures |s| >= 1 && forall i :: 0 <= i < |s| ==> IsHexChar(s[i])
    ensures n >= 16 ==> s[0] != '0'
  {
    if n < 16 then [HexChar(n)] else HexString(n / 16) + [HexChar(n % 16)]
  }

  function HexValue(s: string): nat
    requires forall i :: 0 <= i < |s| ==> IsHexChar(s[i])
  {
    if s == [] then 0 else 16 * HexValue(s[..|s| - 1]) + HexCharValue(s[|s| - 1])
  }

  lemma HexCharInverse(d: nat)
    requires d < 16
    ensures IsHexChar(HexChar(d)) && HexCharValue(HexChar(d)) == d
  {
  }

  /** Reading the hexadecimal text back yields the number. */
  lemma {:induction false} HexRoundTrip(n: nat)
    ensures HexValue(HexString(n)) == n
  {
    var s := HexString(n);
    HexCharInverse(n % 16);
    if n < 16 {
      assert s[..|s| - 1] == [];
    } else {
      var q, d := n / 16, n % 16;
      assert s[..|s| - 1] == HexString(q) && s[|s| - 1] == HexChar(d);
      HexRoundTrip(q);
      assert HexValue(s) == 16 * q + d;
    }
  }

  /** The two lower-case hex digits of one byte, as "%02x" prints them. */
  function HexByte(b: Byte): (s: string)
    ensures |s| == 2
  {
    [HexChar(b / 16), HexChar(b % 16)]
  }

  /** Lower-case hex of a byte string, two digits per byte. */
  function HexBytes(s: seq<Byte>): (r: string)
    ensures |r| == 2 * |s|
  {
    if s == [] then [] else HexByte(s[0]) + HexBytes(s[1..])
  }

  // ------------------------------------------------------------------ UUIDs

  /** A UUID as its 16 bytes (github.com/satori/go.uuid). */
  type Uuid = s: seq<Byte> | |s| == 16 witness [0, 0, 0, 0, 0, 0, 0, 0, 0, 0, 0, 0, 0, 0, 0, 0]

  const NilUuid: Uuid := [0, 0, 0, 0, 0, 0, 0, 0, 0, 0, 0, 0, 0, 0, 0, 0]

  /** UUID.String(): the canonical 8-4-4-4-12 lower-case form. */
  function UuidString(u: Uuid): (s: string)
    ensures |s| == 36
  {
    HexBytes(u[..4]) + "-" + HexBytes(u[4..6]) + "-" + HexBytes(u[6..8]) + "-"
    + HexBytes(u[8..10]) + "-" + HexBytes(u[10..])
  }

  // -------------------------------------------------------------- searching

  /** The last index of x in s, or -1 (Go's strings.LastIndexByte). */
  function LastIndexOfElem<T(==)>(s: seq<T>, x: T): (r: int)
    ensures -1 <= r < |s|
    ensures r >= 0 ==> s[r] == x && forall i :: r < i < |s| ==> s[i] != x
    ensures r == -1 ==> forall i :: 0 <= i < |s| ==> s[i] != x
  {
    if s == [] then -1
    else if s[|s| - 1] == x then |s| - 1
    else LastIndexOfElem(s[..|s| - 1], x)
  }

  /** The part of s before the first x, all of s when there is none (the first result of strings.Cut). */
  function Before<T(==)>(s: seq<T>, x: T): (r: seq<T>)
    ensures r <= s && x !in r
    ensures |r| < |s| ==> s[|r|] == x
  {
    var i := IndexOfElem(s, x);
    if i < 0 then s else s[..i]
  }

  /** strings.Join. */
  function Join(parts: seq<string>, sep: string): string
  {
    if parts == [] then "" else if |parts| == 1 then parts[0] else parts[0] + sep + Join(parts[1..], sep)
  }

  predicate OccursAt<T(==)>(s: seq<T>, p: seq<T>, i: int)
  {
    0 <= i && i + |p| <= |s| && s[i..i + |p|] == p
  }

  /** The first index at or after from where p occurs in s, or -1 (Go's bytes.Index). */
  function IndexOfFrom<T(==)>(s: seq<T>, p: seq<T>, from: nat): (r: int)
    requires from <= |s|
    ensures r == -1 || (from <= r && OccursAt(s, p, r))
    ensures r == -1 ==> forall i :: from <= i ==> !OccursAt(s, p, i)
    ensures r >= 0 ==> forall i :: from <= i < r ==> !OccursAt(s, p, i)
    decreases |s| - from
  {
    if from + |p| > |s| then -1
    else if s[from..from + |p|] == p then from
    else IndexOfFrom(s, p, from + 1)
  }

  function IndexOf<T(==)>(s: seq<T>, p: seq<T>): (r: int)
    ensures r == -1 || OccursAt(s, p, r)
    ensures r == -1 ==> forall i :: !OccursAt(s, p, i)
    ensures r >= 0 ==> forall i :: i < r ==> !OccursAt(s, p, i)
  {
    IndexOfFrom(s, p, 0)
  }

  /** The first index of x in s, or -1 (Go's bytes.IndexByte). */
  function IndexOfElem<T(==)>(s: seq<T>, x: T): (r: int)
    ensures -1 <= r < |s|
    ensures r >= 0 ==> s[r] == x && forall i :: 0 <= i < r ==> s[i] != x
    ensures r == -1 ==> forall i :: 0 <= i < |s| ==> s[i] != x
  {
    if s == [] then -1
    else if s[0] == x then 0
    else
      var r := IndexOfElem(s[1..], x);
      if r == -1 then -1 else r + 1
  }

  // ------------------------------------------------------------ concatenation

  /** The two parts of a concatenation at the front of s. */
  lemma PrefixOfConcat<T>(s: seq<T>, a: seq<T>, b: seq<T>)
    requires |s| >= |a| + |b| && s[..|a| + |b|] == a + b
    ensures s[..|a|] == a && s[|a|..][..|b|] == b
  {
    assert s[..|a|] == (a + b)[..|a|];
    assert s[|a|..][..|b|] == (a + b)[|a|..];
  }

  /** A fixed prefix and suffix around a name determine the name. */
  lemma ConcatCancel<T>(p: seq<T>, a: seq<T>, b: seq<T>, q: seq<T>)
    requires p + a + q == p + b + q
    ensures a == b
  {
    var s := p + a + q;
    assert |a| == |b|;
    assert a == s[|p|..|p| + |a|];
    assert b == (p + b + q)[|p|..|p| + |b|];
  }
}
