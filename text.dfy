/** Character and string helpers shared by the lexer, the analyzer and the
    testbench generator: UTF-8 byte lengths, the character classes the lexer
    dispatches on, ASCII lower-casing, substring search, joining, and the
    decimal rendering and parsing of 64-bit integers. */
module VhdlText {

  datatype Option<T> = None | Some(value: T) {
    /** The wrapped value, or `default` for None (Option::unwrap_or). */
    function GetOr(default: T): T {
      match this
      case Some(v) => v
      case None => default
    }
  }

  datatype Result<T, E> = Ok(value: T) | Err(error: E)

  // ------------------------------------------------------------ sequences

  lemma AppendAssoc<T>(a: seq<T>, b: seq<T>, c: seq<T>)
    ensures (a + b) + c == a + (b + c)
  {
  }

  lemma AppendEmpty<T>(a: seq<T>)
    ensures a + [] == a && [] + a == a
  {
  }

  lemma Snoc2<T>(a: seq<T>, x: T, y: T)
    ensures a + [x] + [y] == a + [x, y]
  {
  }

  lemma Snoc3<T>(a: seq<T>, x: T, y: T, z: T)
    ensures a + [x] + [y] + [z] == a + [x, y, z]
  {
  }

  lemma Snoc4<T>(a: seq<T>, x: T, y: T, z: T, w: T)
    ensures a + [x] + [y] + [z] + [w] == a + [x, y, z, w]
  {
  }

  lemma Snoc6<T>(a: seq<T>, x1: T, x2: T, x3: T, x4: T, x5: T, x6: T)
    ensures a + [x1] + [x2] + [x3] + [x4] + [x5] + [x6] == a + [x1, x2, x3, x4, x5, x6]
  {
  }

  lemma TakeAll<T>(xs: seq<T>, n: nat)
    requires n == |xs|
    ensures xs[..n] == xs
  {
  }

  lemma PrefixSnoc<T>(pre: seq<T>, xs: seq<T>, i: nat)
    requires i < |xs|
    ensures pre + xs[..i + 1] == (pre + xs[..i]) + [xs[i]]
  {
    assert xs[..i + 1] == xs[..i] + [xs[i]];
  }

  lemma SliceSnoc<T>(s: seq<T>, a: nat, k: nat)
    requires a <= k < |s|
    ensures s[a..k + 1] == s[a..k] + [s[k]]
  {
  }

  // ---------------------------------------------------------------- UTF-8

  /** Number of bytes the UTF-8 encoding of `c` takes (char::len_utf8). */
  function Utf8Len(c: char): (n: nat)
    ensures 1 <= n <= 4
    ensures n == 1 <==> c as int < 0x80
  {
    if c as int < 0x80 then 1
    else if c as int < 0x800 then 2
    else if c as int < 0x10000 then 3
    else 4
  }

  /** Number of bytes of the UTF-8 encoding of `s`. */
  function ByteLen(s: seq<char>): nat {
    if s == [] then 0 else ByteLen(s[..|s| - 1]) + Utf8Len(s[|s| - 1])
  }

  lemma {:induction false} ByteLenAppend(a: seq<char>, b: seq<char>)
    ensures ByteLen(a + b) == ByteLen(a) + ByteLen(b)
    decreases |b|
  {
    if b != [] {
      var b' := b[..|b| - 1];
      assert (a + b)[..|a + b| - 1] == a + b';
      ByteLenAppend(a, b');
    } else {
      assert a + b == a;
    }
  }

  /** Every character takes at least one byte, so the byte length of a
      text is at least its number of characters. */
  lemma {:induction false} ByteLenAtLeastLength(s: seq<char>)
    ensures ByteLen(s) >= |s|
    decreases |s|
  {
    if s != [] {
      ByteLenAtLeastLength(s[..|s| - 1]);
    }
  }

  // ------------------------------------------------------ character classes

  /** char::is_whitespace: the code points with the Unicode White_Space property. */
  predicate IsWhitespace(c: char) {
    var n := c as int;
    (0x09 <= n <= 0x0D) || n == 0x20 || n == 0x85 || n == 0xA0 || n == 0x1680 ||
    (0x2000 <= n <= 0x200A) || n == 0x2028 || n == 0x2029 || n == 0x202F ||
    n == 0x205F || n == 0x3000
  }

  predicate IsAsciiDigit(c: char) { '0' <= c <= '9' }

  predicate IsAsciiUpper(c: char) { 'A' <= c <= 'Z' }

  predicate IsAsciiLower(c: char) { 'a' <= c <= 'z' }

  /** char::is_alphabetic, restricted to ASCII letters. */
  predicate IsAlphabetic(c: char) { IsAsciiUpper(c) || IsAsciiLower(c) }

  /** char::is_alphanumeric, restricted to ASCII letters and digits. */
  predicate IsAlphanumeric(c: char) { IsAlphabetic(c) || IsAsciiDigit(c) }

  /** char::to_lowercase, restricted to ASCII: upper-case ASCII letters map to
      their lower-case forms, every other character to itself. */
  function ToLower(c: char): (r: char)
    ensures IsAsciiUpper(c) ==> IsAsciiLower(r) && r as int == c as int + 32
    ensures !IsAsciiUpper(c) ==> r == c
  {
    if IsAsciiUpper(c) then (c as int + 32) as char else c
  }

  /** str::to_lowercase (ASCII letters only). */
  function Lower(s: string): (r: string)
    ensures |r| == |s|
    ensures forall i :: 0 <= i < |s| ==> r[i] == ToLower(s[i])
  {
    seq(|s|, i requires 0 <= i < |s| => ToLower(s[i]))
  }

  /** Lower-casing twice is lower-casing once. */
  lemma LowerIdempotent(s: string)
    ensures Lower(Lower(s)) == Lower(s)
  {
    assert forall i :: 0 <= i < |s| ==> ToLower(ToLower(s[i])) == ToLower(s[i]);
  }

  // ----------------------------------------------------------- substrings

  /** `pat` occurs in `s` starting at index `k`. */
  predicate OccursAt(s: string, pat: string, k: int) {
    0 <= k && k + |pat| <= |s| && s[k..k + |pat|] == pat
  }

  /** str::contains with a string pattern. */
  function Contains(s: string, pat: string): (r: bool)
    ensures r <==> exists k :: OccursAt(s, pat, k)
    decreases |s|
  {
    if pat <= s then
      assert OccursAt(s, pat, 0);
      true
    else if s == [] then
      assert forall k :: !OccursAt(s, pat, k);
      false
    else
      var r := Contains(s[1..], pat);
      assert forall k :: OccursAt(s[1..], pat, k) <==> OccursAt(s, pat, k + 1) by {
        forall k ensures OccursAt(s[1..], pat, k) <==> OccursAt(s, pat, k + 1) {
          if 0 <= k && k + |pat| <= |s| - 1 {
            assert s[1..][k..k + |pat|] == s[k + 1..k + 1 + |pat|];
          }
        }
      }
      assert !OccursAt(s, pat, 0);
      assert forall k :: OccursAt(s, pat, k) ==> OccursAt(s[1..], pat, k - 1);
      r
  }

  // -------------------------------------------------------------- joining

  /** slice::join: the parts separated by `sep`. */
  function Join(parts: seq<string>, sep: string): string {
    if |parts| == 0 then ""
    else if |parts| == 1 then parts[0]
    else parts[0] + sep + Join(parts[1..], sep)
  }

  /** Appending one more part adds the separator and that part at the end,
      which is how a loop that pushes parts and joins them at the end sees it. */
  lemma {:induction false} JoinSnoc(parts: seq<string>, x: string, sep: string)
    ensures Join(parts + [x], sep) == if parts == [] then x else Join(parts, sep) + sep + x
    decreases |parts|
  {
    if |parts| >= 2 {
      assert (parts + [x])[1..] == parts[1..] + [x];
      JoinSnoc(parts[1..], x, sep);
    } else if |parts| == 1 {
      assert (parts + [x])[1..] == [x];
    }
  }

  // ----------------------------------------------------- decimal integers

  const I64Min: int := -0x8000_0000_0000_0000
  const I64Max: int := 0x7FFF_FFFF_FFFF_FFFF

  function DigitChar(d: nat): (c: char)
    requires d < 10
    ensures IsAsciiDigit(c) && c as int - '0' as int == d
  {
    ('0' as int + d) as char
  }

  /** The decimal rendering of `n` ({} formatting of an unsigned integer). */
  function NatToString(n: nat): (s: string)
    ensures |s| >= 1
    ensures forall i :: 0 <= i < |s| ==> IsAsciiDigit(s[i])
  {
    if n < 10 then [DigitChar(n)] else NatToString(n / 10) + [DigitChar(n % 10)]
  }

  /** The decimal rendering of `i` ({} formatting of an i64). */
  function IntToString(i: int): string {
    if i < 0 then "-" + NatToString(-i) else NatToString(i)
  }

  predicate AllDigits(s: string) {
    forall i :: 0 <= i < |s| ==> IsAsciiDigit(s[i])
  }

  /** The value of a string of ASCII digits, most significant first. */
  function DigitsValue(s: string): nat
    requires AllDigits(s)
  {
    if s == [] then 0
    else DigitsValue(s[..|s| - 1]) * 10 + (s[|s| - 1] as int - '0' as int)
  }

  /** str::parse::<i64>: an optional `+` or `-` followed by at least one ASCII
      digit, with a value inside the i64 range; anything else fails. */
  function ParseI64(s: string): (r: Option<int>)
    ensures r.Some? ==> I64Min <= r.value <= I64Max
    ensures r.Some? ==> |s| >= 1
  {
    if |s| == 0 then None
    else if s[0] == '-' || s[0] == '+' then
      var digits := s[1..];
      if |digits| == 0 || !AllDigits(digits) then None
      else if s[0] == '-' then
        (if DigitsValue(digits) <= -I64Min then Some(0 - DigitsValue(digits) as int) else None)
      else
        (if DigitsValue(digits) <= I64Max then Some(DigitsValue(digits)) else None)
    else if !AllDigits(s) then None
    else if DigitsValue(s) <= I64Max then Some(DigitsValue(s))
    else None
  }

  lemma {:induction false} DigitsValueOfNat(n: nat)
    ensures AllDigits(NatToString(n)) && DigitsValue(NatToString(n)) == n
  {
    var s := NatToString(n);
    if n >= 10 {
      DigitsValueOfNat(n / 10);
      assert s[..|s| - 1] == NatToString(n / 10);
    }
  }

  /** Parsing the decimal rendering of an i64 gives the number back, so the
      bounds a vector type is rendered with are the bounds it is read with. */
  lemma ParseI64OfIntToString(i: int)
    requires I64Min <= i <= I64Max
    ensures ParseI64(IntToString(i)) == Some(i)
  {
    var s := IntToString(i);
    if i < 0 {
      var d := NatToString(-i);
      DigitsValueOfNat(-i);
      assert s == "-" + d && s[0] == '-' && s[1..] == d;
      assert DigitsValue(d) <= -I64Min;
    } else {
      DigitsValueOfNat(i);
      assert s[0] != '-' && s[0] != '+' by { assert IsAsciiDigit(s[0]); }
    }
  }
}
