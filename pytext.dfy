/**
 * The few semantics of Python's `str` the core relies on: `encode("utf-8")`,
 * the truth of `text.strip()`, and `isalnum()` / `isupper()` on pairing tokens.
 * A Dafny `char` is a Unicode scalar value, so every string can be encoded.
 */
module PyText {
  import opened Utils

  /** UTF-8 encoding of one scalar value (RFC 3629, section 3). */
  function EncodeChar(c: char): (bs: seq<byte>)
    ensures 1 <= |bs| <= 4
    ensures (bs[0] < 0x80) == (|bs| == 1)
    ensures |bs| == 1 ==> bs[0] == c as int
    ensures |bs| > 1 ==> 0xC0 <= bs[0] && (bs[0] < 0xE0 <==> |bs| == 2) && (0xF0 <= bs[0] <==> |bs| == 4)
    ensures forall k :: 1 <= k < |bs| ==> 0x80 <= bs[k] < 0xC0
  {
    var n := c as int;
    if n < 0x80 then [n]
    else if n < 0x800 then [0xC0 + n / 0x40, 0x80 + n % 0x40]
    else if n < 0x1_0000 then [0xE0 + n / 0x1000, 0x80 + (n / 0x40) % 0x40, 0x80 + n % 0x40]
    else [0xF0 + n / 0x4_0000, 0x80 + (n / 0x1000) % 0x40, 0x80 + (n / 0x40) % 0x40, 0x80 + n % 0x40]
  }

  /** `s.encode("utf-8")`. */
  function Utf8Encode(s: string): seq<byte>
  {
    if s == [] then [] else EncodeChar(s[0]) + Utf8Encode(s[1..])
  }

  /** Encoding distributes over concatenation. */
  lemma {:induction false} Utf8EncodeConcat(a: string, b: string)
    ensures Utf8Encode(a + b) == Utf8Encode(a) + Utf8Encode(b)
  {
    if a == [] {
      assert a + b == b;
    } else {
      assert (a + b)[0] == a[0];
      assert (a + b)[1..] == a[1..] + b;
      Utf8EncodeConcat(a[1..], b);
    }
  }

  /** The byte length (an item's `size`) is between the character length and four times it. */
  lemma {:induction false} Utf8LengthBounds(s: string)
    ensures |s| <= |Utf8Encode(s)| <= 4 * |s|
  {
    if s != [] {
      Utf8LengthBounds(s[1..]);
    }
  }

  /** Pure ASCII text encodes to one byte per character, so `size` equals `len(text)`. */
  lemma {:induction false} Utf8AsciiLength(s: string)
    requires forall k :: 0 <= k < |s| ==> s[k] as int < 0x80
    ensures |Utf8Encode(s)| == |s|
  {
    if s != [] {
      Utf8AsciiLength(s[1..]);
    }
  }

  /** `str.isspace()` of one character: Python's whitespace set. */
  predicate IsPyWhitespace(c: char)
  {
    var n := c as int;
    (0x09 <= n <= 0x0D) || (0x1C <= n <= 0x20) || n == 0x85 || n == 0xA0 || n == 0x1680
    || (0x2000 <= n <= 0x200A) || n == 0x2028 || n == 0x2029 || n == 0x202F || n == 0x205F
    || n == 0x3000
  }

  /** `bool(text and text.strip())`: some character is not whitespace. */
  predicate HasNonBlank(s: string)
  {
    exists k :: 0 <= k < |s| && !IsPyWhitespace(s[k])
  }

  /** The text Python's `strip()` leaves is empty exactly when no character survives. */
  function Strip(s: string): (r: string)
    ensures |r| <= |s|
    ensures r == [] <==> !HasNonBlank(s)
    ensures r != [] ==> !IsPyWhitespace(r[0]) && !IsPyWhitespace(r[|r| - 1])
    decreases |s|
  {
    if s == [] then []
    else if IsPyWhitespace(s[0]) then Strip(s[1..])
    else if IsPyWhitespace(s[|s| - 1]) then Strip(s[..|s| - 1])
    else s
  }

  predicate IsAsciiUpper(c: char) { 'A' <= c <= 'Z' }

  predicate IsAsciiLower(c: char) { 'a' <= c <= 'z' }

  predicate IsAsciiDigit(c: char) { '0' <= c <= '9' }

  /** `str.isalnum()` on ASCII text: non-empty, only letters and digits. */
  predicate IsAlnum(s: string)
  {
    |s| > 0 && forall k :: 0 <= k < |s| ==> IsAsciiUpper(s[k]) || IsAsciiLower(s[k]) || IsAsciiDigit(s[k])
  }

  /** `str.isupper()` on ASCII text: some cased character, and none in lower case. */
  predicate IsUpper(s: string)
  {
    (exists k :: 0 <= k < |s| && IsAsciiUpper(s[k])) && forall k :: 0 <= k < |s| ==> !IsAsciiLower(s[k])
  }

  /**
   * A generated token of positive length passes `isalnum()`, and passes
   * `isupper()` exactly when it holds at least one letter.
   */
  lemma TokenCharacterClasses(draws: nat -> AlphabetIndex, length: nat)
    requires length > 0
    ensures IsAlnum(GeneratePairingToken(draws, length))
    ensures IsUpper(GeneratePairingToken(draws, length))
            <==> exists k :: 0 <= k < length && IsAsciiUpper(GeneratePairingToken(draws, length)[k])
  {
    var token := GeneratePairingToken(draws, length);
    AlphabetFacts();
    assert forall k :: 0 <= k < |token| ==> IsTokenSymbol(token[k]);
  }
}
