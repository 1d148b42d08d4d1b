/**
 * ECMAScript's encodeURIComponent, which builds the query part of the
 * messaging deep link, and its inverse decodeURIComponent.
 *
 * Encoding turns each code point into its UTF-8 bytes (RFC 3629, section 3)
 * and writes each byte as a percent-encoded octet (RFC 3986, section 2.1),
 * except the unreserved characters A-Z a-z 0-9 - _ . ! ~ * ' ( ), which are
 * kept as they are. Decoding accepts upper- and lower-case hex digits and
 * rejects (URIError in ECMAScript, None here) a malformed escape, a bad
 * UTF-8 sequence, an overlong form, a surrogate or a value beyond U+10FFFF.
 *
 * A Dafny `char` is a Unicode scalar value, so a lone UTF-16 surrogate,
 * the one input on which encodeURIComponent throws, cannot be written.
 */
module UriEncoding {
  import opened Wrappers

  type Byte = x: int | 0 <= x < 256

  /** A value a Dafny `char` can hold: a Unicode scalar value. */
  predicate IsScalar(n: int) {
    (0 <= n < 0xD800) || (0xE000 <= n < 0x11_0000)
  }

  /** Characters encodeURIComponent leaves unescaped. */
  predicate IsUnreserved(c: char) {
    ('A' <= c <= 'Z') || ('a' <= c <= 'z') || ('0' <= c <= '9')
    || c == '-' || c == '_' || c == '.' || c == '!' || c == '~' || c == '*'
    || c == '\'' || c == '(' || c == ')'
  }

  // ---------------------------------------------------------------- UTF-8

  /** Number of bytes UTF-8 uses for scalar value `n`. */
  function Utf8Size(n: int): (k: nat)
    ensures 1 <= k <= 4
  {
    if n < 0x80 then 1 else if n < 0x800 then 2 else if n < 0x1_0000 then 3 else 4
  }

  /** The UTF-8 encoding of one character. */
  function Utf8(c: char): (bs: seq<Byte>)
    ensures |bs| == Utf8Size(c as int)
    ensures |bs| == 1 <==> c as int < 0x80
    ensures |bs| == 1 ==> bs[0] == c as int
    ensures forall k :: 1 <= k < |bs| ==> 0x80 <= bs[k] < 0xC0
  {
    var n := c as int;
    if n < 0x80 then [n]
    else if n < 0x800 then [0xC0 + n / 64, 0x80 + n % 64]
    else if n < 0x1_0000 then [0xE0 + n / 64 / 64, 0x80 + n / 64 % 64, 0x80 + n % 64]
    else [0xF0 + n / 64 / 64 / 64, 0x80 + n / 64 / 64 % 64, 0x80 + n / 64 % 64, 0x80 + n % 64]
  }

  /** Length of the UTF-8 sequence a lead byte announces; 0 for a byte that cannot lead one. */
  function LeadLength(b: Byte): (k: nat)
    ensures k <= 4
    ensures k == 1 <==> b < 0x80
  {
    if b < 0x80 then 1
    else if 0xC0 <= b < 0xE0 then 2
    else if 0xE0 <= b < 0xF0 then 3
    else if 0xF0 <= b < 0xF8 then 4
    else 0
  }

  /** The value a UTF-8 sequence of 1 to 4 bytes carries: the lead byte's payload bits, then six bits per continuation byte. */
  function CodePoint(bs: seq<Byte>): int
    requires 1 <= |bs| <= 4
  {
    var lead := bs[0] as int - (if |bs| == 1 then 0 else if |bs| == 2 then 0xC0 else if |bs| == 3 then 0xE0 else 0xF0);
    if |bs| == 1 then lead else Continue(lead, bs[1..])
  }

  /** Appends six payload bits per continuation byte to `acc`. */
  function Continue(acc: int, cont: seq<Byte>): int
    decreases |cont|
  {
    if cont == [] then acc else Continue(acc * 64 + (cont[0] as int - 0x80), cont[1..])
  }

  /** Decodes one complete UTF-8 sequence into a character, rejecting every ill-formed one. */
  function Utf8Char(bs: seq<Byte>): (r: Option<char>)
    ensures r.Some? ==> |bs| > 0 && |bs| == LeadLength(bs[0]) && |bs| == Utf8Size(r.value as int)
  {
    if |bs| == 0 || |bs| != LeadLength(bs[0]) then None
    else if exists k :: 1 <= k < |bs| && !(0x80 <= bs[k] < 0xC0) then None
    else
      var n := CodePoint(bs);
      if IsScalar(n) && Utf8Size(n) == |bs| then Some(n as char) else None
  }

  /** Decoding the UTF-8 encoding of a character gives the character back. */
  lemma Utf8RoundTrip(c: char)
    ensures Utf8Char(Utf8(c)) == Some(c)
  {
    var n := c as int;
    var bs := Utf8(c);
    assert LeadLength(bs[0]) == |bs|;
    if |bs| == 2 {
      assert CodePoint(bs) == Continue(n / 64, bs[1..]) == n;
    } else if |bs| == 3 {
      assert Continue(n / 64 / 64, bs[1..]) == Continue(n / 64, bs[2..]) == n;
    } else if |bs| == 4 {
      assert Continue(n / 64 / 64 / 64, bs[1..]) == Continue(n / 64 / 64, bs[2..]);
      assert Continue(n / 64 / 64, bs[2..]) == Continue(n / 64, bs[3..]) == n;
    }
  }

  // ---------------------------------------------------------- percent-encoding

  /** The upper-case hex digit encodeURIComponent writes for `d`. */
  function HexDigit(d: int): (c: char)
    requires 0 <= d < 16
    ensures ('0' <= c <= '9') || ('A' <= c <= 'F')
    ensures HexValue(c) == Some(d)
  {
    if d < 10 then ('0' as int + d) as char else ('A' as int + d - 10) as char
  }

  /** The value of a hex digit of either case. */
  function HexValue(c: char): (r: Option<int>)
    ensures r.Some? ==> 0 <= r.value < 16
  {
    if '0' <= c <= '9' then Some(c as int - '0' as int)
    else if 'A' <= c <= 'F' then Some(c as int - 'A' as int + 10)
    else if 'a' <= c <= 'f' then Some(c as int - 'a' as int + 10)
    else None
  }

  /** "%XY" for one byte. */
  function Escape(b: Byte): (s: string)
    ensures |s| == 3 && s[0] == '%'
  {
    ['%', HexDigit(b / 16), HexDigit(b % 16)]
  }

  /** The escapes of a byte sequence, one after another. */
  function Escapes(bs: seq<Byte>): (s: string)
    ensures |s| == 3 * |bs|
  {
    if bs == [] then [] else Escape(bs[0]) + Escapes(bs[1..])
  }

  /**
   * How encodeURIComponent writes one character: itself when unreserved,
   * otherwise one escape per UTF-8 byte. What it writes is URI-safe and
   * decodes back to exactly that character.
   */
  function EncodeChar(c: char): (s: string)
    ensures forall k :: 0 <= k < |s| ==> UriSafe(s[k])
    ensures (|s| == 1 && IsUnreserved(c)) || |s| == 3 * Utf8Size(c as int)
    ensures s == [c] <==> IsUnreserved(c)
    ensures DecodeUriComponent(s) == Some([c])
  {
    EscapesAreUriSafe(Utf8(c));
    if IsUnreserved(c) then
      assert [c][0] != '%' && [c][1..] == [];
      assert DecodeUriComponent([c]) == Prepend(c, DecodeUriComponent([]));
      assert [c] + [] == [c];
      [c]
    else
      DecodeEscapedChar(c, []);
      assert Escapes(Utf8(c)) + [] == Escapes(Utf8(c));
      Escapes(Utf8(c))
  }

  /** encodeURIComponent: every character written by EncodeChar, in order. */
  function EncodeUriComponent(s: string): (e: string)
    ensures |e| >= |s|
  {
    if s == [] then [] else EncodeChar(s[0]) + EncodeUriComponent(s[1..])
  }

  /** The byte of a "%XY" escape at the front of `s`, if there is one. */
  function EscapedByte(s: string): (r: Option<Byte>)
  {
    if |s| < 3 || s[0] != '%' then None
    else match (HexValue(s[1]), HexValue(s[2])) {
      case (Some(hi), Some(lo)) => Some(hi * 16 + lo)
      case _ => None
    }
  }

  /** The bytes of `k` consecutive escapes at the front of `s`, if they are all there. */
  function EscapedBytes(s: string, k: nat): (r: Option<seq<Byte>>)
    ensures r.Some? ==> |r.value| == k && 3 * k <= |s|
  {
    if k == 0 then Some([])
    else match EscapedByte(s) {
      case None => None
      case Some(b) =>
        match EscapedBytes(s[3..], k - 1) {
          case None => None
          case Some(rest) => Some([b] + rest)
        }
    }
  }

  function Prepend(c: char, r: Option<string>): Option<string> {
    match r
    case None => None
    case Some(t) => Some([c] + t)
  }

  /**
   * decodeURIComponent: a plain character stands for itself; an escape
   * below 0x80 is that ASCII character; an escape that leads a longer
   * UTF-8 sequence takes as many further escapes as it announces.
   */
  function DecodeUriComponent(s: string): (r: Option<string>)
    decreases |s|
  {
    if s == [] then Some([])
    else if s[0] != '%' then Prepend(s[0], DecodeUriComponent(s[1..]))
    else match EscapedByte(s) {
      case None => None
      case Some(b) =>
        var k := LeadLength(b);
        if k == 0 then None
        else match EscapedBytes(s, k) {
          case None => None
          case Some(bs) =>
            match Utf8Char(bs) {
              case None => None
              case Some(c) => Prepend(c, DecodeUriComponent(s[3 * k..]))
            }
        }
    }
  }

  // ---------------------------------------------------------- round trip

  lemma EscapedByteOfEscape(b: Byte, rest: string)
    ensures EscapedByte(Escape(b) + rest) == Some(b)
  {
  }

  lemma {:induction false} EscapedBytesOfEscapes(bs: seq<Byte>, rest: string)
    ensures EscapedBytes(Escapes(bs) + rest, |bs|) == Some(bs)
  {
    if bs != [] {
      var s := Escapes(bs) + rest;
      assert s == Escape(bs[0]) + (Escapes(bs[1..]) + rest);
      EscapedByteOfEscape(bs[0], Escapes(bs[1..]) + rest);
      assert s[3..] == Escapes(bs[1..]) + rest;
      EscapedBytesOfEscapes(bs[1..], rest);
      assert [bs[0]] + bs[1..] == bs;
    }
  }

  /** Decoding the escapes of a character's UTF-8 bytes yields the character and resumes right after them. */
  lemma DecodeEscapedChar(c: char, rest: string)
    ensures DecodeUriComponent(Escapes(Utf8(c)) + rest) == Prepend(c, DecodeUriComponent(rest))
  {
    var bs := Utf8(c);
    var s := Escapes(bs) + rest;
    assert s == Escape(bs[0]) + (Escapes(bs[1..]) + rest);
    EscapedByteOfEscape(bs[0], Escapes(bs[1..]) + rest);
    EscapedBytesOfEscapes(bs, rest);
    Utf8RoundTrip(c);
    assert s[3 * |bs|..] == rest;
  }

  /** Decoding what EncodeChar wrote for `c` yields `c` and resumes right after it. */
  lemma DecodeEncodedChar(c: char, rest: string)
    ensures DecodeUriComponent(EncodeChar(c) + rest) == Prepend(c, DecodeUriComponent(rest))
  {
    var s := EncodeChar(c) + rest;
    if IsUnreserved(c) {
      assert s[0] == c && s[1..] == rest;
    } else {
      DecodeEscapedChar(c, rest);
    }
  }

  /** decodeURIComponent undoes encodeURIComponent on every string. */
  lemma {:induction false} UriRoundTrip(s: string)
    ensures DecodeUriComponent(EncodeUriComponent(s)) == Some(s)
  {
    if s != [] {
      DecodeEncodedChar(s[0], EncodeUriComponent(s[1..]));
      UriRoundTrip(s[1..]);
      assert [s[0]] + s[1..] == s;
    }
  }

  /** Every character of the encoding is unreserved or part of an escape, so the result is safe in a URI query. */
  lemma {:induction false} EncodingIsUriSafe(s: string)
    ensures forall k :: 0 <= k < |EncodeUriComponent(s)| ==> UriSafe(EncodeUriComponent(s)[k])
  {
    if s != [] {
      EncodingIsUriSafe(s[1..]);
    }
  }

  /** The characters that can appear in the output of encodeURIComponent. */
  predicate UriSafe(c: char) {
    IsUnreserved(c) || c == '%' || ('0' <= c <= '9') || ('A' <= c <= 'F')
  }

  lemma {:induction false} EscapesAreUriSafe(bs: seq<Byte>)
    ensures forall k :: 0 <= k < |Escapes(bs)| ==> UriSafe(Escapes(bs)[k])
  {
    if bs != [] {
      EscapesAreUriSafe(bs[1..]);
    }
  }
}
