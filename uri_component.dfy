/**
 * The global functions encodeURIComponent and decodeURIComponent of ECMAScript
 * (ECMA-262, sections 19.2.6.5 and 19.2.6.2, with the Encode and Decode
 * operations of section 19.2.6.1), over strings of Unicode scalar values.
 *
 * encodeURIComponent keeps the unreserved characters A-Z a-z 0-9 - _ . ! ~ * ' ( )
 * and writes every other character as the %XX escapes (upper-case hex) of the
 * bytes of its UTF-8 encoding. decodeURIComponent is its inverse: it reads each
 * run of escapes back as one UTF-8 encoded character and rejects (URIError)
 * malformed escapes and invalid UTF-8.
 */
module UriComponent {
  import opened Wrappers

  type Byte = b: nat | b < 256

  /** The characters encodeURIComponent leaves as they are. */
  predicate IsUnreserved(c: char)
  {
    ('A' <= c <= 'Z') || ('a' <= c <= 'z') || ('0' <= c <= '9') ||
    c == '-' || c == '_' || c == '.' || c == '!' || c == '~' ||
    c == '*' || c == '\'' || c == '(' || c == ')'
  }

  /** Upper-case hexadecimal digit of a value below 16, as written by Encode. */
  function HexDigit(n: nat): (c: char)
    requires n < 16
    ensures ('0' <= c <= '9') || ('A' <= c <= 'F')
  {
    if n < 10 then ('0' as int + n) as char else ('A' as int + n - 10) as char
  }

  /** The digits Decode accepts (either case). */
  predicate IsHexDigit(c: char)
  {
    ('0' <= c <= '9') || ('A' <= c <= 'F') || ('a' <= c <= 'f')
  }

  function HexValue(c: char): (n: nat)
    requires IsHexDigit(c)
    ensures n < 16
  {
    if '0' <= c <= '9' then c as int - '0' as int
    else if 'A' <= c <= 'F' then c as int - 'A' as int + 10
    else c as int - 'a' as int + 10
  }

  lemma HexDigitValue(n: nat)
    requires n < 16
    ensures IsHexDigit(HexDigit(n)) && HexValue(HexDigit(n)) == n
  {
  }

  /** The UTF-8 encoding of one scalar value (RFC 3629, section 3). */
  function Utf8(c: char): (bs: seq<Byte>)
    ensures 1 <= |bs| <= 4
    ensures |bs| == 1 <==> c as int < 0x80
  {
    var cp := c as int;
    var q1, r0 := cp / 64, cp % 64;
    var q2, r1 := q1 / 64, q1 % 64;
    var q3, r2 := q2 / 64, q2 % 64;
    if cp < 0x80 then [cp]
    else if cp < 0x800 then [0xC0 + q1, 0x80 + r0]
    else if cp < 0x1_0000 then [0xE0 + q2, 0x80 + r1, 0x80 + r0]
    else [0xF0 + q3, 0x80 + r2, 0x80 + r1, 0x80 + r0]
  }

  /** One byte as a three-character escape "%XY". */
  function Escape(b: Byte): (e: string)
    ensures |e| == 3 && e[0] == '%'
  {
    ['%', HexDigit(b / 16), HexDigit(b % 16)]
  }

  function EscapeAll(bs: seq<Byte>): (e: string)
    ensures |e| == 3 * |bs|
  {
    if bs == [] then [] else Escape(bs[0]) + EscapeAll(bs[1..])
  }

  /** What encodeURIComponent writes for one character. */
  function EncodeChar(c: char): string
  {
    if IsUnreserved(c) then [c] else EscapeAll(Utf8(c))
  }

  /** encodeURIComponent (ECMA-262, section 19.2.6.5). */
  function Encode(s: string): string
  {
    if s == [] then [] else EncodeChar(s[0]) + Encode(s[1..])
  }

  /**
   * The shape of every output of Encode: a run of unreserved characters and
   * escapes "%XY" with upper-case hex digits X and Y.
   */
  predicate WellEncoded(r: string)
    decreases |r|
  {
    r == [] ||
    (IsUnreserved(r[0]) && WellEncoded(r[1..])) ||
    (|r| >= 3 && r[0] == '%' && IsUpperHex(r[1]) && IsUpperHex(r[2]) && WellEncoded(r[3..]))
  }

  predicate IsUpperHex(c: char)
  {
    ('0' <= c <= '9') || ('A' <= c <= 'F')
  }

  lemma {:induction false} EscapeAllWellEncoded(bs: seq<Byte>, rest: string)
    requires WellEncoded(rest)
    ensures WellEncoded(EscapeAll(bs) + rest)
  {
    if bs != [] {
      EscapeAllWellEncoded(bs[1..], rest);
      var e := EscapeAll(bs) + rest;
      assert e[..3] == Escape(bs[0]);
      assert e[0] == '%' && IsUpperHex(e[1]) && IsUpperHex(e[2]);
      assert e[3..] == EscapeAll(bs[1..]) + rest;
      assert WellEncoded(e[3..]);
    } else {
      assert EscapeAll(bs) + rest == rest;
    }
  }

  /** Every output of encodeURIComponent is a run of unreserved characters and %XX escapes. */
  lemma {:induction false} EncodeWellEncoded(s: string)
    ensures WellEncoded(Encode(s))
  {
    if s != [] {
      EncodeWellEncoded(s[1..]);
      if IsUnreserved(s[0]) {
        assert Encode(s)[1..] == Encode(s[1..]);
      } else {
        EscapeAllWellEncoded(Utf8(s[0]), Encode(s[1..]));
      }
    }
  }

  /** The characters that can appear in an output of Encode. */
  predicate IsEncodedChar(c: char)
  {
    IsUnreserved(c) || c == '%' || IsUpperHex(c)
  }

  /** A well-encoded string holds only unreserved characters, '%' and upper-case hex digits. */
  lemma {:induction false} WellEncodedAlphabet(r: string)
    requires WellEncoded(r)
    ensures forall i :: 0 <= i < |r| ==> IsEncodedChar(r[i])
    decreases |r|
  {
    if r != [] {
      if IsUnreserved(r[0]) && WellEncoded(r[1..]) {
        WellEncodedAlphabet(r[1..]);
        assert forall i :: 1 <= i < |r| ==> r[i] == r[1..][i - 1];
      } else {
        WellEncodedAlphabet(r[3..]);
        assert forall i :: 3 <= i < |r| ==> r[i] == r[3..][i - 3];
      }
    }
  }

  /**
   * The characters that would change the meaning of a query string never
   * appear in an encoded component.
   */
  lemma EncodeHasNoDelimiters(s: string)
    ensures ' ' !in Encode(s) && '&' !in Encode(s) && '#' !in Encode(s) && '?' !in Encode(s)
    ensures '/' !in Encode(s) && '=' !in Encode(s) && '+' !in Encode(s)
  {
    EncodeWellEncoded(s);
    WellEncodedAlphabet(Encode(s));
    AlphabetHasNoDelimiters(Encode(s));
  }

  /** None of the query-string delimiters is an encoded character. */
  lemma DelimitersNotEncoded()
    ensures !IsEncodedChar(' ') && !IsEncodedChar('&') && !IsEncodedChar('#') && !IsEncodedChar('?')
    ensures !IsEncodedChar('/') && !IsEncodedChar('=') && !IsEncodedChar('+')
  {
  }

  lemma AlphabetHasNoDelimiters(r: string)
    requires forall i :: 0 <= i < |r| ==> IsEncodedChar(r[i])
    ensures ' ' !in r && '&' !in r && '#' !in r && '?' !in r
    ensures '/' !in r && '=' !in r && '+' !in r
  {
    DelimitersNotEncoded();
    forall c | c in r ensures IsEncodedChar(c) {
      var i :| 0 <= i < |r| && r[i] == c;
    }
  }

  // ---------------------------------------------------------------------
  // decodeURIComponent

  /** The byte written as "%XY" at position i of r, if there is one. */
  function ByteAt(r: string, i: nat): (o: Option<Byte>)
  {
    if i + 3 <= |r| && r[i] == '%' && IsHexDigit(r[i + 1]) && IsHexDigit(r[i + 2])
    then Some(16 * HexValue(r[i + 1]) + HexValue(r[i + 2]))
    else None
  }

  /** The low six bits of the continuation byte (10xxxxxx) written at position i. */
  function ContinuationAt(r: string, i: nat): (o: Option<nat>)
    ensures o.Some? ==> o.value < 64
  {
    match ByteAt(r, i)
    case Some(b) => if 0x80 <= b < 0xC0 then Some(b - 0x80) else None
    case None => None
  }

  predicate IsScalarValue(cp: int)
  {
    (0 <= cp < 0xD800) || (0xE000 <= cp < 0x11_0000)
  }

  /**
   * Decodes the escapes of one character at the start of r (which begins with
   * '%'): the character and the number of characters of r it used. None is
   * the URIError case: a malformed escape, a byte that cannot start a UTF-8
   * sequence, a bad continuation byte, an overlong form, a surrogate or a
   * value above U+10FFFF.
   */
  function DecodeEscapes(r: string): (o: Option<(char, nat)>)
    ensures o.Some? ==> 3 <= o.value.1 <= |r|
  {
    match ByteAt(r, 0)
    case None => None
    case Some(b0) =>
      if b0 < 0x80 then Some((b0 as char, 3))
      else if b0 < 0xC0 then None
      else if b0 < 0xE0 then
        match ContinuationAt(r, 3)
        case None => None
        case Some(c1) =>
          var cp := (b0 - 0xC0) * 64 + c1;
          if 0x80 <= cp then Some((cp as char, 6)) else None
      else if b0 < 0xF0 then
        match (ContinuationAt(r, 3), ContinuationAt(r, 6))
        case (Some(c1), Some(c2)) =>
          var cp := ((b0 - 0xE0) * 64 + c1) * 64 + c2;
          if 0x800 <= cp && IsScalarValue(cp) then Some((cp as char, 9)) else None
        case _ => None
      else if b0 < 0xF8 then
        match (ContinuationAt(r, 3), ContinuationAt(r, 6), ContinuationAt(r, 9))
        case (Some(c1), Some(c2), Some(c3)) =>
          var cp := (((b0 - 0xF0) * 64 + c1) * 64 + c2) * 64 + c3;
          if 0x1_0000 <= cp < 0x11_0000 then Some((cp as char, 12)) else None
        case _ => None
      else None
  }

  /** decodeURIComponent (ECMA-262, section 19.2.6.2): None is a URIError. */
  function Decode(r: string): Option<string>
    decreases |r|
  {
    if r == [] then Some([])
    else if r[0] != '%' then
      match Decode(r[1..])
      case Some(t) => Some([r[0]] + t)
      case None => None
    else
      match DecodeEscapes(r)
      case None => None
      case Some((c, k)) =>
        match Decode(r[k..])
        case Some(t) => Some([c] + t)
        case None => None
  }

  lemma EscapeByte(b: Byte, rest: string)
    ensures ByteAt(Escape(b) + rest, 0) == Some(b)
  {
    HexDigitValue(b / 16);
    HexDigitValue(b % 16);
  }

  /** The escape of byte k of bs sits at position 3k of EscapeAll(bs). */
  lemma {:induction false} EscapeAllAt(bs: seq<Byte>, rest: string, k: nat)
    requires k < |bs|
    ensures ByteAt(EscapeAll(bs) + rest, 3 * k) == Some(bs[k])
  {
    var e := EscapeAll(bs) + rest;
    if k == 0 {
      assert e == Escape(bs[0]) + (EscapeAll(bs[1..]) + rest);
      EscapeByte(bs[0], EscapeAll(bs[1..]) + rest);
    } else {
      EscapeAllAt(bs[1..], rest, k - 1);
      var e' := EscapeAll(bs[1..]) + rest;
      assert e[3..] == e';
      assert e[3 * k .. 3 * k + 3] == e'[3 * (k - 1) .. 3 * (k - 1) + 3];
    }
  }

  /** Six-bit groups of a code point, most significant first, recombine to it. */
  lemma SixBitGroups(cp: nat)
    ensures cp == (cp / 64) * 64 + cp % 64
    ensures cp / 64 == (cp / 64 / 64) * 64 + (cp / 64) % 64
    ensures cp / 64 / 64 == (cp / 64 / 64 / 64) * 64 + (cp / 64 / 64) % 64
  {
  }

  lemma DecodeTwo(r: string, cp: nat)
    requires 0x80 <= cp < 0x800
    requires ByteAt(r, 0) == Some(0xC0 + cp / 64) && ByteAt(r, 3) == Some(0x80 + cp % 64)
    ensures DecodeEscapes(r) == Some((cp as char, 6))
  {
    SixBitGroups(cp);
    assert ContinuationAt(r, 3) == Some(cp % 64);
  }

  lemma DecodeThree(r: string, cp: nat)
    requires 0x800 <= cp < 0x1_0000 && IsScalarValue(cp)
    requires ByteAt(r, 0) == Some(0xE0 + cp / 64 / 64)
    requires ByteAt(r, 3) == Some(0x80 + (cp / 64) % 64)
    requires ByteAt(r, 6) == Some(0x80 + cp % 64)
    ensures DecodeEscapes(r) == Some((cp as char, 9))
  {
    SixBitGroups(cp);
    assert ContinuationAt(r, 3) == Some((cp / 64) % 64);
    assert ContinuationAt(r, 6) == Some(cp % 64);
  }

  lemma DecodeFour(r: string, cp: nat)
    requires 0x1_0000 <= cp < 0x11_0000
    requires ByteAt(r, 0) == Some(0xF0 + cp / 64 / 64 / 64)
    requires ByteAt(r, 3) == Some(0x80 + (cp / 64 / 64) % 64)
    requires ByteAt(r, 6) == Some(0x80 + (cp / 64) % 64)
    requires ByteAt(r, 9) == Some(0x80 + cp % 64)
    ensures DecodeEscapes(r) == Some((cp as char, 12))
  {
    SixBitGroups(cp);
    assert ContinuationAt(r, 3) == Some((cp / 64 / 64) % 64);
    assert ContinuationAt(r, 6) == Some((cp / 64) % 64);
    assert ContinuationAt(r, 9) == Some(cp % 64);
  }

  /** Decoding the escapes Encode writes for one reserved character gives that character back. */
  lemma DecodeEncodedChar(c: char, rest: string)
    requires !IsUnreserved(c)
    ensures DecodeEscapes(EscapeAll(Utf8(c)) + rest) == Some((c, 3 * |Utf8(c)|))
  {
    var bs := Utf8(c);
    var r := EscapeAll(bs) + rest;
    var cp := c as int;
    forall k | 0 <= k < |bs| ensures ByteAt(r, 3 * k) == Some(bs[k]) {
      EscapeAllAt(bs, rest, k);
    }
    if cp < 0x80 {
      assert ByteAt(r, 0) == Some(cp);
    } else if cp < 0x800 {
      assert ByteAt(r, 3 * 1) == Some(bs[1]);
      DecodeTwo(r, cp);
    } else if cp < 0x1_0000 {
      assert ByteAt(r, 3 * 1) == Some(bs[1]) && ByteAt(r, 3 * 2) == Some(bs[2]);
      DecodeThree(r, cp);
    } else {
      assert ByteAt(r, 3 * 1) == Some(bs[1]) && ByteAt(r, 3 * 2) == Some(bs[2]) && ByteAt(r, 3 * 3) == Some(bs[3]);
      DecodeFour(r, cp);
    }
  }

  /** decodeURIComponent undoes encodeURIComponent: no string is lost or altered by encoding. */
  lemma {:induction false} DecodeEncode(s: string)
    ensures Decode(Encode(s)) == Some(s)
  {
    if s != [] {
      var c := s[0];
      var rest := Encode(s[1..]);
      DecodeEncode(s[1..]);
      if IsUnreserved(c) {
        assert Encode(s) == [c] + rest;
        assert Encode(s)[1..] == rest;
      } else {
        var e := Encode(s);
        var bs := Utf8(c);
        assert e == EscapeAll(bs) + rest;
        DecodeEncodedChar(c, rest);
        assert e[0] == '%';
        assert e[3 * |bs|..] == rest;
      }
      assert s == [c] + s[1..];
    }
  }
}
