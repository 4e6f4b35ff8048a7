/** `encodeURIComponent`, which the dashboard applies to an object key before putting
    it in a request path, and `decodeURIComponent`, which the server applies to the
    path parameter it receives (section 2.1 of RFC 3986 for the percent-encoding,
    UTF-8 as in RFC 3629). */
module Uri {
  import opened Optional
  import opened Text

  /** The characters `encodeURIComponent` leaves as they are. */
  predicate Unreserved(c: char) {
    ('A' <= c <= 'Z') || ('a' <= c <= 'z') || IsDigit(c) || c in "-_.!~*'()"
  }

  function HexUpper(d: nat): (c: char)
    requires d < 16
    ensures IsHexDigit(c) && HexDigitValue(c) == d
  {
    if d < 10 then DigitChar(d) else (('A' as int) + d - 10) as char
  }

  /** "%HH" for one byte, with upper-case hexadecimal digits. */
  function Escape(b: nat): (s: string)
    requires b < 256
    ensures |s| == 3 && s[0] == '%'
  {
    ['%', HexUpper(b / 16), HexUpper(b % 16)]
  }

  /** The percent-encoded UTF-8 bytes of one character. */
  function EscapedChar(c: char): (s: string)
    ensures |s| >= 3 && s[0] == '%'
  {
    var n := c as int;
    if n < 0x80 then Escape(n)
    else if n < 0x800 then Escape(0xC0 + n / 64) + Escape(0x80 + n % 64)
    else if n < 0x10000 then Escape(0xE0 + n / 4096) + Escape(0x80 + (n / 64) % 64) + Escape(0x80 + n % 64)
    else Escape(0xF0 + n / 262144) + Escape(0x80 + (n / 4096) % 64) + Escape(0x80 + (n / 64) % 64) + Escape(0x80 + n % 64)
  }

  function EncodeChar(c: char): (s: string)
    ensures Unreserved(c) <==> s == [c]
  {
    if Unreserved(c) then [c] else EscapedChar(c)
  }

  /** `encodeURIComponent(s)` */
  function Encode(s: string): (r: string)
    ensures (forall i :: 0 <= i < |s| ==> Unreserved(s[i])) ==> r == s
    decreases |s|
  {
    if s == [] then [] else EncodeChar(s[0]) + Encode(s[1..])
  }

  /** The byte escaped at the front of `s`, if `s` starts with "%HH". */
  function ByteAt(s: string): (b: Option<nat>)
    ensures b.Some? ==> |s| >= 3 && b.value < 256
  {
    if |s| >= 3 && s[0] == '%' && IsHexDigit(s[1]) && IsHexDigit(s[2])
    then Some(16 * HexDigitValue(s[1]) + HexDigitValue(s[2]))
    else None
  }

  /** A continuation byte (10xxxxxx) escaped at the front of `s`, as its six low bits. */
  function ContAt(s: string): (b: Option<nat>)
    ensures b.Some? ==> |s| >= 3 && b.value < 64
  {
    var b := ByteAt(s);
    if b.Some? && 0x80 <= b.value < 0xC0 then Some(b.value - 0x80) else None
  }

  function Cons(c: char, rest: Option<string>): Option<string> {
    if rest.Some? then Some([c] + rest.value) else None
  }

  /** A decoded scalar value, when it is one (not a surrogate, not above U+10FFFF, and
      not an overlong form: at least `min`), with the length of its escapes. */
  function Scalar(n: int, min: int, len: nat): Option<(char, nat)> {
    if 0 <= min <= n <= 0x10FFFF && !(0xD800 <= n < 0xE000) then Some((n as char, len)) else None
  }

  /** The character an escape sequence at the front of `s` stands for, and how many
      characters of `s` it spans: one "%HH" for an ASCII byte, or a UTF-8 lead byte and
      its continuation bytes. None where `decodeURIComponent` throws a `URIError` (a
      malformed escape, a bad UTF-8 sequence, an overlong form, a surrogate). */
  function DecodeEscaped(s: string): (r: Option<(char, nat)>)
    ensures r.Some? ==> 3 <= r.value.1 <= |s|
  {
    match ByteAt(s)
    case None => None
    case Some(b0) =>
      if b0 < 0x80 then Some((b0 as char, 3))
      else if 0xC0 <= b0 < 0xE0 then
        match ContAt(s[3..])
        case None => None
        case Some(b1) => Scalar((b0 - 0xC0) * 64 + b1, 0x80, 6)
      else if 0xE0 <= b0 < 0xF0 then
        match ContAt(s[3..])
        case None => None
        case Some(b1) =>
          match ContAt(s[6..])
          case None => None
          case Some(b2) => Scalar((b0 - 0xE0) * 4096 + b1 * 64 + b2, 0x800, 9)
      else if 0xF0 <= b0 < 0xF8 then
        match ContAt(s[3..])
        case None => None
        case Some(b1) =>
          match ContAt(s[6..])
          case None => None
          case Some(b2) =>
            match ContAt(s[9..])
            case None => None
            case Some(b3) => Scalar((b0 - 0xF0) * 262144 + b1 * 4096 + b2 * 64 + b3, 0x10000, 12)
      else None
  }

  /** `decodeURIComponent(s)`: None where it throws a `URIError`. */
  function Decode(s: string): (r: Option<string>)
    ensures r.Some? ==> |r.value| <= |s|
    ensures '%' !in s ==> r == Some(s)
    decreases |s|
  {
    if s == [] then Some([])
    else if s[0] != '%' then
      assert s == [s[0]] + s[1..];
      Cons(s[0], Decode(s[1..]))
    else match DecodeEscaped(s)
      case None => None
      case Some((c, len)) => Cons(c, Decode(s[len..]))
  }

  lemma ByteAtEscape(b: nat, rest: string)
    requires b < 256
    ensures ByteAt(Escape(b) + rest) == Some(b)
    ensures (Escape(b) + rest)[3..] == rest
  {
    var s := Escape(b) + rest;
    assert s[1] == HexUpper(b / 16) && s[2] == HexUpper(b % 16);
  }

  lemma ContAtEscape(d: nat, rest: string)
    requires d < 64
    ensures ContAt(Escape(0x80 + d) + rest) == Some(d)
    ensures (Escape(0x80 + d) + rest)[3..] == rest
  {
    ByteAtEscape(0x80 + d, rest);
  }

  lemma EscapedTwoDigits(d0: nat, d1: nat, rest: string)
    requires d0 < 32 && d1 < 64
    ensures var s := Escape(0xC0 + d0) + Escape(0x80 + d1) + rest;
            DecodeEscaped(s) == Scalar(d0 * 64 + d1, 0x80, 6) && s[6..] == rest
  {
    var s := Escape(0xC0 + d0) + Escape(0x80 + d1) + rest;
    assert s == Escape(0xC0 + d0) + (Escape(0x80 + d1) + rest);
    ByteAtEscape(0xC0 + d0, Escape(0x80 + d1) + rest);
    ContAtEscape(d1, rest);
    assert s[3..][3..] == s[6..];
  }

  lemma EscapedThreeDigits(d0: nat, d1: nat, d2: nat, rest: string)
    requires d0 < 16 && d1 < 64 && d2 < 64
    ensures var s := Escape(0xE0 + d0) + Escape(0x80 + d1) + Escape(0x80 + d2) + rest;
            DecodeEscaped(s) == Scalar(d0 * 4096 + d1 * 64 + d2, 0x800, 9) && s[9..] == rest
  {
    var s := Escape(0xE0 + d0) + Escape(0x80 + d1) + Escape(0x80 + d2) + rest;
    var t := Escape(0x80 + d2) + rest;
    assert s == Escape(0xE0 + d0) + (Escape(0x80 + d1) + t);
    ByteAtEscape(0xE0 + d0, Escape(0x80 + d1) + t);
    ContAtEscape(d1, t);
    ContAtEscape(d2, rest);
    assert s[3..][3..] == s[6..] && s[6..][3..] == s[9..];
  }

  lemma EscapedFourDigits(d0: nat, d1: nat, d2: nat, d3: nat, rest: string)
    requires d0 < 8 && d1 < 64 && d2 < 64 && d3 < 64
    ensures var s := Escape(0xF0 + d0) + Escape(0x80 + d1) + Escape(0x80 + d2) + Escape(0x80 + d3) + rest;
            DecodeEscaped(s) == Scalar(d0 * 262144 + d1 * 4096 + d2 * 64 + d3, 0x10000, 12) && s[12..] == rest
  {
    var u := Escape(0x80 + d3) + rest;
    var t := Escape(0x80 + d2) + u;
    var s := Escape(0xF0 + d0) + Escape(0x80 + d1) + Escape(0x80 + d2) + Escape(0x80 + d3) + rest;
    assert s == Escape(0xF0 + d0) + (Escape(0x80 + d1) + t);
    ByteAtEscape(0xF0 + d0, Escape(0x80 + d1) + t);
    ContAtEscape(d1, t);
    ContAtEscape(d2, u);
    ContAtEscape(d3, rest);
    assert s[3..][3..] == s[6..] && s[6..][3..] == s[9..] && s[9..][3..] == s[12..];
  }

  /** The UTF-8 bit fields of a code point put back together give the code point. */
  lemma TwoByteDigits(n: int)
    requires 0x80 <= n < 0x800
    ensures n / 64 < 32 && (n / 64) * 64 + n % 64 == n
  {
  }

  lemma ThreeByteDigits(n: int)
    requires 0x800 <= n < 0x10000
    ensures n / 4096 < 16
    ensures (n / 4096) * 4096 + ((n / 64) % 64) * 64 + n % 64 == n
  {
    assert n / 64 == (n / 4096) * 64 + (n / 64) % 64;
  }

  lemma FourByteDigits(n: int)
    requires 0x10000 <= n <= 0x10FFFF
    ensures n / 262144 < 8
    ensures (n / 262144) * 262144 + ((n / 4096) % 64) * 4096 + ((n / 64) % 64) * 64 + n % 64 == n
  {
    var d0, d1, d2, d3 := n / 262144, (n / 4096) % 64, (n / 64) % 64, n % 64;
    assert n / 4096 == d0 * 64 + d1;
    assert n / 64 == (n / 4096) * 64 + d2;
  }

  lemma EscapedTwoBytes(c: char, rest: string)
    requires 0x80 <= c as int < 0x800
    ensures var s := EscapedChar(c) + rest;
            DecodeEscaped(s) == Some((c, 6)) && s[6..] == rest
  {
    var n := c as int;
    var d0, d1 := n / 64, n % 64;
    TwoByteDigits(n);
    assert EscapedChar(c) == Escape(0xC0 + d0) + Escape(0x80 + d1);
    EscapedTwoDigits(d0, d1, rest);
    assert Scalar(d0 * 64 + d1, 0x80, 6) == Some((c, 6));
  }

  lemma EscapedThreeBytes(c: char, rest: string)
    requires 0x800 <= c as int < 0x10000
    ensures var s := EscapedChar(c) + rest;
            DecodeEscaped(s) == Some((c, 9)) && s[9..] == rest
  {
    var n := c as int;
    var d0, d1, d2 := n / 4096, (n / 64) % 64, n % 64;
    ThreeByteDigits(n);
    assert EscapedChar(c) == Escape(0xE0 + d0) + Escape(0x80 + d1) + Escape(0x80 + d2);
    EscapedThreeDigits(d0, d1, d2, rest);
    assert Scalar(d0 * 4096 + d1 * 64 + d2, 0x800, 9) == Some((c, 9));
  }

  lemma EscapedFourBytes(c: char, rest: string)
    requires 0x10000 <= c as int
    ensures var s := EscapedChar(c) + rest;
            DecodeEscaped(s) == Some((c, 12)) && s[12..] == rest
  {
    var n := c as int;
    var d0, d1, d2, d3 := n / 262144, (n / 4096) % 64, (n / 64) % 64, n % 64;
    FourByteDigits(n);
    assert EscapedChar(c) == Escape(0xF0 + d0) + Escape(0x80 + d1) + Escape(0x80 + d2) + Escape(0x80 + d3);
    EscapedFourDigits(d0, d1, d2, d3, rest);
    assert Scalar(d0 * 262144 + d1 * 4096 + d2 * 64 + d3, 0x10000, 12) == Some((c, 12));
  }

  /** The escapes of a character that `encodeURIComponent` escapes decode back to it. */
  lemma EscapedCharDecodes(c: char, rest: string)
    ensures var s := EscapedChar(c) + rest;
            DecodeEscaped(s) == Some((c, |EscapedChar(c)|)) && s[|EscapedChar(c)|..] == rest
  {
    var n := c as int;
    if n < 0x80 {
      ByteAtEscape(n, rest);
    } else if n < 0x800 {
      EscapedTwoBytes(c, rest);
    } else if n < 0x10000 {
      EscapedThreeBytes(c, rest);
    } else {
      EscapedFourBytes(c, rest);
    }
  }

  /** Decoding consumes exactly one encoded character at the front. */
  lemma DecodeFront(c: char, rest: string)
    ensures Decode(EncodeChar(c) + rest) == Cons(c, Decode(rest))
  {
    if Unreserved(c) {
      assert (EncodeChar(c) + rest)[1..] == rest;
    } else {
      EscapedCharDecodes(c, rest);
    }
  }

  /** `decodeURIComponent(encodeURIComponent(s)) === s` for every string of scalar values. */
  lemma {:induction false} DecodeEncode(s: string)
    ensures Decode(Encode(s)) == Some(s)
    decreases |s|
  {
    if s != [] {
      DecodeFront(s[0], Encode(s[1..]));
      DecodeEncode(s[1..]);
      assert [s[0]] + s[1..] == s;
    }
  }

  /** Two strings with the same encoding are the same string. */
  lemma EncodeInjective(s: string, t: string)
    requires Encode(s) == Encode(t)
    ensures s == t
  {
    DecodeEncode(s);
    DecodeEncode(t);
  }
}
