/**
 * ECMAScript's `encodeURIComponent` and `decodeURIComponent`.
 *
 * Encoding keeps the characters of the unreserved set (ASCII letters,
 * digits and `- _ . ! ~ * ' ( )`) and writes every other character as the
 * UTF-8 octets of its code point, each as `%` followed by two upper-case
 * hexadecimal digits (percent-encoding, section 2.1 of RFC 3986).
 * Decoding is the inverse, with the error cases of the ECMAScript `Decode`
 * operation (a malformed escape or an invalid UTF-8 sequence) as `None`.
 */
module UriComponent {
  import opened Wrappers

  type Byte = x: int | 0 <= x < 0x100

  // ----- the unreserved set -----

  /** The characters `encodeURIComponent` leaves as they are. */
  predicate Unreserved(c: char)
  {
    ('a' <= c <= 'z') || ('A' <= c <= 'Z') || ('0' <= c <= '9') || c in "-_.!~*'()"
  }

  // ----- UTF-8 -----

  /** The UTF-8 octets of the code point of `c`. */
  function Utf8(c: char): (bs: seq<Byte>)
    ensures 1 <= |bs| <= 4
  {
    var x := c as int;
    if x < 0x80 then [x]
    else if x < 0x800 then [0xC0 + x / 0x40, 0x80 + x % 0x40]
    else if x < 0x1_0000 then [0xE0 + x / 0x1000, 0x80 + (x / 0x40) % 0x40, 0x80 + x % 0x40]
    else [0xF0 + x / 0x4_0000, 0x80 + (x / 0x1000) % 0x40, 0x80 + (x / 0x40) % 0x40, 0x80 + x % 0x40]
  }

  /** How many octets a sequence starting with lead octet `b` has; 0 when `b` cannot start one. */
  function SequenceLength(b: Byte): nat
  {
    if b < 0x80 then 1
    else if 0xC0 <= b < 0xE0 then 2
    else if 0xE0 <= b < 0xF0 then 3
    else if 0xF0 <= b < 0xF8 then 4
    else 0
  }

  /** An octet of the form `10xxxxxx`. */
  predicate Continuation(b: Byte)
  {
    0x80 <= b < 0xC0
  }

  /** True when `x` is a Unicode scalar value, so that it can be a `char`. */
  predicate IsScalar(x: int)
  {
    (0 <= x < 0xD800) || (0xE000 <= x < 0x11_0000)
  }

  /** The code-point bits carried by a two- to four-octet sequence. */
  function CodePointOf(bs: seq<Byte>): int
    requires 2 <= |bs| <= 4
  {
    var b0: int, b1: int := bs[0], bs[1];
    if |bs| == 2 then (b0 - 0xC0) * 0x40 + (b1 - 0x80)
    else
      var b2: int := bs[2];
      if |bs| == 3 then (b0 - 0xE0) * 0x1000 + (b1 - 0x80) * 0x40 + (b2 - 0x80)
      else
        var b3: int := bs[3];
        (b0 - 0xF0) * 0x4_0000 + (b1 - 0x80) * 0x1000 + (b2 - 0x80) * 0x40 + (b3 - 0x80)
  }

  /**
   * The code point that `bs` encodes, when `bs` is one complete, shortest-form
   * UTF-8 sequence of a scalar value.
   */
  function Utf8DecodeOne(bs: seq<Byte>): Option<char>
  {
    if |bs| == 0 || SequenceLength(bs[0]) != |bs| then None
    else if |bs| == 1 then Some(bs[0] as char)
    else if exists i :: 1 <= i < |bs| && !Continuation(bs[i]) then None
    else
      var x := CodePointOf(bs);
      var least: int := if |bs| == 2 then 0x80 else if |bs| == 3 then 0x800 else 0x1_0000;
      if least <= x && IsScalar(x) then Some(x as char) else None
  }

  /** Decoding the UTF-8 octets of a character gives the character back. */
  lemma Utf8RoundTrip(c: char)
    ensures SequenceLength(Utf8(c)[0]) == |Utf8(c)|
    ensures Utf8DecodeOne(Utf8(c)) == Some(c)
  {
    var x := c as int;
    if x < 0x80 {
    } else if x < 0x800 {
      Utf8RoundTrip2(x, c);
    } else if x < 0x1_0000 {
      Utf8RoundTrip3(x, c);
    } else {
      Utf8RoundTrip4(x, c);
    }
  }

  lemma Utf8RoundTrip2(x: int, c: char)
    requires c as int == x && 0x80 <= x < 0x800
    ensures Utf8(c) == [0xC0 + x / 0x40, 0x80 + x % 0x40]
    ensures SequenceLength(Utf8(c)[0]) == 2 && Utf8DecodeOne(Utf8(c)) == Some(c)
  {
    var bs: seq<Byte> := [0xC0 + x / 0x40, 0x80 + x % 0x40];
    assert CodePointOf(bs) == x;
    assert Continuation(bs[1]);
  }

  lemma Utf8RoundTrip3(x: int, c: char)
    requires c as int == x && 0x800 <= x < 0x1_0000
    ensures Utf8(c) == [0xE0 + x / 0x1000, 0x80 + (x / 0x40) % 0x40, 0x80 + x % 0x40]
    ensures SequenceLength(Utf8(c)[0]) == 3 && Utf8DecodeOne(Utf8(c)) == Some(c)
  {
    var bs: seq<Byte> := [0xE0 + x / 0x1000, 0x80 + (x / 0x40) % 0x40, 0x80 + x % 0x40];
    assert x / 0x40 == (x / 0x1000) * 0x40 + (x / 0x40) % 0x40;
    assert CodePointOf(bs) == x;
    assert Continuation(bs[1]) && Continuation(bs[2]);
  }

  lemma Utf8RoundTrip4(x: int, c: char)
    requires c as int == x && 0x1_0000 <= x < 0x11_0000
    ensures Utf8(c) == [0xF0 + x / 0x4_0000, 0x80 + (x / 0x1000) % 0x40, 0x80 + (x / 0x40) % 0x40, 0x80 + x % 0x40]
    ensures SequenceLength(Utf8(c)[0]) == 4 && Utf8DecodeOne(Utf8(c)) == Some(c)
  {
    var bs: seq<Byte> := [0xF0 + x / 0x4_0000, 0x80 + (x / 0x1000) % 0x40, 0x80 + (x / 0x40) % 0x40, 0x80 + x % 0x40];
    assert x / 0x1000 == (x / 0x4_0000) * 0x40 + (x / 0x1000) % 0x40;
    assert x / 0x40 == (x / 0x1000) * 0x40 + (x / 0x40) % 0x40;
    assert CodePointOf(bs) == x;
    assert Continuation(bs[1]) && Continuation(bs[2]) && Continuation(bs[3]);
  }

  // ----- hexadecimal digits and escapes -----

  /** The upper-case hexadecimal digit for `d`. */
  function HexDigit(d: int): char
    requires 0 <= d < 16
  {
    if d < 10 then ('0' as int + d) as char else ('A' as int + d - 10) as char
  }

  /** The value of a hexadecimal digit in either case. */
  function HexValue(c: char): Option<int>
  {
    if '0' <= c <= '9' then Some(c as int - '0' as int)
    else if 'A' <= c <= 'F' then Some(c as int - 'A' as int + 10)
    else if 'a' <= c <= 'f' then Some(c as int - 'a' as int + 10)
    else None
  }

  lemma HexRoundTrip(d: int)
    requires 0 <= d < 16
    ensures HexValue(HexDigit(d)) == Some(d)
    ensures Unreserved(HexDigit(d))
  {
  }

  /** The escape `%XY` of one octet. */
  function Escape(b: Byte): (t: string)
    ensures |t| == 3 && t[0] == '%'
  {
    ['%', HexDigit(b / 16), HexDigit(b % 16)]
  }

  /** The octet an escape `%XY` at the start of `t` stands for. */
  function ReadEscape(t: string): Option<Byte>
  {
    if |t| < 3 || t[0] != '%' then None
    else match (HexValue(t[1]), HexValue(t[2]))
      case (Some(h), Some(l)) =>
        if 0 <= h < 16 && 0 <= l < 16 then Some(h * 16 + l) else None
      case _ => None
  }

  /** The escapes of a sequence of octets, one after the other. */
  function Escapes(bs: seq<Byte>): (t: string)
    ensures |t| == 3 * |bs|
  {
    if bs == [] then "" else Escape(bs[0]) + Escapes(bs[1..])
  }

  /** The octets of `n` consecutive escapes at the start of `t`. */
  function ReadEscapes(t: string, n: nat): Option<seq<Byte>>
  {
    if n == 0 then Some([])
    else match ReadEscape(t)
      case None => None
      case Some(b) =>
        if |t| < 3 then None
        else match ReadEscapes(t[3..], n - 1)
          case None => None
          case Some(bs) => Some([b] + bs)
  }

  /** Reading back the escape of an octet gives the octet. */
  lemma ReadEscapeRoundTrip(b: Byte, rest: string)
    ensures ReadEscape(Escape(b) + rest) == Some(b)
  {
    HexRoundTrip(b / 16);
    HexRoundTrip(b % 16);
    var t := Escape(b) + rest;
    assert t[0] == '%' && t[1] == HexDigit(b / 16) && t[2] == HexDigit(b % 16);
  }

  lemma {:induction false} ReadEscapesRoundTrip(bs: seq<Byte>, rest: string)
    ensures ReadEscapes(Escapes(bs) + rest, |bs|) == Some(bs)
  {
    if bs != [] {
      var tail := Escapes(bs[1..]) + rest;
      ReadEscapesRoundTrip(bs[1..], rest);
      ReadEscapesCons(bs[0], tail, |bs| - 1, bs[1..]);
      EscapesCons(bs, rest);
      assert [bs[0]] + bs[1..] == bs;
    }
  }

  /** The escapes of a non-empty sequence start with the escape of its first octet. */
  lemma EscapesCons(bs: seq<Byte>, rest: string)
    requires bs != []
    ensures Escapes(bs) + rest == Escape(bs[0]) + (Escapes(bs[1..]) + rest)
  {
  }

  /** When `n` escapes read back from `tail` as `bs`, `n + 1` escapes read back from `Escape(b) + tail` as `[b] + bs`. */
  lemma ReadEscapesCons(b: Byte, tail: string, n: nat, bs: seq<Byte>)
    requires ReadEscapes(tail, n) == Some(bs)
    ensures ReadEscapes(Escape(b) + tail, n + 1) == Some([b] + bs)
  {
    var t := Escape(b) + tail;
    ReadEscapeRoundTrip(b, tail);
    assert t[3..] == tail;
  }

  // ----- encodeURIComponent -----

  /** The encoding of one character. */
  function EncodeChar(c: char): string
  {
    if Unreserved(c) then [c] else Escapes(Utf8(c))
  }

  /** `encodeURIComponent(s)`. */
  function Encode(s: string): string
  {
    if s == [] then "" else EncodeChar(s[0]) + Encode(s[1..])
  }

  /** The encoding consists of unreserved characters and `%` signs only. */
  lemma {:induction false} EncodeAlphabet(s: string)
    ensures forall i :: 0 <= i < |Encode(s)| ==> Unreserved(Encode(s)[i]) || Encode(s)[i] == '%'
  {
    if s != [] {
      EncodeAlphabet(s[1..]);
      var e := EncodeChar(s[0]);
      if !Unreserved(s[0]) { EscapesAlphabet(Utf8(s[0])); }
      assert Encode(s) == e + Encode(s[1..]);
      forall i | 0 <= i < |Encode(s)| ensures Unreserved(Encode(s)[i]) || Encode(s)[i] == '%' {
        if i >= |e| { assert Encode(s)[i] == Encode(s[1..])[i - |e|]; }
      }
    }
  }

  lemma {:induction false} EscapesAlphabet(bs: seq<Byte>)
    ensures forall i :: 0 <= i < |Escapes(bs)| ==> Unreserved(Escapes(bs)[i]) || Escapes(bs)[i] == '%'
  {
    if bs != [] {
      EscapesAlphabet(bs[1..]);
      HexRoundTrip(bs[0] / 16);
      HexRoundTrip(bs[0] % 16);
      forall i | 0 <= i < |Escapes(bs)| ensures Unreserved(Escapes(bs)[i]) || Escapes(bs)[i] == '%' {
        if i >= 3 { assert Escapes(bs)[i] == Escapes(bs[1..])[i - 3]; }
      }
    }
  }

  /** A string made of unreserved characters is its own encoding. */
  lemma {:induction false} EncodeUnreservedIdentity(s: string)
    requires forall i :: 0 <= i < |s| ==> Unreserved(s[i])
    ensures Encode(s) == s
  {
    if s != [] {
      EncodeUnreservedIdentity(s[1..]);
    }
  }

  // ----- decodeURIComponent -----

  /** `decodeURIComponent(t)`, or `None` where it throws a `URIError`. */
  function Decode(t: string): Option<string>
    decreases |t|
  {
    if t == [] then Some("")
    else if t[0] != '%' then
      match Decode(t[1..])
      case None => None
      case Some(r) => Some([t[0]] + r)
    else
      match ReadEscape(t)
      case None => None
      case Some(lead) =>
        var n := SequenceLength(lead);
        if n == 0 || |t| < 3 * n then None
        else match ReadEscapes(t, n)
          case None => None
          case Some(bs) =>
            match Utf8DecodeOne(bs)
            case None => None
            case Some(c) =>
              match Decode(t[3 * n..])
              case None => None
              case Some(r) => Some([c] + r)
  }

  /** Decoding the encoding of one character and then `rest` yields the character, then the decoding of `rest`. */
  lemma DecodeEncodeChar(c: char, rest: string)
    ensures Decode(EncodeChar(c) + rest) ==
      match Decode(rest)
      case None => None
      case Some(r) => Some([c] + r)
  {
    if Unreserved(c) {
      var t := [c] + rest;
      assert t[0] == c && t[1..] == rest;
    } else {
      Utf8RoundTrip(c);
      DecodeEscapedChar(Utf8(c), c, rest);
    }
  }

  /** The escapes of a well-formed UTF-8 sequence decode to its character, followed by the decoding of `rest`. */
  lemma DecodeEscapedChar(bs: seq<Byte>, c: char, rest: string)
    requires bs != [] && SequenceLength(bs[0]) == |bs|
    requires Utf8DecodeOne(bs) == Some(c)
    ensures Decode(Escapes(bs) + rest) ==
      match Decode(rest)
      case None => None
      case Some(r) => Some([c] + r)
  {
    var t := Escapes(bs) + rest;
    EscapesCons(bs, rest);
    ReadEscapeRoundTrip(bs[0], Escapes(bs[1..]) + rest);
    assert t[0] == '%';
    assert ReadEscape(t) == Some(bs[0]);
    ReadEscapesRoundTrip(bs, rest);
    assert t[3 * |bs|..] == rest;
  }

  /** `decodeURIComponent(encodeURIComponent(s)) == s` for every string. */
  lemma {:induction false} DecodeEncode(s: string)
    ensures Decode(Encode(s)) == Some(s)
  {
    if s != [] {
      DecodeEncode(s[1..]);
      DecodeEncodeChar(s[0], Encode(s[1..]));
      assert [s[0]] + s[1..] == s;
    }
  }

  /** Encoding is injective: different strings have different encodings. */
  lemma EncodeInjective(s1: string, s2: string)
    requires Encode(s1) == Encode(s2)
    ensures s1 == s2
  {
    DecodeEncode(s1);
    DecodeEncode(s2);
  }
}
