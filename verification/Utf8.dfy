/** Incremental UTF-8 decoding (section 3 of RFC 3629). */
module Utf8 {
  import opened Basics

  type Byte = x: int | 0 <= x < 256

  datatype Head = Need | Bad | Char(c: char, size: nat)

  predicate Tail(b: Byte) { 0x80 <= b < 0xC0 }

  /** The second byte is in the range its lead byte leaves it: no overlong forms, no surrogates,
      nothing above U+10FFFF. */
  predicate Second(lead: Byte, b: Byte) {
    && Tail(b)
    && (lead == 0xE0 ==> b >= 0xA0) && (lead == 0xED ==> b < 0xA0)
    && (lead == 0xF0 ==> b >= 0x90) && (lead == 0xF4 ==> b < 0x90)
  }

  function Width(lead: Byte): nat {
    if lead < 0x80 then 1 else if lead < 0xC2 then 0 else if lead < 0xE0 then 2
    else if lead < 0xF0 then 3 else if lead < 0xF5 then 4 else 0
  }

  /** What the front of a byte string is: a character, an error, or an incomplete sequence. */
  function Front(bs: seq<Byte>): (h: Head)
    requires bs != []
    ensures h.Char? ==> 1 <= h.size <= |bs|
  {
    var w := Width(bs[0]);
    var b0: int := bs[0];
    if w == 0 then Bad
    else if w == 1 then Char(b0 as char, 1)
    else if |bs| == 1 then Need
    else if !Second(bs[0], bs[1]) then Bad
    else
      var b1: int := bs[1];
      if w == 2 then Char(((b0 - 0xC0) * 64 + (b1 - 0x80)) as char, 2)
      else if |bs| == 2 then Need
      else if !Tail(bs[2]) then Bad
      else
        var b2: int := bs[2];
        if w == 3 then Char(((b0 - 0xE0) * 4096 + (b1 - 0x80) * 64 + (b2 - 0x80)) as char, 3)
        else if |bs| == 3 then Need
        else if !Tail(bs[3]) then Bad
        else
          var b3: int := bs[3];
          Char(((b0 - 0xF0) * 262144 + (b1 - 0x80) * 4096 + (b2 - 0x80) * 64 + (b3 - 0x80)) as char, 4)
  }

  datatype Decoded = Decoded(text: string, rest: seq<Byte>)

  /** One call of the decoder: all whole characters, and the incomplete sequence it holds back. */
  function Decode(bs: seq<Byte>): Option<Decoded> {
    if bs == [] then Some(Decoded("", [])) else
    match Front(bs)
    case Need => Some(Decoded("", bs))
    case Bad => None
    case Char(c, n) =>
      match Decode(bs[n..])
      case None => None
      case Some(d) => Some(Decoded([c] + d.text, d.rest))
  }

  /** A whole body that decodes with nothing held back. */
  predicate Valid(bs: seq<Byte>) { Decode(bs).Some? && Decode(bs).value.rest == [] }

  /** More bytes do not change what is already decided. */
  lemma FrontExtends(a: seq<Byte>, b: seq<Byte>)
    requires a != []
    ensures !Front(a).Need? ==> Front(a + b) == Front(a)
  {
    assert (a + b)[0] == a[0];
    if |a| > 1 { assert (a + b)[1] == a[1]; }
    if |a| > 2 { assert (a + b)[2] == a[2]; }
    if |a| > 3 { assert (a + b)[3] == a[3]; }
  }

  /** Decoding in two calls is decoding at once: the second call starts from the held-back bytes. */
  lemma {:induction false} DecodeAppend(a: seq<Byte>, b: seq<Byte>)
    ensures Decode(a + b) == match Decode(a)
                             case None => None
                             case Some(x) =>
                               match Decode(x.rest + b) {
                                 case None => None
                                 case Some(y) => Some(Decoded(x.text + y.text, y.rest))
                               }
    decreases |a|
  {
    hide Front;
    if a == [] {
      assert [] + b == b;
      if Decode(b).Some? { assert "" + Decode(b).value.text == Decode(b).value.text; }
    } else {
      FrontExtends(a, b);
      match Front(a)
      case Bad =>
      case Need =>
        if Decode(a + b).Some? { assert "" + Decode(a + b).value.text == Decode(a + b).value.text; }
      case Char(c, n) =>
        DecodeAppend(a[n..], b);
        assert (a + b)[n..] == a[n..] + b;
        if Decode(a[n..]).Some? {
          var x := Decode(a[n..]).value;
          if Decode(x.rest + b).Some? {
            var y := Decode(x.rest + b).value;
            assert ([c] + x.text) + y.text == [c] + (x.text + y.text);
          }
        }
    }
  }

  // ---- the encoding ----

  /** One character in one to four bytes. */
  function EncodeOne(c: char): seq<Byte> {
    var n := c as int;
    if n < 0x80 then [n]
    else if n < 0x800 then [0xC0 + n / 64, 0x80 + n % 64]
    else if n < 0x1_0000 then [0xE0 + n / 4096, 0x80 + n / 64 % 64, 0x80 + n % 64]
    else [0xF0 + n / 262144, 0x80 + n / 4096 % 64, 0x80 + n / 64 % 64, 0x80 + n % 64]
  }

  function Encode(s: string): seq<Byte> { if s == "" then [] else EncodeOne(s[0]) + Encode(s[1..]) }

  /** Numbers are their digits to the base 64. */
  lemma Digits(x: int, y: int, z: int, w: int)
    requires 0 <= x && 0 <= y < 64 && 0 <= z < 64 && 0 <= w < 64
    ensures var n := x * 262144 + y * 4096 + z * 64 + w;
            n / 262144 == x && n / 4096 == x * 64 + y && n / 4096 % 64 == y && n / 64 % 64 == z && n % 64 == w
  {
  }

  lemma FrontOfEncoded(c: char)
    ensures Front(EncodeOne(c)) == Char(c, |EncodeOne(c)|)
  {
    var n := c as int;
    if 0x80 <= n < 0x800 {
      FrontOfTwo(c);
    } else if 0x800 <= n < 0x1_0000 {
      FrontOfThree(c);
    } else if 0x1_0000 <= n {
      FrontOfFour(c);
    }
  }

  lemma FrontOfTwo(c: char)
    requires 0x80 <= c as int < 0x800
    ensures Front(EncodeOne(c)) == Char(c, 2)
  {
    var n := c as int;
    assert n == n / 64 * 64 + n % 64;
  }

  lemma FrontOfThree(c: char)
    requires 0x800 <= c as int < 0x1_0000
    ensures Front(EncodeOne(c)) == Char(c, 3)
  {
    var n := c as int;
    assert n == n / 4096 * 4096 + n / 64 % 64 * 64 + n % 64;
  }

  lemma FrontOfFour(c: char)
    requires 0x1_0000 <= c as int
    ensures Front(EncodeOne(c)) == Char(c, 4)
  {
    var n := c as int;
    assert n == n / 262144 * 262144 + n / 4096 % 64 * 4096 + n / 64 % 64 * 64 + n % 64;
  }

  lemma EncodedFront(bs: seq<Byte>)
    requires bs != [] && Front(bs).Char?
    ensures EncodeOne(Front(bs).c) == bs[..Front(bs).size]
  {
    match Front(bs).size
    case 1 =>
    case 2 =>
      EncodedTwo(bs);
    case 3 =>
      EncodedThree(bs);
    case _ =>
      EncodedFour(bs);
  }

  lemma EncodedTwo(bs: seq<Byte>)
    requires bs != [] && Front(bs).Char? && Front(bs).size == 2
    ensures EncodeOne(Front(bs).c) == bs[..2]
  {
    var b0: int, b1: int := bs[0], bs[1];
    Digits(0, 0, b0 - 0xC0, b1 - 0x80);
    assert bs[..2] == [bs[0], bs[1]];
  }

  lemma EncodedThree(bs: seq<Byte>)
    requires bs != [] && Front(bs).Char? && Front(bs).size == 3
    ensures EncodeOne(Front(bs).c) == bs[..3]
  {
    var b0: int, b1: int, b2: int := bs[0], bs[1], bs[2];
    Digits(0, b0 - 0xE0, b1 - 0x80, b2 - 0x80);
    assert bs[..3] == [bs[0], bs[1], bs[2]];
  }

  lemma EncodedFour(bs: seq<Byte>)
    requires bs != [] && Front(bs).Char? && Front(bs).size == 4
    ensures EncodeOne(Front(bs).c) == bs[..4]
  {
    var b0: int, b1: int, b2: int, b3: int := bs[0], bs[1], bs[2], bs[3];
    Digits(b0 - 0xF0, b1 - 0x80, b2 - 0x80, b3 - 0x80);
    assert bs[..4] == [bs[0], bs[1], bs[2], bs[3]];
  }

  /** Decoding a text's encoding gives the text, with nothing held back. */
  lemma {:induction false} DecodeEncode(s: string)
    ensures Decode(Encode(s)) == Some(Decoded(s, []))
    decreases |s|
  {
    hide Front, EncodeOne;
    if s != "" {
      var a, b := EncodeOne(s[0]), Encode(s[1..]);
      FrontOfEncoded(s[0]);
      assert a != [] by { EncodedSize(s[0]); }
      FrontExtends(a, b);
      assert (a + b)[|a|..] == b;
      DecodeEncode(s[1..]);
      assert [s[0]] + s[1..] == s;
    }
  }

  lemma EncodedSize(c: char)
    ensures 1 <= |EncodeOne(c)| <= 4
  {
  }

  /** And whatever is decoded is the encoding of what came out, followed by what is held back. */
  lemma {:induction false} EncodeDecode(bs: seq<Byte>)
    requires Decode(bs).Some?
    ensures bs == Encode(Decode(bs).value.text) + Decode(bs).value.rest
    decreases |bs|
  {
    hide Front, EncodeOne;
    if bs != [] && Front(bs).Char? {
      var c, n := Front(bs).c, Front(bs).size;
      EncodeDecode(bs[n..]);
      EncodedFront(bs);
      var d := Decode(bs[n..]).value;
      assert ([c] + d.text)[0] == c && ([c] + d.text)[1..] == d.text;
      assert bs == bs[..n] + bs[n..];
      assert EncodeOne(c) + (Encode(d.text) + d.rest) == (EncodeOne(c) + Encode(d.text)) + d.rest;
    }
  }

  /** So the valid bodies are exactly the encodings of texts. */
  lemma ValidIsEncoded(bs: seq<Byte>)
    ensures Valid(bs) <==> exists s: string :: bs == Encode(s)
  {
    hide Encode;
    if Valid(bs) {
      EncodeDecode(bs);
      assert bs == Encode(Decode(bs).value.text);
    }
    if s: string :| bs == Encode(s) { DecodeEncode(s); }
  }
}
