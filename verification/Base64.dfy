/** Base64 (section 4 of RFC 4648): encode, strict decode, and that the one undoes the other. */
module Base64 {
  import opened Basics
  import opened Utf8

  type Sextet = x: int | 0 <= x < 64

  function Letter(n: Sextet): char {
    if n < 26 then ('A' as int + n) as char
    else if n < 52 then ('a' as int + n - 26) as char
    else if n < 62 then ('0' as int + n - 52) as char
    else if n == 62 then '+' else '/'
  }

  function Digit(c: char): Option<Sextet> {
    var x := c as int;
    if 'A' <= c <= 'Z' then Some(x - 'A' as int)
    else if 'a' <= c <= 'z' then Some(x - 'a' as int + 26)
    else if '0' <= c <= '9' then Some(x - '0' as int + 52)
    else if c == '+' then Some(62) else if c == '/' then Some(63) else None
  }

  function Encode(bs: seq<Byte>): string {
    if bs == [] then ""
    else if |bs| == 1 then
      var a: int := bs[0];
      [Letter(a / 4), Letter(a % 4 * 16), '=', '=']
    else if |bs| == 2 then
      var a: int, b: int := bs[0], bs[1];
      [Letter(a / 4), Letter(a % 4 * 16 + b / 16), Letter(b % 16 * 4), '=']
    else
      var a: int, b: int, c: int := bs[0], bs[1], bs[2];
      [Letter(a / 4), Letter(a % 4 * 16 + b / 16), Letter(b % 16 * 4 + c / 64), Letter(c % 64)] + Encode(bs[3..])
  }

  /** Whole groups of the alphabet, padding only at the end. */
  function Decode(s: string): Option<seq<Byte>> {
    if s == "" then Some([])
    else if |s| < 4 || Digit(s[0]).None? || Digit(s[1]).None? then None
    else
      var p: int, q: int := Digit(s[0]).value, Digit(s[1]).value;
      var a := p * 4 + q / 16;
      if s[2..] == "==" then Some([a])
      else if Digit(s[2]).None? then None
      else
        var r: int := Digit(s[2]).value;
        var b := q % 16 * 16 + r / 4;
        if s[3..] == "=" then Some([a, b])
        else if Digit(s[3]).None? then None
        else
          var t: int := Digit(s[3]).value;
          match Decode(s[4..])
          case None => None
          case Some(rest) => Some([a, b, r % 4 * 64 + t] + rest)
  }

  lemma DigitOfLetter(n: Sextet)
    ensures Digit(Letter(n)) == Some(n) && Letter(n) != '='
  {
  }

  lemma TailOfOne(a: Byte)
    ensures Decode(Encode([a])) == Some([a])
  {
    hide Letter, Digit;
    var s := Encode([a]);
    DigitOfLetter(a as int / 4);
    DigitOfLetter(a as int % 4 * 16);
    assert s[2..] == "==";
  }

  lemma TailOfTwo(a: Byte, b: Byte)
    ensures Decode(Encode([a, b])) == Some([a, b])
  {
    hide Letter, Digit;
    var s := Encode([a, b]);
    DigitOfLetter(a as int / 4);
    DigitOfLetter(a as int % 4 * 16 + b as int / 16);
    DigitOfLetter(b as int % 16 * 4);
    assert s[3..] == "=";
    assert s[2..][0] == s[2];
  }

  /** Three bytes cut into four sextets and put together again. */
  lemma Sextets(a: int, b: int, c: int)
    requires 0 <= a < 256 && 0 <= b < 256 && 0 <= c < 256
    ensures var p, q, r, t := a / 4, a % 4 * 16 + b / 16, b % 16 * 4 + c / 64, c % 64;
            && 0 <= p < 64 && 0 <= q < 64 && 0 <= r < 64 && 0 <= t < 64
            && p * 4 + q / 16 == a && q % 16 * 16 + r / 4 == b && r % 4 * 64 + t == c
  {
  }

  /** One group of the decoder. */
  lemma DecodeGroup(p: Sextet, q: Sextet, r: Sextet, t: Sextet, rest: string)
    requires Decode(rest).Some?
    ensures 0 <= p * 4 + q / 16 < 256 && 0 <= q % 16 * 16 + r / 4 < 256 && 0 <= r % 4 * 64 + t < 256
    ensures Decode([Letter(p), Letter(q), Letter(r), Letter(t)] + rest)
            == Some([p * 4 + q / 16, q % 16 * 16 + r / 4, r % 4 * 64 + t] + Decode(rest).value)
  {
    var s := [Letter(p), Letter(q), Letter(r), Letter(t)] + rest;
    DigitOfLetter(p);
    DigitOfLetter(q);
    DigitOfLetter(r);
    DigitOfLetter(t);
    hide Letter, Digit;
    NoPadding(s);
    assert s[4..] == rest;
    assert s[0] == Letter(p) && s[1] == Letter(q) && s[2] == Letter(r) && s[3] == Letter(t);
  }

  lemma NoPadding(s: string)
    requires |s| >= 4 && s[2] != '=' && s[3] != '='
    ensures s[2..] != "==" && s[3..] != "="
  {
    assert s[2..][0] == s[2] && s[3..][0] == s[3];
  }

  /** Three bytes and their four letters. */
  lemma WholeGroup(a: Byte, b: Byte, c: Byte, rest: seq<Byte>)
    requires Decode(Encode(rest)) == Some(rest)
    ensures Decode(Encode([a, b, c] + rest)) == Some([a, b, c] + rest)
  {
    var bs := [a, b, c] + rest;
    assert bs[0] == a && bs[1] == b && bs[2] == c && bs[3..] == rest;
    Sextets(a, b, c);
    hide Letter, Decode;
    DecodeGroup(a as int / 4, a as int % 4 * 16 + b as int / 16, b as int % 16 * 4 + c as int / 64, c as int % 64,
                Encode(rest));
  }

  lemma {:induction false} DecodeEncode(bs: seq<Byte>)
    ensures Decode(Encode(bs)) == Some(bs)
  {
    if bs == [] {
    } else if |bs| == 1 {
      TailOfOne(bs[0]);
      assert bs == [bs[0]];
    } else if |bs| == 2 {
      TailOfTwo(bs[0], bs[1]);
      assert bs == [bs[0], bs[1]];
    } else {
      hide Decode, Encode;
      DecodeEncode(bs[3..]);
      WholeGroup(bs[0], bs[1], bs[2], bs[3..]);
      assert bs == [bs[0], bs[1], bs[2]] + bs[3..];
    }
  }
}
