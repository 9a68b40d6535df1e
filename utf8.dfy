/**
 * UTF-8, the encoding `Buffer.from(text)` applies before base64: each
 * character becomes one to four bytes.
 */
module Utf8 {
  import opened Wrappers
  import opened Base64

  /** The bytes of one character. */
  function EncodeChar(c: char): (r: seq<byte>)
    ensures 1 <= |r| <= 4
    ensures (c as int < 0x80) <==> |r| == 1
    ensures |r| == 1 ==> r[0] == c as int
  {
    var v := c as int;
    if v < 0x80 then [v]
    else if v < 0x800 then [0xC0 + v / 64, 0x80 + v % 64]
    else if v < 0x10000 then [0xE0 + v / 4096, 0x80 + (v / 64) % 64, 0x80 + v % 64]
    else [0xF0 + v / 262144, 0x80 + (v / 4096) % 64, 0x80 + (v / 64) % 64, 0x80 + v % 64]
  }

  /** The bytes of a text: its characters' bytes, in order. */
  function Encode(s: string): (r: seq<byte>)
    ensures |r| >= |s|
    decreases |s|
  {
    if s == [] then [] else EncodeChar(s[0]) + Encode(s[1..])
  }

  /** A byte that continues a multi-byte character, and its six payload bits. */
  function Continuation(b: byte): Option<nat>
  {
    if 0x80 <= b < 0xC0 then Some(b - 0x80) else None
  }

  /** The scalar value `v` as a character, when it is one (not a surrogate, not above U+10FFFF). */
  function ToChar(v: int): Option<char>
  {
    if 0 <= v < 0xD800 || 0xE000 <= v <= 0x10FFFF then Some(v as char) else None
  }

  /** The first character of `bs` and how many bytes it took. */
  function DecodeFirst(bs: seq<byte>): Option<(char, nat)>
    requires bs != []
  {
    var b0 := bs[0];
    if b0 < 0x80 then Some((b0 as char, 1))
    else if 0xC0 <= b0 < 0xE0 && |bs| >= 2 && Continuation(bs[1]).Some? then
      var v := (b0 - 0xC0) * 64 + Continuation(bs[1]).value;
      if v < 0x80 then None else match ToChar(v) case None => None case Some(c) => Some((c, 2))
    else if 0xE0 <= b0 < 0xF0 && |bs| >= 3 && Continuation(bs[1]).Some? && Continuation(bs[2]).Some? then
      var v := (b0 - 0xE0) * 4096 + Continuation(bs[1]).value * 64 + Continuation(bs[2]).value;
      if v < 0x800 then None else match ToChar(v) case None => None case Some(c) => Some((c, 3))
    else if 0xF0 <= b0 < 0xF8 && |bs| >= 4 && Continuation(bs[1]).Some? && Continuation(bs[2]).Some? && Continuation(bs[3]).Some? then
      var v := (b0 - 0xF0) * 262144 + Continuation(bs[1]).value * 4096 + Continuation(bs[2]).value * 64 + Continuation(bs[3]).value;
      if v < 0x10000 then None else match ToChar(v) case None => None case Some(c) => Some((c, 4))
    else None
  }

  /** Bytes back to text; None for anything that is not well-formed UTF-8. */
  function Decode(bs: seq<byte>): Option<string>
    decreases |bs|
  {
    if bs == [] then Some([])
    else match DecodeFirst(bs)
      case None => None
      case Some((c, n)) =>
        if n == 0 || n > |bs| then None
        else match Decode(bs[n..])
          case None => None
          case Some(rest) => Some([c] + rest)
  }

  /** A character's bytes, followed by anything, decode back to that character first. */
  lemma DecodeFirstEncodeChar(c: char, rest: seq<byte>)
    ensures var bs := EncodeChar(c) + rest;
      DecodeFirst(bs) == Some((c, |EncodeChar(c)|))
  {
    var v := c as int;
    if v < 0x80 {
    } else if v < 0x800 {
      DecodeTwo(c, rest);
    } else if v < 0x10000 {
      DecodeThree(c, rest);
    } else {
      DecodeFour(c, rest);
    }
  }

  lemma DecodeTwo(c: char, rest: seq<byte>)
    requires 0x80 <= c as int < 0x800
    ensures DecodeFirst(EncodeChar(c) + rest) == Some((c, 2))
  {
    var v := c as int;
    var hi, lo := v / 64, v % 64;
    assert v == hi * 64 + lo;
    var bs := EncodeChar(c) + rest;
    assert bs[0] == 0xC0 + hi && bs[1] == 0x80 + lo;
    assert ToChar(v) == Some(c);
  }

  lemma DecodeThree(c: char, rest: seq<byte>)
    requires 0x800 <= c as int < 0x10000
    ensures DecodeFirst(EncodeChar(c) + rest) == Some((c, 3))
  {
    var v := c as int;
    var q, lo := v / 64, v % 64;
    var hi, mid := q / 64, q % 64;
    assert v == q * 64 + lo && q == hi * 64 + mid;
    assert v / 4096 == hi;
    var bs := EncodeChar(c) + rest;
    assert bs[0] == 0xE0 + hi && bs[1] == 0x80 + mid && bs[2] == 0x80 + lo;
    assert v == hi * 4096 + mid * 64 + lo;
    assert ToChar(v) == Some(c);
  }

  lemma DecodeFour(c: char, rest: seq<byte>)
    requires 0x10000 <= c as int
    ensures DecodeFirst(EncodeChar(c) + rest) == Some((c, 4))
  {
    var v := c as int;
    var q, b3 := v / 64, v % 64;
    var p, b2 := q / 64, q % 64;
    var b0, b1 := p / 64, p % 64;
    assert v == q * 64 + b3 && q == p * 64 + b2 && p == b0 * 64 + b1;
    assert v / 4096 == p && v / 262144 == b0;
    var bs := EncodeChar(c) + rest;
    assert bs[0] == 0xF0 + b0 && bs[1] == 0x80 + b1 && bs[2] == 0x80 + b2 && bs[3] == 0x80 + b3;
    assert v == b0 * 262144 + b1 * 4096 + b2 * 64 + b3;
    assert ToChar(v) == Some(c);
  }

  /** Decoding undoes encoding. */
  lemma {:induction false} DecodeEncode(s: string)
    ensures Decode(Encode(s)) == Some(s)
    decreases |s|
  {
    if s != [] {
      var bs := Encode(s);
      DecodeFirstEncodeChar(s[0], Encode(s[1..]));
      assert bs[|EncodeChar(s[0])|..] == Encode(s[1..]);
      DecodeEncode(s[1..]);
      assert s == [s[0]] + s[1..];
    }
  }

  /** Text made of ASCII characters is its own encoding, byte for character. */
  lemma {:induction false} EncodeAscii(s: string)
    requires forall i :: 0 <= i < |s| ==> s[i] as int < 0x80
    ensures |Encode(s)| == |s|
    ensures forall i :: 0 <= i < |s| ==> Encode(s)[i] == s[i] as int
    decreases |s|
  {
    if s != [] {
      EncodeAscii(s[1..]);
    }
  }
}
