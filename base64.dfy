/**
 * Base64 over bytes as section 4 of RFC 4648 defines it, and the URL-safe
 * form the Gmail client sends: `+` and `/` replaced by `-` and `_` and the
 * trailing `=` padding removed (section 5 of RFC 4648).
 */
module Base64 {
  import opened Wrappers

  type byte = x: int | 0 <= x < 256

  /** The character for a 6-bit value: A-Z, a-z, 0-9, then `+` and `/`. */
  function Base64Char(v: nat): (c: char)
    requires v < 64
    ensures c != '=' && c != '-' && c != '_'
  {
    if v < 26 then ('A' as int + v) as char
    else if v < 52 then ('a' as int + (v - 26)) as char
    else if v < 62 then ('0' as int + (v - 52)) as char
    else if v == 62 then '+'
    else '/'
  }

  /** The 6-bit value of a base64 character, if it is one. */
  function CharValue(c: char): (r: Option<nat>)
    ensures r.Some? ==> r.value < 64
  {
    if 'A' <= c <= 'Z' then Some(c as int - 'A' as int)
    else if 'a' <= c <= 'z' then Some(c as int - 'a' as int + 26)
    else if '0' <= c <= '9' then Some(c as int - '0' as int + 52)
    else if c == '+' then Some(62)
    else if c == '/' then Some(63)
    else None
  }

  lemma CharValueOfBase64Char(v: nat)
    requires v < 64
    ensures CharValue(Base64Char(v)) == Some(v)
  {
  }

  /** Three bytes as four characters. */
  function EncodeGroup(b0: byte, b1: byte, b2: byte): string
  {
    [Base64Char(b0 / 4), Base64Char((b0 % 4) * 16 + b1 / 16), Base64Char((b1 % 16) * 4 + b2 / 64), Base64Char(b2 % 64)]
  }

  /** `Buffer.toString('base64')`: groups of three bytes, with `=` filling the last group of four characters. */
  function Encode(bs: seq<byte>): (r: string)
    ensures |r| == 4 * ((|bs| + 2) / 3)
    decreases |bs|
  {
    if |bs| == 0 then []
    else if |bs| == 1 then [Base64Char(bs[0] / 4), Base64Char((bs[0] % 4) * 16), '=', '=']
    else if |bs| == 2 then [Base64Char(bs[0] / 4), Base64Char((bs[0] % 4) * 16 + bs[1] / 16), Base64Char((bs[1] % 16) * 4), '=']
    else EncodeGroup(bs[0], bs[1], bs[2]) + Encode(bs[3..])
  }

  /** Four characters without padding as three bytes. */
  function DecodeGroup(v0: nat, v1: nat, v2: nat, v3: nat): seq<byte>
    requires v0 < 64 && v1 < 64 && v2 < 64 && v3 < 64
  {
    [v0 * 4 + v1 / 16, (v1 % 16) * 16 + v2 / 4, (v2 % 4) * 64 + v3]
  }

  /** Padded base64 back to bytes; None for a length that is not a multiple of four or a character outside the alphabet. */
  function Decode(s: string): Option<seq<byte>>
    decreases |s|
  {
    if |s| == 0 then Some([])
    else if |s| < 4 then None
    else
      var c0, c1, c2, c3 := CharValue(s[0]), CharValue(s[1]), CharValue(s[2]), CharValue(s[3]);
      if c0.None? || c1.None? then None
      else if |s| == 4 && s[2] == '=' && s[3] == '=' then
        Some([c0.value * 4 + c1.value / 16])
      else if |s| == 4 && s[3] == '=' && c2.Some? then
        Some([c0.value * 4 + c1.value / 16, (c1.value % 16) * 16 + c2.value / 4])
      else if c2.None? || c3.None? then None
      else match Decode(s[4..])
        case None => None
        case Some(rest) => Some(DecodeGroup(c0.value, c1.value, c2.value, c3.value) + rest)
  }

  lemma DecodeEncodeGroup(b0: byte, b1: byte, b2: byte)
    ensures var g := EncodeGroup(b0, b1, b2);
      CharValue(g[0]).Some? && CharValue(g[1]).Some? && CharValue(g[2]).Some? && CharValue(g[3]).Some?
      && DecodeGroup(CharValue(g[0]).value, CharValue(g[1]).value, CharValue(g[2]).value, CharValue(g[3]).value) == [b0, b1, b2]
  {
    var v0, v1, v2, v3 := b0 / 4, (b0 % 4) * 16 + b1 / 16, (b1 % 16) * 4 + b2 / 64, b2 % 64;
    CharValueOfBase64Char(v0);
    CharValueOfBase64Char(v1);
    CharValueOfBase64Char(v2);
    CharValueOfBase64Char(v3);
    RecombineThree(b0, b1, b2, v0, v1, v2, v3);
  }

  lemma RecombineThree(b0: byte, b1: byte, b2: byte, v0: int, v1: int, v2: int, v3: int)
    requires v0 == b0 / 4 && v1 == (b0 % 4) * 16 + b1 / 16 && v2 == (b1 % 16) * 4 + b2 / 64 && v3 == b2 % 64
    ensures v0 * 4 + v1 / 16 == b0 && (v1 % 16) * 16 + v2 / 4 == b1 && (v2 % 4) * 64 + v3 == b2
  {
    assert v1 % 16 == b1 / 16 && v1 / 16 == b0 % 4;
    assert v2 % 4 == b2 / 64 && v2 / 4 == b1 % 16;
  }

  /** One byte: two characters and two `=`. */
  lemma DecodeEncodeOne(bs: seq<byte>)
    requires |bs| == 1
    ensures Decode(Encode(bs)) == Some(bs)
  {
    var v0, v1 := bs[0] / 4, (bs[0] % 4) * 16;
    CharValueOfBase64Char(v0);
    CharValueOfBase64Char(v1);
    RecombineOne(bs, v0, v1);
    DecodePaddedOne(Encode(bs), v0, v1, bs);
  }

  lemma RecombineOne(bs: seq<byte>, v0: int, v1: int)
    requires |bs| == 1 && v0 == bs[0] / 4 && v1 == (bs[0] % 4) * 16
    ensures [v0 * 4 + v1 / 16] == bs
  {
  }

  lemma DecodePaddedOne(s: string, v0: nat, v1: nat, bs: seq<byte>)
    requires v0 < 64 && v1 < 64 && s == [Base64Char(v0), Base64Char(v1), '=', '=']
    requires CharValue(s[0]) == Some(v0) && CharValue(s[1]) == Some(v1)
    requires [v0 * 4 + v1 / 16] == bs
    ensures Decode(s) == Some(bs)
  {
  }

  /** Two bytes: three characters and one `=`. */
  lemma DecodeEncodeTwo(bs: seq<byte>)
    requires |bs| == 2
    ensures Decode(Encode(bs)) == Some(bs)
  {
    var v0, v1, v2 := bs[0] / 4, (bs[0] % 4) * 16 + bs[1] / 16, (bs[1] % 16) * 4;
    CharValueOfBase64Char(v0);
    CharValueOfBase64Char(v1);
    CharValueOfBase64Char(v2);
    RecombineTwo(bs, v0, v1, v2);
    DecodePaddedTwo(Encode(bs), v0, v1, v2, bs);
  }

  lemma RecombineTwo(bs: seq<byte>, v0: int, v1: int, v2: int)
    requires |bs| == 2
    requires v0 == bs[0] / 4 && v1 == (bs[0] % 4) * 16 + bs[1] / 16 && v2 == (bs[1] % 16) * 4
    ensures [v0 * 4 + v1 / 16, (v1 % 16) * 16 + v2 / 4] == bs
  {
    assert v1 % 16 == bs[1] / 16 && v2 / 4 == bs[1] % 16;
  }

  lemma DecodePaddedTwo(s: string, v0: nat, v1: nat, v2: nat, bs: seq<byte>)
    requires v0 < 64 && v1 < 64 && v2 < 64 && s == [Base64Char(v0), Base64Char(v1), Base64Char(v2), '=']
    requires CharValue(s[0]) == Some(v0) && CharValue(s[1]) == Some(v1) && CharValue(s[2]) == Some(v2)
    requires [v0 * 4 + v1 / 16, (v1 % 16) * 16 + v2 / 4] == bs
    ensures Decode(s) == Some(bs)
  {
  }

  /** A leading group of four alphabet characters decodes to three bytes in front of the rest. */
  lemma DecodeLeadingGroup(s: string)
    requires |s| >= 4
    requires CharValue(s[0]).Some? && CharValue(s[1]).Some? && CharValue(s[2]).Some? && CharValue(s[3]).Some?
    ensures Decode(s).Some? <==> Decode(s[4..]).Some?
    ensures var g := DecodeGroup(CharValue(s[0]).value, CharValue(s[1]).value, CharValue(s[2]).value, CharValue(s[3]).value);
      Decode(s).Some? ==> Decode(s).value == g + Decode(s[4..]).value
  {
    assert s[3] != '=';
  }

  /** Decoding undoes encoding (section 4 of RFC 4648). */
  lemma {:induction false} DecodeEncode(bs: seq<byte>)
    ensures Decode(Encode(bs)) == Some(bs)
    decreases |bs|
  {
    if |bs| >= 3 {
      DecodeEncode(bs[3..]);
      DecodeEncodeStep(bs);
    } else {
      DecodeEncodeShort(bs);
    }
  }

  /** Fewer than three bytes: the final, padded group, or nothing. */
  lemma DecodeEncodeShort(bs: seq<byte>)
    requires |bs| < 3
    ensures Decode(Encode(bs)) == Some(bs)
  {
    if |bs| == 1 {
      DecodeEncodeOne(bs);
    } else if |bs| == 2 {
      DecodeEncodeTwo(bs);
    }
  }

  /** A full group in front: the three bytes come back in front of the rest. */
  lemma DecodeEncodeStep(bs: seq<byte>)
    requires |bs| >= 3 && Decode(Encode(bs[3..])) == Some(bs[3..])
    ensures Decode(Encode(bs)) == Some(bs)
  {
    EncodeFirstGroup(bs);
    DecodeGroupThen(Encode(bs), EncodeGroup(bs[0], bs[1], bs[2]), Encode(bs[3..]), bs[0], bs[1], bs[2], bs[3..]);
    FirstThree(bs);
  }

  /** Three or more bytes: the first group's four characters, then the encoding of the rest. */
  lemma EncodeFirstGroup(bs: seq<byte>)
    requires |bs| >= 3
    ensures Encode(bs) == EncodeGroup(bs[0], bs[1], bs[2]) + Encode(bs[3..])
  {
  }

  lemma FirstThree<T>(xs: seq<T>)
    requires |xs| >= 3
    ensures [xs[0], xs[1], xs[2]] + xs[3..] == xs
  {
  }

  /** An encoded group in front of text that decodes decodes to its three bytes in front of what the text decodes to. */
  lemma DecodeGroupThen(s: string, g: string, rest: string, b0: byte, b1: byte, b2: byte, tail: seq<byte>)
    requires g == EncodeGroup(b0, b1, b2) && s == g + rest && Decode(rest) == Some(tail)
    ensures Decode(s) == Some([b0, b1, b2] + tail)
  {
    DecodeEncodeGroup(b0, b1, b2);
    assert s[..4] == g && s[4..] == rest;
    DecodeLeadingGroup(s);
  }

  // ---------------------------------------------------------------------------
  // The URL-safe form (section 5 of RFC 4648) the Gmail API expects.

  /** `.replace(/\+/g, '-').replace(/\//g, '_')`, one character at a time. */
  function ToUrlSafe(s: string): (r: string)
    ensures |r| == |s|
    ensures forall i :: 0 <= i < |s| ==> r[i] == (if s[i] == '+' then '-' else if s[i] == '/' then '_' else s[i])
  {
    seq(|s|, i requires 0 <= i < |s| => if s[i] == '+' then '-' else if s[i] == '/' then '_' else s[i])
  }

  /** The reverse mapping a decoder applies. */
  function FromUrlSafe(s: string): (r: string)
    ensures |r| == |s|
    ensures forall i :: 0 <= i < |s| ==> r[i] == (if s[i] == '-' then '+' else if s[i] == '_' then '/' else s[i])
  {
    seq(|s|, i requires 0 <= i < |s| => if s[i] == '-' then '+' else if s[i] == '_' then '/' else s[i])
  }

  /** `.replace(/=+$/, '')`: the trailing run of `=` is removed. */
  function StripPadding(s: string): (r: string)
    ensures r <= s
    ensures forall i :: |r| <= i < |s| ==> s[i] == '='
    ensures r == [] || r[|r| - 1] != '='
    decreases |s|
  {
    if s != [] && s[|s| - 1] == '=' then StripPadding(s[..|s| - 1]) else s
  }

  /** The padding a decoder puts back: enough `=` to reach a multiple of four characters. */
  function Repad(s: string): (r: string)
    ensures s <= r
  {
    if |s| % 4 == 2 then s + "==" else if |s| % 4 == 3 then s + "=" else s
  }

  /** What the Gmail client sends as `raw`. */
  function EncodeUrl(bs: seq<byte>): string
  {
    StripPadding(ToUrlSafe(Encode(bs)))
  }

  /** The receiving side: re-pad, map back, decode. */
  function DecodeUrl(s: string): Option<seq<byte>>
  {
    Decode(FromUrlSafe(Repad(s)))
  }

  /** How many `=` the encoding of n bytes ends with. */
  function PadCount(n: nat): nat
  {
    if n % 3 == 0 then 0 else 3 - n % 3
  }

  /** A character of the standard alphabet, which is neither padding nor one of the URL-safe replacements. */
  predicate InAlphabet(c: char)
  {
    CharValue(c).Some? && c != '=' && c != '-' && c != '_'
  }

  /** Alphabet characters followed by k padding characters, with 0 <= k <= 2 and at least one alphabet character before any padding. */
  predicate PaddedShape(e: string, k: nat)
  {
    k <= 2 && k <= |e| && (k > 0 ==> k < |e|)
    && (forall i :: 0 <= i < |e| - k ==> InAlphabet(e[i]))
    && (forall i :: |e| - k <= i < |e| ==> e[i] == '=')
  }

  /**
   * The encoding is alphabet characters followed by PadCount(|bs|) padding
   * characters, and nothing else.
   */
  lemma {:induction false} EncodeShape(bs: seq<byte>)
    ensures PaddedShape(Encode(bs), PadCount(|bs|))
    decreases |bs|
  {
    if |bs| < 3 {
      EncodeShapeShort(bs);
    } else {
      EncodeShape(bs[3..]);
      EncodeFirstGroup(bs);
      GroupInAlphabet(bs[0], bs[1], bs[2]);
      PadCountSkipsGroup(|bs|);
      ShapeAfterGroup(Encode(bs), EncodeGroup(bs[0], bs[1], bs[2]), Encode(bs[3..]), PadCount(|bs|));
    }
  }

  lemma EncodeShapeShort(bs: seq<byte>)
    requires |bs| < 3
    ensures PaddedShape(Encode(bs), PadCount(|bs|))
  {
    if |bs| == 1 {
      var v0, v1 := bs[0] / 4, (bs[0] % 4) * 16;
      CharValueOfBase64Char(v0);
      CharValueOfBase64Char(v1);
      PaddedOneShape(Encode(bs), v0, v1);
    } else if |bs| == 2 {
      var v0, v1, v2 := bs[0] / 4, (bs[0] % 4) * 16 + bs[1] / 16, (bs[1] % 16) * 4;
      CharValueOfBase64Char(v0);
      CharValueOfBase64Char(v1);
      CharValueOfBase64Char(v2);
      PaddedTwoShape(Encode(bs), v0, v1, v2);
    }
  }

  lemma PaddedOneShape(e: string, v0: nat, v1: nat)
    requires v0 < 64 && v1 < 64 && e == [Base64Char(v0), Base64Char(v1), '=', '=']
    requires CharValue(e[0]).Some? && CharValue(e[1]).Some?
    ensures PaddedShape(e, 2)
  {
  }

  lemma PaddedTwoShape(e: string, v0: nat, v1: nat, v2: nat)
    requires v0 < 64 && v1 < 64 && v2 < 64 && e == [Base64Char(v0), Base64Char(v1), Base64Char(v2), '=']
    requires CharValue(e[0]).Some? && CharValue(e[1]).Some? && CharValue(e[2]).Some?
    ensures PaddedShape(e, 1)
  {
  }

  lemma GroupInAlphabet(b0: byte, b1: byte, b2: byte)
    ensures var g := EncodeGroup(b0, b1, b2); |g| == 4 && forall i :: 0 <= i < 4 ==> InAlphabet(g[i])
  {
    DecodeEncodeGroup(b0, b1, b2);
  }

  lemma PadCountSkipsGroup(n: nat)
    requires n >= 3
    ensures PadCount(n) == PadCount(n - 3)
  {
  }

  /** Four alphabet characters in front of a padded text keep its shape. */
  lemma ShapeAfterGroup(e: string, g: string, rest: string, k: nat)
    requires e == g + rest && |g| == 4 && (forall i :: 0 <= i < 4 ==> InAlphabet(g[i]))
    requires PaddedShape(rest, k)
    ensures PaddedShape(e, k)
  {
    forall i | 0 <= i < |e| - k
      ensures InAlphabet(e[i])
    {
      if i >= 4 {
        assert e[i] == rest[i - 4];
      }
    }
    forall i | |e| - k <= i < |e|
      ensures e[i] == '='
    {
      assert e[i] == rest[i - 4];
    }
  }

  /** Stripping a known run of k trailing `=` that is not preceded by another. */
  lemma {:induction false} StripKnownPadding(s: string, k: nat)
    requires k <= |s|
    requires forall i :: |s| - k <= i < |s| ==> s[i] == '='
    requires k < |s| ==> s[|s| - k - 1] != '='
    ensures StripPadding(s) == s[..|s| - k]
    decreases k
  {
    if k > 0 {
      StripKnownPadding(s[..|s| - 1], k - 1);
      assert s[..|s| - 1][..|s| - 1 - (k - 1)] == s[..|s| - k];
    }
  }

  /** The URL-safe mapping of a padded text: no `+` or `/` before the padding, which is left as it was. */
  lemma UrlSafeKeepsShape(e: string, k: nat)
    requires PaddedShape(e, k)
    ensures var u := ToUrlSafe(e);
      |u| == |e| && k <= |u| && (k < |u| ==> u[|u| - k - 1] != '=')
      && (forall i :: 0 <= i < |u| - k ==> u[i] != '+' && u[i] != '/' && u[i] != '=')
      && (forall i :: |u| - k <= i < |u| ==> u[i] == '=')
  {
  }

  /** What the Gmail client sends is the URL-safe mapping of the encoding, minus its padding. */
  lemma EncodeUrlIsStripped(bs: seq<byte>)
    ensures PaddedShape(Encode(bs), PadCount(|bs|))
    ensures EncodeUrl(bs) == ToUrlSafe(Encode(bs))[..|Encode(bs)| - PadCount(|bs|)]
  {
    var e, k := Encode(bs), PadCount(|bs|);
    EncodeShape(bs);
    UrlSafeKeepsShape(e, k);
    StripKnownPadding(ToUrlSafe(e), k);
  }

  /** The URL-safe output uses neither `+` nor `/`, and carries no `=` at all. */
  lemma EncodeUrlAlphabet(bs: seq<byte>)
    ensures var r := EncodeUrl(bs);
      forall i :: 0 <= i < |r| ==> r[i] != '+' && r[i] != '/' && r[i] != '='
    ensures |EncodeUrl(bs)| == |Encode(bs)| - PadCount(|bs|)
  {
    EncodeUrlIsStripped(bs);
    UrlSafeKeepsShape(Encode(bs), PadCount(|bs|));
  }

  /** Re-padding puts back exactly the k <= 2 padding characters a length that is a multiple of four lost. */
  lemma RepadRestores(stripped: string, u: string, k: nat)
    requires |u| % 4 == 0 && k <= 2 && k <= |u| && stripped == u[..|u| - k]
    requires forall i :: |u| - k <= i < |u| ==> u[i] == '='
    ensures Repad(stripped) == u
  {
    if k == 1 {
      assert u == stripped + "=";
    } else if k == 2 {
      assert u == stripped + "==";
    }
  }

  /** Mapping back undoes the URL-safe mapping on text that had no `-` or `_`. */
  lemma FromUrlSafeUndoes(e: string)
    requires forall i :: 0 <= i < |e| ==> e[i] != '-' && e[i] != '_'
    ensures FromUrlSafe(ToUrlSafe(e)) == e
  {
  }

  /** A padded text has neither `-` nor `_`. */
  lemma ShapeHasNoUrlChars(e: string, k: nat)
    requires PaddedShape(e, k)
    ensures forall i :: 0 <= i < |e| ==> e[i] != '-' && e[i] != '_'
  {
  }

  /**
   * Re-padding, mapping back and decoding recovers the bytes: the round trip of
   * section 5 of RFC 4648.
   */
  lemma DecodeUrlEncodeUrl(bs: seq<byte>)
    ensures DecodeUrl(EncodeUrl(bs)) == Some(bs)
  {
    RepadEncodeUrl(bs);
    ShapeHasNoUrlChars(Encode(bs), PadCount(|bs|));
    FromUrlSafeUndoes(Encode(bs));
    DecodeEncode(bs);
    DecodeUrlSteps(EncodeUrl(bs), ToUrlSafe(Encode(bs)), Encode(bs), bs);
  }

  /** Re-padding what the Gmail client sends gives back the padded URL-safe text. */
  lemma RepadEncodeUrl(bs: seq<byte>)
    ensures PaddedShape(Encode(bs), PadCount(|bs|))
    ensures Repad(EncodeUrl(bs)) == ToUrlSafe(Encode(bs))
  {
    var e, k := Encode(bs), PadCount(|bs|);
    EncodeUrlIsStripped(bs);
    UrlSafeKeepsShape(e, k);
    EncodeLengthMultiple(bs);
    RepadRestores(EncodeUrl(bs), ToUrlSafe(e), k);
  }

  lemma EncodeLengthMultiple(bs: seq<byte>)
    ensures |Encode(bs)| % 4 == 0
  {
    FourTimes(|Encode(bs)|, (|bs| + 2) / 3);
  }

  lemma FourTimes(n: int, q: int)
    requires n == 4 * q
    ensures n % 4 == 0
  {
  }

  lemma DecodeUrlSteps(x: string, u: string, e: string, bs: seq<byte>)
    requires Repad(x) == u && FromUrlSafe(u) == e && Decode(e) == Some(bs)
    ensures DecodeUrl(x) == Some(bs)
  {
  }
}
