/**
 * The browser's `btoa` and `atob`, which the audio codecs wrap, specified as the standard
 * Base64 encoding of section 4 of RFC 4648 and the "forgiving-base64 decode" that `atob`
 * runs, from the section "Forgiving base64" of the WHATWG Infra standard.
 *
 * A "binary string" is a string whose every character has a code below 256; it stands for
 * the byte sequence of those codes.
 */
module Base64 {
  import opened Types

  /** True when `c` belongs to the 64-character alphabet of Table 1 of RFC 4648. */
  predicate IsAlphabetChar(c: char)
  {
    ('A' <= c <= 'Z') || ('a' <= c <= 'z') || ('0' <= c <= '9') || c == '+' || c == '/'
  }

  /** The character that encodes the 6-bit value `v` (Table 1 of RFC 4648). */
  function EncodeSextet(v: bv8): (c: char)
    requires v < 64
    ensures IsAlphabetChar(c)
  {
    var n := v as int;
    if n < 26 then (65 + n) as char
    else if n < 52 then (97 + n - 26) as char
    else if n < 62 then (48 + n - 52) as char
    else if n == 62 then '+'
    else '/'
  }

  /** The 6-bit value a character encodes, or `None` for a character outside the alphabet. */
  function DecodeSextet(c: char): (r: Option<bv8>)
    ensures r.Some? <==> IsAlphabetChar(c)
    ensures r.Some? ==> r.value < 64
  {
    if 'A' <= c <= 'Z' then Some((c as int - 65) as bv8)
    else if 'a' <= c <= 'z' then Some((c as int - 97 + 26) as bv8)
    else if '0' <= c <= '9' then Some((c as int - 48 + 52) as bv8)
    else if c == '+' then Some(62)
    else if c == '/' then Some(63)
    else None
  }

  lemma SextetRoundTrip(v: bv8)
    requires v < 64
    ensures DecodeSextet(EncodeSextet(v)) == Some(v)
  {
    var n := v as int;
    assert n as bv8 == v;
    var c := EncodeSextet(v);
    if n < 26 {
      assert c as int - 65 == n;
    } else if n < 52 {
      assert c as int - 97 + 26 == n;
    } else if n < 62 {
      assert c as int - 48 + 52 == n;
    }
  }

  predicate AllAlphabet(s: string)
  {
    forall i :: 0 <= i < |s| ==> IsAlphabetChar(s[i])
  }

  /** A full 24-bit input group as four encoded characters. */
  function EncodeGroup3(b0: bv8, b1: bv8, b2: bv8): (s: string)
    ensures |s| == 4 && AllAlphabet(s)
  {
    [EncodeSextet(b0 >> 2), EncodeSextet(((b0 & 3) << 4) | (b1 >> 4)),
     EncodeSextet(((b1 & 15) << 2) | (b2 >> 6)), EncodeSextet(b2 & 63)]
  }

  /** A final 16-bit group: three characters, the last one zero-filled (before padding). */
  function EncodeGroup2(b0: bv8, b1: bv8): (s: string)
    ensures |s| == 3 && AllAlphabet(s)
  {
    [EncodeSextet(b0 >> 2), EncodeSextet(((b0 & 3) << 4) | (b1 >> 4)), EncodeSextet((b1 & 15) << 2)]
  }

  /** A final 8-bit group: two characters, the last one zero-filled (before padding). */
  function EncodeGroup1(b0: bv8): (s: string)
    ensures |s| == 2 && AllAlphabet(s)
  {
    [EncodeSextet(b0 >> 2), EncodeSextet((b0 & 3) << 4)]
  }

  /** The encoding of `b` without its `=` padding: one character per 6 input bits, rounded up. */
  function EncodeDigits(b: seq<bv8>): (s: string)
    ensures |s| == (4 * |b| + 2) / 3
    ensures AllAlphabet(s)
    decreases |b|
  {
    if |b| == 0 then ""
    else if |b| == 1 then EncodeGroup1(b[0])
    else if |b| == 2 then EncodeGroup2(b[0], b[1])
    else EncodeGroup3(b[0], b[1], b[2]) + EncodeDigits(b[3..])
  }

  /** The `=` characters that complete the final quantum (section 4 of RFC 4648, cases (2) and (3)). */
  function Padding(n: nat): string
  {
    if n % 3 == 1 then "==" else if n % 3 == 2 then "=" else ""
  }

  /** Standard Base64 with padding, section 4 of RFC 4648. */
  function Encode(b: seq<bv8>): (s: string)
    ensures |s| == 4 * ((|b| + 2) / 3)
  {
    EncodeDigits(b) + Padding(|b|)
  }

  predicate IsBinaryString(s: string)
  {
    forall i :: 0 <= i < |s| ==> s[i] as int < 256
  }

  /** `String.fromCharCode` of one byte. */
  function CharOf(b: bv8): char
  {
    (b as int) as char
  }

  /** The binary string of a byte sequence: character i has code `b[i]`. */
  function BinaryString(b: seq<bv8>): (s: string)
    ensures |s| == |b| && IsBinaryString(s)
  {
    seq(|b|, i requires 0 <= i < |b| => CharOf(b[i]))
  }

  /** The byte sequence a binary string stands for. */
  function Codes(s: string): (b: seq<bv8>)
    requires IsBinaryString(s)
    ensures |b| == |s|
  {
    seq(|s|, i requires 0 <= i < |s| => (s[i] as int) as bv8)
  }

  /** `btoa`: fails (an `InvalidCharacterError`) when some character code is 256 or more. */
  function Btoa(s: string): Option<string>
  {
    if IsBinaryString(s) then Some(Encode(Codes(s))) else None
  }

  /** The ASCII whitespace that forgiving-base64 decode removes first. */
  predicate IsAsciiWhitespace(c: char)
  {
    c == '\t' || c == '\n' || c == '\U{000C}' || c == '\r' || c == ' '
  }

  function StripWhitespace(s: string): (r: string)
    ensures |r| <= |s|
    ensures forall i :: 0 <= i < |r| ==> !IsAsciiWhitespace(r[i])
  {
    if s == [] then []
    else (if IsAsciiWhitespace(s[0]) then [] else [s[0]]) + StripWhitespace(s[1..])
  }

  /** When the length is a multiple of four, one or two trailing `=` are removed. */
  function Unpad(s: string): string
  {
    if |s| % 4 == 0 && |s| >= 1 && s[|s| - 1] == '=' then
      if |s| >= 2 && s[|s| - 2] == '=' then s[..|s| - 2] else s[..|s| - 1]
    else s
  }

  /** Decodes unpadded Base64 digits; a leftover single character or a non-alphabet character fails. */
  function DecodeDigits(s: string): (r: Option<seq<bv8>>)
    decreases |s|
  {
    if |s| == 0 then Some([])
    else if |s| == 1 then None
    else
      var d0, d1 := DecodeSextet(s[0]), DecodeSextet(s[1]);
      if d0.None? || d1.None? then None
      else
        var x0 := (d0.value << 2) | (d1.value >> 4);
        if |s| == 2 then Some([x0])
        else
          var d2 := DecodeSextet(s[2]);
          if d2.None? then None
          else
            var x1 := ((d1.value & 15) << 4) | (d2.value >> 2);
            if |s| == 3 then Some([x0, x1])
            else
              var d3 := DecodeSextet(s[3]);
              if d3.None? then None
              else
                var x2 := ((d2.value & 3) << 6) | d3.value;
                match DecodeDigits(s[4..])
                case None => None
                case Some(rest) => Some([x0, x1, x2] + rest)
  }

  /** `atob`: forgiving-base64 decode, returning a binary string, or `None` where `atob` throws. */
  function Atob(s: string): (r: Option<string>)
    ensures r.Some? ==> IsBinaryString(r.value)
  {
    match DecodeDigits(Unpad(StripWhitespace(s)))
    case None => None
    case Some(b) => Some(BinaryString(b))
  }

  // ---------------------------------------------------------------------------------------
  // Properties
  // ---------------------------------------------------------------------------------------

  /** Every character of an encoding is in the alphabet, except `=` padding in the last two places. */
  lemma EncodeAlphabet(b: seq<bv8>)
    ensures var s := Encode(b);
      forall i :: 0 <= i < |s| ==>
        IsAlphabetChar(s[i]) || (s[i] == '=' && i >= |s| - 2)
  {
    var s := Encode(b);
    var d := EncodeDigits(b);
    forall i | 0 <= i < |s|
      ensures IsAlphabetChar(s[i]) || (s[i] == '=' && i >= |s| - 2)
    {
      if i < |d| {
        assert s[i] == d[i];
      } else {
        assert s[i] == Padding(|b|)[i - |d|];
      }
    }
  }

  lemma {:induction false} StripWhitespaceNone(s: string)
    requires forall i :: 0 <= i < |s| ==> !IsAsciiWhitespace(s[i])
    ensures StripWhitespace(s) == s
  {
    if s != [] {
      StripWhitespaceNone(s[1..]);
    }
  }

  lemma UnpadDigits(d: string, pad: string)
    requires AllAlphabet(d) && (pad == "" || pad == "=" || pad == "==")
    requires (|d| + |pad|) % 4 == 0
    ensures Unpad(d + pad) == d
  {
    var s := d + pad;
    if pad == "==" {
      assert s[..|s| - 2] == d;
    } else if pad == "=" {
      assert s[|s| - 2] == d[|d| - 1];
      assert s[..|s| - 1] == d;
    } else {
      assert s == d;
      assert |s| >= 1 ==> IsAlphabetChar(s[|s| - 1]);
    }
  }

  /** Removing the padding of an encoding leaves exactly its digits. */
  lemma UnpadEncode(b: seq<bv8>)
    ensures Unpad(Encode(b)) == EncodeDigits(b)
  {
    PaddedLength(|b|);
    UnpadDigits(EncodeDigits(b), Padding(|b|));
  }

  /** The digits and the padding together fill whole quanta of four characters. */
  lemma PaddedLength(n: nat)
    ensures ((4 * n + 2) / 3 + |Padding(n)|) % 4 == 0
  {
    var q, r := n / 3, n % 3;
    assert n == 3 * q + r;
    if r == 0 {
      assert (4 * n + 2) / 3 == 4 * q;
    } else if r == 1 {
      assert (4 * n + 2) / 3 == 4 * q + 2;
    } else {
      assert (4 * n + 2) / 3 == 4 * q + 3;
    }
  }

  /** The bit regrouping of a full group is undone by the decoder's regrouping. */
  lemma RegroupFull(b0: bv8, b1: bv8, b2: bv8)
    ensures var c0, c1, c2, c3 := b0 >> 2, ((b0 & 3) << 4) | (b1 >> 4), ((b1 & 15) << 2) | (b2 >> 6), b2 & 63;
      c0 < 64 && c1 < 64 && c2 < 64 && c3 < 64 &&
      (c0 << 2) | (c1 >> 4) == b0 && ((c1 & 15) << 4) | (c2 >> 2) == b1 && ((c2 & 3) << 6) | c3 == b2
  {
  }

  /** The same for a final group of one or two bytes. */
  lemma RegroupPartial(b0: bv8, b1: bv8)
    ensures var c0, c1, c2 := b0 >> 2, ((b0 & 3) << 4) | (b1 >> 4), (b1 & 15) << 2;
      c0 < 64 && c1 < 64 && c2 < 64 && (b0 & 3) << 4 < 64 &&
      (c0 << 2) | (c1 >> 4) == b0 && ((c1 & 15) << 4) | (c2 >> 2) == b1 &&
      (c0 << 2) | (((b0 & 3) << 4) >> 4) == b0
  {
  }

  /** One decoding step over four alphabet characters. */
  lemma DecodeDigitsStep(s: string, c0: bv8, c1: bv8, c2: bv8, c3: bv8)
    requires c0 < 64 && c1 < 64 && c2 < 64 && c3 < 64 && |s| >= 4
    requires s[0] == EncodeSextet(c0) && s[1] == EncodeSextet(c1)
    requires s[2] == EncodeSextet(c2) && s[3] == EncodeSextet(c3)
    ensures DecodeDigits(s) ==
      match DecodeDigits(s[4..])
      case None => None
      case Some(rest) => Some([(c0 << 2) | (c1 >> 4), ((c1 & 15) << 4) | (c2 >> 2), ((c2 & 3) << 6) | c3] + rest)
  {
    SextetRoundTrip(c0);
    SextetRoundTrip(c1);
    SextetRoundTrip(c2);
    SextetRoundTrip(c3);
  }

  /** Decoding a final group of two characters. */
  lemma DecodeDigitsLast2(s: string, c0: bv8, c1: bv8)
    requires c0 < 64 && c1 < 64 && |s| == 2
    requires s[0] == EncodeSextet(c0) && s[1] == EncodeSextet(c1)
    ensures DecodeDigits(s) == Some([(c0 << 2) | (c1 >> 4)])
  {
    SextetRoundTrip(c0);
    SextetRoundTrip(c1);
  }

  /** Decoding a final group of three characters. */
  lemma DecodeDigitsLast3(s: string, c0: bv8, c1: bv8, c2: bv8)
    requires c0 < 64 && c1 < 64 && c2 < 64 && |s| == 3
    requires s[0] == EncodeSextet(c0) && s[1] == EncodeSextet(c1) && s[2] == EncodeSextet(c2)
    ensures DecodeDigits(s) == Some([(c0 << 2) | (c1 >> 4), ((c1 & 15) << 4) | (c2 >> 2)])
  {
    SextetRoundTrip(c0);
    SextetRoundTrip(c1);
    SextetRoundTrip(c2);
  }

  lemma DecodeEncodeGroup1(b0: bv8)
    ensures DecodeDigits(EncodeGroup1(b0)) == Some([b0])
  {
    RegroupPartial(b0, 0);
    DecodeDigitsLast2(EncodeGroup1(b0), b0 >> 2, (b0 & 3) << 4);
  }

  lemma DecodeEncodeGroup2(b0: bv8, b1: bv8)
    ensures DecodeDigits(EncodeGroup2(b0, b1)) == Some([b0, b1])
  {
    RegroupPartial(b0, b1);
    DecodeDigitsLast3(EncodeGroup2(b0, b1), b0 >> 2, ((b0 & 3) << 4) | (b1 >> 4), (b1 & 15) << 2);
  }

  lemma DecodeEncodeGroup3(b0: bv8, b1: bv8, b2: bv8, rest: string, r: seq<bv8>)
    requires DecodeDigits(rest) == Some(r)
    ensures DecodeDigits(EncodeGroup3(b0, b1, b2) + rest) == Some([b0, b1, b2] + r)
  {
    var s := EncodeGroup3(b0, b1, b2) + rest;
    RegroupFull(b0, b1, b2);
    assert s[4..] == rest;
    DecodeDigitsStep(s, b0 >> 2, ((b0 & 3) << 4) | (b1 >> 4), ((b1 & 15) << 2) | (b2 >> 6), b2 & 63);
  }

  /** The digits of one, two, or three or more bytes. */
  lemma EncodeDigitsCases(b: seq<bv8>)
    ensures |b| == 1 ==> EncodeDigits(b) == EncodeGroup1(b[0])
    ensures |b| == 2 ==> EncodeDigits(b) == EncodeGroup2(b[0], b[1])
    ensures |b| >= 3 ==> EncodeDigits(b) == EncodeGroup3(b[0], b[1], b[2]) + EncodeDigits(b[3..])
  {
  }

  /** Decoding the digits of an encoding gives back the bytes. */
  lemma {:induction false} DecodeEncodeDigits(b: seq<bv8>)
    ensures DecodeDigits(EncodeDigits(b)) == Some(b)
    decreases |b|
  {
    EncodeDigitsCases(b);
    if |b| == 1 {
      DecodeEncodeGroup1(b[0]);
      assert b == [b[0]];
    } else if |b| == 2 {
      DecodeEncodeGroup2(b[0], b[1]);
      assert b == [b[0], b[1]];
    } else if |b| >= 3 {
      var tail := b[3..];
      DecodeEncodeDigits(tail);
      DecodeEncodeGroup3(b[0], b[1], b[2], EncodeDigits(tail), tail);
      assert [b[0], b[1], b[2]] + tail == b;
    }
  }

  lemma CodesOfBinaryString(b: seq<bv8>)
    ensures Codes(BinaryString(b)) == b
  {
    var c := Codes(BinaryString(b));
    forall i | 0 <= i < |b| ensures c[i] == b[i] {
    }
  }

  /**
   * The round trip the codecs rely on: `btoa` accepts every binary string, produces the
   * RFC 4648 encoding of its bytes, and `atob` of that encoding is the same binary string.
   */
  lemma AtobInvertsBtoa(b: seq<bv8>)
    ensures Btoa(BinaryString(b)) == Some(Encode(b))
    ensures Atob(Encode(b)) == Some(BinaryString(b))
  {
    CodesOfBinaryString(b);
    EncodeAlphabet(b);
    var s := Encode(b);
    forall i | 0 <= i < |s| ensures !IsAsciiWhitespace(s[i]) {
    }
    StripWhitespaceNone(s);
    UnpadEncode(b);
    DecodeEncodeDigits(b);
  }
}
