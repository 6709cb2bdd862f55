/**
 * The browser's `btoa`, written out as the base64 encoding of section 4 of
 * RFC 4648, and the "binary string" (one character per byte) it is fed.
 * `Atob` decodes, and `BtoaRoundTrip` shows that nothing is lost.
 */
module Base64 {

  newtype byte = b: int | 0 <= b < 256

  /** Table 1 of RFC 4648: the character for a 6-bit value. */
  function Sextet(i: int): (c: char)
    requires 0 <= i < 64
  {
    if i < 26 then ('A' as int + i) as char
    else if i < 52 then ('a' as int + (i - 26)) as char
    else if i < 62 then ('0' as int + (i - 52)) as char
    else if i == 62 then '+'
    else '/'
  }

  const Pad: char := '='

  /** A character of the alphabet of Table 1, or the pad character. */
  predicate IsBase64Char(c: char) {
    ('A' <= c <= 'Z') || ('a' <= c <= 'z') || ('0' <= c <= '9') || c == '+' || c == '/' || c == Pad
  }

  /** The 6-bit value of an alphabet character (0 for any other character). */
  function SextetValue(c: char): (v: int)
    ensures 0 <= v < 64
  {
    if 'A' <= c <= 'Z' then c as int - 'A' as int
    else if 'a' <= c <= 'z' then c as int - 'a' as int + 26
    else if '0' <= c <= '9' then c as int - '0' as int + 52
    else if c == '+' then 62
    else if c == '/' then 63
    else 0
  }

  /** Every character of the table is an alphabet character, not the pad, and gives back its value. */
  lemma SextetInverse(i: int)
    requires 0 <= i < 64
    ensures IsBase64Char(Sextet(i)) && Sextet(i) != Pad && SextetValue(Sextet(i)) == i
  {
  }

  /** A text made of alphabet and pad characters only. */
  predicate AllBase64(t: string) {
    forall k :: 0 <= k < |t| ==> IsBase64Char(t[k])
  }

  lemma AllBase64Concat(a: string, b: string)
    requires AllBase64(a) && AllBase64(b)
    ensures AllBase64(a + b)
  {
    assert forall k :: |a| <= k < |a + b| ==> (a + b)[k] == b[k - |a|];
  }

  /** A string every character of which stands for one byte, as `btoa` requires. */
  predicate IsBinaryString(s: string) {
    forall k :: 0 <= k < |s| ==> s[k] as int < 256
  }

  /** The string `String.fromCharCode` builds from the bytes, one character per byte. */
  function BinaryString(bytes: seq<byte>): (s: string)
    ensures IsBinaryString(s)
    ensures |s| == |bytes| && forall k :: 0 <= k < |s| ==> s[k] as int == bytes[k] as int
  {
    seq(|bytes|, k requires 0 <= k < |bytes| => (bytes[k] as int) as char)
  }

  /** Encodes a final group of one octet: two characters and two pad characters. */
  function EncodeOne(b0: int): (r: string)
    requires 0 <= b0 < 256
    ensures |r| == 4 && AllBase64(r)
  {
    SextetInverse(b0 / 4);
    SextetInverse((b0 % 4) * 16);
    [Sextet(b0 / 4), Sextet((b0 % 4) * 16), Pad, Pad]
  }

  /** Encodes a final group of two octets: three characters and one pad character. */
  function EncodeTwo(b0: int, b1: int): (r: string)
    requires 0 <= b0 < 256 && 0 <= b1 < 256
    ensures |r| == 4 && AllBase64(r)
  {
    SextetInverse(b0 / 4);
    SextetInverse((b0 % 4) * 16 + b1 / 16);
    SextetInverse((b1 % 16) * 4);
    [Sextet(b0 / 4), Sextet((b0 % 4) * 16 + b1 / 16), Sextet((b1 % 16) * 4), Pad]
  }

  /** Encodes a full 24-bit group: four characters. */
  function EncodeThree(b0: int, b1: int, b2: int): (r: string)
    requires 0 <= b0 < 256 && 0 <= b1 < 256 && 0 <= b2 < 256
    ensures |r| == 4 && AllBase64(r)
  {
    SextetInverse(b0 / 4);
    SextetInverse((b0 % 4) * 16 + b1 / 16);
    SextetInverse((b1 % 16) * 4 + b2 / 64);
    SextetInverse(b2 % 64);
    [Sextet(b0 / 4), Sextet((b0 % 4) * 16 + b1 / 16), Sextet((b1 % 16) * 4 + b2 / 64), Sextet(b2 % 64)]
  }

  /**
   * `btoa`: four output characters per started group of three input octets,
   * each one from the alphabet or the pad character.
   */
  function Btoa(s: string): (r: string)
    requires IsBinaryString(s)
    ensures |r| == 4 * ((|s| + 2) / 3) && |r| % 4 == 0
    ensures AllBase64(r)
    decreases |s|
  {
    if |s| == 0 then ""
    else if |s| == 1 then EncodeOne(s[0] as int)
    else if |s| == 2 then EncodeTwo(s[0] as int, s[1] as int)
    else
      var head, tail := EncodeThree(s[0] as int, s[1] as int, s[2] as int), Btoa(s[3..]);
      GroupCount(|s|);
      AllBase64Concat(head, tail);
      head + tail
  }

  /** Three more octets make one more group. */
  lemma GroupCount(n: int)
    requires n >= 3
    ensures (n + 2) / 3 == (n - 3 + 2) / 3 + 1
    ensures (4 + 4 * ((n - 3 + 2) / 3)) % 4 == 0
  {
  }

  /** Decodes one group of four characters into one, two or three octets, as its padding says. */
  function DecodeGroup(c0: char, c1: char, c2: char, c3: char): (r: string)
    ensures 1 <= |r| <= 3 && IsBinaryString(r)
  {
    var v0, v1, v2, v3 := SextetValue(c0), SextetValue(c1), SextetValue(c2), SextetValue(c3);
    var b0 := (v0 * 4 + v1 / 16) as char;
    if c2 == Pad then [b0]
    else
      var b1 := ((v1 % 16) * 16 + v2 / 4) as char;
      if c3 == Pad then [b0, b1]
      else [b0, b1, ((v2 % 4) * 64 + v3) as char]
  }

  /** `atob` on a text of whole groups. */
  function Atob(t: string): (r: string)
    requires |t| % 4 == 0
    ensures IsBinaryString(r)
    decreases |t|
  {
    if |t| == 0 then ""
    else DecodeGroup(t[0], t[1], t[2], t[3]) + Atob(t[4..])
  }

  /** The 6-bit values of a group recombine into its octets. */
  lemma SextetsRecombine(b0: int, b1: int, b2: int)
    requires 0 <= b0 < 256 && 0 <= b1 < 256 && 0 <= b2 < 256
    ensures (b0 / 4) * 4 + ((b0 % 4) * 16 + b1 / 16) / 16 == b0
    ensures (((b0 % 4) * 16 + b1 / 16) % 16) * 16 + ((b1 % 16) * 4 + b2 / 64) / 4 == b1
    ensures (((b1 % 16) * 4 + b2 / 64) % 4) * 64 + b2 % 64 == b2
  {
    var r0, q1, r1, q2 := b0 % 4, b1 / 16, b1 % 16, b2 / 64;
    assert 0 <= q1 < 16 && 0 <= q2 < 4;
    var v1 := r0 * 16 + q1;
    assert v1 / 16 == r0 && v1 % 16 == q1;
    var v2 := r1 * 4 + q2;
    assert v2 / 4 == r1 && v2 % 4 == q2;
  }

  lemma DecodeOne(b0: int)
    requires 0 <= b0 < 256
    ensures var e := EncodeOne(b0); DecodeGroup(e[0], e[1], e[2], e[3]) == [b0 as char]
  {
    var v0, v1 := b0 / 4, (b0 % 4) * 16;
    SextetInverse(v0);
    SextetInverse(v1);
    var e := EncodeOne(b0);
    assert e[0] == Sextet(v0) && e[1] == Sextet(v1) && e[2] == Pad;
    var d := DecodeGroup(e[0], e[1], e[2], e[3]);
    DecodePaddedGroup(e[0], e[1], e[2], e[3]);
    SextetsRecombine(b0, 0, 0);
    assert d[0] as int == b0;
    assert d == [b0 as char];
  }

  lemma DecodeTwo(b0: int, b1: int)
    requires 0 <= b0 < 256 && 0 <= b1 < 256
    ensures var e := EncodeTwo(b0, b1); DecodeGroup(e[0], e[1], e[2], e[3]) == [b0 as char, b1 as char]
  {
    var v0, v1, v2 := b0 / 4, (b0 % 4) * 16 + b1 / 16, (b1 % 16) * 4;
    SextetInverse(v0);
    SextetInverse(v1);
    SextetInverse(v2);
    var e := EncodeTwo(b0, b1);
    assert e[0] == Sextet(v0) && e[1] == Sextet(v1) && e[2] == Sextet(v2) && e[3] == Pad;
    var d := DecodeGroup(e[0], e[1], e[2], e[3]);
    DecodePaddedGroup(e[0], e[1], e[2], e[3]);
    SextetsRecombine(b0, b1, 0);
    assert d[0] as int == b0 && d[1] as int == b1;
    assert d == [b0 as char, b1 as char];
  }

  /** A group ending in pad characters decodes to one octet (two pads) or two octets (one pad). */
  lemma DecodePaddedGroup(c0: char, c1: char, c2: char, c3: char)
    requires c2 == Pad || c3 == Pad
    ensures var d, v0, v1, v2 := DecodeGroup(c0, c1, c2, c3), SextetValue(c0), SextetValue(c1), SextetValue(c2);
      |d| == (if c2 == Pad then 1 else 2) && d[0] as int == v0 * 4 + v1 / 16 &&
      (c2 != Pad ==> d[1] as int == (v1 % 16) * 16 + v2 / 4)
  {
  }

  lemma DecodeThree(b0: int, b1: int, b2: int)
    requires 0 <= b0 < 256 && 0 <= b1 < 256 && 0 <= b2 < 256
    ensures var e := EncodeThree(b0, b1, b2);
      DecodeGroup(e[0], e[1], e[2], e[3]) == [b0 as char, b1 as char, b2 as char]
  {
    var v0, v1, v2, v3 := b0 / 4, (b0 % 4) * 16 + b1 / 16, (b1 % 16) * 4 + b2 / 64, b2 % 64;
    SextetInverse(v0);
    SextetInverse(v1);
    SextetInverse(v2);
    SextetInverse(v3);
    var e := EncodeThree(b0, b1, b2);
    assert e[0] == Sextet(v0) && e[1] == Sextet(v1) && e[2] == Sextet(v2) && e[3] == Sextet(v3);
    var d := DecodeGroup(e[0], e[1], e[2], e[3]);
    DecodeFullGroup(e[0], e[1], e[2], e[3]);
    SextetsRecombine(b0, b1, b2);
    assert d[0] as int == b0 && d[1] as int == b1 && d[2] as int == b2;
    assert d == [b0 as char, b1 as char, b2 as char];
  }

  /** A group with no pad character decodes to three octets, built from its four 6-bit values. */
  lemma DecodeFullGroup(c0: char, c1: char, c2: char, c3: char)
    requires c2 != Pad && c3 != Pad
    ensures var d, v0, v1, v2, v3 := DecodeGroup(c0, c1, c2, c3), SextetValue(c0), SextetValue(c1), SextetValue(c2), SextetValue(c3);
      |d| == 3 && d[0] as int == v0 * 4 + v1 / 16 && d[1] as int == (v1 % 16) * 16 + v2 / 4 &&
      d[2] as int == (v2 % 4) * 64 + v3
  {
  }

  /** Decoding a text decodes its first group, then the rest. */
  lemma AtobFirstGroup(head: string, tail: string)
    requires |head| == 4 && |tail| % 4 == 0
    ensures Atob(head + tail) == DecodeGroup(head[0], head[1], head[2], head[3]) + Atob(tail)
  {
    var e := head + tail;
    assert e[4..] == tail;
    assert e[0] == head[0] && e[1] == head[1] && e[2] == head[2] && e[3] == head[3];
  }

  /** Decoding what `btoa` produced gives back the binary string it was given. */
  lemma {:induction false} BtoaRoundTrip(s: string)
    requires IsBinaryString(s)
    ensures Atob(Btoa(s)) == s
    decreases |s|
  {
    if |s| == 1 {
      RoundTripOne(s);
    } else if |s| == 2 {
      RoundTripTwo(s);
    } else if |s| >= 3 {
      BtoaRoundTrip(s[3..]);
      RoundTripStep(s);
    }
  }

  /** Decoding a text of one group decodes that group. */
  lemma AtobOneGroup(e: string)
    requires |e| == 4
    ensures Atob(e) == DecodeGroup(e[0], e[1], e[2], e[3])
  {
    assert e[4..] == [];
    assert DecodeGroup(e[0], e[1], e[2], e[3]) + [] == DecodeGroup(e[0], e[1], e[2], e[3]);
  }

  /** The round trip of a final group of one octet. */
  lemma RoundTripOne(s: string)
    requires IsBinaryString(s) && |s| == 1
    ensures Atob(Btoa(s)) == s
  {
    var b0 := s[0] as int;
    var e := EncodeOne(b0);
    assert Btoa(s) == e;
    AtobOneGroup(e);
    DecodeOne(b0);
    assert [b0 as char] == s;
  }

  /** The round trip of a final group of two octets. */
  lemma RoundTripTwo(s: string)
    requires IsBinaryString(s) && |s| == 2
    ensures Atob(Btoa(s)) == s
  {
    var b0, b1 := s[0] as int, s[1] as int;
    var e := EncodeTwo(b0, b1);
    assert Btoa(s) == e;
    AtobOneGroup(e);
    DecodeTwo(b0, b1);
    assert [b0 as char, b1 as char] == s;
  }

  /** `btoa` encodes the first three octets as one group, then the rest. */
  lemma BtoaFirstGroup(s: string)
    requires IsBinaryString(s) && |s| >= 3
    ensures Btoa(s) == EncodeThree(s[0] as int, s[1] as int, s[2] as int) + Btoa(s[3..])
  {
  }

  /** Decoding what `btoa` made of `s` gives its first three octets, then the decoding of the rest. */
  lemma AtobBtoaFirstGroup(s: string)
    requires IsBinaryString(s) && |s| >= 3
    ensures Atob(Btoa(s)) == [s[0], s[1], s[2]] + Atob(Btoa(s[3..]))
  {
    var b0, b1, b2 := s[0] as int, s[1] as int, s[2] as int;
    var head, rest := EncodeThree(b0, b1, b2), Btoa(s[3..]);
    BtoaFirstGroup(s);
    AtobFirstGroup(head, rest);
    DecodeThree(b0, b1, b2);
  }

  /** The step of the round trip: a full first group, and a rest that already round-trips. */
  lemma RoundTripStep(s: string)
    requires IsBinaryString(s) && |s| >= 3 && Atob(Btoa(s[3..])) == s[3..]
    ensures Atob(Btoa(s)) == s
  {
    AtobBtoaFirstGroup(s);
    SplitThree(s);
  }

  lemma SplitThree(s: string)
    requires |s| >= 3
    ensures s == [s[0], s[1], s[2]] + s[3..]
  {
  }
}
