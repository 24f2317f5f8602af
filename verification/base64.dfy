/**
 * Standard base64 (with padding), the encoding a bytes value is rendered
 * in.  Decode is the reference inverse the encoder is checked against.
 */
module Base64 {
  import opened Wrappers

  type Byte = x: int | 0 <= x < 256

  const Pad := '='

  /** The standard alphabet: A-Z, a-z, 0-9, '+', '/'. */
  function Char(i: int): (c: char)
    requires 0 <= i < 64
    ensures c != Pad
  {
    if i < 26 then ('A' as int + i) as char
    else if i < 52 then ('a' as int + (i - 26)) as char
    else if i < 62 then ('0' as int + (i - 52)) as char
    else if i == 62 then '+'
    else '/'
  }

  /** The position of a character in the alphabet. */
  function Index(c: char): (r: Option<int>)
    ensures r.Some? ==> 0 <= r.value < 64 && Char(r.value) == c
    ensures c == Pad ==> r.None?
  {
    if 'A' <= c <= 'Z' then Some(c as int - 'A' as int)
    else if 'a' <= c <= 'z' then Some(c as int - 'a' as int + 26)
    else if '0' <= c <= '9' then Some(c as int - '0' as int + 52)
    else if c == '+' then Some(62)
    else if c == '/' then Some(63)
    else None
  }

  lemma IndexOfChar(i: int)
    requires 0 <= i < 64
    ensures Index(Char(i)) == Some(i)
  {
  }

  /** base64.StdEncoding.EncodeToString: four characters per three bytes, the last group padded. */
  function Encode(b: seq<Byte>): (r: string)
    decreases |b|
  {
    if |b| == 0 then ""
    else if |b| == 1 then [Char(b[0] / 4), Char(b[0] % 4 * 16), Pad, Pad]
    else if |b| == 2 then [Char(b[0] / 4), Char(b[0] % 4 * 16 + b[1] / 16), Char(b[1] % 16 * 4), Pad]
    else [Char(b[0] / 4), Char(b[0] % 4 * 16 + b[1] / 16), Char(b[1] % 16 * 4 + b[2] / 64), Char(b[2] % 64)]
         + Encode(b[3..])
  }

  function Decode(s: string): (r: Option<seq<Byte>>)
    decreases |s|
  {
    if |s| == 0 then Some([])
    else if |s| < 4 then None
    else
      match (Index(s[0]), Index(s[1]), Index(s[2]), Index(s[3]))
      case (Some(i0), Some(i1), None, None) =>
        if s[2] == Pad && s[3] == Pad && |s| == 4 && i1 % 16 == 0 then Some([i0 * 4 + i1 / 16]) else None
      case (Some(i0), Some(i1), Some(i2), None) =>
        if s[3] == Pad && |s| == 4 && i2 % 4 == 0 then Some([i0 * 4 + i1 / 16, i1 % 16 * 16 + i2 / 4]) else None
      case (Some(i0), Some(i1), Some(i2), Some(i3)) =>
        (match Decode(s[4..])
         case Some(rest) => Some([i0 * 4 + i1 / 16, i1 % 16 * 16 + i2 / 4, i2 % 4 * 64 + i3] + rest)
         case None => None)
      case _ => None
  }

  lemma DecodeOne(x: Byte)
    ensures Decode([Char(x / 4), Char(x % 4 * 16), Pad, Pad]) == Some([x])
  {
    IndexOfChar(x / 4);
    IndexOfChar(x % 4 * 16);
  }

  lemma DecodeTwo(x: Byte, y: Byte)
    ensures Decode([Char(x / 4), Char(x % 4 * 16 + y / 16), Char(y % 16 * 4), Pad]) == Some([x, y])
  {
    var i0, i1, i2 := x / 4, x % 4 * 16 + y / 16, y % 16 * 4;
    IndexOfChar(i0);
    IndexOfChar(i1);
    IndexOfChar(i2);
    assert i1 / 16 == x % 4 && i1 % 16 == y / 16;
    assert i2 / 4 == y % 16 && i2 % 4 == 0;
  }

  lemma DecodeThree(x: Byte, y: Byte, z: Byte, rest: string)
    ensures Decode([Char(x / 4), Char(x % 4 * 16 + y / 16), Char(y % 16 * 4 + z / 64), Char(z % 64)] + rest)
         == (match Decode(rest) case Some(r) => Some([x, y, z] + r) case None => None)
  {
    var i0, i1, i2, i3 := x / 4, x % 4 * 16 + y / 16, y % 16 * 4 + z / 64, z % 64;
    IndexOfChar(i0);
    IndexOfChar(i1);
    IndexOfChar(i2);
    IndexOfChar(i3);
    assert i1 / 16 == x % 4 && i1 % 16 == y / 16;
    assert i2 / 4 == y % 16 && i2 % 4 == z / 64;
    var s := [Char(i0), Char(i1), Char(i2), Char(i3)] + rest;
    assert s[4..] == rest;
  }

  lemma EncodeGroups(b: seq<Byte>)
    ensures |b| == 1 ==> Encode(b) == [Char(b[0] / 4), Char(b[0] % 4 * 16), Pad, Pad]
    ensures |b| == 2 ==> Encode(b) == [Char(b[0] / 4), Char(b[0] % 4 * 16 + b[1] / 16), Char(b[1] % 16 * 4), Pad]
    ensures |b| >= 3 ==> Encode(b) == [Char(b[0] / 4), Char(b[0] % 4 * 16 + b[1] / 16), Char(b[1] % 16 * 4 + b[2] / 64), Char(b[2] % 64)] + Encode(b[3..])
  {
  }

  lemma RoundTripOne(b: seq<Byte>)
    requires |b| == 1
    ensures Decode(Encode(b)) == Some(b)
  {
    EncodeGroups(b);
    DecodeOne(b[0]);
    assert b == [b[0]];
  }

  lemma RoundTripTwo(b: seq<Byte>)
    requires |b| == 2
    ensures Decode(Encode(b)) == Some(b)
  {
    EncodeGroups(b);
    DecodeTwo(b[0], b[1]);
    assert b == [b[0], b[1]];
  }

  lemma RoundTripMore(x: Byte, y: Byte, z: Byte, tail: seq<Byte>)
    requires Decode(Encode(tail)) == Some(tail)
    ensures Decode(Encode([x, y, z] + tail)) == Some([x, y, z] + tail)
  {
    var b := [x, y, z] + tail;
    assert b[3..] == tail;
    EncodeGroups(b);
    DecodeThree(x, y, z, Encode(tail));
  }

  /** Decoding undoes the encoding: nothing is lost. */
  lemma {:induction false} DecodeEncode(b: seq<Byte>)
    ensures Decode(Encode(b)) == Some(b)
    decreases |b|
  {
    if |b| == 1 {
      RoundTripOne(b);
    } else if |b| == 2 {
      RoundTripTwo(b);
    } else if |b| >= 3 {
      SplitGroup(b);
      DecodeEncode(b[3..]);
      RoundTripMore(b[0], b[1], b[2], b[3..]);
    }
  }

  lemma SplitGroup(b: seq<Byte>)
    requires |b| >= 3
    ensures b == [b[0], b[1], b[2]] + b[3..]
  {
  }

  /** Four characters for every three bytes or part of three. */
  lemma {:induction false} EncodeLength(b: seq<Byte>)
    ensures |Encode(b)| == 4 * ((|b| + 2) / 3)
    decreases |b|
  {
    EncodeGroups(b);
    if |b| >= 3 {
      EncodeLength(b[3..]);
      assert (|b| + 2) / 3 == (|b[3..]| + 2) / 3 + 1;
    }
  }

  /** The encoding only uses the alphabet and the padding character. */
  lemma {:induction false} EncodeAlphabet(b: seq<Byte>)
    ensures forall k :: 0 <= k < |Encode(b)| ==> Encode(b)[k] == Pad || Index(Encode(b)[k]).Some?
    decreases |b|
  {
    if |b| >= 3 {
      EncodeAlphabet(b[3..]);
      IndexOfChar(b[0] / 4);
      IndexOfChar(b[0] % 4 * 16 + b[1] / 16);
      IndexOfChar(b[1] % 16 * 4 + b[2] / 64);
      IndexOfChar(b[2] % 64);
    } else if |b| == 2 {
      IndexOfChar(b[0] / 4);
      IndexOfChar(b[0] % 4 * 16 + b[1] / 16);
      IndexOfChar(b[1] % 16 * 4);
    } else if |b| == 1 {
      IndexOfChar(b[0] / 4);
      IndexOfChar(b[0] % 4 * 16);
    }
  }
}
