/** The base-64 encoding of section 4 of RFC 4648 (alphabet A-Z a-z 0-9 + /,
    `=` padding), as Python's `base64.b64encode` produces it and as
    `base64.b64decode` reads it. */
module Base64 {

  import opened Py
  import opened Pcm

  type Sextet = n: int | 0 <= n < 64

  /** The character of the alphabet that encodes `n`. */
  function CharOf(n: Sextet): (c: char)
    ensures c != '=' && c as int < 128
  {
    if n < 26 then ('A' as int + n) as char
    else if n < 52 then ('a' as int + (n - 26)) as char
    else if n < 62 then ('0' as int + (n - 52)) as char
    else if n == 62 then '+'
    else '/'
  }

  /** The value of an alphabet character; None outside the alphabet. */
  function IndexOf(c: char): (r: Option<Sextet>)
    ensures c == '=' ==> r.None?
  {
    if 'A' <= c <= 'Z' then Some(c as int - 'A' as int)
    else if 'a' <= c <= 'z' then Some(c as int - 'a' as int + 26)
    else if '0' <= c <= '9' then Some(c as int - '0' as int + 52)
    else if c == '+' then Some(62)
    else if c == '/' then Some(63)
    else None
  }

  lemma IndexOfCharOf(n: Sextet)
    ensures IndexOf(CharOf(n)) == Some(n)
  {
  }

  /** Three bytes as four characters. */
  function EncodeGroup(b0: Byte, b1: Byte, b2: Byte): (s: string)
    ensures |s| == 4
  {
    [CharOf(b0 / 4), CharOf((b0 % 4) * 16 + b1 / 16), CharOf((b1 % 16) * 4 + b2 / 64), CharOf(b2 % 64)]
  }

  /** `base64.b64encode(b).decode('utf-8')`. */
  function Encode(b: seq<Byte>): (s: string)
    ensures |s| == 4 * ((|b| + 2) / 3)
    decreases |b|
  {
    if |b| == 0 then ""
    else if |b| == 1 then [CharOf(b[0] / 4), CharOf((b[0] % 4) * 16), '=', '=']
    else if |b| == 2 then [CharOf(b[0] / 4), CharOf((b[0] % 4) * 16 + b[1] / 16), CharOf((b[1] % 16) * 4), '=']
    else EncodeGroup(b[0], b[1], b[2]) + Encode(b[3..])
  }

  /** The position within a four-character group. */
  type QuadPos = n: int | 0 <= n < 4

  /** Text Python can turn into bytes for decoding; other text makes
      `b64decode` raise ValueError. */
  predicate IsAscii(s: string)
  {
    forall k :: 0 <= k < |s| ==> s[k] as int < 128
  }

  /** CPython's non-strict `binascii.a2b_base64` from character `i` on, with
      `pos` characters of the current group read, `left` the value of the
      previous character, `pads` the `=` seen at positions two and three of
      the group, and `out` the bytes produced so far. Characters outside the
      alphabet are skipped, `=` at the first two positions of a group is
      ignored, and a group completed by padding ends the decoding whatever
      follows. None where Python raises binascii.Error. */
  function DecodeFrom(s: string, i: nat, pos: QuadPos, left: Sextet, pads: nat, out: seq<Byte>): (r: Option<seq<Byte>>)
    requires i <= |s|
    decreases |s| - i
  {
    if i == |s| then
      if pos == 0 then Some(out) else None
    else if s[i] == '=' then
      if pos >= 2 && pos + pads + 1 >= 4 then Some(out)
      else DecodeFrom(s, i + 1, pos, left, if pos >= 2 then pads + 1 else pads, out)
    else
      match IndexOf(s[i])
      case None => DecodeFrom(s, i + 1, pos, left, pads, out)
      case Some(v) =>
        if pos == 0 then DecodeFrom(s, i + 1, 1, v, 0, out)
        else if pos == 1 then DecodeFrom(s, i + 1, 2, v, 0, out + [left * 4 + v / 16])
        else if pos == 2 then DecodeFrom(s, i + 1, 3, v, 0, out + [(left % 16) * 16 + v / 4])
        else DecodeFrom(s, i + 1, 0, 0, 0, out + [(left % 4) * 64 + v])
  }

  /** `base64.b64decode(s)` on a str: None where Python raises ValueError
      (non-ASCII text) or binascii.Error (a group left incomplete). */
  function Decode(s: string): (r: Option<seq<Byte>>)
    ensures !IsAscii(s) ==> r.None?
  {
    if IsAscii(s) then DecodeFrom(s, 0, 0, 0, 0, []) else None
  }

  lemma DivMod16(a: int, r: int)
    requires 0 <= r < 16
    ensures (a * 16 + r) / 16 == a && (a * 16 + r) % 16 == r
  {
  }

  lemma DivMod4(a: int, r: int)
    requires 0 <= r < 4
    ensures (a * 4 + r) / 4 == a && (a * 4 + r) % 4 == r
  {
  }

  /** The four sextets of a group put back together give the three bytes. */
  lemma SextetsOfGroup(b0: Byte, b1: Byte, b2: Byte)
    ensures (b0 / 4) * 4 + ((b0 % 4) * 16 + b1 / 16) / 16 == b0
    ensures (((b0 % 4) * 16 + b1 / 16) % 16) * 16 + ((b1 % 16) * 4 + b2 / 64) / 4 == b1
    ensures (((b1 % 16) * 4 + b2 / 64) % 4) * 64 + b2 % 64 == b2
  {
    DivMod16(b0 % 4, b1 / 16);
    DivMod4(b1 % 16, b2 / 64);
  }

  /** Reading one encoded group from the start of a group. */
  lemma GroupStep(s: string, i: nat, b0: Byte, b1: Byte, b2: Byte, out: seq<Byte>)
    requires i + 4 <= |s| && s[i..i + 4] == EncodeGroup(b0, b1, b2)
    ensures DecodeFrom(s, i, 0, 0, 0, out) == DecodeFrom(s, i + 4, 0, 0, 0, out + [b0, b1, b2])
  {
    var c0, c1, c2, c3 := b0 / 4, (b0 % 4) * 16 + b1 / 16, (b1 % 16) * 4 + b2 / 64, b2 % 64;
    assert s[i] == CharOf(c0) && s[i + 1] == CharOf(c1) && s[i + 2] == CharOf(c2) && s[i + 3] == CharOf(c3);
    IndexOfCharOf(c0);
    IndexOfCharOf(c1);
    IndexOfCharOf(c2);
    IndexOfCharOf(c3);
    SextetsOfGroup(b0, b1, b2);
    assert DecodeFrom(s, i, 0, 0, 0, out) == DecodeFrom(s, i + 1, 1, c0, 0, out);
    assert DecodeFrom(s, i + 1, 1, c0, 0, out) == DecodeFrom(s, i + 2, 2, c1, 0, out + [b0]);
    assert DecodeFrom(s, i + 2, 2, c1, 0, out + [b0]) == DecodeFrom(s, i + 3, 3, c2, 0, out + [b0] + [b1]);
    assert DecodeFrom(s, i + 3, 3, c2, 0, out + [b0] + [b1])
        == DecodeFrom(s, i + 4, 0, 0, 0, out + [b0] + [b1] + [b2]);
    assert out + [b0] + [b1] + [b2] == out + [b0, b1, b2];
  }

  /** Reading the padded group of a one-byte tail ends the decoding. */
  lemma OneByteTail(s: string, i: nat, b0: Byte, out: seq<Byte>)
    requires i + 4 <= |s| && s[i..i + 4] == [CharOf(b0 / 4), CharOf((b0 % 4) * 16), '=', '=']
    ensures DecodeFrom(s, i, 0, 0, 0, out) == Some(out + [b0])
  {
    var c0, c1 := b0 / 4, (b0 % 4) * 16;
    assert s[i] == CharOf(c0) && s[i + 1] == CharOf(c1);
    assert s[i + 2] == '=' && s[i + 3] == '=';
    IndexOfCharOf(c0);
    IndexOfCharOf(c1);
    assert DecodeFrom(s, i, 0, 0, 0, out) == DecodeFrom(s, i + 1, 1, c0, 0, out);
    assert c0 * 4 + c1 / 16 == b0;
    assert DecodeFrom(s, i + 1, 1, c0, 0, out) == DecodeFrom(s, i + 2, 2, c1, 0, out + [b0]);
    assert DecodeFrom(s, i + 2, 2, c1, 0, out + [b0]) == DecodeFrom(s, i + 3, 2, c1, 1, out + [b0]);
  }

  /** Reading the padded group of a two-byte tail ends the decoding. */
  lemma TwoBytesTail(s: string, i: nat, b0: Byte, b1: Byte, out: seq<Byte>)
    requires i + 4 <= |s|
    requires s[i..i + 4] == [CharOf(b0 / 4), CharOf((b0 % 4) * 16 + b1 / 16), CharOf((b1 % 16) * 4), '=']
    ensures DecodeFrom(s, i, 0, 0, 0, out) == Some(out + [b0, b1])
  {
    var c0, c1, c2 := b0 / 4, (b0 % 4) * 16 + b1 / 16, (b1 % 16) * 4;
    assert s[i] == CharOf(c0) && s[i + 1] == CharOf(c1);
    assert s[i + 2] == CharOf(c2) && s[i + 3] == '=';
    IndexOfCharOf(c0);
    IndexOfCharOf(c1);
    IndexOfCharOf(c2);
    DivMod16(b0 % 4, b1 / 16);
    DivMod4(b1 % 16, 0);
    assert DecodeFrom(s, i, 0, 0, 0, out) == DecodeFrom(s, i + 1, 1, c0, 0, out);
    assert DecodeFrom(s, i + 1, 1, c0, 0, out) == DecodeFrom(s, i + 2, 2, c1, 0, out + [b0]);
    assert (c1 % 16) * 16 + c2 / 4 == b1;
    assert DecodeFrom(s, i + 2, 2, c1, 0, out + [b0]) == DecodeFrom(s, i + 3, 3, c2, 0, out + [b0] + [b1]);
    assert out + [b0] + [b1] == out + [b0, b1];
  }

  /** Decoding the encoding of `b` found at position `i`: whole groups leave
      the decoder at the start of the next group, a padded tail ends it. */
  lemma {:induction false} EncodedAt(s: string, i: nat, b: seq<Byte>, out: seq<Byte>)
    requires i + |Encode(b)| <= |s| && s[i..i + |Encode(b)|] == Encode(b)
    ensures |b| % 3 == 0 ==> DecodeFrom(s, i, 0, 0, 0, out) == DecodeFrom(s, i + |Encode(b)|, 0, 0, 0, out + b)
    ensures |b| % 3 != 0 ==> DecodeFrom(s, i, 0, 0, 0, out) == Some(out + b)
    decreases |b|
  {
    if |b| == 0 {
      assert out + b == out;
    } else if |b| <= 2 {
      PaddedTail(s, i, b, out);
    } else {
      GroupThenRest(s, i, b, out);
      EncodedAt(s, i + 4, b[3..], out + [b[0], b[1], b[2]]);
      GroupCase(b, out);
      GroupLength(b);
    }
  }

  /** What the rest of a longer input adds, and its length modulo three. */
  lemma GroupCase(b: seq<Byte>, out: seq<Byte>)
    requires |b| >= 3
    ensures out + [b[0], b[1], b[2]] + b[3..] == out + b
    ensures |b[3..]| % 3 == |b| % 3
  {
    assert b == [b[0], b[1], b[2]] + b[3..];
  }

  /** A longer input's encoding is one group longer than its rest's. */
  lemma GroupLength(b: seq<Byte>)
    requires |b| >= 3
    ensures |Encode(b)| == 4 + |Encode(b[3..])|
  {
    var g, e := EncodeGroup(b[0], b[1], b[2]), Encode(b[3..]);
    assert Encode(b) == g + e;
  }

  /** The encoding of one or two bytes is a padded group. */
  lemma PaddedTail(s: string, i: nat, b: seq<Byte>, out: seq<Byte>)
    requires 1 <= |b| <= 2
    requires i + |Encode(b)| <= |s| && s[i..i + |Encode(b)|] == Encode(b)
    ensures DecodeFrom(s, i, 0, 0, 0, out) == Some(out + b)
  {
    if |b| == 1 {
      OneByteTail(s, i, b[0], out);
      assert [b[0]] == b;
    } else {
      TwoBytesTail(s, i, b[0], b[1], out);
      assert [b[0], b[1]] == b;
    }
  }

  /** The first group of a longer encoding, and where the rest of it lies. */
  lemma GroupThenRest(s: string, i: nat, b: seq<Byte>, out: seq<Byte>)
    requires |b| >= 3
    requires i + |Encode(b)| <= |s| && s[i..i + |Encode(b)|] == Encode(b)
    ensures i + 4 + |Encode(b[3..])| <= |s| && s[i + 4..i + 4 + |Encode(b[3..])|] == Encode(b[3..])
    ensures DecodeFrom(s, i, 0, 0, 0, out) == DecodeFrom(s, i + 4, 0, 0, 0, out + [b[0], b[1], b[2]])
  {
    var g := EncodeGroup(b[0], b[1], b[2]);
    var rest := Encode(b[3..]);
    assert Encode(b) == g + rest;
    assert s[i..i + 4] == s[i..i + |Encode(b)|][..4] == g;
    assert s[i + 4..i + 4 + |rest|] == s[i..i + |Encode(b)|][4..] == rest;
    GroupStep(s, i, b[0], b[1], b[2], out);
  }

  /** The encoding is ASCII text. */
  lemma {:induction false} EncodeAscii(b: seq<Byte>)
    ensures IsAscii(Encode(b))
    decreases |b|
  {
    if |b| >= 3 {
      EncodeAscii(b[3..]);
      var g := EncodeGroup(b[0], b[1], b[2]);
      assert Encode(b) == g + Encode(b[3..]);
      forall k | 0 <= k < |Encode(b)|
        ensures Encode(b)[k] as int < 128
      {
        if k >= 4 {
          assert Encode(b)[k] == Encode(b[3..])[k - 4];
        }
      }
    }
  }

  /** Decoding what was encoded gives the bytes back. */
  lemma DecodeEncode(b: seq<Byte>)
    ensures Decode(Encode(b)) == Some(b)
  {
    var s := Encode(b);
    EncodeAscii(b);
    assert s[0..|s|] == s;
    EncodedAt(s, 0, b, []);
    assert [] + b == b;
  }

  /** ASCII text followed by ASCII text is ASCII. */
  lemma AsciiAppend(a: string, b: string)
    requires IsAscii(a) && IsAscii(b)
    ensures IsAscii(a + b)
  {
    forall k | 0 <= k < |a + b|
      ensures (a + b)[k] as int < 128
    {
      if k >= |a| {
        assert (a + b)[k] == b[k - |a|];
      }
    }
  }

  /** Text after a padded group is never read: `b64decode` returns the bytes
      of the encoding however the text goes on. */
  lemma DecodeStopsAtPadding(b: seq<Byte>, rest: string)
    requires |b| % 3 != 0 && IsAscii(rest)
    ensures Decode(Encode(b) + rest) == Some(b)
  {
    var s := Encode(b) + rest;
    EncodeAscii(b);
    AsciiAppend(Encode(b), rest);
    assert s[0..|Encode(b)|] == Encode(b);
    EncodedAt(s, 0, b, []);
    assert [] + b == b;
  }

  /** Four characters are needed for every three bytes produced. */
  lemma {:induction false} DecodeFromBound(s: string, i: nat, pos: QuadPos, left: Sextet, pads: nat, out: seq<Byte>)
    requires i <= |s|
    requires 4 * |out| + HeldBack(pos) <= 3 * i
    ensures DecodeFrom(s, i, pos, left, pads, out).Some? ==> 4 * |DecodeFrom(s, i, pos, left, pads, out).value| <= 3 * |s|
    decreases |s| - i
  {
    if i < |s| {
      if s[i] == '=' {
        if !(pos >= 2 && pos + pads + 1 >= 4) {
          DecodeFromBound(s, i + 1, pos, left, if pos >= 2 then pads + 1 else pads, out);
        }
      } else {
        match IndexOf(s[i])
        case None => DecodeFromBound(s, i + 1, pos, left, pads, out);
        case Some(v) =>
          if pos == 0 {
            DecodeFromBound(s, i + 1, 1, v, 0, out);
          } else if pos == 1 {
            DecodeFromBound(s, i + 1, 2, v, 0, out + [left * 4 + v / 16]);
          } else if pos == 2 {
            DecodeFromBound(s, i + 1, 3, v, 0, out + [(left % 16) * 16 + v / 4]);
          } else {
            DecodeFromBound(s, i + 1, 0, 0, 0, out + [(left % 4) * 64 + v]);
          }
      }
    }
  }

  /** How far the characters read so far in a group are ahead of the bytes
      they produced, in quarters of a byte. */
  function HeldBack(pos: QuadPos): nat
  {
    if pos == 0 then 0 else 4 - pos
  }

  /** A decode yields at most three bytes per four characters of text. */
  lemma DecodeBound(s: string)
    requires Decode(s).Some?
    ensures 4 * |Decode(s).value| <= 3 * |s|
  {
    DecodeFromBound(s, 0, 0, 0, 0, []);
  }
}
