/** Base64url (sections 3.2 and 5 of RFC 4648) as the message store uses it
    (backend/app/security/message_encryption.py): Python's padded encoder with the
    padding stripped, and its lenient decoder with the padding put back. */
module Base64url {
  import opened Prelude
  import opened Utf8

  type Code = seq<Scalar>

  const PAD: Scalar := 0x3D

  /** What the decoder makes of a character.  It reads both alphabets, since only
      `-` and `_` are translated and `+` and `/` are then accepted as they are. */
  datatype Reading = Value(v: nat) | Pad | Ignored

  function Read(c: Scalar): (r: Reading)
    ensures r.Value? ==> r.v < 64
    ensures r.Pad? <==> c == PAD
  {
    if 0x41 <= c <= 0x5A then Value(c - 0x41)
    else if 0x61 <= c <= 0x7A then Value(c - 0x61 + 26)
    else if 0x30 <= c <= 0x39 then Value(c - 0x30 + 52)
    else if c == 0x2D || c == 0x2B then Value(62)
    else if c == 0x5F || c == 0x2F then Value(63)
    else if c == PAD then Pad
    else Ignored
  }

  /** The symbol of a 6-bit value. */
  function Symbol(v: nat): (c: Scalar)
    requires v < 64
    ensures c < 0x80 && c != PAD && c != 0x3A
    ensures Read(c) == Value(v)
  {
    if v < 26 then 0x41 + v
    else if v < 52 then 0x61 + v - 26
    else if v < 62 then 0x30 + v - 52
    else if v == 62 then 0x2D else 0x5F
  }

  // ----------------------------------------------------------------- encoding

  /** ASCII, without a pad or a colon. */
  predicate PlainCode(s: Code) {
    forall i :: 0 <= i < |s| ==> s[i] < 0x80 && s[i] != PAD && s[i] != 0x3A
  }

  function Group3(b0: Byte, b1: Byte, b2: Byte): (s: Code)
    ensures |s| == 4 && PlainCode(s)
  {
    [Symbol(b0 / 4), Symbol(b0 % 4 * 16 + b1 / 16), Symbol(b1 % 16 * 4 + b2 / 64), Symbol(b2 % 64)]
  }

  function Group2(b0: Byte, b1: Byte): (s: Code)
    ensures |s| == 3 && PlainCode(s)
  {
    [Symbol(b0 / 4), Symbol(b0 % 4 * 16 + b1 / 16), Symbol(b1 % 16 * 4)]
  }

  function Group1(b0: Byte): (s: Code)
    ensures |s| == 2 && PlainCode(s)
  {
    [Symbol(b0 / 4), Symbol(b0 % 4 * 16)]
  }

  /** The symbols, without padding. */
  function Symbols(data: seq<Byte>): Code {
    if |data| == 0 then []
    else if |data| == 1 then Group1(data[0])
    else if |data| == 2 then Group2(data[0], data[1])
    else Group3(data[0], data[1], data[2]) + Symbols(data[3..])
  }

  function Pads(n: nat): Code { seq(n, _ => PAD) }

  /** base64.urlsafe_b64encode. */
  function EncodePadded(data: seq<Byte>): Code {
    if |data| == 0 then []
    else if |data| == 1 then Group1(data[0]) + [PAD, PAD]
    else if |data| == 2 then Group2(data[0], data[1]) + [PAD]
    else Group3(data[0], data[1], data[2]) + EncodePadded(data[3..])
  }

  /** rstrip(b"="). */
  function Strip(s: Code): Code {
    if s != [] && s[|s| - 1] == PAD then Strip(s[..|s| - 1]) else s
  }

  /** _b64url_encode. */
  function Encode64(data: seq<Byte>): Code { Strip(EncodePadded(data)) }

  /** Every three bytes, and what is left of them, take four characters. */
  lemma {:induction false} PaddedLength(data: seq<Byte>)
    ensures |EncodePadded(data)| == (|data| + 2) / 3 * 4
    decreases |data|
  {
    if |data| > 2 {
      PaddedLength(data[3..]);
      var n := |data| - 3;
      assert (n + 3 + 2) / 3 == (n + 2) / 3 + 1;
    }
  }

  // ----------------------------------------------------------------- decoding

  /** binascii.a2b_base64 in its lenient mode: the position in a group of four,
      the bits left over, the pads seen since the last symbol. */
  datatype Decoder = Decoder(quad: nat, left: nat, pads: nat, out: seq<Byte>, done: bool)

  ghost predicate DecoderOk(d: Decoder) {
    && d.quad < 4
    && d.left < (match d.quad case 0 => 1 case 1 => 64 case 2 => 16 case _ => 4)
  }

  function Feed(d: Decoder, c: Reading): (r: Decoder)
    requires DecoderOk(d) && (c.Value? ==> c.v < 64)
    ensures DecoderOk(r)
    ensures |r.out| <= |d.out| + 1
  {
    if d.done || c.Ignored? then d
    else if c.Pad? then
      if d.quad < 2 then d
      else if d.quad + d.pads + 1 >= 4 then d.(done := true) else d.(pads := d.pads + 1)
    else if d.quad == 0 then Decoder(1, c.v, 0, d.out, false)
    else if d.quad == 1 then Decoder(2, c.v % 16, 0, d.out + [d.left * 4 + c.v / 16], false)
    else if d.quad == 2 then Decoder(3, c.v % 4, 0, d.out + [d.left * 16 + c.v / 4], false)
    else Decoder(0, 0, 0, d.out + [d.left * 64 + c.v], false)
  }

  function FeedAll(d: Decoder, s: Code): (r: Decoder)
    requires DecoderOk(d)
    ensures DecoderOk(r)
    ensures |r.out| <= |d.out| + |s|
    decreases |s|
  {
    if s == [] then d else FeedAll(Feed(d, Read(s[0])), s[1..])
  }

  const START: Decoder := Decoder(0, 0, 0, [], false)

  /** How many pads make n symbols a multiple of four. */
  function Missing(n: nat): nat { (4 - n % 4) % 4 }

  /** _b64url_decode: pad to a multiple of four, refuse non-ASCII, decode; the end
      in mid-group without its padding is an error. */
  function Decode64(s: Code): (r: Option<seq<Byte>>)
    ensures r.Some? ==> |r.value| <= |s| + 3
  {
    var padded := s + Pads(Missing(|s|));
    if exists i :: 0 <= i < |padded| && padded[i] >= 0x80 then None
    else
      var d := FeedAll(START, padded);
      if d.done || d.quad == 0 then Some(d.out) else None
  }

  // ------------------------------------------------------------------- proofs

  lemma PadsAre()
    ensures Pads(0) == [] && Pads(1) == [PAD] && Pads(2) == [PAD, PAD]
  {
  }

  /** The padded code is the symbols and the pads a multiple of four lacks. */
  lemma {:induction false} PaddedShape(data: seq<Byte>)
    ensures PlainCode(Symbols(data))
    ensures EncodePadded(data) == Symbols(data) + Pads(Missing(|Symbols(data)|))
    decreases |data|
  {
    PadsAre();
    if |data| >= 3 {
      PaddedShape(data[3..]);
      GroupThenRest(Group3(data[0], data[1], data[2]), Symbols(data[3..]), EncodePadded(data[3..]));
    }
  }

  lemma GroupThenRest(group: Code, symbols: Code, padded: Code)
    requires |group| == 4 && PlainCode(group) && PlainCode(symbols) && padded == symbols + Pads(Missing(|symbols|))
    ensures PlainCode(group + symbols)
    ensures group + padded == (group + symbols) + Pads(Missing(|group + symbols|))
  {
    MissingAfterGroup(|symbols|);
  }

  lemma MissingAfterGroup(n: nat)
    ensures Missing(n + 4) == Missing(n)
  {
  }

  lemma {:induction false} StripPads(s: Code, n: nat)
    requires s == [] || s[|s| - 1] != PAD
    ensures Strip(s + Pads(n)) == s
  {
    var t := s + Pads(n);
    if n == 0 {
      assert t == s;
    } else {
      assert t[|t| - 1] == PAD && t[..|t| - 1] == s + Pads(n - 1);
      StripPads(s, n - 1);
    }
  }

  /** Stripping leaves the symbols alone, and padding to a multiple of four puts
      back exactly what was stripped. */
  lemma PaddingComesBack(data: seq<Byte>)
    ensures Encode64(data) == Symbols(data)
    ensures Encode64(data) + Pads(Missing(|Encode64(data)|)) == EncodePadded(data)
  {
    PaddedShape(data);
    StripPads(Symbols(data), Missing(|Symbols(data)|));
  }

  lemma {:induction false} FeedAppend(d: Decoder, a: Code, b: Code)
    requires DecoderOk(d)
    ensures FeedAll(d, a + b) == FeedAll(FeedAll(d, a), b)
    decreases |a|
  {
    if a == [] {
      assert a + b == b;
    } else {
      assert (a + b)[1..] == a[1..] + b;
      FeedAppend(Feed(d, Read(a[0])), a[1..], b);
    }
  }

  lemma Feed1(d: Decoder, c: Scalar)
    requires DecoderOk(d)
    ensures FeedAll(d, [c]) == Feed(d, Read(c))
  {
    assert FeedAll(d, [c]) == FeedAll(Feed(d, Read(c)), []);
  }

  lemma Feed2(d: Decoder, c0: Scalar, c1: Scalar)
    requires DecoderOk(d)
    ensures FeedAll(d, [c0, c1]) == Feed(Feed(d, Read(c0)), Read(c1))
  {
    assert [c0, c1][1..] == [c1];
    Feed1(Feed(d, Read(c0)), c1);
  }

  /** Two symbols carry the first byte and four bits of the next. */
  lemma FeedPair(d: Decoder, b0: Byte, low: nat)
    requires DecoderOk(d) && d.quad == 0 && !d.done && low < 16
    ensures FeedAll(d, [Symbol(b0 / 4), Symbol(b0 % 4 * 16 + low)]) == Decoder(2, low, 0, d.out + [b0], false)
  {
    var c0, c1 := Symbol(b0 / 4), Symbol(b0 % 4 * 16 + low);
    Feed2(d, c0, c1);
    assert Feed(d, Read(c0)) == Decoder(1, b0 / 4, 0, d.out, false);
    assert (b0 % 4 * 16 + low) / 16 == b0 % 4 && (b0 % 4 * 16 + low) % 16 == low;
    assert b0 / 4 * 4 + b0 % 4 == b0;
  }

  /** The third symbol carries the rest of the second byte and two bits of the next. */
  lemma FeedThird(d: Decoder, b1: Byte, low: nat)
    requires DecoderOk(d) && d.quad == 2 && d.left == b1 / 16 && !d.done && low < 4
    ensures Feed(d, Read(Symbol(b1 % 16 * 4 + low))) == Decoder(3, low, 0, d.out + [b1], false)
  {
    assert (b1 % 16 * 4 + low) / 4 == b1 % 16 && (b1 % 16 * 4 + low) % 4 == low;
    assert b1 / 16 * 16 + b1 % 16 == b1;
  }

  lemma FeedFourth(d: Decoder, b2: Byte)
    requires DecoderOk(d) && d.quad == 3 && d.left == b2 / 64 && !d.done
    ensures Feed(d, Read(Symbol(b2 % 64))) == Decoder(0, 0, 0, d.out + [b2], false)
  {
    assert b2 / 64 * 64 + b2 % 64 == b2;
  }

  lemma FeedGroup3(d: Decoder, b0: Byte, b1: Byte, b2: Byte)
    requires DecoderOk(d) && d.quad == 0 && !d.done
    ensures FeedAll(d, Group3(b0, b1, b2)) == Decoder(0, 0, 0, d.out + [b0, b1, b2], false)
  {
    FeedPair(d, b0, b1 / 16);
    var c2, c3 := Symbol(b1 % 16 * 4 + b2 / 64), Symbol(b2 % 64);
    FeedAppend(d, [Symbol(b0 / 4), Symbol(b0 % 4 * 16 + b1 / 16)], [c2, c3]);
    var d2 := Decoder(2, b1 / 16, 0, d.out + [b0], false);
    Feed2(d2, c2, c3);
    FeedThird(d2, b1, b2 / 64);
    FeedFourth(Feed(d2, Read(c2)), b2);
    assert d.out + [b0] + [b1] + [b2] == d.out + [b0, b1, b2];
  }

  lemma FeedGroup2(d: Decoder, b0: Byte, b1: Byte)
    requires DecoderOk(d) && d.quad == 0 && !d.done
    ensures FeedAll(d, Group2(b0, b1)) == Decoder(3, 0, 0, d.out + [b0, b1], false)
  {
    FeedPair(d, b0, b1 / 16);
    var c2 := Symbol(b1 % 16 * 4);
    FeedAppend(d, [Symbol(b0 / 4), Symbol(b0 % 4 * 16 + b1 / 16)], [c2]);
    var d2 := Decoder(2, b1 / 16, 0, d.out + [b0], false);
    Feed1(d2, c2);
    FeedThird(d2, b1, 0);
    assert d.out + [b0] + [b1] == d.out + [b0, b1];
  }

  /** The decoder started on a group boundary reads back the data. */
  lemma {:induction false} FeedEncoded(d: Decoder, data: seq<Byte>)
    requires DecoderOk(d) && d.quad == 0 && !d.done
    ensures var r := FeedAll(d, EncodePadded(data)); r.out == d.out + data && (r.done || r.quad == 0)
    decreases |data|
  {
    if |data| < 3 {
      FeedLast(d, data);
    } else {
      FeedFront(d, data);
      FeedEncoded(Decoder(0, 0, 0, d.out + data[..3], false), data[3..]);
      assert d.out + data[..3] + data[3..] == d.out + data;
    }
  }

  /** The first group read, the decoder is on a boundary again. */
  lemma FeedFront(d: Decoder, data: seq<Byte>)
    requires DecoderOk(d) && d.quad == 0 && !d.done && |data| >= 3
    ensures FeedAll(d, EncodePadded(data)) == FeedAll(Decoder(0, 0, 0, d.out + data[..3], false), EncodePadded(data[3..]))
  {
    FeedGroup3(d, data[0], data[1], data[2]);
    assert data[..3] == [data[0], data[1], data[2]];
    FeedAppend(d, Group3(data[0], data[1], data[2]), EncodePadded(data[3..]));
  }

  /** A last group of one byte ends at the second pad, one of two bytes at the first. */
  lemma FeedPads(d: Decoder)
    requires DecoderOk(d) && d.pads == 0 && !d.done
    ensures d.quad == 2 ==> FeedAll(d, [PAD, PAD]) == d.(pads := 1, done := true)
    ensures d.quad == 3 ==> FeedAll(d, [PAD]) == d.(done := true)
  {
    Feed1(d, PAD);
    Feed2(d, PAD, PAD);
  }

  lemma FeedLast(d: Decoder, data: seq<Byte>)
    requires DecoderOk(d) && d.quad == 0 && !d.done && |data| < 3
    ensures var r := FeedAll(d, EncodePadded(data)); r.out == d.out + data && (r.done || r.quad == 0)
  {
    if |data| == 0 {
      assert EncodePadded(data) == [];
    } else if |data| == 1 {
      assert data == [data[0]];
      var s := [Symbol(data[0] / 4), Symbol(data[0] % 4 * 16 + 0)];
      FeedPair(d, data[0], 0);
      FeedAppend(d, s, [PAD, PAD]);
      FeedPads(Decoder(2, 0, 0, d.out + data, false));
      assert EncodePadded(data) == s + [PAD, PAD];
    } else {
      assert data == [data[0], data[1]];
      var s := Group2(data[0], data[1]);
      FeedGroup2(d, data[0], data[1]);
      FeedAppend(d, s, [PAD]);
      FeedPads(Decoder(3, 0, 0, d.out + data, false));
      assert EncodePadded(data) == s + [PAD];
    }
  }

  /** Unpadded decoding inverts encoding for every byte string, and the code is
      free of `:` and `=`. */
  lemma DecodeEncode64(data: seq<Byte>)
    ensures Decode64(Encode64(data)) == Some(data)
    ensures 0x3A !in Encode64(data) && PAD !in Encode64(data)
  {
    PaddingComesBack(data);
    PaddedShape(data);
    FeedEncoded(START, data);
    assert [] + data == data;
    forall i | 0 <= i < |EncodePadded(data)| ensures EncodePadded(data)[i] < 0x80 {
      if i < |Symbols(data)| { assert EncodePadded(data)[i] == Symbols(data)[i]; }
    }
  }

  predicate IsSymbols(s: Code) { forall i :: 0 <= i < |s| ==> Read(s[i]).Value? }

  lemma {:induction false} FeedSymbols(d: Decoder, s: Code)
    requires DecoderOk(d) && !d.done && d.pads == 0 && IsSymbols(s)
    ensures var r := FeedAll(d, s); !r.done && r.pads == 0 && r.quad == (d.quad + |s|) % 4
    decreases |s|
  {
    if s != [] { FeedSymbols(Feed(d, Read(s[0])), s[1..]); }
  }

  /** What is refused: any text that is not ASCII; and of texts of symbols alone
      exactly those that end one symbol into a group. */
  lemma DecodesExactly(s: Code)
    ensures (exists i :: 0 <= i < |s| && s[i] >= 0x80) ==> Decode64(s).None?
    ensures IsSymbols(s) ==> (Decode64(s).Some? <==> |s| % 4 != 1)
  {
    var pads := Pads(Missing(|s|));
    var padded := s + pads;
    assert forall i :: 0 <= i < |s| ==> padded[i] == s[i];
    if IsSymbols(s) {
      FeedSymbols(START, s);
      FeedAppend(START, s, pads);
      var d := FeedAll(START, s);
      PadsAre();
      if |s| % 4 == 1 {
        assert pads == [PAD, PAD, PAD];
        StrayPads(d);
      } else if |s| % 4 != 0 {
        FeedPads(d);
      }
      assert forall i :: |s| <= i < |padded| ==> padded[i] == PAD;
    }
  }

  lemma StrayPads(d: Decoder)
    requires DecoderOk(d) && d.quad == 1 && !d.done
    ensures FeedAll(d, [PAD, PAD, PAD]) == d
  {
    assert [PAD, PAD, PAD][1..] == [PAD, PAD];
    Feed2(d, PAD, PAD);
  }
}
