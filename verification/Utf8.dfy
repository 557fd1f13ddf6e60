/** UTF-8 (section 3 of RFC 3629) over Unicode scalar values, with the two ways
    Python decodes it: strict, and dropping what is malformed. */
module Utf8 {
  import opened Prelude

  type Byte = b: nat | b < 256
  type Scalar = c: nat | c < 0xD800 || (0xE000 <= c && c < 0x11_0000)

  /** How many bytes a scalar takes. */
  function Width(c: Scalar): (n: nat)
    ensures 1 <= n <= 4
  {
    if c < 0x80 then 1 else if c < 0x800 then 2 else if c < 0x1_0000 then 3 else 4
  }

  function Size(s: seq<Scalar>): nat { if s == [] then 0 else Width(s[0]) + Size(s[1..]) }

  function EncodeOne(c: Scalar): (r: seq<Byte>)
    ensures |r| == Width(c)
  {
    if c < 0x80 then [c]
    else if c < 0x800 then [0xC0 + c / 0x40, 0x80 + c % 0x40]
    else if c < 0x1_0000 then [0xE0 + c / 0x1000, 0x80 + c / 0x40 % 0x40, 0x80 + c % 0x40]
    else [0xF0 + c / 0x4_0000, 0x80 + c / 0x1000 % 0x40, 0x80 + c / 0x40 % 0x40, 0x80 + c % 0x40]
  }

  function Encode(s: seq<Scalar>): seq<Byte> {
    if s == [] then [] else EncodeOne(s[0]) + Encode(s[1..])
  }

  predicate Tail(b: Byte) { 0x80 <= b < 0xC0 }

  /** The scalar at the front of b and its length, if b starts with a
      well-formed sequence: no overlong form, no surrogate, in range. */
  function DecodeOne(b: seq<Byte>): (r: Option<(Scalar, nat)>)
    ensures r.Some? ==> 1 <= r.value.1 <= |b|
  {
    if b == [] then None
    else
      var b0: int := b[0];
      if b0 < 0x80 then Some((b0, 1))
      else if 0xC2 <= b0 < 0xE0 && |b| >= 2 && Tail(b[1]) then
        Some((Join2(b0, b[1]), 2))
      else if 0xE0 <= b0 < 0xF0 && |b| >= 3 && Tail(b[1]) && Tail(b[2]) then
        var c := Join3(b0, b[1], b[2]);
        if c < 0x800 || 0xD800 <= c < 0xE000 then None else Some((c, 3))
      else if 0xF0 <= b0 < 0xF5 && |b| >= 4 && Tail(b[1]) && Tail(b[2]) && Tail(b[3]) then
        var c := Join4(b0, b[1], b[2], b[3]);
        if c < 0x1_0000 || c >= 0x11_0000 then None else Some((c, 4))
      else None
  }

  function Join2(b0: int, b1: int): int { (b0 - 0xC0) * 0x40 + (b1 - 0x80) }

  function Join3(b0: int, b1: int, b2: int): int { (b0 - 0xE0) * 0x1000 + (b1 - 0x80) * 0x40 + (b2 - 0x80) }

  function Join4(b0: int, b1: int, b2: int, b3: int): int {
    (b0 - 0xF0) * 0x4_0000 + (b1 - 0x80) * 0x1000 + (b2 - 0x80) * 0x40 + (b3 - 0x80)
  }

  /** bytes.decode("utf-8"). */
  function DecodeStrict(b: seq<Byte>): Option<seq<Scalar>>
    decreases |b|
  {
    if b == [] then Some([])
    else
      var one := DecodeOne(b);
      if one.None? then None
      else
        var rest := DecodeStrict(b[one.value.1..]);
        if rest.None? then None else Some([one.value.0] + rest.value)
  }

  /** bytes.decode("utf-8", errors="ignore"): malformed bytes are skipped one by one. */
  function DecodeIgnore(b: seq<Byte>): seq<Scalar>
    decreases |b|
  {
    if b == [] then []
    else
      var one := DecodeOne(b);
      if one.None? then DecodeIgnore(b[1..]) else [one.value.0] + DecodeIgnore(b[one.value.1..])
  }

  lemma DecodeEncodeOne(c: Scalar, rest: seq<Byte>)
    ensures DecodeOne(EncodeOne(c) + rest) == Some((c, Width(c)))
  {
    var e := EncodeOne(c);
    var b := e + rest;
    if Width(c) == 1 {
      assert b[0] == c;
    } else if Width(c) == 2 {
      assert b[0] == e[0] && b[1] == e[1];
      assert c == c / 0x40 * 0x40 + c % 0x40;
    } else if Width(c) == 3 {
      assert b[0] == e[0] && b[1] == e[1] && b[2] == e[2];
      ThreeDigits(c);
    } else {
      assert b[0] == e[0] && b[1] == e[1] && b[2] == e[2] && b[3] == e[3];
      FourDigits(c);
    }
  }

  lemma ThreeDigits(c: nat)
    ensures c == c / 0x1000 * 0x1000 + c / 0x40 % 0x40 * 0x40 + c % 0x40
  {
    assert c / 0x40 == c / 0x40 / 0x40 * 0x40 + c / 0x40 % 0x40;
    assert c / 0x40 / 0x40 == c / 0x1000;
  }

  lemma FourDigits(c: nat)
    ensures c == c / 0x4_0000 * 0x4_0000 + c / 0x1000 % 0x40 * 0x1000 + c / 0x40 % 0x40 * 0x40 + c % 0x40
  {
    ThreeDigits(c);
    assert c / 0x1000 == c / 0x1000 / 0x40 * 0x40 + c / 0x1000 % 0x40;
    assert c / 0x1000 / 0x40 == c / 0x4_0000;
  }

  lemma {:induction false} EncodeSize(s: seq<Scalar>)
    ensures |Encode(s)| == Size(s)
  {
    if s != [] { EncodeSize(s[1..]); }
  }

  lemma {:induction false} SizeAppend(a: seq<Scalar>, b: seq<Scalar>)
    ensures Size(a + b) == Size(a) + Size(b)
  {
    if a == [] {
      assert a + b == b;
    } else {
      SizeAppend(a[1..], b);
      assert (a + b)[1..] == a[1..] + b;
    }
  }

  /** Strict decoding undoes encoding. */
  lemma {:induction false} DecodeEncode(s: seq<Scalar>)
    ensures DecodeStrict(Encode(s)) == Some(s)
  {
    if s != [] {
      DecodeEncodeOne(s[0], Encode(s[1..]));
      assert Encode(s)[Width(s[0])..] == Encode(s[1..]);
      assert [s[0]] + s[1..] == s;
      DecodeEncode(s[1..]);
    }
  }

  lemma EncodeDecodeOne(b: seq<Byte>)
    requires DecodeOne(b).Some?
    ensures var (c, n) := DecodeOne(b).value; EncodeOne(c) == b[..n]
  {
    var b0: int := b[0];
    if b0 < 0x80 {
      assert b[..1] == [b[0]];
    } else if b0 < 0xE0 {
      TwoBytes(b[0], b[1]);
      assert b[..2] == [b[0], b[1]];
    } else if b0 < 0xF0 {
      ThreeBytes(b[0], b[1], b[2]);
      assert b[..3] == [b[0], b[1], b[2]];
    } else {
      FourBytes(b[0], b[1], b[2], b[3]);
      assert b[..4] == [b[0], b[1], b[2], b[3]];
    }
  }

  lemma TwoBytes(b0: Byte, b1: Byte)
    requires 0xC2 <= b0 < 0xE0 && Tail(b1)
    ensures var c := Join2(b0, b1); 0x80 <= c < 0x800 && 0xC0 + c / 0x40 == b0 && 0x80 + c % 0x40 == b1
  {
  }

  lemma ThreeBytes(b0: Byte, b1: Byte, b2: Byte)
    requires 0xE0 <= b0 < 0xF0 && Tail(b1) && Tail(b2)
    ensures var c := Join3(b0, b1, b2);
      c < 0x1_0000 && 0xE0 + c / 0x1000 == b0 && 0x80 + c / 0x40 % 0x40 == b1 && 0x80 + c % 0x40 == b2
  {
    var c, high := Join3(b0, b1, b2), (b0 - 0xE0) * 0x40 + (b1 - 0x80);
    assert c == high * 0x40 + (b2 - 0x80);
    assert c / 0x40 == high && c / 0x1000 == high / 0x40;
  }

  lemma FourBytes(b0: Byte, b1: Byte, b2: Byte, b3: Byte)
    requires 0xF0 <= b0 < 0xF5 && Tail(b1) && Tail(b2) && Tail(b3)
    ensures var c := Join4(b0, b1, b2, b3);
      0xF0 + c / 0x4_0000 == b0 && 0x80 + c / 0x1000 % 0x40 == b1 && 0x80 + c / 0x40 % 0x40 == b2 && 0x80 + c % 0x40 == b3
  {
    var c, high := Join4(b0, b1, b2, b3), (b0 - 0xF0) * 0x1000 + (b1 - 0x80) * 0x40 + (b2 - 0x80);
    var top := (b0 - 0xF0) * 0x40 + (b1 - 0x80);
    assert c == high * 0x40 + (b3 - 0x80) && high == top * 0x40 + (b2 - 0x80);
    assert c / 0x40 == high && high / 0x40 == top;
    assert c / 0x1000 == high / 0x40 && c / 0x4_0000 == top / 0x40;
  }

  /** And strict decoding accepts nothing else: what it reads encodes back to the
      same bytes, so no character has a second form. */
  lemma {:induction false} EncodeDecode(b: seq<Byte>)
    requires DecodeStrict(b).Some?
    ensures Encode(DecodeStrict(b).value) == b
    decreases |b|
  {
    if b != [] {
      var c, rest := FirstDecoded(b);
      EncodeDecode(rest);
      EncodeCons(c, DecodeStrict(rest).value);
    }
  }

  lemma FirstDecoded(b: seq<Byte>) returns (c: Scalar, rest: seq<Byte>)
    requires b != [] && DecodeStrict(b).Some?
    ensures |rest| < |b| && b == EncodeOne(c) + rest
    ensures DecodeStrict(rest).Some? && DecodeStrict(b).value == [c] + DecodeStrict(rest).value
  {
    var one := DecodeOne(b).value;
    c, rest := one.0, b[one.1..];
    EncodeDecodeOne(b);
    assert b == b[..one.1] + rest;
  }

  lemma EncodeCons(c: Scalar, s: seq<Scalar>)
    ensures Encode([c] + s) == EncodeOne(c) + Encode(s)
  {
    assert ([c] + s)[1..] == s;
  }

  /** A character cut short decodes to nothing. */
  lemma {:induction false} CutCharacterVanishes(c: Scalar, n: nat)
    requires n < Width(c)
    ensures DecodeIgnore(EncodeOne(c)[..n]) == []
  {
    var b := EncodeOne(c)[..n];
    if n > 0 {
      assert DecodeOne(b).None?;
      TailsVanish(b[1..]);
    }
  }

  lemma {:induction false} TailsVanish(b: seq<Byte>)
    requires forall i :: 0 <= i < |b| ==> Tail(b[i])
    ensures DecodeIgnore(b) == []
  {
    if b != [] { TailsVanish(b[1..]); }
  }

  /** The longest prefix of s whose encoding fits in n bytes. */
  function Fit(s: seq<Scalar>, n: int): seq<Scalar> {
    if s == [] || Width(s[0]) > n then [] else [s[0]] + Fit(s[1..], n - Width(s[0]))
  }

  lemma {:induction false} FitIsLongest(s: seq<Scalar>, n: int, k: nat)
    requires k <= |s|
    ensures |Fit(s, n)| <= |s| && Fit(s, n) == s[..|Fit(s, n)|]
    ensures n >= 0 ==> Size(Fit(s, n)) <= n
    ensures Size(s[..k]) <= n ==> k <= |Fit(s, n)|
  {
    if s != [] {
      var n' := n - Width(s[0]);
      FitIsLongest(s[1..], n', if k > 0 then k - 1 else 0);
      if k > 0 { assert s[..k][1..] == s[1..][..k - 1]; }
    }
  }

  /** Cutting the encoding at n bytes and decoding what is whole leaves exactly
      the longest prefix that fits. */
  lemma {:induction false} CutDecodesToFit(s: seq<Scalar>, n: nat)
    requires n <= |Encode(s)|
    ensures DecodeIgnore(Encode(s)[..n]) == Fit(s, n)
  {
    if s != [] {
      var one := EncodeOne(s[0]);
      if n < |one| {
        assert Encode(s)[..n] == one[..n];
        CutCharacterVanishes(s[0], n);
      } else {
        var rest := Encode(s[1..])[..n - |one|];
        assert Encode(s)[..n] == one + rest;
        DecodeEncodeOne(s[0], rest);
        assert (one + rest)[|one|..] == rest;
        CutDecodesToFit(s[1..], n - |one|);
      }
    }
  }
}
