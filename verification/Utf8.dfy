/** UTF-8 (RFC 3629, section 3) as TextEncoder writes it and a fatal TextDecoder reads it. */
module Utf8 {
  import opened Utf16

  type Byte = b: nat | b < 256
  type Scalar = c: nat | c < 0x11_0000 && !(0xD800 <= c < 0xE000)

  datatype Decoded = Bad | One(scalar: Scalar, width: nat)
  datatype Reading = Fatal | Read(scalars: seq<Scalar>)

  /** The scalar values of a string; TextEncoder writes U+FFFD for a lone surrogate. */
  function Scalars(t: Text): seq<Scalar>
    decreases |t|
  {
    if t == [] then [] else [FirstScalar(t)] + Scalars(t[Width(t)..])
  }

  function FirstScalar(t: Text): Scalar
    requires t != []
  {
    if Width(t) == 1 && 0xD800 <= t[0] < 0xE000 then 0xFFFD else FirstCodePoint(t)
  }

  function Units(c: Scalar): (u: Text)
    ensures u != []
  {
    if c < 0x1_0000 then [c] else [0xD800 + (c - 0x1_0000) / 0x400, 0xDC00 + (c - 0x1_0000) % 0x400]
  }

  function ToText(s: seq<Scalar>): Text {
    if s == [] then [] else Units(s[0]) + ToText(s[1..])
  }

  function Length(c: Scalar): nat {
    if c < 0x80 then 1 else if c < 0x800 then 2 else if c < 0x1_0000 then 3 else 4
  }

  function Size(s: seq<Scalar>): nat {
    if s == [] then 0 else Length(s[0]) + Size(s[1..])
  }

  function EncodeScalar(c: Scalar): (b: seq<Byte>)
    ensures |b| == Length(c)
  {
    if c < 0x80 then [c]
    else if c < 0x800 then [0xC0 + c / 64, 0x80 + c % 64]
    else if c < 0x1_0000 then [0xE0 + c / 4096, 0x80 + c / 64 % 64, 0x80 + c % 64]
    else [0xF0 + c / 0x4_0000, 0x80 + c / 4096 % 64, 0x80 + c / 64 % 64, 0x80 + c % 64]
  }

  function Encode(s: seq<Scalar>): (b: seq<Byte>)
    ensures |b| == Size(s)
  {
    if s == [] then [] else EncodeScalar(s[0]) + Encode(s[1..])
  }

  /** utf8Bytes */
  function Utf8Bytes(t: Text): nat {
    Size(Scalars(t))
  }

  predicate IsContinuation(b: Byte) {
    0x80 <= b < 0xC0
  }

  /** The six bits a continuation byte carries. */
  function Payload(b: Byte): nat
    requires IsContinuation(b)
  {
    b - 0x80
  }

  function DecodeFirst(b: seq<Byte>): Decoded
    requires b != []
  {
    if b[0] < 0x80 then One(b[0], 1)
    else if 0xC2 <= b[0] < 0xE0 then
      if |b| >= 2 && IsContinuation(b[1]) then One((b[0] as int - 0xC0) * 64 + Payload(b[1]), 2) else Bad
    else if 0xE0 <= b[0] < 0xF0 then
      if |b| >= 3 && IsContinuation(b[1]) && IsContinuation(b[2]) then
        Checked((b[0] as int - 0xE0) * 4096 + Payload(b[1]) * 64 + Payload(b[2]), 0x800, 3)
      else Bad
    else if 0xF0 <= b[0] < 0xF5 then
      if |b| >= 4 && IsContinuation(b[1]) && IsContinuation(b[2]) && IsContinuation(b[3]) then
        Checked((b[0] as int - 0xF0) * 0x4_0000 + Payload(b[1]) * 4096 + Payload(b[2]) * 64 + Payload(b[3]), 0x1_0000, 4)
      else Bad
    else Bad
  }

  /** No surrogates, no overlong forms, nothing past U+10FFFF. */
  function Checked(c: nat, least: nat, width: nat): Decoded {
    if least <= c < 0x11_0000 && !(0xD800 <= c < 0xE000) then One(c, width) else Bad
  }

  /** The fatal decoder, before it drops a byte order mark. */
  function Decode(b: seq<Byte>): Reading
    decreases |b|
  {
    if b == [] then Read([])
    else
      match DecodeFirst(b)
      case Bad => Fatal
      case One(c, width) =>
        if width == 0 || width > |b| then Fatal
        else
          match Decode(b[width..])
          case Fatal => Fatal
          case Read(rest) => Read([c] + rest)
  }

  // ---- strings ------------------------------------------------------------------------

  lemma {:induction false} FirstUnits(c: Scalar, t: Text)
    ensures Width(Units(c) + t) == |Units(c)| && FirstScalar(Units(c) + t) == c
  {
  }

  lemma {:induction false} ScalarsOfText(s: seq<Scalar>)
    ensures Scalars(ToText(s)) == s
  {
    hide Units, FirstScalar, Width;
    if s != [] {
      var rest := ToText(s[1..]);
      FirstUnits(s[0], rest);
      assert (Units(s[0]) + rest)[|Units(s[0])|..] == rest;
      ScalarsOfText(s[1..]);
    }
  }

  lemma {:induction false} ScalarsSplit(a: Text, b: Text)
    requires Separate(a, b)
    ensures Scalars(a + b) == Scalars(a) + Scalars(b)
    decreases |a|
  {
    hide FirstScalar;
    if a == [] {
      assert a + b == b;
    } else {
      WidthOfHead(a, b);
      assert FirstScalar(a + b) == FirstScalar(a) by { ScalarOfHead(a, b); }
      assert (a + b)[Width(a)..] == a[Width(a)..] + b;
      ScalarsSplit(a[Width(a)..], b);
    }
  }

  lemma {:induction false} ScalarOfHead(a: Text, b: Text)
    requires a != [] && Separate(a, b)
    ensures FirstScalar(a + b) == FirstScalar(a)
  {
    WidthOfHead(a, b);
  }

  lemma {:induction false} SizeSplit(a: seq<Scalar>, b: seq<Scalar>)
    ensures Size(a + b) == Size(a) + Size(b)
  {
    hide Length;
    if a == [] {
      assert a + b == b;
    } else {
      assert (a + b)[1..] == a[1..] + b;
      SizeSplit(a[1..], b);
    }
  }

  lemma {:induction false} BytesSplit(a: Text, b: Text)
    requires Separate(a, b)
    ensures Utf8Bytes(a + b) == Utf8Bytes(a) + Utf8Bytes(b)
  {
    hide Scalars, Size;
    ScalarsSplit(a, b);
    SizeSplit(Scalars(a), Scalars(b));
  }

  // ---- round trip ---------------------------------------------------------------------

  lemma {:induction false} DecodeFirstOfEncoding(c: Scalar, rest: seq<Byte>)
    ensures DecodeFirst(EncodeScalar(c) + rest) == One(c, Length(c))
  {
    if c >= 0x1_0000 {
      FourBytes(c, rest);
    } else if c >= 0x800 {
      ThreeBytes(c, rest);
    }
  }

  lemma {:induction false} ThreeBytes(c: Scalar, rest: seq<Byte>)
    requires 0x800 <= c < 0x1_0000
    ensures DecodeFirst(EncodeScalar(c) + rest) == One(c, 3)
  {
    assert c == c / 4096 * 4096 + c / 64 % 64 * 64 + c % 64;
  }

  lemma {:induction false} FourBytes(c: Scalar, rest: seq<Byte>)
    requires c >= 0x1_0000
    ensures DecodeFirst(EncodeScalar(c) + rest) == One(c, 4)
  {
    assert c == c / 0x4_0000 * 0x4_0000 + c / 4096 % 64 * 4096 + c / 64 % 64 * 64 + c % 64;
  }

  lemma {:induction false} TruncationIsBad(c: Scalar, p: nat)
    requires 0 < p < Length(c)
    ensures DecodeFirst(EncodeScalar(c)[..p]) == Bad
  {
    var b := EncodeScalar(c)[..p];
    assert b[0] == EncodeScalar(c)[0];
  }

  lemma {:induction false} EncodingShape(c: Scalar, i: nat)
    requires i < Length(c)
    ensures IsContinuation(EncodeScalar(c)[i]) <==> i > 0
  {
  }

  /** p is the offset of a whole number of leading characters. */
  predicate IsOffset(s: seq<Scalar>, p: nat) {
    p == 0 || (s != [] && p >= Length(s[0]) && IsOffset(s[1..], p - Length(s[0])))
  }

  function IndexAt(s: seq<Scalar>, p: nat): (k: nat)
    requires IsOffset(s, p)
    ensures k <= |s|
  {
    if p == 0 then 0 else 1 + IndexAt(s[1..], p - Length(s[0]))
  }

  lemma {:induction false} OffsetOfIndex(s: seq<Scalar>, k: nat)
    requires k <= |s|
    ensures IsOffset(s, Size(s[..k])) && IndexAt(s, Size(s[..k])) == k && Size(s[..k]) + Size(s[k..]) == Size(s)
  {
    assert s == s[..k] + s[k..];
    SizeSplit(s[..k], s[k..]);
    if k > 0 {
      assert s[..k][1..] == s[1..][..k - 1];
      OffsetOfIndex(s[1..], k - 1);
      LengthIsPositive(s[0]);
    }
  }

  lemma {:induction false} LengthIsPositive(c: Scalar)
    ensures 1 <= Length(c) <= 4
  {
  }

  lemma {:induction false} IndexOfOffset(s: seq<Scalar>, p: nat)
    requires IsOffset(s, p)
    ensures Size(s[..IndexAt(s, p)]) == p
  {
    hide Length;
    var k := IndexAt(s, p);
    if p == 0 {
      assert s[..0] == [];
    } else {
      IndexOfOffset(s[1..], p - Length(s[0]));
      assert s[..k][1..] == s[1..][..k - 1];
    }
  }

  /** A byte begins a character exactly when it is no continuation byte. */
  lemma {:induction false} BytesShowOffsets(s: seq<Scalar>, p: nat)
    requires p < Size(s)
    ensures IsContinuation(Encode(s)[p]) <==> !IsOffset(s, p)
  {
    hide EncodeScalar, Length, IsContinuation;
    var w := Length(s[0]);
    if p < w {
      EncodingShape(s[0], p);
      assert Encode(s)[p] == EncodeScalar(s[0])[p];
    } else {
      BytesShowOffsets(s[1..], p - w);
      assert Encode(s)[p] == Encode(s[1..])[p - w];
      LengthIsPositive(s[0]);
    }
  }

  /** The fatal decoder accepts a prefix of an encoding exactly when it ends between characters. */
  lemma {:induction false} DecodePrefix(s: seq<Scalar>, p: nat)
    requires p <= Size(s)
    ensures Decode(Encode(s)[..p]) == if IsOffset(s, p) then Read(s[..IndexAt(s, p)]) else Fatal
  {
    hide EncodeScalar, Length, DecodeFirst;
    var b := Encode(s)[..p];
    if p > 0 {
      var c, w := s[0], Length(s[0]);
      LengthIsPositive(c);
      if p < w {
        assert b == EncodeScalar(c)[..p];
        TruncationIsBad(c, p);
      } else {
        assert b == EncodeScalar(c) + Encode(s[1..])[..p - w];
        assert b[w..] == Encode(s[1..])[..p - w];
        DecodeFirstOfEncoding(c, Encode(s[1..])[..p - w]);
        DecodePrefix(s[1..], p - w);
        if IsOffset(s, p) {
          assert s[..IndexAt(s, p)] == [c] + s[1..][..IndexAt(s[1..], p - w)];
        }
      }
    }
  }

  lemma {:induction false} RoundTrip(s: seq<Scalar>)
    ensures Decode(Encode(s)) == Read(s)
  {
    hide Encode, Decode;
    OffsetOfIndex(s, |s|);
    assert s[..|s|] == s && Encode(s)[..Size(s)] == Encode(s);
    DecodePrefix(s, Size(s));
  }

  /** Dropping whole leading characters from an encoding leaves the encoding of the rest. */
  lemma {:induction false} EncodeDrop(s: seq<Scalar>, k: nat)
    requires k <= |s|
    ensures Size(s[..k]) <= Size(s) && Encode(s)[Size(s[..k])..] == Encode(s[k..])
  {
    hide EncodeScalar, Length;
    if k > 0 {
      assert s[..k][1..] == s[1..][..k - 1];
      EncodeDrop(s[1..], k - 1);
      assert s[1..][k - 1..] == s[k..];
    } else {
      assert s[0..] == s;
    }
  }
}
