/** Bounding the portable protocol tail by UTF-8 bytes (src/chat-session.ts:210-236). */
module PortableTail {
  import opened Utf16
  import opened Utf8

  const MAX_PORTABLE_SESSION_BYTES := 64 * 1024
  const MAX_CHAT_SESSION_STATE_BYTES := 192 * 1024
  const PERSISTED_STATE_METADATA_RESERVE_BYTES := 1024

  // ---- code-point suffix and prefix ---------------------------------------------------

  /** TextDecoder drops a leading byte order mark. */
  function WithoutMark(s: seq<Scalar>): seq<Scalar> {
    if s != [] && s[0] == 0xFEFF then s[1..] else s
  }

  /** How many leading characters have to go for the rest to fit. */
  function FirstKept(s: seq<Scalar>, maxBytes: nat): (k: nat)
    ensures k <= |s|
  {
    if Size(s) <= maxBytes then 0 else 1 + FirstKept(s[1..], maxBytes)
  }

  /** How many leading characters fit. */
  function LastKept(s: seq<Scalar>, maxBytes: nat): (k: nat)
    ensures k <= |s|
  {
    if s == [] || Length(s[0]) > maxBytes then 0 else 1 + LastKept(s[1..], maxBytes - Length(s[0]))
  }

  function Utf8Suffix(value: Text, maxBytes: int): Text {
    if maxBytes <= 0 || value == [] then []
    else if Utf8Bytes(value) <= maxBytes then value
    else ToText(WithoutMark(Scalars(value)[FirstKept(Scalars(value), maxBytes)..]))
  }

  function Utf8Prefix(value: Text, maxBytes: int): Text {
    if maxBytes <= 0 || value == [] then []
    else if Utf8Bytes(value) <= maxBytes then value
    else ToText(WithoutMark(Scalars(value)[..LastKept(Scalars(value), maxBytes)]))
  }

  lemma {:induction false} FirstKeptIsLeast(s: seq<Scalar>, maxBytes: nat, k: nat)
    requires k <= |s|
    ensures Size(s[FirstKept(s, maxBytes)..]) <= maxBytes
    ensures Size(s[k..]) <= maxBytes <==> k >= FirstKept(s, maxBytes)
  {
    hide Length;
    if Size(s) <= maxBytes {
      assert s[0..] == s;
      SizeSplit(s[..k], s[k..]);
      assert s == s[..k] + s[k..];
    } else {
      FirstKeptIsLeast(s[1..], maxBytes, if k == 0 then 0 else k - 1);
      assert s[1..][FirstKept(s[1..], maxBytes)..] == s[FirstKept(s, maxBytes)..];
      if k == 0 {
        assert s[0..] == s;
      } else {
        assert s[1..][k - 1..] == s[k..];
      }
    }
  }

  lemma {:induction false} LastKeptIsGreatest(s: seq<Scalar>, maxBytes: nat, k: nat)
    requires k <= |s|
    ensures Size(s[..LastKept(s, maxBytes)]) <= maxBytes
    ensures Size(s[..k]) <= maxBytes <==> k <= LastKept(s, maxBytes)
  {
    hide Length;
    var kept := LastKept(s, maxBytes);
    if kept == 0 {
      assert s[..0] == [];
      if k > 0 {
        assert s[..k][0] == s[0];
      }
    } else {
      LastKeptIsGreatest(s[1..], maxBytes - Length(s[0]), if k == 0 then 0 else k - 1);
      assert s[..kept][1..] == s[1..][..kept - 1];
      if k > 0 {
        assert s[..k][1..] == s[1..][..k - 1];
      } else {
        assert s[..0] == [];
      }
    }
  }

  /** boundedUtf8Suffix: skip the continuation bytes of the character the budget cuts. */
  method BoundedUtf8Suffix(value: Text, maxBytes: int) returns (suffix: Text)
    ensures suffix == Utf8Suffix(value, maxBytes)
  {
    hide Encode, Decode, Size, FirstKept, Scalars, ToText, IsContinuation, IsOffset;
    if maxBytes <= 0 || value == [] {
      return [];
    }
    ghost var s := Scalars(value);
    var encoded := Encode(Scalars(value));
    if |encoded| <= maxBytes {
      return value;
    }
    var start := |encoded| - maxBytes;
    ghost var k := FirstKept(s, maxBytes);
    FirstKeptIsLeast(s, maxBytes, k);
    OffsetOfIndex(s, k);
    while start < |encoded| && IsContinuation(encoded[start])
      invariant |encoded| - maxBytes <= start <= Size(s[..k]) <= |encoded|
    {
      BytesShowOffsets(s, start);
      start := start + 1;
    }
    ScanStopsAtFirstKept(s, maxBytes, start);
    EncodeDrop(s, k);
    RoundTrip(s[k..]);
    var reading := Decode(encoded[start..]);
    return ToText(WithoutMark(reading.scalars));
  }

  lemma {:induction false} ScanStopsAtFirstKept(s: seq<Scalar>, maxBytes: nat, start: nat)
    requires Size(s) - maxBytes <= start <= Size(s[..FirstKept(s, maxBytes)]) <= Size(s)
    requires start == Size(s) || !IsContinuation(Encode(s)[start])
    ensures start == Size(s[..FirstKept(s, maxBytes)])
  {
    hide Encode, Size, FirstKept, IsContinuation, IsOffset;
    if start < Size(s) {
      BytesShowOffsets(s, start);
      var j := IndexAt(s, start);
      IndexOfOffset(s, start);
      OffsetOfIndex(s, j);
      FirstKeptIsLeast(s, maxBytes, j);
      PrefixesGrow(s, FirstKept(s, maxBytes), j);
    }
  }

  lemma {:induction false} PrefixesGrow(s: seq<Scalar>, i: nat, j: nat)
    requires i <= j <= |s|
    ensures Size(s[..i]) <= Size(s[..j])
  {
    hide Size;
    assert s[..j] == s[..i] + s[i..j];
    SizeSplit(s[..i], s[i..j]);
  }

  /** boundedUtf8Prefix: back up until the decoder accepts. */
  method BoundedUtf8Prefix(value: Text, maxBytes: int) returns (prefix: Text)
    ensures prefix == Utf8Prefix(value, maxBytes)
  {
    hide Encode, Decode, Size, LastKept, Scalars, ToText, IsOffset;
    if maxBytes <= 0 || value == [] {
      return [];
    }
    ghost var s := Scalars(value);
    var encoded := Encode(Scalars(value));
    if |encoded| <= maxBytes {
      return value;
    }
    var end := maxBytes;
    ghost var k := LastKept(s, maxBytes);
    LastKeptIsGreatest(s, maxBytes, k);
    OffsetOfIndex(s, k);
    while end > 0
      invariant Size(s[..k]) <= end <= maxBytes
    {
      var reading := Decode(encoded[..end]);
      DecodePrefix(s, end);
      if reading.Read? {
        AcceptedIsLastKept(s, maxBytes, end);
        return ToText(WithoutMark(reading.scalars));
      }
      end := end - 1;
    }
    NothingKept(s, maxBytes);
    return [];
  }

  lemma {:induction false} AcceptedIsLastKept(s: seq<Scalar>, maxBytes: nat, end: nat)
    requires IsOffset(s, end) && Size(s[..LastKept(s, maxBytes)]) <= end <= maxBytes
    ensures IndexAt(s, end) == LastKept(s, maxBytes)
  {
    hide Size, LastKept, IsOffset;
    var j, k := IndexAt(s, end), LastKept(s, maxBytes);
    IndexOfOffset(s, end);
    LastKeptIsGreatest(s, maxBytes, j);
    PrefixesGrow(s, j, k);
    OffsetOfIndex(s, k);
  }

  lemma {:induction false} NothingKept(s: seq<Scalar>, maxBytes: nat)
    requires Size(s[..LastKept(s, maxBytes)]) == 0
    ensures ToText(WithoutMark(s[..LastKept(s, maxBytes)])) == []
  {
    var kept := s[..LastKept(s, maxBytes)];
    if kept != [] {
      LengthIsPositive(kept[0]);
    }
  }

  lemma {:induction false} MarkOnlyShrinks(s: seq<Scalar>)
    ensures Utf8Bytes(ToText(WithoutMark(s))) <= Size(s)
  {
    hide Length;
    ScalarsOfText(WithoutMark(s));
  }

  lemma {:induction false} SuffixAndPrefixFit(value: Text, maxBytes: nat)
    ensures Utf8Bytes(Utf8Suffix(value, maxBytes)) <= maxBytes && Utf8Bytes(Utf8Prefix(value, maxBytes)) <= maxBytes
  {
    hide Scalars, Size, ToText, WithoutMark, Utf8Bytes;
    var s := Scalars(value);
    NoBytes();
    FirstKeptIsLeast(s, maxBytes, 0);
    LastKeptIsGreatest(s, maxBytes, 0);
    MarkOnlyShrinks(s[FirstKept(s, maxBytes)..]);
    MarkOnlyShrinks(s[..LastKept(s, maxBytes)]);
  }

  lemma {:induction false} NoBytes()
    ensures Utf8Bytes([]) == 0
  {
  }
}
