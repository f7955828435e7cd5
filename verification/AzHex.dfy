/** decodeAZHEXString and decodeAZHEXValue (src/chathub.ts:417-489): the Markdown-safe text codec. */
module AzHex {
  import opened Utf16

  datatype Option<T> = None | Some(value: T)

  const ESCAPE: CodeUnit := 0x5A
  const ESCAPE_END: CodeUnit := 0x58

  predicate IsHex(u: CodeUnit) {
    0x30 <= u <= 0x39 || 0x41 <= u <= 0x46
  }

  function HexDigit(n: nat): (u: CodeUnit)
    requires n < 16
    ensures IsHex(u) && HexValueOf(u) == n
  {
    if n < 10 then 0x30 + n else 0x41 + n - 10
  }

  function HexValueOf(u: CodeUnit): nat {
    if !IsHex(u) then 0 else if u <= 0x39 then u - 0x30 else u - 0x41 + 10
  }

  /** [A-Ya-z0-9] or any unit outside ASCII. */
  predicate IsLiteral(u: CodeUnit) {
    u > 0x7F || 0x41 <= u <= 0x59 || 0x61 <= u <= 0x7A || 0x30 <= u <= 0x39
  }

  // ---- the language -------------------------------------------------------------------------

  predicate IsShort(w: Text) {
    |w| == 4 && w[0] == ESCAPE && IsHex(w[1]) && IsHex(w[2]) && w[3] == ESCAPE_END
  }

  function ShortValue(w: Text): CodeUnit
    requires IsShort(w)
  {
    HexValueOf(w[1]) * 16 + HexValueOf(w[2])
  }

  predicate IsLong(w: Text) {
    |w| == 5 && w[0] == ESCAPE && IsHex(w[1]) && IsHex(w[2]) && IsHex(w[3]) && IsHex(w[4])
  }

  function LongValue(w: Text): CodeUnit
    requires IsLong(w)
  {
    HexValueOf(w[1]) * 4096 + HexValueOf(w[2]) * 256 + HexValueOf(w[3]) * 16 + HexValueOf(w[4])
  }

  /** w is one of the spellings of u: itself, ZHHX, or ZHHHH outside ASCII. */
  predicate IsToken(w: Text, u: CodeUnit) {
    || (w == [u] && IsLiteral(u))
    || (IsShort(w) && ShortValue(w) == u)
    || (IsLong(w) && LongValue(w) == u && u > 0x7F)
  }

  /** t is a concatenation of spellings of the units of decoded. */
  predicate Spells(t: Text, decoded: Text)
    decreases |decoded|
  {
    if decoded == [] then t == []
    else exists k | 1 <= k <= |t| :: IsToken(t[..k], decoded[0]) && Spells(t[k..], decoded[1..])
  }

  lemma {:induction false} TokensArePrefixFree(w: Text, u: CodeUnit, longer: Text, v: CodeUnit)
    requires IsToken(w, u) && IsToken(longer, v) && w <= longer
    ensures w == longer && u == v
  {
    assert forall i :: 0 <= i < |w| ==> w[i] == longer[i];
  }

  // ---- the decoder --------------------------------------------------------------------------

  datatype Token = Malformed | Token(unit: CodeUnit, width: nat)

  /** The token at the head of t, tried in the order of the source. */
  function Head(t: Text): (token: Token)
    requires t != []
    ensures token.Token? ==> 1 <= token.width <= |t|
  {
    if t[0] == ESCAPE then
      if |t| >= 4 && IsShort(t[..4]) then Token.Token(ShortValue(t[..4]), 4)
      else if |t| >= 5 && IsLong(t[..5]) && LongValue(t[..5]) > 0x7F then Token.Token(LongValue(t[..5]), 5)
      else Malformed
    else if IsLiteral(t[0]) then Token.Token(t[0], 1)
    else Malformed
  }

  function Decode(t: Text): Option<Text>
    decreases |t|
  {
    if t == [] then Some([])
    else
      match Head(t)
      case Malformed => None
      case Token(unit, width) =>
        match Decode(t[width..])
        case None => None
        case Some(rest) => Some([unit] + rest)
  }

  function Slice(t: Text, from: nat, to: nat): Text {
    if from > |t| then [] else if to > |t| then t[from..] else if from <= to then t[from..to] else []
  }

  predicate AllHex(t: Text) {
    forall i :: 0 <= i < |t| ==> IsHex(t[i])
  }

  method DecodeAZHEXString(value: Text) returns (result: Option<Text>)
    ensures result == Decode(value)
  {
    hide Decode, Head, ShortValue, LongValue, HexValueOf, IsHex, HexDigit;
    var decoded: Text := [];
    var index := 0;
    assert value[0..] == value;
    assert Decode(value) == Prepended(decoded, Decode(value[0..])) by { PrependedNone(Decode(value)); }
    while index < |value|
      invariant 0 <= index <= |value|
      invariant Decode(value) == Prepended(decoded, Decode(value[index..]))
    {
      var rest := value[index..];
      var character := value[index];
      DecodeStep(rest);
      if character == ESCAPE {
        var hexadecimal := Slice(value, index + 1, index + 3);
        if |hexadecimal| == 2 && AllHex(hexadecimal) && index + 3 < |value| && value[index + 3] == ESCAPE_END {
          var unit := HexValueOf(hexadecimal[0]) * 16 + HexValueOf(hexadecimal[1]);
          ShortHead(rest);
          assert rest[4..] == value[index + 4..];
          PrependedMore(decoded, unit, Decode(value[index + 4..]));
          decoded := decoded + [unit];
          index := index + 3;
        } else {
          var unicode := Slice(value, index + 1, index + 5);
          if |unicode| == 4 && AllHex(unicode) {
            var unit := HexValueOf(unicode[0]) * 4096 + HexValueOf(unicode[1]) * 256 + HexValueOf(unicode[2]) * 16 + HexValueOf(unicode[3]);
            LongHead(rest);
            if unit <= 0x7F {
              return None;
            }
            assert rest[5..] == value[index + 5..];
            PrependedMore(decoded, unit, Decode(value[index + 5..]));
            decoded := decoded + [unit];
            index := index + 4;
          } else {
            NoHead(rest);
            return None;
          }
        }
      } else {
        LiteralHead(rest);
        if character <= 0x7F && !IsLiteral(character) {
          return None;
        }
        assert rest[1..] == value[index + 1..];
        PrependedMore(decoded, character, Decode(value[index + 1..]));
        decoded := decoded + [character];
      }
      index := index + 1;
    }
    assert value[index..] == [];
    NothingDecodes();
    assert decoded + [] == decoded;
    return Some(decoded);
  }

  function Prepended(front: Text, rest: Option<Text>): Option<Text> {
    match rest
    case None => None
    case Some(t) => Some(front + t)
  }

  lemma {:induction false} PrependedNone(rest: Option<Text>)
    ensures Prepended([], rest) == rest
  {
    if rest.Some? {
      assert [] + rest.value == rest.value;
    }
  }

  lemma {:induction false} PrependedMore(front: Text, unit: CodeUnit, rest: Option<Text>)
    ensures Prepended(front + [unit], rest) == Prepended(front, Prepended([unit], rest))
  {
    if rest.Some? {
      assert front + [unit] + rest.value == front + ([unit] + rest.value);
    }
  }

  lemma {:induction false} NothingDecodes()
    ensures Decode([]) == Some([])
  {
  }

  lemma {:induction false} DecodeStep(t: Text)
    requires t != []
    ensures Head(t).Malformed? ==> Decode(t) == None
    ensures Head(t).Token? ==> Decode(t) == Prepended([Head(t).unit], Decode(t[Head(t).width..]))
  {
    hide Head;
  }

  lemma {:induction false} ShortHead(t: Text)
    requires |t| >= 4 && t[0] == ESCAPE && IsHex(t[1]) && IsHex(t[2]) && t[3] == ESCAPE_END
    ensures Head(t) == Token.Token(HexValueOf(t[1]) * 16 + HexValueOf(t[2]), 4)
  {
  }

  lemma {:induction false} LongHead(t: Text)
    requires |t| >= 5 && t[0] == ESCAPE && IsHex(t[1]) && IsHex(t[2]) && IsHex(t[3]) && IsHex(t[4])
    ensures var unit := HexValueOf(t[1]) * 4096 + HexValueOf(t[2]) * 256 + HexValueOf(t[3]) * 16 + HexValueOf(t[4]);
            Head(t) == if unit <= 0x7F then Malformed else Token.Token(unit, 5)
  {
  }

  lemma {:induction false} NoHead(t: Text)
    requires t != [] && t[0] == ESCAPE
    requires !(|t| >= 4 && IsShort(t[..4])) && !(|t| >= 5 && IsLong(t[..5]))
    ensures Head(t) == Malformed
  {
  }

  lemma {:induction false} LiteralHead(t: Text)
    requires t != [] && t[0] != ESCAPE
    ensures Head(t) == if IsLiteral(t[0]) then Token.Token(t[0], 1) else Malformed
  {
  }

  // ---- decoder and language agree ---------------------------------------------------------------

  /** The head of t is the only token t can start with. */
  lemma {:induction false} HeadIsOnlyToken(t: Text, k: nat, u: CodeUnit)
    requires 1 <= k <= |t|
    ensures IsToken(t[..k], u) <==> Head(t) == Token.Token(u, k)
  {
    assert t[..k][0] == t[0];
    if k >= 4 {
      assert t[..4] == t[..k][..4];
    }
    if k >= 5 {
      assert t[..5] == t[..k][..5];
    }
  }

  /** The decoder accepts exactly the concatenations of tokens, and reads each in the one way there is. */
  lemma {:induction false} DecodesExactlyTheLanguage(t: Text, decoded: Text)
    ensures Decode(t) == Some(decoded) <==> Spells(t, decoded)
    decreases |t|
  {
    hide Head, IsToken;
    if t != [] {
      if decoded != [] {
        forall k | 1 <= k <= |t|
          ensures IsToken(t[..k], decoded[0]) <==> Head(t) == Token.Token(decoded[0], k)
        {
          HeadIsOnlyToken(t, k, decoded[0]);
        }
      }
      if Head(t).Token? {
        var width := Head(t).width;
        match Decode(t[width..])
        case None =>
          if decoded != [] {
            DecodesExactlyTheLanguage(t[width..], decoded[1..]);
          }
        case Some(rest) =>
          if decoded != [] {
            DecodesExactlyTheLanguage(t[width..], decoded[1..]);
            assert decoded == [decoded[0]] + decoded[1..];
            assert rest == ([Head(t).unit] + rest)[1..];
          }
      }
    }
  }

  // ---- the encoder --------------------------------------------------------------------------------

  function Short(u: CodeUnit): Text
    requires u <= 0xFF
  {
    [ESCAPE, HexDigit(u / 16), HexDigit(u % 16), ESCAPE_END]
  }

  function Long(u: CodeUnit): Text {
    [ESCAPE, HexDigit(u / 4096), HexDigit(u / 256 % 16), HexDigit(u / 16 % 16), HexDigit(u % 16)]
  }

  /** The documented encoder; a unit outside ASCII may stay literal or become ZHHHH, as `escaped` says for its place. */
  function Encode(t: Text, escaped: nat -> bool): Text {
    if t == [] then []
    else
      var u := t[0];
      (if u > 0x7F then (if escaped(|t|) then Long(u) else [u]) else if IsLiteral(u) then [u] else Short(u)) + Encode(t[1..], escaped)
  }

  lemma {:induction false} ShortIsToken(u: CodeUnit)
    requires u <= 0xFF
    ensures IsToken(Short(u), u)
  {
  }

  lemma {:induction false} LongIsToken(u: CodeUnit)
    requires u > 0x7F
    ensures IsToken(Long(u), u)
  {
    hide HexDigit, HexValueOf, IsHex;
    LongDigits(u);
    LongDigitsAdd(u);
  }

  lemma {:induction false} LongDigits(u: CodeUnit)
    ensures var w := Long(u);
            && IsLong(w)
            && HexValueOf(w[1]) == u / 4096 && HexValueOf(w[2]) == u / 256 % 16
            && HexValueOf(w[3]) == u / 16 % 16 && HexValueOf(w[4]) == u % 16
  {
  }

  lemma {:induction false} LongDigitsAdd(u: nat)
    requires u < 0x1_0000
    ensures u / 4096 * 4096 + u / 256 % 16 * 256 + u / 16 % 16 * 16 + u % 16 == u
  {
    assert u / 256 == u / 4096 * 16 + u / 256 % 16;
    assert u / 16 == u / 256 * 16 + u / 16 % 16;
  }

  lemma {:induction false} EncodingSpells(t: Text, escaped: nat -> bool)
    ensures Spells(Encode(t, escaped), t)
  {
    hide IsToken, Short, Long;
    if t != [] {
      var u := t[0];
      EncodingSpells(t[1..], escaped);
      var w := if u > 0x7F then (if escaped(|t|) then Long(u) else [u]) else if IsLiteral(u) then [u] else Short(u);
      assert |w| >= 1 && IsToken(w, u) by { FirstToken(u, escaped(|t|)); }
      var all := Encode(t, escaped);
      assert all == w + Encode(t[1..], escaped);
      assert all[..|w|] == w && all[|w|..] == Encode(t[1..], escaped);
    }
  }

  lemma {:induction false} FirstToken(u: CodeUnit, escaped: bool)
    ensures var w := if u > 0x7F then (if escaped then Long(u) else [u]) else if IsLiteral(u) then [u] else Short(u);
            |w| >= 1 && IsToken(w, u)
  {
    if u > 0x7F {
      LongIsToken(u);
    } else if !IsLiteral(u) {
      ShortIsToken(u);
    }
  }

  /** Decoding inverts encoding for every string of UTF-16 units, whichever units outside ASCII were escaped. */
  lemma {:induction false} RoundTrip(t: Text, escaped: nat -> bool)
    ensures Decode(Encode(t, escaped)) == Some(t)
  {
    EncodingSpells(t, escaped);
    DecodesExactlyTheLanguage(Encode(t, escaped), t);
  }
}
