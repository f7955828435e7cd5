/** JavaScript strings: sequences of UTF-16 code units, surrogates paired or not. */
module Utf16 {
  type CodeUnit = u: nat | u < 0x1_0000
  type Text = seq<CodeUnit>

  predicate IsHigh(u: CodeUnit) {
    0xD800 <= u <= 0xDBFF
  }

  predicate IsLow(u: CodeUnit) {
    0xDC00 <= u <= 0xDFFF
  }

  /** How many code units the first character of `for (const character of t)` takes. */
  function Width(t: Text): nat
    requires t != []
  {
    if |t| >= 2 && IsHigh(t[0]) && IsLow(t[1]) then 2 else 1
  }

  /** codePointAt(0); a lone surrogate stands for itself. */
  function FirstCodePoint(t: Text): nat
    requires t != []
  {
    if Width(t) == 2 then 0x1_0000 + (t[0] as int - 0xD800) * 0x400 + (t[1] as int - 0xDC00) else t[0]
  }

  /** Cutting between a and b does not cut through a surrogate pair. */
  predicate Separate(a: Text, b: Text) {
    !(a != [] && b != [] && IsHigh(a[|a| - 1]) && IsLow(b[0]))
  }

  /** Position k is not inside a surrogate pair. */
  predicate IsBoundary(t: Text, k: nat)
    requires k <= |t|
  {
    Separate(t[..k], t[k..])
  }

  lemma {:induction false} WidthOfHead(a: Text, b: Text)
    requires a != [] && Separate(a, b)
    ensures Width(a + b) == Width(a) && FirstCodePoint(a + b) == FirstCodePoint(a)
  {
  }

  /** An ASCII literal as code units. */
  function Ascii(s: string): (t: Text)
    requires forall i :: 0 <= i < |s| ==> s[i] < 128 as char
    ensures |t| == |s| && forall i :: 0 <= i < |s| ==> t[i] == s[i] as int
  {
    seq(|s|, i requires 0 <= i < |s| => s[i] as int)
  }
}
