/** boundedToolResultForPrompt (src/openai.ts:2196-2217): the self-referential compaction marker. */
module ToolResult {
  import opened Utf16

  // ---- decimal numerals -----------------------------------------------------------------

  function Decimal(n: nat): (t: Text)
    ensures |t| > 0
  {
    if n < 10 then [0x30 + n] else Decimal(n / 10) + [0x30 + n % 10]
  }

  /** The number that decimal digits write. */
  function ValueOf(digits: Text): int {
    if digits == [] then 0 else 10 * ValueOf(digits[..|digits| - 1]) + (digits[|digits| - 1] as int - 0x30)
  }

  /** A printed count reads as that count, without a leading zero. */
  lemma {:induction false} DecimalReadsBack(n: nat)
    ensures ValueOf(Decimal(n)) == n && forall i :: 0 <= i < |Decimal(n)| ==> 0x30 <= Decimal(n)[i] <= 0x39
    ensures n > 0 ==> Decimal(n)[0] != 0x30
  {
    if n < 10 {
      assert ValueOf([]) == 0;
    } else {
      DecimalReadsBack(n / 10);
      assert Decimal(n)[..|Decimal(n)| - 1] == Decimal(n / 10);
    }
  }

  function Digits(n: nat): nat {
    |Decimal(n)|
  }

  lemma {:induction false} DigitsTimesTen(n: nat)
    requires n > 0
    ensures Digits(10 * n) == Digits(n) + 1
  {
    assert 10 * n / 10 == n;
  }

  lemma {:induction false} DigitsMonotone(m: nat, n: nat)
    requires m <= n
    ensures Digits(m) <= Digits(n)
  {
    if n >= 10 && m >= 10 {
      DigitsMonotone(m / 10, n / 10);
    }
  }

  lemma {:induction false} DigitsWithinTenfold(m: nat, n: nat)
    requires 0 < m && n <= 10 * m
    ensures Digits(n) <= Digits(m) + 1
  {
    DigitsTimesTen(m);
    DigitsMonotone(n, 10 * m);
  }

  function Pow10(k: nat): nat {
    if k == 0 then 1 else 10 * Pow10(k - 1)
  }

  lemma {:induction false} DigitsBelowPower(n: nat, k: nat)
    requires k > 0 && n < Pow10(k)
    ensures Digits(n) <= k
  {
    if n >= 10 {
      assert k > 1 by { assert Pow10(1) == 10 * Pow10(0); }
      DigitsBelowPower(n / 10, k - 1);
    }
  }

  // ---- the marker -------------------------------------------------------------------------

  /** The eight hexadecimal digits of fnv1a32; which digits they are does not matter here. */
  type Digest = t: Text | |t| == 8 witness seq(8, i => 0x30)

  function Opening(): Text {
    Ascii("\n[M365 TOOL RESULT ") + Ascii("COMPACTED: omitted=")
  }

  function Marker(omitted: nat, original: nat, digest: Digest): Text {
    Opening() + Decimal(omitted) + Ascii("; original=") + Decimal(original) + Ascii("; fnv1a32=") + digest + Ascii("]\n")
  }

  /** All of the marker but its omitted count. */
  function Frame(original: nat): nat {
    |Opening()| + 31 + Digits(original)
  }

  lemma {:induction false} MarkerLength(omitted: nat, original: nat, digest: Digest)
    ensures |Marker(omitted, original, digest)| == Frame(original) + Digits(omitted) && Frame(original) >= 69
  {
    hide Decimal;
  }

  function CeilTwoThirds(n: nat): nat {
    (2 * n + 2) / 3
  }

  /** Head, marker and tail of exactly `limit` code units, with `omitted` printed in the marker. */
  function Compacted(text: Text, limit: nat, omitted: nat, digest: Digest): Text
    requires |Marker(omitted, |text|, digest)| <= limit < |text|
  {
    var available := limit - |Marker(omitted, |text|, digest)|;
    var head := CeilTwoThirds(available);
    text[..head] + Marker(omitted, |text|, digest) + text[|text| - (available - head)..]
  }

  // ---- the fixed point --------------------------------------------------------------------

  /** The count a marker that prints `omitted` would call for. */
  function NextOmitted(original: nat, limit: nat, omitted: nat): int {
    original - limit + Frame(original) + Digits(omitted)
  }

  /** The counts the loop tries, first to last. */
  function Tried(original: nat, limit: nat, iteration: nat): nat
    requires limit < original
  {
    if iteration == 0 then original else NextOmitted(original, limit, Tried(original, limit, iteration - 1))
  }

  predicate MarkerFits(original: nat, limit: nat) {
    Frame(original) + Digits(original) < limit
  }

  /** The tried counts never grow, and none falls below a count the marker could honestly print. */
  lemma {:induction false} TriedDescends(original: nat, limit: nat, iteration: nat)
    requires limit < original && MarkerFits(original, limit)
    ensures 71 <= Tried(original, limit, iteration + 1) <= Tried(original, limit, iteration) <= original
  {
    hide Decimal;
    if iteration > 0 {
      TriedDescends(original, limit, iteration - 1);
      DigitsMonotone(Tried(original, limit, iteration), Tried(original, limit, iteration - 1));
    }
    MarkerLength(original, original, seq(8, i => 0x30));
  }

  lemma {:induction false} TriedAboveFixedPoints(original: nat, limit: nat, iteration: nat, fixed: nat)
    requires limit < original && fixed <= original && NextOmitted(original, limit, fixed) == fixed
    ensures fixed <= Tried(original, limit, iteration)
  {
    hide Decimal;
    if iteration > 0 {
      TriedAboveFixedPoints(original, limit, iteration - 1, fixed);
      DigitsMonotone(fixed, Tried(original, limit, iteration - 1));
    }
  }

  /** The fourth iteration always confirms the third count, for texts of up to sixteen-digit length. */
  lemma {:induction false} SettlesByFour(original: nat, limit: nat)
    requires limit < original < Pow10(16) && MarkerFits(original, limit)
    ensures Tried(original, limit, 4) == Tried(original, limit, 3)
  {
    hide Decimal, Pow10;
    var o1, o2, o3 := Tried(original, limit, 1), Tried(original, limit, 2), Tried(original, limit, 3);
    TriedDescends(original, limit, 0);
    TriedDescends(original, limit, 1);
    TriedDescends(original, limit, 2);
    DigitsBelowPower(original, 16);
    assert o1 - o2 == Digits(original) - Digits(o1) && o2 - o3 == Digits(o1) - Digits(o2) by { FirstSteps(original, limit); }
    DigitsWithinTenfold(o2, o1);
    DigitsWithinTenfold(o3, o1);
    DigitsMonotone(o2, o1);
    DigitsMonotone(o3, o2);
    assert o3 - Tried(original, limit, 4) == Digits(o2) - Digits(o3) by { FourthStep(original, limit); }
  }

  lemma {:induction false} FirstSteps(original: nat, limit: nat)
    requires limit < original
    ensures var o1, o2, o3 := Tried(original, limit, 1), Tried(original, limit, 2), Tried(original, limit, 3);
            o1 - o2 == Digits(original) - Digits(o1) && o2 - o3 == Digits(o1) - Digits(o2)
  {
    hide Decimal;
    assert Tried(original, limit, 0) == original;
  }

  lemma {:induction false} FourthStep(original: nat, limit: nat)
    requires limit < original
    ensures var o2, o3 := Tried(original, limit, 2), Tried(original, limit, 3);
            o3 - Tried(original, limit, 4) == Digits(o2) - Digits(o3)
  {
    hide Decimal;
  }

  lemma {:induction false} SettledStays(original: nat, limit: nat, i: nat, j: nat)
    requires limit < original && i <= j && Tried(original, limit, i + 1) == Tried(original, limit, i)
    ensures Tried(original, limit, j) == Tried(original, limit, i)
    decreases j
  {
    hide Decimal;
    if i < j {
      SettledStays(original, limit, i, j - 1);
    }
  }

  // ---- the program ------------------------------------------------------------------------

  /** The result for an original too long for the limit. */
  function Bounded(text: Text, limit: nat, digest: Digest): Text
    requires 0 < limit < |text|
  {
    var original := |text|;
    if !MarkerFits(original, limit) then
      Marker(original, original, digest)[..Min(limit, |Marker(original, original, digest)|)]
    else
      Settled(text, limit, digest)
  }

  function Min(a: nat, b: nat): nat {
    if a < b then a else b
  }

  function Settled(text: Text, limit: nat, digest: Digest): Text
    requires limit < |text| && MarkerFits(|text|, limit)
  {
    (TriedDescends(|text|, limit, 2);
     MarkerLength(Tried(|text|, limit, 3), |text|, digest);
     DigitsMonotone(Tried(|text|, limit, 3), |text|);
     Compacted(text, limit, Tried(|text|, limit, 3), digest))
  }

  /** The loop leaves in its first, second, third or fourth iteration; the fallback behind it is dead. */
  method BoundedToolResultForPrompt(text: Text, limit: int, digest: Digest) returns (result: Text)
    requires |text| < Pow10(16)
    ensures limit <= 0 ==> result == []
    ensures |text| <= limit ==> result == text
    ensures 0 < limit < |text| ==> result == Bounded(text, limit, digest)
  {
    hide Decimal, Pow10, Opening, Marker, Tried, Settled, Frame;
    if limit <= 0 {
      return [];
    }
    if |text| <= limit {
      return text;
    }
    var omitted := |text|;
    var iteration := 0;
    TriedFirst(|text|, limit);
    while iteration < 8
      invariant 0 <= iteration <= 3
      invariant omitted == Tried(|text|, limit, iteration)
      invariant iteration > 0 ==> MarkerFits(|text|, limit)
      invariant forall i :: 0 <= i < iteration ==> Tried(|text|, limit, i + 1) != Tried(|text|, limit, i)
    {
      var marker := Marker(omitted, |text|, digest);
      MarkerLength(omitted, |text|, digest);
      if |marker| >= limit {
        EarlyCut(|text|, limit, iteration);
        assert |marker| >= limit && marker == Marker(|text|, |text|, digest);
        return marker[..limit];
      }
      var available := limit - |marker|;
      var headLength := CeilTwoThirds(available);
      var tailLength := available - headLength;
      var nextOmitted := |text| - headLength - tailLength;
      TriedNext(|text|, limit, iteration);
      FirstMarkerFits(|text|, limit, iteration);
      if nextOmitted == omitted {
        SettledAt(text, limit, digest, iteration);
        assert text[|text| - 0..] == [];
        return text[..headLength] + marker + (if tailLength > 0 then text[|text| - tailLength..] else []);
      }
      SettlesByFour(|text|, limit);
      omitted := nextOmitted;
      iteration := iteration + 1;
    }
    assert false;
  }

  lemma {:induction false} TriedFirst(original: nat, limit: nat)
    requires limit < original
    ensures Tried(original, limit, 0) == original
  {
  }

  lemma {:induction false} TriedNext(original: nat, limit: nat, iteration: nat)
    requires limit < original
    ensures Tried(original, limit, iteration + 1)
         == original - limit + Frame(original) + Digits(Tried(original, limit, iteration))
  {
    hide Decimal;
  }

  lemma {:induction false} FirstMarkerFits(original: nat, limit: nat, iteration: nat)
    requires limit < original && Frame(original) + Digits(Tried(original, limit, iteration)) < limit
    requires iteration > 0 ==> MarkerFits(original, limit)
    ensures MarkerFits(original, limit)
  {
    hide Decimal;
  }

  lemma {:induction false} SettledAt(text: Text, limit: nat, digest: Digest, iteration: nat)
    requires 0 < limit < |text| && MarkerFits(|text|, limit) && iteration <= 3
    requires Tried(|text|, limit, iteration + 1) == Tried(|text|, limit, iteration)
    ensures var marker := Marker(Tried(|text|, limit, iteration), |text|, digest);
            && |marker| <= limit
            && var head := CeilTwoThirds(limit - |marker|);
               Bounded(text, limit, digest) == text[..head] + marker + text[|text| - (limit - |marker| - head)..]
  {
    hide Decimal, Marker, CeilTwoThirds, Tried, Frame;
    SettledStays(|text|, limit, iteration, 3);
    TriedDescends(|text|, limit, 2);
    MarkerLength(Tried(|text|, limit, 3), |text|, digest);
    DigitsMonotone(Tried(|text|, limit, 3), |text|);
  }

  /** Only the first marker can be too long: later ones print smaller counts. */
  lemma {:induction false} EarlyCut(original: nat, limit: nat, iteration: nat)
    requires limit < original && Frame(original) + Digits(Tried(original, limit, iteration)) >= limit
    requires iteration > 0 ==> MarkerFits(original, limit)
    ensures iteration == 0 && !MarkerFits(original, limit)
  {
    hide Decimal;
    if iteration > 0 {
      TriedDescends(original, limit, iteration - 1);
      DigitsMonotone(Tried(original, limit, iteration), original);
    }
  }

  // ---- what the result is -----------------------------------------------------------------

  /** result shows a head and a tail of text, and prints in between exactly how many code units it leaves out. */
  predicate IsHonestCompaction(result: Text, text: Text, digest: Digest, head: nat, tail: nat) {
    && head + tail <= |text|
    && result == text[..head] + Marker(|text| - head - tail, |text|, digest) + text[|text| - tail..]
  }

  /**
   A compacted result is exactly `limit` long; when the marker fits it is an
   honest compaction with two thirds of the kept text in front.
   */
  lemma {:induction false} CompactionIsHonest(text: Text, limit: nat, digest: Digest)
    requires 0 < limit < |text| < Pow10(16)
    ensures |Bounded(text, limit, digest)| == limit
    ensures !MarkerFits(|text|, limit) ==> Bounded(text, limit, digest) <= Marker(|text|, |text|, digest)
    ensures MarkerFits(|text|, limit) ==>
              var shown := |text| - Tried(|text|, limit, 3);
              && shown >= 0
              && IsHonestCompaction(Bounded(text, limit, digest), text, digest, CeilTwoThirds(shown), shown - CeilTwoThirds(shown))
              && 2 * shown <= 3 * CeilTwoThirds(shown) < 2 * shown + 3
  {
    hide Decimal, Pow10, Opening, Marker;
    MarkerLength(|text|, |text|, digest);
    if MarkerFits(|text|, limit) {
      var omitted := Tried(|text|, limit, 3);
      TriedDescends(|text|, limit, 2);
      TriedDescends(|text|, limit, 3);
      SettlesByFour(|text|, limit);
      MarkerLength(omitted, |text|, digest);
      DigitsMonotone(omitted, |text|);
      assert NextOmitted(|text|, limit, omitted) == omitted by { Tried4(|text|, limit); }
      assert |text| - omitted == limit - |Marker(omitted, |text|, digest)|;
    }
  }

  lemma {:induction false} Tried4(original: nat, limit: nat)
    requires limit < original
    ensures Tried(original, limit, 4) == NextOmitted(original, limit, Tried(original, limit, 3))
  {
    hide Decimal;
  }

  /** Of the honest compactions of the same length, the loop finds the one that omits most. */
  lemma {:induction false} OmitsMost(result: Text, text: Text, digest: Digest, head: nat, tail: nat)
    requires IsHonestCompaction(result, text, digest, head, tail) && |result| < |text|
    ensures |text| - head - tail <= Tried(|text|, |result|, 3)
  {
    hide Decimal, Opening, Marker;
    var fixed := |text| - head - tail;
    MarkerLength(fixed, |text|, digest);
    TriedAboveFixedPoints(|text|, |result|, 3, fixed);
  }
}
