/** compactTextSuffix (src/openai.ts:6247-6263): a binary search for the longest suffix inside a token limit. */
module CompactSuffix {
  import opened Utf16
  import opened PromptTokens

  predicate SuffixFits(value: Text, start: nat, maximumTokens: int)
    requires start <= |value|
  {
    Estimate(value[start..]) <= maximumTokens
  }

  /** The first start, not before `from`, whose suffix is within the limit. */
  function FirstFit(value: Text, from: nat, maximumTokens: nat): (start: nat)
    requires from <= |value|
    ensures from <= start <= |value|
    decreases |value| - from
  {
    if from == |value| || SuffixFits(value, from, maximumTokens) then from else FirstFit(value, from + 1, maximumTokens)
  }

  /** A suffix that starts with a low surrogate gives that unit up. */
  function SafeStart(value: Text, start: nat): (safe: nat)
    requires start <= |value|
    ensures start <= safe <= |value|
  {
    if 0 < start < |value| && IsLow(value[start]) then start + 1 else start
  }

  function Compact(value: Text, maximumTokens: int): Text {
    if maximumTokens <= 0 then [] else value[SafeStart(value, FirstFit(value, 0, maximumTokens))..]
  }

  method CompactTextSuffix(value: Text, maximumTokens: int) returns (suffix: Text)
    ensures suffix == Compact(value, maximumTokens)
  {
    hide Estimate, FirstFit;
    if maximumTokens <= 0 {
      return [];
    }
    assert value[0..] == value;
    if Estimate(value) <= maximumTokens {
      FirstFitIsLeast(value, 0, maximumTokens, 0);
      return value;
    }
    var low, high := 0, |value|;
    assert value[|value|..] == [];
    EmptyIsFree();
    while low < high
      invariant 0 <= low <= high <= |value|
      invariant SuffixFits(value, |value| - low, maximumTokens)
      invariant high < |value| ==> !SuffixFits(value, |value| - high - 1, maximumTokens)
    {
      var middle := (low + high + 1) / 2;
      var start := |value| - middle;
      if Estimate(value[start..]) <= maximumTokens {
        low := middle;
      } else {
        high := middle - 1;
      }
    }
    var start := |value| - low;
    SearchedStart(value, start, maximumTokens);
    if start > 0 && start < |value| && IsLow(value[start]) {
      start := start + 1;
    }
    return value[start..];
  }

  lemma {:induction false} SearchedStart(value: Text, start: nat, maximumTokens: nat)
    requires start <= |value| && SuffixFits(value, start, maximumTokens)
    requires start > 0 ==> !SuffixFits(value, start - 1, maximumTokens)
    ensures FirstFit(value, 0, maximumTokens) == start
  {
    hide Estimate, FirstFit;
    FirstFitIsLeast(value, 0, maximumTokens, start);
    if FirstFit(value, 0, maximumTokens) < start {
      EstimateGrowsBySuffix(value, FirstFit(value, 0, maximumTokens), start - 1);
    }
  }

  /** FirstFit fits, and it is no later than any other start that does. */
  lemma {:induction false} FirstFitIsLeast(value: Text, from: nat, maximumTokens: nat, start: nat)
    requires from <= start <= |value|
    ensures SuffixFits(value, FirstFit(value, from, maximumTokens), maximumTokens)
    ensures SuffixFits(value, start, maximumTokens) ==> FirstFit(value, from, maximumTokens) <= start
    decreases |value| - from
  {
    hide Estimate;
    if from == |value| {
      assert value[from..] == [];
      EmptyIsFree();
    } else if !SuffixFits(value, from, maximumTokens) {
      FirstFitIsLeast(value, from + 1, maximumTokens, if start == from then from + 1 else start);
    }
  }

  /** No earlier start that leaves surrogate pairs whole is within the limit. */
  predicate IsLongest(value: Text, start: nat, maximumTokens: nat)
    requires start <= |value|
  {
    forall k :: 0 <= k < start && IsBoundary(value, k) ==> !SuffixFits(value, k, maximumTokens)
  }

  /** The search stopped before a low surrogate that no high surrogate precedes. */
  predicate StopsAtLoneSurrogate(value: Text, maximumTokens: nat) {
    var start := FirstFit(value, 0, maximumTokens);
    0 < start < |value| && IsLow(value[start]) && !IsHigh(value[start - 1])
  }

  lemma {:induction false} BoundaryMeans(t: Text, k: nat)
    requires k <= |t|
    ensures IsBoundary(t, k) <==> !(0 < k < |t| && IsHigh(t[k - 1]) && IsLow(t[k]))
  {
    if 0 < k < |t| {
      assert t[..k][k - 1] == t[k - 1] && t[k..][0] == t[k];
    }
  }

  /**
   The result never exceeds the limit nor splits a surrogate pair, and it is the
   longest such suffix except when the search stops at a lone low surrogate,
   which is then dropped although it fitted.
   */
  lemma {:induction false} LongestSafeSuffix(value: Text, maximumTokens: nat)
    requires maximumTokens > 0
    ensures var start := SafeStart(value, FirstFit(value, 0, maximumTokens));
            && Compact(value, maximumTokens) == value[start..]
            && SuffixFits(value, start, maximumTokens)
            && IsBoundary(value, start)
            && (IsLongest(value, start, maximumTokens) <==> !StopsAtLoneSurrogate(value, maximumTokens))
  {
    hide Estimate, FirstFit, IsBoundary;
    var fit := FirstFit(value, 0, maximumTokens);
    var start := SafeStart(value, fit);
    FirstFitIsLeast(value, 0, maximumTokens, fit);
    EstimateGrowsBySuffix(value, fit, start);
    BoundaryMeans(value, start);
    BoundaryMeans(value, fit);
    forall k | 0 <= k < fit
      ensures !SuffixFits(value, k, maximumTokens)
    {
      FirstFitIsLeast(value, 0, maximumTokens, k);
    }
  }

  /** Text without lone surrogates always keeps its longest safe suffix. */
  lemma {:induction false} PairedTextKeepsLongest(value: Text, maximumTokens: nat)
    requires maximumTokens > 0
    requires forall i :: 0 <= i < |value| && IsLow(value[i]) ==> i > 0 && IsHigh(value[i - 1])
    ensures IsLongest(value, SafeStart(value, FirstFit(value, 0, maximumTokens)), maximumTokens)
  {
    hide Estimate, FirstFit, IsLongest;
    LongestSafeSuffix(value, maximumTokens);
  }

  /** One character and then a lone low surrogate, under a limit of one token: the surrogate fits and is lost. */
  lemma {:induction false} LoneSurrogateIsLost(value: Text)
    requires |value| == 2 && value[0] == 0x4E00 && value[1] == 0xDC00
    ensures Compact(value, 1) == [] && Estimate(value[1..]) == 1 && IsBoundary(value, 1)
  {
    hide Estimate, IsBoundary, FirstFit;
    TwoTokens(value);
    assert value[0..] == value;
    FirstFitIsLeast(value, 0, 1, 1);
    assert !SuffixFits(value, 0, 1);
    assert value[2..] == [];
    BoundaryMeans(value, 1);
  }

  lemma {:induction false} TwoTokens(value: Text)
    requires |value| == 2 && value[0] == 0x4E00 && value[1] == 0xDC00
    ensures Estimate(value) == 2 && Estimate(value[1..]) == 1
  {
    hide CountsOf, Weight;
    var tail := value[1..];
    OtherUnit(value);
    OtherUnit(tail);
    assert tail[1..] == [];
    NoCounts();
    OtherWeight(CountsOf(value));
    OtherWeight(CountsOf(tail));
  }

  lemma {:induction false} OtherWeight(n: Counts)
    requires n.word == 0 && n.syntax == 0 && n.emoji == 0
    ensures Weight(n) == n.other
  {
  }

  lemma {:induction false} OtherUnit(t: Text)
    requires t != [] && (t[0] == 0xDC00 || t[0] == 0x4E00)
    ensures CountsOf(t) == Plus(Counts(0, 0, 1, 0), CountsOf(t[1..]))
  {
    hide CountsOf;
    CountsHead(t);
    assert ClassOf(FirstCodePoint(t)) == Other;
  }

  lemma {:induction false} NoCounts()
    ensures CountsOf([]) == None
  {
  }
}
