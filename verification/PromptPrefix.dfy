/** prefixWithinLimits (src/openai.ts): the longest whole-character prefix inside two limits. */
module PromptPrefix {
  import opened Utf16
  import opened PromptTokens

  /** The Unicode property Extended_Pictographic, left uninterpreted. */
  type Pictographs = nat -> bool

  /** The regular expression class \s, which unlike the estimator does not hold U+0085. */
  predicate IsJsSpace(c: nat) {
    IsPromptWhitespace(c) && c != 0x85
  }

  function ScanClass(c: nat, pictographic: Pictographs): Class {
    if IsJsSpace(c) then Blank
    else if c <= 0x7F then (if IsAsciiWord(c) then Word else Syntax)
    else if pictographic(c) then Emoji
    else Other
  }

  function HeadCounts(t: Text, pictographic: Pictographs): Counts
    requires t != []
  {
    Bump(None, ScanClass(FirstCodePoint(t), pictographic))
  }

  function ScanCounts(t: Text, pictographic: Pictographs): Counts
    decreases |t|
  {
    if t == [] then None else Plus(HeadCounts(t, pictographic), ScanCounts(t[Width(t)..], pictographic))
  }

  /** How many more code units the scan takes. */
  function Scan(rest: Text, counts: Counts, room: int, maxTokens: nat, pictographic: Pictographs): (taken: nat)
    ensures taken <= |rest|
    decreases |rest|
  {
    if rest == [] || Width(rest) > room then 0
    else
      var next := Plus(counts, HeadCounts(rest, pictographic));
      if Weight(next) > maxTokens then 0
      else Width(rest) + Scan(rest[Width(rest)..], next, room - Width(rest), maxTokens, pictographic)
  }

  function Prefix(value: Text, maxCharacters: nat, maxTokens: nat, pictographic: Pictographs): Text {
    if |value| <= maxCharacters && Estimate(value) <= maxTokens then value
    else value[..Scan(value, None, maxCharacters, maxTokens, pictographic)]
  }

  lemma {:induction false} ScanEnds(rest: Text, counts: Counts, room: int, maxTokens: nat, pictographic: Pictographs)
    requires rest == [] || Width(rest) > room
    ensures Scan(rest, counts, room, maxTokens, pictographic) == 0
  {
  }

  lemma {:induction false} ScanStep(rest: Text, counts: Counts, room: int, maxTokens: nat, pictographic: Pictographs)
    requires rest != [] && Width(rest) <= room
    ensures var next := Plus(counts, HeadCounts(rest, pictographic));
            var further := Scan(rest[Width(rest)..], next, room - Width(rest), maxTokens, pictographic);
            Scan(rest, counts, room, maxTokens, pictographic) == (if Weight(next) > maxTokens then 0 else Width(rest) + further)
  {
    hide Weight, HeadCounts;
  }

  lemma {:induction false} BumpIsPlus(counts: Counts, c: Class)
    ensures Bump(counts, c) == Plus(counts, Bump(None, c))
  {
  }

  method PrefixWithinLimits(value: Text, maxCharacters: nat, maxTokens: nat, pictographic: Pictographs) returns (prefix: Text)
    ensures prefix == Prefix(value, maxCharacters, maxTokens, pictographic)
  {
    hide Weight, ScanCounts, CountsOf, IsJsSpace, IsAsciiWord, FirstCodePoint, Scan;
    if |value| <= maxCharacters && Estimate(value) <= maxTokens {
      return value;
    }
    var end := 0;
    var counts := None;
    assert value[0..] == value;
    while end < |value|
      invariant 0 <= end <= |value|
      invariant end + Scan(value[end..], counts, maxCharacters - end, maxTokens, pictographic)
             == Scan(value, None, maxCharacters, maxTokens, pictographic)
    {
      var rest := value[end..];
      var nextEnd := end + Width(rest);
      if nextEnd > maxCharacters {
        ScanEnds(rest, counts, maxCharacters - end, maxTokens, pictographic);
        break;
      }
      ScanStep(rest, counts, maxCharacters - end, maxTokens, pictographic);
      var codePoint := FirstCodePoint(rest);
      ghost var before := counts;
      if !IsJsSpace(codePoint) {
        if codePoint <= 0x7F {
          if IsAsciiWord(codePoint) {
            counts := counts.(word := counts.word + 1);
          } else {
            counts := counts.(syntax := counts.syntax + 1);
          }
        } else if pictographic(codePoint) {
          counts := counts.(emoji := counts.emoji + 1);
        } else {
          counts := counts.(other := counts.other + 1);
        }
      }
      BumpIsPlus(before, ScanClass(codePoint, pictographic));
      assert counts == Plus(before, HeadCounts(rest, pictographic)) by { hide Plus; }
      if Weight(counts) > maxTokens {
        break;
      }
      assert rest[Width(rest)..] == value[nextEnd..];
      end := nextEnd;
    }
    if end == |value| {
      ScanEnds(value[end..], counts, maxCharacters - end, maxTokens, pictographic);
    }
    return value[..end];
  }

  // ---- what the scan finds ------------------------------------------------------------

  predicate Fits(t: Text, counts: Counts, room: int, maxTokens: nat, pictographic: Pictographs) {
    |t| <= room && Weight(Plus(counts, ScanCounts(t, pictographic))) <= maxTokens
  }

  lemma {:induction false} BoundaryAfterHead(t: Text, k: nat)
    requires t != [] && k <= |t| && IsBoundary(t, k) && k > 0
    ensures k >= Width(t) && IsBoundary(t[Width(t)..], k - Width(t))
  {
    var w := Width(t);
    assert !(k == 1 && w == 2);
    assert t[w..][k - w..] == t[k..];
    if k - w > 0 {
      assert t[w..][..k - w][k - w - 1] == t[k - 1] == t[..k][k - 1];
    }
  }

  lemma {:induction false} BoundaryBeyondHead(t: Text, k: nat)
    requires t != [] && Width(t) <= k <= |t| && IsBoundary(t[Width(t)..], k - Width(t))
    ensures IsBoundary(t, k)
  {
    var w := Width(t);
    assert t[w..][k - w..] == t[k..];
    assert t[..k][k - 1] == t[k - 1];
    if k - w > 0 {
      assert t[w..][..k - w][k - w - 1] == t[k - 1];
    }
  }

  lemma {:induction false} CountsOfPrefix(t: Text, k: nat, pictographic: Pictographs)
    requires t != [] && Width(t) <= k <= |t|
    ensures ScanCounts(t[..k], pictographic)
         == Plus(HeadCounts(t, pictographic), ScanCounts(t[Width(t)..][..k - Width(t)], pictographic))
  {
    hide ScanClass, FirstCodePoint, Bump;
    var w := Width(t);
    assert FirstCodePoint(t[..k]) == FirstCodePoint(t) && Width(t[..k]) == w by {
      WidthOfPrefix(t, k);
    }
    assert t[..k][w..] == t[w..][..k - w];
  }

  lemma {:induction false} WidthOfPrefix(t: Text, k: nat)
    requires t != [] && Width(t) <= k <= |t|
    ensures t[..k] != [] && Width(t[..k]) == Width(t) && FirstCodePoint(t[..k]) == FirstCodePoint(t)
  {
    assert t[..k][0] == t[0];
    if k >= 2 {
      assert t[..k][1] == t[1];
    }
  }

  lemma {:induction false} WeightGrows(a: Counts, b: Counts, c: Counts)
    ensures Weight(a) <= Weight(Plus(a, b)) <= Weight(Plus(a, Plus(b, c)))
  {
  }

  lemma {:induction false} FitsBeyondHead(rest: Text, counts: Counts, room: int, maxTokens: nat, pictographic: Pictographs, k: nat)
    requires rest != [] && Width(rest) <= k <= |rest|
    ensures var w, next := Width(rest), Plus(counts, HeadCounts(rest, pictographic));
            Fits(rest[..k], counts, room, maxTokens, pictographic) == Fits(rest[w..][..k - w], next, room - w, maxTokens, pictographic)
  {
    hide Weight, HeadCounts, ScanCounts, Width;
    var w := Width(rest);
    CountsOfPrefix(rest, k, pictographic);
    PlusRegroups(counts, HeadCounts(rest, pictographic), ScanCounts(rest[w..][..k - w], pictographic));
  }

  lemma {:induction false} FitsNeedsRoom(t: Text, counts: Counts, room: int, maxTokens: nat, pictographic: Pictographs)
    requires Fits(t, counts, room, maxTokens, pictographic)
    ensures 0 <= room && Weight(counts) <= maxTokens
  {
    WeightGrows(counts, ScanCounts(t, pictographic), None);
  }

  /** The scan stops at a character boundary and inside both limits. */
  lemma {:induction false} ScanFits(rest: Text, counts: Counts, room: int, maxTokens: nat, pictographic: Pictographs)
    requires room >= 0 && Weight(counts) <= maxTokens
    ensures var end := Scan(rest, counts, room, maxTokens, pictographic);
            IsBoundary(rest, end) && Fits(rest[..end], counts, room, maxTokens, pictographic)
    decreases |rest|
  {
    hide Weight, HeadCounts, IsBoundary, Fits, ScanCounts;
    var end := Scan(rest, counts, room, maxTokens, pictographic);
    if end == 0 {
      NothingFits(rest, counts, room, maxTokens, pictographic);
    } else {
      var w := Width(rest);
      ScanFits(rest[w..], Plus(counts, HeadCounts(rest, pictographic)), room - w, maxTokens, pictographic);
      BoundaryBeyondHead(rest, end);
      FitsBeyondHead(rest, counts, room, maxTokens, pictographic, end);
    }
  }

  lemma {:induction false} NothingFits(t: Text, counts: Counts, room: int, maxTokens: nat, pictographic: Pictographs)
    requires room >= 0 && Weight(counts) <= maxTokens
    ensures IsBoundary(t, 0) && Fits(t[..0], counts, room, maxTokens, pictographic)
  {
    assert t[..0] == [];
    assert Plus(counts, None) == counts;
  }

  /** Every longer prefix that ends at a character boundary breaks one of the limits. */
  lemma {:induction false} ScanIsLongest(rest: Text, counts: Counts, room: int, maxTokens: nat, pictographic: Pictographs, k: nat)
    requires Scan(rest, counts, room, maxTokens, pictographic) < k <= |rest| && IsBoundary(rest, k)
    ensures !Fits(rest[..k], counts, room, maxTokens, pictographic)
    decreases |rest|
  {
    hide Weight, HeadCounts, IsBoundary, Fits, ScanCounts;
    var w, next := Width(rest), Plus(counts, HeadCounts(rest, pictographic));
    BoundaryAfterHead(rest, k);
    FitsBeyondHead(rest, counts, room, maxTokens, pictographic, k);
    if Fits(rest[..k], counts, room, maxTokens, pictographic) {
      FitsNeedsRoom(rest[w..][..k - w], next, room - w, maxTokens, pictographic);
      ScanIsLongest(rest[w..], next, room - w, maxTokens, pictographic, k - w);
    }
  }

  // ---- two ways of counting -----------------------------------------------------------

  /**
   The scan tells emoji by another rule than the estimator, so what it lets
   through may be estimated at more than the limit, but never at more than twice.
   */
  lemma {:induction false} EstimateAtMostDoubles(t: Text, pictographic: Pictographs)
    ensures AtMostDouble(CountsOf(t), ScanCounts(t, pictographic))
    decreases |t|
  {
    hide CountsOf, ScanCounts, ClassOf, HeadCounts, FirstCodePoint;
    if t == [] {
      NothingCountsNothing(pictographic);
    } else {
      CountsHead(t);
      ScanHead(t, pictographic);
      HeadAtMostDoubles(FirstCodePoint(t), pictographic);
      HeadIsClass(t, pictographic);
      EstimateAtMostDoubles(t[Width(t)..], pictographic);
    }
  }

  predicate AtMostDouble(e: Counts, p: Counts) {
    e.word == p.word && e.syntax == p.syntax && e.other + 2 * e.emoji <= 2 * (p.other + p.emoji)
  }

  lemma {:induction false} NothingCountsNothing(pictographic: Pictographs)
    ensures CountsOf([]) == None && ScanCounts([], pictographic) == None
  {
  }

  lemma {:induction false} ScanHead(t: Text, pictographic: Pictographs)
    requires t != []
    ensures ScanCounts(t, pictographic) == Plus(HeadCounts(t, pictographic), ScanCounts(t[Width(t)..], pictographic))
  {
    hide HeadCounts, FirstCodePoint;
  }

  lemma {:induction false} HeadIsClass(t: Text, pictographic: Pictographs)
    requires t != []
    ensures HeadCounts(t, pictographic) == Bump(None, ScanClass(FirstCodePoint(t), pictographic))
  {
    hide FirstCodePoint, ScanClass, Bump;
  }

  lemma {:induction false} HeadAtMostDoubles(c: nat, pictographic: Pictographs)
    ensures AtMostDouble(Bump(None, ClassOf(c)), Bump(None, ScanClass(c, pictographic)))
  {
    hide IsPromptEmoji, IsAsciiWord;
  }

  lemma {:induction false} WeightAtMostDoubles(e: Counts, p: Counts)
    requires AtMostDouble(e, p)
    ensures Weight(e) <= 2 * Weight(p)
  {
  }

  lemma {:induction false} PrefixWithinDouble(value: Text, maxCharacters: nat, maxTokens: nat, pictographic: Pictographs)
    ensures var prefix := Prefix(value, maxCharacters, maxTokens, pictographic);
            prefix <= value && |prefix| <= maxCharacters && Estimate(prefix) <= 2 * maxTokens
  {
    hide CountsOf, ScanCounts, IsBoundary, Scan, Weight, AtMostDouble;
    var prefix := Prefix(value, maxCharacters, maxTokens, pictographic);
    assert Weight(None) == 0 by { NoWeight(); }
    ScanFits(value, None, maxCharacters, maxTokens, pictographic);
    EstimateAtMostDoubles(prefix, pictographic);
    WeightAtMostDoubles(CountsOf(prefix), ScanCounts(prefix, pictographic));
    assert Plus(None, ScanCounts(prefix, pictographic)) == ScanCounts(prefix, pictographic);
  }

  lemma {:induction false} OneCharacter(t: Text, pictographic: Pictographs)
    requires |t| == 1
    ensures CountsOf(t) == Bump(None, ClassOf(t[0]))
    ensures Scan(t, None, 1, 1, pictographic) == if Weight(HeadCounts(t, pictographic)) > 1 then 0 else 1
  {
    hide ClassOf, Bump, Weight, HeadCounts, CountsOf, Scan;
    assert t[1..] == [];
    CountsHead(t);
    NothingCountsNothing(pictographic);
    ScanStep(t, None, 1, 1, pictographic);
    assert Plus(None, HeadCounts(t, pictographic)) == HeadCounts(t, pictographic);
    ScanEnds(t[1..], HeadCounts(t, pictographic), 0, 1, pictographic);
  }

  /** Twice is reached: a character of the estimator's emoji blocks that is no pictograph. */
  lemma {:induction false} DoubleIsReached(mark: Text, pictographic: Pictographs)
    requires |mark| == 1 && IsPromptEmoji(mark[0]) && !IsPromptWhitespace(mark[0]) && !pictographic(mark[0])
    ensures Prefix(mark, 1, 1, pictographic) == mark && Estimate(mark) == 2
  {
    hide CountsOf, Scan;
    OneCharacter(mark, pictographic);
    assert mark[..1] == mark;
  }

  lemma {:induction false} NoWeight()
    ensures Weight(None) == 0
  {
  }
}
