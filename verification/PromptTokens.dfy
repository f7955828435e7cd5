/** The prompt token estimate (src/models.ts) and the laws the prompt builder relies on. */
module PromptTokens {
  import opened Utf16

  datatype Class = Blank | Word | Syntax | Other | Emoji

  /** PromptTokenClassCounts */
  datatype Counts = Counts(word: nat, syntax: nat, other: nat, emoji: nat)

  const None := Counts(0, 0, 0, 0)

  /** isPromptWhitespace */
  predicate IsPromptWhitespace(c: nat) {
    || 0x09 <= c <= 0x0D || c == 0x20 || c == 0x85 || c == 0xA0 || c == 0x1680
    || 0x2000 <= c <= 0x200A || c == 0x2028 || c == 0x2029 || c == 0x202F
    || c == 0x205F || c == 0x3000 || c == 0xFEFF
  }

  /** isPromptEmoji */
  predicate IsPromptEmoji(c: nat) {
    || 0x1F000 <= c <= 0x1FAFF || 0x1FC00 <= c <= 0x1FFFD
    || 0x2300 <= c <= 0x23FF || 0x2600 <= c <= 0x27BF || 0x2B00 <= c <= 0x2BFF
  }

  predicate IsAsciiWord(c: nat) {
    0x30 <= c <= 0x39 || 0x41 <= c <= 0x5A || 0x61 <= c <= 0x7A || c == 0x5F
  }

  function ClassOf(c: nat): Class {
    if IsPromptWhitespace(c) then Blank
    else if c <= 0x7F then (if IsAsciiWord(c) then Word else Syntax)
    else if IsPromptEmoji(c) then Emoji
    else Other
  }

  function Bump(n: Counts, c: Class): Counts {
    match c
    case Blank => n
    case Word => n.(word := n.word + 1)
    case Syntax => n.(syntax := n.syntax + 1)
    case Other => n.(other := n.other + 1)
    case Emoji => n.(emoji := n.emoji + 1)
  }

  function Plus(a: Counts, b: Counts): Counts {
    Counts(a.word + b.word, a.syntax + b.syntax, a.other + b.other, a.emoji + b.emoji)
  }

  /** The characters of a text by class. */
  function CountsOf(t: Text): Counts
    decreases |t|
  {
    if t == [] then None else Plus(Bump(None, ClassOf(FirstCodePoint(t))), CountsOf(t[Width(t)..]))
  }

  function CeilDiv(n: nat, d: nat): nat
    requires d > 0
  {
    (n + d - 1) / d
  }

  function Weight(n: Counts): nat {
    CeilDiv(n.word, 4) + CeilDiv(n.syntax, 2) + n.other + n.emoji * 2
  }

  /** estimatePromptTokens */
  function Estimate(t: Text): nat {
    Weight(CountsOf(t))
  }

  lemma {:induction false} CountsHead(t: Text)
    requires t != []
    ensures CountsOf(t) == Plus(Bump(None, ClassOf(FirstCodePoint(t))), CountsOf(t[Width(t)..]))
  {
    hide ClassOf, FirstCodePoint, Bump;
  }

  lemma {:induction false} CountsAt(value: Text, index: nat, counts: Counts)
    requires index < |value|
    requires Plus(counts, CountsOf(value[index..])) == CountsOf(value)
    ensures var rest := value[index..];
            Plus(Bump(counts, ClassOf(FirstCodePoint(rest))), CountsOf(value[index + Width(rest)..])) == CountsOf(value)
  {
    hide ClassOf, FirstCodePoint, CountsOf;
    var rest := value[index..];
    assert rest[Width(rest)..] == value[index + Width(rest)..];
    CountsHead(rest);
  }

  /** countPromptTokenClasses */
  method CountPromptTokenClasses(value: Text) returns (counts: Counts)
    ensures counts == CountsOf(value)
  {
    hide IsPromptWhitespace, IsPromptEmoji, IsAsciiWord, FirstCodePoint, CountsOf, Plus;
    counts := None;
    var index := 0;
    CountsFromNone(value);
    while index < |value|
      invariant 0 <= index <= |value|
      invariant Plus(counts, CountsOf(value[index..])) == CountsOf(value)
    {
      var rest := value[index..];
      var codePoint := FirstCodePoint(rest);
      CountsAt(value, index, counts);
      if !IsPromptWhitespace(codePoint) {
        if codePoint <= 0x7F {
          if IsAsciiWord(codePoint) {
            counts := counts.(word := counts.word + 1);
          } else {
            counts := counts.(syntax := counts.syntax + 1);
          }
        } else if IsPromptEmoji(codePoint) {
          counts := counts.(emoji := counts.emoji + 1);
        } else {
          counts := counts.(other := counts.other + 1);
        }
      }
      index := index + Width(rest);
    }
    CountsToNone(value, counts, index);
  }

  lemma {:induction false} CountsFromNone(value: Text)
    ensures Plus(None, CountsOf(value[0..])) == CountsOf(value)
  {
    hide CountsOf;
    assert value[0..] == value;
  }

  lemma {:induction false} CountsToNone(value: Text, counts: Counts, index: nat)
    requires index == |value| && Plus(counts, CountsOf(value[index..])) == CountsOf(value)
    ensures counts == CountsOf(value)
  {
    assert value[index..] == [];
  }

  // ---- laws -------------------------------------------------------------------------

  /** The head of a text is counted the same whatever follows its cut. */
  lemma {:induction false} CountsHeadOfJoin(a: Text, b: Text)
    requires a != [] && Separate(a, b)
    ensures CountsOf(a + b) == Plus(Bump(None, ClassOf(FirstCodePoint(a))), CountsOf(a[Width(a)..] + b))
    ensures Separate(a[Width(a)..], b)
  {
    hide CountsOf, ClassOf, FirstCodePoint, Bump;
    WidthOfHead(a, b);
    CountsHead(a + b);
    assert (a + b)[Width(a)..] == a[Width(a)..] + b;
  }

  lemma {:induction false} PlusRegroups(a: Counts, b: Counts, c: Counts)
    ensures Plus(a, Plus(b, c)) == Plus(Plus(a, b), c)
  {
  }

  lemma {:induction false} NothingCounts(t: Text)
    requires t == []
    ensures CountsOf(t) == None && forall n :: Plus(None, n) == n
  {
  }

  /** Counts add up wherever the cut does not go through a surrogate pair. */
  lemma {:induction false} CountsSplit(a: Text, b: Text)
    requires Separate(a, b)
    ensures CountsOf(a + b) == Plus(CountsOf(a), CountsOf(b))
    decreases |a|
  {
    hide CountsOf, ClassOf, FirstCodePoint, Bump, Plus, Separate, Width;
    if a == [] {
      assert a + b == b;
      NothingCounts(a);
    } else {
      WidthInside(a);
      CountsHead(a);
      CountsHeadOfJoin(a, b);
      CountsSplit(a[Width(a)..], b);
      PlusRegroups(Bump(None, ClassOf(FirstCodePoint(a))), CountsOf(a[Width(a)..]), CountsOf(b));
    }
  }

  lemma {:induction false} WidthInside(t: Text)
    requires t != []
    ensures 1 <= Width(t) <= |t|
  {
  }

  /** The rounding-up estimator never charges a whole more than its parts. */
  lemma {:induction false} WeightSubadditive(a: Counts, b: Counts)
    ensures Weight(Plus(a, b)) <= Weight(a) + Weight(b)
  {
  }

  lemma {:induction false} WeightMonotone(a: Counts, b: Counts)
    ensures Weight(a) <= Weight(Plus(a, b))
  {
  }

  lemma {:induction false} EstimateSubadditive(a: Text, b: Text)
    requires Separate(a, b)
    ensures Estimate(a + b) <= Estimate(a) + Estimate(b)
    ensures Estimate(a) <= Estimate(a + b) && Estimate(b) <= Estimate(a + b)
  {
    hide CountsOf, Separate;
    CountsSplit(a, b);
    WeightSubadditive(CountsOf(a), CountsOf(b));
  }

  /**
   Prepending one code unit never lowers the estimate, not even when it
   completes a surrogate pair with the unit behind it.
   */
  lemma {:induction false} EstimateGrowsByUnit(u: CodeUnit, t: Text)
    ensures Estimate(t) <= Estimate([u] + t)
  {
    var w := [u] + t;
    if Width(w) == 2 {
      assert w[2..] == t[1..];
      assert Width(t) == 1;
      assert ClassOf(FirstCodePoint(t)) == Other;
      assert ClassOf(FirstCodePoint(w)).Other? || ClassOf(FirstCodePoint(w)).Emoji?;
    } else {
      assert w[1..] == t;
      WeightMonotone(CountsOf(t), Bump(None, ClassOf(FirstCodePoint(w))));
    }
  }

  lemma {:induction false} EstimateGrowsBySuffix(t: Text, i: nat, j: nat)
    requires i <= j <= |t|
    ensures Estimate(t[j..]) <= Estimate(t[i..])
    decreases j - i
  {
    if i < j {
      assert t[i..] == [t[i]] + t[i + 1..];
      EstimateGrowsByUnit(t[i], t[i + 1..]);
      EstimateGrowsBySuffix(t, i + 1, j);
    }
  }

  lemma {:induction false} LineFeedIsFree(t: Text)
    requires t != [] && t[0] == 0x0A
    ensures CountsOf(t) == CountsOf(t[1..])
  {
    hide CountsOf;
    CountsHead(t);
  }

  lemma {:induction false} SeparatorIsFree()
    ensures Estimate([0x0A, 0x0A]) == 0
  {
    var sep: Text := [0x0A, 0x0A];
    LineFeedIsFree(sep);
    LineFeedIsFree(sep[1..]);
    assert CountsOf(sep[1..][1..]) == None;
  }

  const SEPARATOR: Text := [0x0A, 0x0A]

  /** pieces.join("\n\n") */
  function Joined(pieces: seq<Text>): Text {
    if pieces == [] then [] else if |pieces| == 1 then pieces[0] else pieces[0] + SEPARATOR + Joined(pieces[1..])
  }

  function TotalEstimate(pieces: seq<Text>): nat {
    if pieces == [] then 0 else Estimate(pieces[0]) + TotalEstimate(pieces[1..])
  }

  /** The separator is free and never merges surrogates, so joining costs at most the sum of the pieces. */
  lemma {:induction false} EstimateOfJoin(a: Text, b: Text)
    ensures Estimate(a + SEPARATOR + b) <= Estimate(a) + Estimate(b)
  {
    hide Estimate;
    SeparatorIsFree();
    EstimateSubadditive(a, SEPARATOR);
    EstimateSubadditive(a + SEPARATOR, b);
  }

  lemma {:induction false} JoinedEstimate(pieces: seq<Text>)
    ensures Estimate(Joined(pieces)) <= TotalEstimate(pieces)
  {
    hide Estimate;
    if pieces == [] {
      EmptyIsFree();
    } else if |pieces| == 1 {
      assert pieces[1..] == [];
    } else {
      JoinedEstimate(pieces[1..]);
      EstimateOfJoin(pieces[0], Joined(pieces[1..]));
    }
  }

  lemma {:induction false} EmptyIsFree()
    ensures Estimate([]) == 0
  {
  }

  lemma {:induction false} JoinedAppend(a: seq<Text>, b: seq<Text>)
    requires a != [] && b != []
    ensures Joined(a + b) == Joined(a) + SEPARATOR + Joined(b)
  {
    hide Estimate;
    if |a| == 1 {
      assert (a + b)[1..] == b;
    } else {
      JoinedAppend(a[1..], b);
      assert (a + b)[1..] == a[1..] + b;
      var head, mid, tail := a[0], Joined(a[1..]), Joined(b);
      assert head + SEPARATOR + (mid + SEPARATOR + tail) == (head + SEPARATOR + mid) + SEPARATOR + tail;
    }
  }
}
