/** When the closing size check of boundPrompt (src/openai.ts:1786) can fire, and what the history keeps. */
module PromptBounds {
  import opened Utf16
  import opened PromptTokens
  import opened PromptPrefix
  import opened PromptAssembly

  function Max(a: int, b: int): int {
    if a < b then b else a
  }

  /** The most the kept instruction layers can be charged under a token budget. */
  function Cap(tokenBudget: int): int {
    Max(2 * tokenBudget - 6, tokenBudget + 5)
  }

  lemma {:induction false} MarkerCost(n: nat)
    requires n <= |InstructionMarker()|
    ensures Estimate(InstructionMarker()) == 6 && Estimate(InstructionMarker()[..n]) <= 6
  {
    hide CountsOf;
    MarkerCounts();
    var m := InstructionMarker();
    assert m == m[..n] + m[n..];
    EstimateSubadditive(m[..n], m[n..]) by { InsideAscii(m, n); }
  }

  lemma {:induction false} InsideAscii(m: Text, n: nat)
    requires n <= |m| && forall i :: 0 <= i < |m| ==> m[i] < 0x80
    ensures Separate(m[..n], m[n..])
  {
  }

  function Cut(prefix: Text, characters: nat): Text {
    var cut := prefix + InstructionMarker();
    if |cut| <= characters then cut else cut[..characters]
  }

  lemma {:induction false} CutCost(prefix: Text, characters: nat, tokens: nat)
    requires |prefix| <= AtLeastZero(characters - 24)
    requires Estimate(prefix) <= 2 * AtLeastZero(tokens - 6)
    ensures |Cut(prefix, characters)| <= characters && Estimate(Cut(prefix, characters)) <= Max(6, 2 * tokens - 6)
  {
    hide Estimate, InstructionMarker, CountsOf;
    MarkerCounts();
    if characters < 24 {
      MarkerCost(characters);
      assert prefix + InstructionMarker() == InstructionMarker();
    } else {
      MarkerJoins(prefix);
    }
  }

  lemma {:induction false} LayerStaysInside(value: Text, characters: nat, tokens: nat, pictographic: Pictographs)
    requires tokens > 0
    ensures var layer := Layer(value, characters, tokens, pictographic);
            |layer| <= characters && Estimate(layer) <= Max(6, 2 * tokens - 6)
  {
    hide Estimate, Prefix, InstructionMarker, CountsOf;
    if !(|value| <= characters && Estimate(value) <= tokens) {
      MarkerCounts();
      MarkerCost(0);
      var prefix := Prefix(value, AtLeastZero(characters - 24), AtLeastZero(tokens - 6), pictographic);
      PrefixWithinDouble(value, AtLeastZero(characters - 24), AtLeastZero(tokens - 6), pictographic);
      CutCost(prefix, characters, tokens);
    }
  }

  lemma {:induction false} MarkerJoins(prefix: Text)
    ensures Estimate(prefix + InstructionMarker()) <= Estimate(prefix) + 6
  {
    hide Estimate;
    MarkerCost(0);
    assert InstructionMarker()[0] == 0x0A;
    EstimateSubadditive(prefix, InstructionMarker());
  }

  predicate Inside(kept: Kept, budget: int, tokenCap: int) {
    Measured(kept) && kept.length <= budget && kept.tokens <= tokenCap
  }

  lemma {:induction false} InstructionsStayInside(
      segments: seq<Segment>, kept: Kept, budget: int, tokenBudget: int, pictographic: Pictographs)
    requires Inside(kept, budget, Cap(tokenBudget))
    ensures Inside(KeepInstructions(segments, kept, budget, tokenBudget, pictographic), budget, Cap(tokenBudget))
    decreases |segments|
  {
    hide Estimate, Layer, Measured;
    if segments != [] {
      var front, last := segments[..|segments| - 1], segments[|segments| - 1];
      var characters := budget - kept.length - SeparatorBefore(kept);
      var tokens := tokenBudget - kept.tokens;
      if last.instruction && characters > 0 && tokens > 0 {
        var layer := Layer(last.value, characters, tokens, pictographic);
        LayerStaysInside(last.value, characters, tokens, pictographic);
        PrependMeasured(kept, layer);
        InstructionsStayInside(front, Prepend(kept, layer), budget, tokenBudget, pictographic);
      } else if !last.instruction {
        InstructionsStayInside(front, kept, budget, tokenBudget, pictographic);
      }
    }
  }

  /** The instruction text takes at most a third of the characters; its tokens may run over their third, by Cap. */
  lemma {:induction false} InstructionShare(segments: seq<Segment>, maxCharacters: nat, maxTokens: nat, pictographic: Pictographs)
    ensures var instruction := Joined(Layers(segments, maxCharacters, maxTokens, pictographic).parts);
            |instruction| <= maxCharacters / 3 && Estimate(instruction) <= Cap(maxTokens / 3)
  {
    hide Estimate, KeepInstructions;
    assert Measured(NOTHING);
    InstructionsStayInside(segments, NOTHING, maxCharacters / 3, maxTokens / 3, pictographic);
    JoinedEstimate(Layers(segments, maxCharacters, maxTokens, pictographic).parts);
  }

  lemma {:induction false} NoTokensNoInstructions(segments: seq<Segment>, kept: Kept, budget: int, tokenBudget: int, pictographic: Pictographs)
    requires kept.parts == [] && kept.tokens >= tokenBudget
    ensures KeepInstructions(segments, kept, budget, tokenBudget, pictographic) == kept
    decreases |segments|
  {
    hide Layer, Estimate;
    if segments != [] && !segments[|segments| - 1].instruction {
      NoTokensNoInstructions(segments[..|segments| - 1], kept, budget, tokenBudget, pictographic);
    }
  }

  // ---- history ------------------------------------------------------------------------

  predicate Held(kept: Kept, budget: int, tokenBudget: int) {
    Measured(kept) && kept.length <= budget && (kept.parts == [] || kept.tokens <= tokenBudget)
  }

  lemma {:induction false} HistoryStaysInside(segments: seq<Segment>, kept: Kept, budget: int, tokenBudget: int)
    requires Held(kept, budget, tokenBudget)
    ensures Held(KeepHistory(segments, kept, budget, tokenBudget).kept, budget, tokenBudget)
    decreases |segments|
  {
    hide Estimate, Measured;
    if segments != [] {
      var front, last := segments[..|segments| - 1], segments[|segments| - 1];
      if last.instruction {
        HistoryStaysInside(front, kept, budget, tokenBudget);
      } else if Fitting(kept, last.value, budget, tokenBudget) {
        PrependMeasured(kept, last.value);
        HistoryStaysInside(front, Prepend(kept, last.value), budget, tokenBudget);
      }
    }
  }

  lemma {:induction false} NewestStaysInside(segments: seq<Segment>, instruction: Text, maxCharacters: nat, maxTokens: nat)
    requires |instruction| <= maxCharacters / 3
    ensures var newest := Newest(segments, instruction, maxCharacters, maxTokens);
            && |Joined(newest)| <= HistoryBudget(instruction, maxCharacters)
            && (newest == [] || TotalEstimate(newest) <= maxTokens - Estimate(instruction))
  {
    hide Estimate, KeepHistory, ContextMarker, TotalEstimate, Joined;
    assert Measured(NOTHING) by { NothingIsMeasured(); }
    var budget, tokenBudget := HistoryBudget(instruction, maxCharacters), maxTokens - Estimate(instruction);
    HistoryStaysInside(segments, NOTHING, budget, tokenBudget);
    PrependMeasured(KeepHistory(segments, NOTHING, budget, tokenBudget).kept, ContextMarker());
  }

  lemma {:induction false} NothingIsMeasured()
    ensures Measured(NOTHING)
  {
  }

  lemma {:induction false} JoinedParts(instruction: Text, newest: seq<Text>)
    ensures Joined(Parts(instruction, newest))
         == if instruction == [] then Joined(newest)
            else if newest == [] then instruction else instruction + SEPARATOR + Joined(newest)
  {
    if instruction == [] {
      assert Parts(instruction, newest) == newest;
    } else if newest == [] {
      assert Parts(instruction, newest) == [instruction];
    } else {
      JoinedAppend([instruction], newest);
    }
  }

  /** The closing check fires exactly when the instruction layers alone overrun the token limit. */
  lemma {:induction false} ClosingCheckFiresOnInstructions(
      segments: seq<Segment>, maxCharacters: nat, maxTokens: nat, pictographic: Pictographs)
    ensures var instruction := Joined(Layers(segments, maxCharacters, maxTokens, pictographic).parts);
            Bounded(segments, maxCharacters, maxTokens, pictographic).CurrentTurnTooLarge? <==> Estimate(instruction) > maxTokens
  {
    hide Estimate, Layers, Newest, Joined;
    var instruction := Joined(Layers(segments, maxCharacters, maxTokens, pictographic).parts);
    var newest := Newest(segments, instruction, maxCharacters, maxTokens);
    InstructionShare(segments, maxCharacters, maxTokens, pictographic);
    NewestStaysInside(segments, instruction, maxCharacters, maxTokens);
    JoinedParts(instruction, newest);
    JoinedEstimate(newest);
    EstimateOfJoin(instruction, Joined(newest));
    EmptyIsFree();
  }

  /** Every limit outside 3..6 keeps the joined prompt inside both limits, for any segments. */
  lemma {:induction false} ClosingCheckIsQuiet(segments: seq<Segment>, maxCharacters: nat, maxTokens: nat, pictographic: Pictographs)
    requires maxTokens < 3 || maxTokens >= 7
    ensures Bounded(segments, maxCharacters, maxTokens, pictographic).Prompt?
  {
    hide Estimate, KeepInstructions, Bounded, Joined;
    ClosingCheckFiresOnInstructions(segments, maxCharacters, maxTokens, pictographic);
    InstructionShare(segments, maxCharacters, maxTokens, pictographic);
    if maxTokens < 3 {
      NoTokensNoInstructions(segments, NOTHING, maxCharacters / 3, maxTokens / 3, pictographic);
      assert Joined([]) == [] by { NothingIsMeasured(); }
      EmptyIsFree();
    }
    assert Bounded(segments, maxCharacters, maxTokens, pictographic).Prompt? by {
      OnlyTwoOutcomes(segments, maxCharacters, maxTokens, pictographic);
    }
  }

  lemma {:induction false} OnlyTwoOutcomes(segments: seq<Segment>, maxCharacters: nat, maxTokens: nat, pictographic: Pictographs)
    ensures !Bounded(segments, maxCharacters, maxTokens, pictographic).EmptyPrompt?
  {
  }

  // ---- the four limits at which the marker overruns -------------------------------------

  function Run(n: nat): Text {
    seq(n, i => 0x61)
  }

  lemma {:induction false} RunCost(n: nat)
    ensures CountsOf(Run(n)) == Counts(n, 0, 0, 0)
  {
    WordRun(Run(n));
  }

  lemma {:induction false} RunCannotStart(n: nat, maxCharacters: nat, pictographic: Pictographs)
    requires n > 0
    ensures Scan(Run(n), None, maxCharacters, 0, pictographic) == 0
  {
    hide Scan;
    var t := Run(n);
    assert t[0] == 0x61 && FirstCodePoint(t) == 0x61;
    assert HeadCounts(t, pictographic) == Counts(1, 0, 0, 0);
    if maxCharacters > 0 {
      ScanStep(t, None, maxCharacters, 0, pictographic);
    } else {
      ScanEnds(t, None, maxCharacters, 0, pictographic);
    }
  }

  lemma {:induction false} LongLayerIsMarker(characters: nat, tokens: nat, pictographic: Pictographs)
    requires characters >= 24 && 1 <= tokens <= 2
    ensures Layer(Run(12), characters, tokens, pictographic) == InstructionMarker()
  {
    hide CountsOf, InstructionMarker, Scan;
    RunCost(12);
    MarkerCounts();
    RunCannotStart(12, AtLeastZero(characters - 24), pictographic);
    assert Run(12)[..0] + InstructionMarker() == InstructionMarker();
  }

  lemma {:induction false} MarkerAloneOverruns(maxTokens: nat, pictographic: Pictographs)
    requires 3 <= maxTokens <= 5
    ensures Bounded([Segment(true, Run(12))], 300, maxTokens, pictographic).CurrentTurnTooLarge?
  {
    hide Estimate, InstructionMarker, Layer, Run, Bounded, Joined;
    var segments := [Segment(true, Run(12))];
    LongLayerIsMarker(100, 1, pictographic);
    var kept := Prepend(NOTHING, InstructionMarker());
    assert segments[..0] == [];
    assert KeepInstructions(segments[..0], kept, 100, 1, pictographic) == kept;
    assert Layers(segments, 300, maxTokens, pictographic) == kept;
    assert kept.parts == [InstructionMarker()];
    JoinedOne(InstructionMarker());
    MarkerCost(0);
    ClosingCheckFiresOnInstructions(segments, 300, maxTokens, pictographic);
  }

  lemma {:induction false} JoinedOne(t: Text)
    ensures Joined([t]) == t
  {
  }

  lemma {:induction false} CountsOfJoin(a: Text, b: Text)
    ensures CountsOf(a + SEPARATOR + b) == Plus(CountsOf(a), CountsOf(b))
    ensures Joined([a, b]) == a + SEPARATOR + b
  {
    hide CountsOf;
    assert [a, b][1..] == [b];
    JoinedOne(b);
    SeparatorCounts();
    assert Separate(a, SEPARATOR) && Separate(a + SEPARATOR, b);
    CountsSplit(a, SEPARATOR);
    CountsSplit(a + SEPARATOR, b);
  }

  lemma {:induction false} MarkerAndLayerCost()
    ensures Joined([InstructionMarker(), Run(4)]) == InstructionMarker() + SEPARATOR + Run(4)
    ensures Estimate(InstructionMarker() + SEPARATOR + Run(4)) == 7
  {
    hide CountsOf, InstructionMarker, Run, Joined;
    MarkerCounts();
    RunCost(4);
    CountsOfJoin(InstructionMarker(), Run(4));
  }

  lemma {:induction false} SeparatorCounts()
    ensures CountsOf(SEPARATOR) == None
  {
    hide CountsOf;
    LineFeedIsFree(SEPARATOR);
    LineFeedIsFree(SEPARATOR[1..]);
    NothingCountsNothing(c => false);
    assert SEPARATOR[1..][1..] == [];
  }

  lemma {:induction false} MarkerAndLayerOverrun(pictographic: Pictographs)
    ensures Bounded([Segment(true, Run(12)), Segment(true, Run(4))], 300, 6, pictographic).CurrentTurnTooLarge?
  {
    hide Estimate, InstructionMarker, Layer, Run, Bounded, Joined;
    var segments := [Segment(true, Run(12)), Segment(true, Run(4))];
    RunFits(pictographic);
    var first := Prepend(NOTHING, Run(4));
    LongLayerIsMarker(94, 1, pictographic);
    var kept := Prepend(first, InstructionMarker());
    assert segments[..1] == [Segment(true, Run(12))] && segments[..1][..0] == [];
    assert KeepInstructions([], kept, 100, 2, pictographic) == kept;
    assert KeepInstructions(segments[..1], first, 100, 2, pictographic) == kept;
    assert Layers(segments, 300, 6, pictographic) == kept;
    assert kept.parts == [InstructionMarker(), Run(4)];
    MarkerAndLayerCost();
    ClosingCheckFiresOnInstructions(segments, 300, 6, pictographic);
  }

  lemma {:induction false} RunFits(pictographic: Pictographs)
    ensures |Run(4)| == 4 && Estimate(Run(4)) == 1 && Layer(Run(4), 100, 2, pictographic) == Run(4)
  {
    hide CountsOf;
    RunCost(4);
  }

  /** The closing check can fire for some prompt exactly when the token limit is 3, 4, 5 or 6. */
  lemma {:induction false} ClosingCheckIsQuietExactly(maxTokens: nat, pictographic: Pictographs)
    ensures (forall segments: seq<Segment>, maxCharacters: nat :: Bounded(segments, maxCharacters, maxTokens, pictographic).Prompt?)
        <==> maxTokens < 3 || maxTokens >= 7
  {
    hide Bounded, Run;
    if maxTokens < 3 || maxTokens >= 7 {
      forall segments: seq<Segment>, maxCharacters: nat
        ensures Bounded(segments, maxCharacters, maxTokens, pictographic).Prompt?
      {
        ClosingCheckIsQuiet(segments, maxCharacters, maxTokens, pictographic);
      }
    } else if maxTokens < 6 {
      MarkerAloneOverruns(maxTokens, pictographic);
    } else {
      MarkerAndLayerOverrun(pictographic);
    }
  }

  // ---- the kept history -----------------------------------------------------------------

  /** The values of the segments that are not instruction layers, oldest first. */
  function Turns(segments: seq<Segment>): seq<Text> {
    if segments == [] then []
    else
      var front, last := segments[..|segments| - 1], segments[|segments| - 1];
      Turns(front) + (if last.instruction then [] else [last.value])
  }

  /** parts is the newest n turns before `kept`; the turn before them, if there is one, does not fit any more. */
  predicate IsNewestRun(filled: Filled, kept: seq<Text>, turns: seq<Text>, n: nat, budget: int, tokenBudget: int) {
    && n <= |turns|
    && filled.kept.parts == turns[|turns| - n..] + kept
    && (filled.overflow <==> n < |turns|)
    && (n < |turns| ==> !Fitting(filled.kept, turns[|turns| - n - 1], budget, tokenBudget))
  }

  function Taken(filled: Filled, kept: Kept): int {
    |filled.kept.parts| - |kept.parts|
  }

  /** What the loop keeps is the longest run of newest turns that fits, and it reports whether it left any. */
  lemma {:induction false} HistoryIsNewestRun(segments: seq<Segment>, kept: Kept, budget: int, tokenBudget: int)
    ensures var filled := KeepHistory(segments, kept, budget, tokenBudget);
            Taken(filled, kept) >= 0 && IsNewestRun(filled, kept.parts, Turns(segments), Taken(filled, kept), budget, tokenBudget)
    decreases |segments|
  {
    hide Estimate, Fitting, IsNewestRun;
    var filled := KeepHistory(segments, kept, budget, tokenBudget);
    if segments == [] {
      RunStops(filled, kept.parts, [], budget, tokenBudget);
    } else {
      var front, last := segments[..|segments| - 1], segments[|segments| - 1];
      if last.instruction {
        HistoryIsNewestRun(front, kept, budget, tokenBudget);
        assert Turns(segments) == Turns(front);
      } else if Fitting(kept, last.value, budget, tokenBudget) {
        var next := Prepend(kept, last.value);
        HistoryIsNewestRun(front, next, budget, tokenBudget);
        RunGrows(filled, kept.parts, Turns(front), last.value, Taken(filled, next), budget, tokenBudget);
      } else {
        RunStops(filled, kept.parts, Turns(segments), budget, tokenBudget);
      }
    }
  }

  lemma {:induction false} RunStops(filled: Filled, kept: seq<Text>, turns: seq<Text>, budget: int, tokenBudget: int)
    requires filled.kept.parts == kept && (filled.overflow <==> turns != [])
    requires turns != [] ==> !Fitting(filled.kept, turns[|turns| - 1], budget, tokenBudget)
    ensures IsNewestRun(filled, kept, turns, 0, budget, tokenBudget)
  {
    hide Fitting;
    assert turns[|turns|..] + kept == kept;
  }

  lemma {:induction false} RunGrows(
      filled: Filled, kept: seq<Text>, turns: seq<Text>, value: Text, n: nat, budget: int, tokenBudget: int)
    requires IsNewestRun(filled, [value] + kept, turns, n, budget, tokenBudget)
    ensures IsNewestRun(filled, kept, turns + [value], n + 1, budget, tokenBudget)
  {
    hide Fitting;
    var all := turns + [value];
    assert all[|all| - (n + 1)..] == turns[|turns| - n..] + [value];
    assert turns[|turns| - n..] + ([value] + kept) == turns[|turns| - n..] + [value] + kept;
  }
}
