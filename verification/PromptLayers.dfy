/** Which text boundPrompt keeps (src/openai.ts:1718-1788): what a truncated layer shows, and what a whole prompt is made of. */
module PromptLayers {
  import opened Utf16
  import opened PromptTokens
  import opened PromptPrefix
  import opened PromptAssembly
  import opened PromptBounds

  // ---- one layer ----------------------------------------------------------------------------

  /** The first k units end between characters and fit, by the counts of the scan, and no longer such prefix does. */
  ghost predicate IsLongestFit(value: Text, k: nat, characters: nat, tokens: nat, pictographic: Pictographs)
    requires k <= |value|
  {
    && IsBoundary(value, k) && Fits(value[..k], None, characters, tokens, pictographic)
    && forall j: nat :: k < j <= |value| && IsBoundary(value, j) ==> !Fits(value[..j], None, characters, tokens, pictographic)
  }

  lemma {:induction false} ScanIsLongestFit(value: Text, characters: nat, tokens: nat, pictographic: Pictographs)
    ensures Scan(value, None, characters, tokens, pictographic) <= characters
    ensures IsLongestFit(value, Scan(value, None, characters, tokens, pictographic), characters, tokens, pictographic)
  {
    hide Scan, IsBoundary, Weight, ScanCounts, Plus;
    var k := Scan(value, None, characters, tokens, pictographic);
    NoneWeighsNothing();
    ScanFits(value, None, characters, tokens, pictographic);
    forall j: nat | k < j <= |value| && IsBoundary(value, j) ensures !Fits(value[..j], None, characters, tokens, pictographic) {
      ScanIsLongest(value, None, characters, tokens, pictographic, j);
    }
  }

  /** A layer that fits is kept whole; one that does not becomes its longest fitting prefix and the marker. */
  lemma {:induction false} LayerKeepsLongestPrefix(value: Text, characters: nat, tokens: nat, pictographic: Pictographs) returns (k: nat)
    ensures var layer := Layer(value, characters, tokens, pictographic);
      if |value| <= characters && Estimate(value) <= tokens then layer == value
      else if characters < 24 then layer == InstructionMarker()[..characters]
      else
        && k <= |value| && layer == value[..k] + InstructionMarker()
        && IsLongestFit(value, k, characters - 24, AtLeastZero(tokens - 6), pictographic)
    ensures |InstructionMarker()| == 24 && Estimate(InstructionMarker()) == 6
  {
    hide Estimate, CountsOf, InstructionMarker, Scan, IsLongestFit;
    MarkerCounts();
    MarkerCost(0);
    k := 0;
    if !(|value| <= characters && Estimate(value) <= tokens) {
      var limit := AtLeastZero(tokens - 6);
      assert !(|value| <= AtLeastZero(characters - 24) && Estimate(value) <= limit) || characters < 24;
      k := Scan(value, None, AtLeastZero(characters - 24), limit, pictographic);
      if characters < 24 {
        NoRoomNoPrefix(value, limit, pictographic);
        assert value[..0] + InstructionMarker() == InstructionMarker();
        if |value| == 0 {
          EmptyIsFree();
        }
      } else {
        ScanIsLongestFit(value, characters - 24, limit, pictographic);
      }
    }
  }

  lemma {:induction false} NoneWeighsNothing()
    ensures Weight(None) == 0
  {
  }

  lemma {:induction false} NoRoomNoPrefix(value: Text, limit: nat, pictographic: Pictographs)
    ensures Scan(value, None, 0, limit, pictographic) == 0
  {
    ScanEnds(value, None, 0, limit, pictographic);
  }

  // ---- all layers ---------------------------------------------------------------------------

  /** The texts of the instruction segments, oldest first. */
  function Instructions(segments: seq<Segment>): seq<Text> {
    if segments == [] then []
    else
      var front, last := segments[..|segments| - 1], segments[|segments| - 1];
      Instructions(front) + (if last.instruction then [last.value] else [])
  }

  /** What the budget leaves beside parts that are already kept. */
  function CharactersLeft(parts: seq<Text>, budget: int): int {
    budget - |Joined(parts)| - (if parts != [] then 2 else 0)
  }

  function TokensLeft(parts: seq<Text>, tokenBudget: int): int {
    tokenBudget - TotalEstimate(parts)
  }

  /**
   In front of the parts kept already, parts holds the newest of the texts, in order, each cut to what the later parts
   leave of the budgets; the text before them, if there is one, is left out because nothing was left.
   */
  predicate Adds(parts: seq<Text>, kept: seq<Text>, texts: seq<Text>, budget: int, tokenBudget: int, pictographic: Pictographs) {
    && |kept| <= |parts| <= |kept| + |texts| && parts[|parts| - |kept|..] == kept
    && (forall i :: 0 <= i < |parts| - |kept| ==>
          var later := parts[i + 1..];
          && CharactersLeft(later, budget) > 0 && TokensLeft(later, tokenBudget) > 0
          && parts[i] == Layer(texts[|texts| - (|parts| - |kept|) + i], CharactersLeft(later, budget), TokensLeft(later, tokenBudget), pictographic))
    && (|parts| < |kept| + |texts| ==> CharactersLeft(parts, budget) <= 0 || TokensLeft(parts, tokenBudget) <= 0)
  }

  predicate AreNewestLayers(parts: seq<Text>, texts: seq<Text>, budget: int, tokenBudget: int, pictographic: Pictographs) {
    Adds(parts, [], texts, budget, tokenBudget, pictographic)
  }

  lemma {:induction false} InstructionsAdd(segments: seq<Segment>, kept: Kept, budget: int, tokenBudget: int, pictographic: Pictographs)
    requires Measured(kept)
    ensures var all := KeepInstructions(segments, kept, budget, tokenBudget, pictographic);
      Measured(all) && Adds(all.parts, kept.parts, Instructions(segments), budget, tokenBudget, pictographic)
    decreases |segments|
  {
    hide Estimate, Layer, Joined, TotalEstimate, Adds;
    if segments == [] {
      NothingAdds(kept.parts, [], budget, tokenBudget, pictographic);
    } else {
      var front, last := segments[..|segments| - 1], segments[|segments| - 1];
      var texts := Instructions(segments);
      var characters := budget - kept.length - SeparatorBefore(kept);
      var tokens := tokenBudget - kept.tokens;
      if !last.instruction {
        InstructionsAdd(front, kept, budget, tokenBudget, pictographic);
        assert texts == Instructions(front);
      } else if characters <= 0 || tokens <= 0 {
        NothingAdds(kept.parts, texts, budget, tokenBudget, pictographic);
      } else {
        var layer := Layer(last.value, characters, tokens, pictographic);
        var next := Prepend(kept, layer);
        PrependMeasured(kept, layer);
        InstructionsAdd(front, next, budget, tokenBudget, pictographic);
        var all := KeepInstructions(segments, kept, budget, tokenBudget, pictographic);
        OneAdds(all.parts, kept.parts, Instructions(front), last.value, budget, tokenBudget, pictographic);
      }
    }
  }

  lemma {:induction false} NothingAdds(kept: seq<Text>, texts: seq<Text>, budget: int, tokenBudget: int, pictographic: Pictographs)
    requires texts != [] ==> CharactersLeft(kept, budget) <= 0 || TokensLeft(kept, tokenBudget) <= 0
    ensures Adds(kept, kept, texts, budget, tokenBudget, pictographic)
  {
    hide Layer, CharactersLeft, TokensLeft;
  }

  lemma {:induction false} OneAdds(
      parts: seq<Text>, kept: seq<Text>, texts: seq<Text>, value: Text, budget: int, tokenBudget: int, pictographic: Pictographs)
    requires CharactersLeft(kept, budget) > 0 && TokensLeft(kept, tokenBudget) > 0
    requires var layer := Layer(value, CharactersLeft(kept, budget), TokensLeft(kept, tokenBudget), pictographic);
      Adds(parts, [layer] + kept, texts, budget, tokenBudget, pictographic)
    ensures Adds(parts, kept, texts + [value], budget, tokenBudget, pictographic)
  {
    hide Layer, CharactersLeft, TokensLeft;
    var layer := Layer(value, CharactersLeft(kept, budget), TokensLeft(kept, tokenBudget), pictographic);
    var at := |parts| - |kept| - 1;
    assert parts[at..] == [layer] + kept;
    assert parts[at] == parts[at..][0] == layer;
    assert parts[at + 1..] == parts[at..][1..] == kept;
  }

  /** The instruction layers of a prompt. */
  lemma {:induction false} LayersAreNewest(segments: seq<Segment>, maxCharacters: nat, maxTokens: nat, pictographic: Pictographs)
    ensures AreNewestLayers(
              Layers(segments, maxCharacters, maxTokens, pictographic).parts, Instructions(segments),
              maxCharacters / 3, maxTokens / 3, pictographic)
  {
    hide KeepInstructions, Adds;
    NothingIsMeasured();
    InstructionsAdd(segments, NOTHING, maxCharacters / 3, maxTokens / 3, pictographic);
  }

  // ---- the whole prompt -----------------------------------------------------------------------

  /** The newest n turns fit in what the instructions leave, and with one more they would not. */
  ghost predicate AreNewestTurns(parts: seq<Text>, turns: seq<Text>, characters: int, tokens: int) {
    && |parts| <= |turns| && parts == turns[|turns| - |parts|..]
    && (parts != [] ==> |Joined(parts)| <= characters && TotalEstimate(parts) <= tokens)
    && (|parts| < |turns| ==>
          var one := turns[|turns| - |parts| - 1];
          CharactersLeft(parts, characters) < |one| || TokensLeft(parts, tokens) < Estimate(one))
  }

  /**
   A prompt is its newest instruction layers, then the marker if turns were left out and it fits, then the newest
   turns that fit, all in order and separated by blank lines.
   */
  lemma {:induction false} PromptIsAssembled(segments: seq<Segment>, maxCharacters: nat, maxTokens: nat, pictographic: Pictographs)
      returns (layers: seq<Text>, marked: bool, turns: seq<Text>)
    ensures AreNewestLayers(layers, Instructions(segments), maxCharacters / 3, maxTokens / 3, pictographic)
    ensures var instruction := Joined(layers);
      var characters, tokens := HistoryBudget(instruction, maxCharacters), maxTokens - Estimate(instruction);
      && AreNewestTurns(turns, Turns(segments), characters, tokens)
      && marked == (|turns| < |Turns(segments)| && |ContextMarker()| <= CharactersLeft(turns, characters)
                    && Estimate(ContextMarker()) <= TokensLeft(turns, tokens))
      && var text := Joined((if instruction != [] then [instruction] else []) + (if marked then [ContextMarker()] else []) + turns);
         Bounded(segments, maxCharacters, maxTokens, pictographic)
         == if |text| > maxCharacters || Estimate(text) > maxTokens then CurrentTurnTooLarge else Prompt(text)
  {
    hide Estimate, KeepInstructions, KeepHistory, ContextMarker, Joined, TotalEstimate, AreNewestLayers;
    layers := Layers(segments, maxCharacters, maxTokens, pictographic).parts;
    LayersAreNewest(segments, maxCharacters, maxTokens, pictographic);
    var instruction := Joined(layers);
    var characters, tokens := HistoryBudget(instruction, maxCharacters), maxTokens - Estimate(instruction);
    var filled := KeepHistory(segments, NOTHING, characters, tokens);
    turns := filled.kept.parts;
    HistoryIsNewest(segments, characters, tokens);
    marked := filled.overflow && Fitting(filled.kept, ContextMarker(), characters, tokens);
    assert Newest(segments, instruction, maxCharacters, maxTokens) == (if marked then [ContextMarker()] else []) + turns;
    var head, middle := if instruction != [] then [instruction] else [], if marked then [ContextMarker()] else [];
    assert head + (middle + turns) == head + middle + turns;
  }

  lemma {:induction false} HistoryIsNewest(segments: seq<Segment>, characters: int, tokens: int)
    ensures var filled := KeepHistory(segments, NOTHING, characters, tokens);
      && Measured(filled.kept) && (filled.overflow <==> |filled.kept.parts| < |Turns(segments)|)
      && AreNewestTurns(filled.kept.parts, Turns(segments), characters, tokens)
  {
    hide Estimate, KeepHistory, Joined, TotalEstimate;
    var filled := KeepHistory(segments, NOTHING, characters, tokens);
    NothingIsMeasured();
    HistoryIsNewestRun(segments, NOTHING, characters, tokens);
    HistoryFits(segments, NOTHING, characters, tokens);
    assert filled.kept.parts + [] == filled.kept.parts;
  }

  predicate Fitted(kept: Kept, characters: int, tokens: int) {
    Measured(kept) && (kept.parts != [] ==> kept.length <= characters && kept.tokens <= tokens)
  }

  lemma {:induction false} HistoryFits(segments: seq<Segment>, kept: Kept, characters: int, tokens: int)
    requires Fitted(kept, characters, tokens)
    ensures Fitted(KeepHistory(segments, kept, characters, tokens).kept, characters, tokens)
    decreases |segments|
  {
    hide Estimate, Measured;
    if segments != [] {
      var front, last := segments[..|segments| - 1], segments[|segments| - 1];
      if last.instruction {
        HistoryFits(front, kept, characters, tokens);
      } else if Fitting(kept, last.value, characters, tokens) {
        PrependMeasured(kept, last.value);
        HistoryFits(front, Prepend(kept, last.value), characters, tokens);
      }
    }
  }
}
