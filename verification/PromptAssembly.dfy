/** boundPrompt (src/openai.ts): instruction layers first, then the newest turns that still fit. */
module PromptAssembly {
  import opened Utf16
  import opened PromptTokens
  import opened PromptPrefix

  /** instruction: the role is SYSTEM or DEVELOPER. */
  datatype Segment = Segment(instruction: bool, value: Text)

  /** A list under construction, newest part last, with the loop's running totals. */
  datatype Kept = Kept(parts: seq<Text>, length: nat, tokens: nat)

  datatype Filled = Filled(kept: Kept, overflow: bool)

  datatype Outcome = Prompt(text: Text) | CurrentTurnTooLarge | EmptyPrompt

  const NOTHING := Kept([], 0, 0)

  function InstructionMarker(): Text {
    Ascii("\n[") + Ascii("INSTRUCTION") + Ascii(" ") + Ascii("TRUNCATED") + Ascii("]")
  }

  function ContextMarker(): Text {
    Ascii("[CONTEXT TRUNCATED:") + Ascii(" oldest non-instruction") + Ascii(" turns omitted]")
  }

  function AtLeastZero(n: int): nat {
    if n < 0 then 0 else n
  }

  function SeparatorBefore(kept: Kept): nat {
    if kept.parts != [] then 2 else 0
  }

  /** unshift, with the totals. */
  function Prepend(kept: Kept, value: Text): Kept {
    Kept([value] + kept.parts, kept.length + |value| + SeparatorBefore(kept), kept.tokens + Estimate(value))
  }

  function Layer(value: Text, characters: nat, tokens: nat, pictographic: Pictographs): Text {
    if |value| <= characters && Estimate(value) <= tokens then value
    else
      var marker := InstructionMarker();
      var cut := Prefix(value, AtLeastZero(characters - |marker|), AtLeastZero(tokens - Estimate(marker)), pictographic) + marker;
      if |cut| <= characters then cut else cut[..characters]
  }

  /** The first loop, from the newest segment back. */
  function KeepInstructions(segments: seq<Segment>, kept: Kept, budget: int, tokenBudget: int, pictographic: Pictographs): Kept
    decreases |segments|
  {
    if segments == [] then kept
    else
      var front, last := segments[..|segments| - 1], segments[|segments| - 1];
      if !last.instruction then KeepInstructions(front, kept, budget, tokenBudget, pictographic)
      else
        var characters := budget - kept.length - SeparatorBefore(kept);
        var tokens := tokenBudget - kept.tokens;
        if characters <= 0 || tokens <= 0 then kept
        else KeepInstructions(front, Prepend(kept, Layer(last.value, characters, tokens, pictographic)), budget, tokenBudget, pictographic)
  }

  /** The second loop, from the newest turn back, up to the first that does not fit. */
  function KeepHistory(segments: seq<Segment>, kept: Kept, budget: int, tokenBudget: int): Filled
    decreases |segments|
  {
    if segments == [] then Filled(kept, false)
    else
      var front, last := segments[..|segments| - 1], segments[|segments| - 1];
      if last.instruction then KeepHistory(front, kept, budget, tokenBudget)
      else if Fitting(kept, last.value, budget, tokenBudget) then KeepHistory(front, Prepend(kept, last.value), budget, tokenBudget)
      else Filled(kept, true)
  }

  predicate Fitting(kept: Kept, value: Text, budget: int, tokenBudget: int) {
    |value| + SeparatorBefore(kept) <= budget - kept.length && Estimate(value) <= tokenBudget - kept.tokens
  }

  function Layers(segments: seq<Segment>, maxCharacters: nat, maxTokens: nat, pictographic: Pictographs): Kept {
    KeepInstructions(segments, NOTHING, maxCharacters / 3, maxTokens / 3, pictographic)
  }

  function HistoryBudget(instruction: Text, maxCharacters: nat): int {
    maxCharacters - |instruction| - (if instruction != [] then 2 else 0)
  }

  function Newest(segments: seq<Segment>, instruction: Text, maxCharacters: nat, maxTokens: nat): seq<Text> {
    var budget, tokenBudget := HistoryBudget(instruction, maxCharacters), maxTokens - Estimate(instruction);
    var filled := KeepHistory(segments, NOTHING, budget, tokenBudget);
    if filled.overflow && Fitting(filled.kept, ContextMarker(), budget, tokenBudget)
    then [ContextMarker()] + filled.kept.parts
    else filled.kept.parts
  }

  function Parts(instruction: Text, newest: seq<Text>): seq<Text> {
    (if instruction != [] then [instruction] else []) + newest
  }

  function Assembled(segments: seq<Segment>, maxCharacters: nat, maxTokens: nat, pictographic: Pictographs): Text {
    var instruction := Joined(Layers(segments, maxCharacters, maxTokens, pictographic).parts);
    Joined(Parts(instruction, Newest(segments, instruction, maxCharacters, maxTokens)))
  }

  function Bounded(segments: seq<Segment>, maxCharacters: nat, maxTokens: nat, pictographic: Pictographs): Outcome {
    var result := Assembled(segments, maxCharacters, maxTokens, pictographic);
    if |result| > maxCharacters || Estimate(result) > maxTokens then CurrentTurnTooLarge else Prompt(result)
  }

  // ---- the program --------------------------------------------------------------------

  method BoundInstructions(segments: seq<Segment>, instructionBudget: nat, instructionTokenBudget: nat, pictographic: Pictographs)
    returns (instructions: seq<Text>)
    ensures instructions == KeepInstructions(segments, NOTHING, instructionBudget, instructionTokenBudget, pictographic).parts
  {
    hide Estimate, Layer;
    instructions := [];
    var instructionLength: nat, instructionTokens: nat := 0, 0;
    var index := |segments|;
    assert segments[..index] == segments;
    while index > 0
      invariant 0 <= index <= |segments|
      invariant KeepInstructions(segments, NOTHING, instructionBudget, instructionTokenBudget, pictographic)
             == KeepInstructions(segments[..index], Kept(instructions, instructionLength, instructionTokens),
                                 instructionBudget, instructionTokenBudget, pictographic)
    {
      assert segments[..index][..index - 1] == segments[..index - 1];
      index := index - 1;
      if segments[index].instruction {
        var separator := if |instructions| > 0 then 2 else 0;
        var availableCharacters := instructionBudget - instructionLength - separator;
        var availableTokens := instructionTokenBudget - instructionTokens;
        if availableCharacters <= 0 || availableTokens <= 0 {
          return;
        }
        var bounded := BoundLayer(segments[index].value, availableCharacters, availableTokens, pictographic);
        instructions := [bounded] + instructions;
        instructionLength := instructionLength + (|bounded| + separator);
        instructionTokens := instructionTokens + Estimate(bounded);
      }
    }
  }

  method BoundLayer(value: Text, availableCharacters: nat, availableTokens: nat, pictographic: Pictographs) returns (bounded: Text)
    ensures bounded == Layer(value, availableCharacters, availableTokens, pictographic)
  {
    hide Estimate, Prefix, InstructionMarker;
    if |value| <= availableCharacters && Estimate(value) <= availableTokens {
      return value;
    }
    var marker := InstructionMarker();
    var prefix := PrefixWithinLimits(
      value, AtLeastZero(availableCharacters - |marker|), AtLeastZero(availableTokens - Estimate(marker)), pictographic);
    bounded := prefix + marker;
    if |bounded| > availableCharacters {
      bounded := bounded[..availableCharacters];
    }
  }

  method BoundHistory(segments: seq<Segment>, historyBudget: int, historyTokenBudget: int) returns (filled: Filled)
    ensures filled == KeepHistory(segments, NOTHING, historyBudget, historyTokenBudget)
  {
    hide Estimate;
    var newest: seq<Text> := [];
    var historyLength: nat, historyTokens: nat := 0, 0;
    var index := |segments|;
    assert segments[..index] == segments;
    while index > 0
      invariant 0 <= index <= |segments|
      invariant KeepHistory(segments, NOTHING, historyBudget, historyTokenBudget)
             == KeepHistory(segments[..index], Kept(newest, historyLength, historyTokens), historyBudget, historyTokenBudget)
    {
      assert segments[..index][..index - 1] == segments[..index - 1];
      index := index - 1;
      if !segments[index].instruction {
        var value := segments[index].value;
        var separator := if |newest| > 0 then 2 else 0;
        var valueTokens := Estimate(value);
        if |value| + separator <= historyBudget - historyLength && valueTokens <= historyTokenBudget - historyTokens {
          newest := [value] + newest;
          historyLength := historyLength + (|value| + separator);
          historyTokens := historyTokens + valueTokens;
        } else {
          return Filled(Kept(newest, historyLength, historyTokens), true);
        }
      }
    }
    return Filled(Kept(newest, historyLength, historyTokens), false);
  }

  method BoundPrompt(segments: seq<Segment>, maxCharacters: nat, maxTokens: nat, pictographic: Pictographs) returns (outcome: Outcome)
    ensures outcome == Bounded(segments, maxCharacters, maxTokens, pictographic)
  {
    hide Estimate, KeepInstructions, KeepHistory, ContextMarker;
    var instructions := BoundInstructions(segments, maxCharacters / 3, maxTokens / 3, pictographic);
    var instruction := Joined(instructions);
    var historyBudget := maxCharacters - |instruction| - (if instruction != [] then 2 else 0);
    var historyTokenBudget := maxTokens - Estimate(instruction);
    var filled := BoundHistory(segments, historyBudget, historyTokenBudget);
    var newest := filled.kept.parts;
    if filled.overflow {
      var marker := ContextMarker();
      var markerCharacters := |marker| + (if |newest| > 0 then 2 else 0);
      var markerTokens := Estimate(marker);
      if filled.kept.length + markerCharacters <= historyBudget && filled.kept.tokens + markerTokens <= historyTokenBudget {
        newest := [marker] + newest;
      }
    }
    var parts := if instruction != [] then [instruction] else [];
    parts := parts + newest;
    var result := Joined(parts);
    if |result| > maxCharacters || Estimate(result) > maxTokens {
      return CurrentTurnTooLarge;
    }
    return Prompt(result);
  }

  // ---- running totals -----------------------------------------------------------------

  predicate Measured(kept: Kept) {
    |Joined(kept.parts)| == kept.length && TotalEstimate(kept.parts) == kept.tokens
  }

  lemma {:induction false} PrependMeasured(kept: Kept, value: Text)
    requires Measured(kept)
    ensures Measured(Prepend(kept, value))
  {
    hide Estimate;
    assert ([value] + kept.parts)[1..] == kept.parts;
  }

  // ---- the instruction layers ---------------------------------------------------------

  lemma {:induction false} WordRun(t: Text)
    requires forall i :: 0 <= i < |t| ==> IsAsciiWord(t[i])
    ensures CountsOf(t) == Counts(|t|, 0, 0, 0)
  {
    hide CountsOf;
    if t == [] {
      NothingCountsNothing(c => false);
    } else {
      CountsHead(t);
      assert FirstCodePoint(t) == t[0] && ClassOf(t[0]) == Word;
      WordRun(t[1..]);
    }
  }

  lemma {:induction false} Bracket(t: Text)
    requires |t| == 1 && (t[0] == 0x5B || t[0] == 0x5D)
    ensures CountsOf(t) == Counts(0, 1, 0, 0)
  {
    hide CountsOf, Scan, Weight, HeadCounts, IsPromptEmoji;
    OneCharacter(t, c => false);
  }

  lemma {:induction false} OpenBracket(t: Text)
    requires |t| == 2 && t[0] == 0x0A && t[1] == 0x5B
    ensures CountsOf(t) == Counts(0, 1, 0, 0)
  {
    hide CountsOf;
    LineFeedIsFree(t);
    Bracket(t[1..]);
  }

  lemma {:induction false} Space(t: Text)
    requires |t| == 1 && t[0] == 0x20
    ensures CountsOf(t) == None
  {
    hide CountsOf, Scan, Weight, HeadCounts, IsPromptEmoji;
    OneCharacter(t, c => false);
  }

  /** Five tokens of words and one of brackets. */
  lemma {:induction false} MarkerCounts()
    ensures CountsOf(InstructionMarker()) == Counts(20, 2, 0, 0)
    ensures |InstructionMarker()| == 24
  {
    hide CountsOf;
    var open, first, space, second, close := Ascii("\n["), Ascii("INSTRUCTION"), Ascii(" "), Ascii("TRUNCATED"), Ascii("]");
    OpenBracket(open);
    Bracket(close);
    Space(space);
    WordRun(first);
    WordRun(second);
    CountsSplit(open, first);
    CountsSplit(open + first, space);
    CountsSplit(open + first + space, second);
    CountsSplit(open + first + space + second, close);
  }
}
