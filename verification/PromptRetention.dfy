/** ensureCurrentTurnFits and chatPrompt (src/openai.ts): an accepted prompt keeps the whole active turn. */
module PromptRetention {
  import opened Utf16
  import opened PromptTokens
  import opened PromptPrefix
  import opened PromptAssembly
  import opened PromptBounds

  /** One causal unit of the conversation, with the text it was rendered to. */
  datatype Unit = Unit(instruction: bool, hasUser: bool, value: Text)

  function Segments(units: seq<Unit>): seq<Segment> {
    seq(|units|, i requires 0 <= i < |units| => Segment(units[i].instruction, units[i].value))
  }

  /** The values of the instruction units, oldest first. */
  function InstructionValues(units: seq<Unit>): seq<Text> {
    if units == [] then []
    else (if units[0].instruction then [units[0].value] else []) + InstructionValues(units[1..])
  }

  function TurnValues(units: seq<Unit>): seq<Text> {
    if units == [] then []
    else (if units[0].instruction then [] else [units[0].value]) + TurnValues(units[1..])
  }

  function LastUser(units: seq<Unit>): (last: int)
    ensures -1 <= last < |units|
    ensures last >= 0 ==> units[last].hasUser
    ensures forall i :: last < i < |units| ==> !units[i].hasUser
  {
    if units == [] then -1
    else if units[|units| - 1].hasUser then |units| - 1
    else LastUser(units[..|units| - 1])
  }

  function ActiveStart(units: seq<Unit>): nat {
    if LastUser(units) >= 0 then LastUser(units) else 0
  }

  /** Everything from the last user turn on that is not an instruction layer. */
  function Active(units: seq<Unit>): seq<Text> {
    TurnValues(units[ActiveStart(units)..])
  }

  // ---- ensureCurrentTurnFits ------------------------------------------------------------

  function Min(a: int, b: int): int {
    if a < b then a else b
  }

  function SeparatorAfter(length: nat): nat {
    if length > 0 then 2 else 0
  }

  /** The first loop: the characters set aside for the instruction layers, oldest first. */
  function Reserve(units: seq<Unit>, length: nat, budget: nat): nat {
    if units == [] then length
    else if !units[0].instruction then Reserve(units[1..], length, budget)
    else
      var available := budget - length - SeparatorAfter(length);
      if available <= 0 then length
      else Reserve(units[1..], length + Min(|units[0].value|, available) + SeparatorAfter(length), budget)
  }

  /** The third loop's length. */
  function LengthFrom(units: seq<Unit>, length: nat): nat {
    if units == [] then length
    else if units[0].instruction then LengthFrom(units[1..], length)
    else LengthFrom(units[1..], length + |units[0].value| + SeparatorAfter(length))
  }

  predicate CurrentTurnFits(units: seq<Unit>, maxCharacters: nat, maxTokens: nat) {
    var instructionLength := Reserve(units, 0, maxCharacters / 3);
    var activeLength := LengthFrom(units[ActiveStart(units)..], 0);
    var available := maxCharacters - instructionLength - (if instructionLength > 0 && activeLength > 0 then 2 else 0);
    var reserved := Min(maxTokens / 3, Estimate(Joined(InstructionValues(units))));
    activeLength <= available && TotalEstimate(Active(units)) <= maxTokens - reserved
  }

  method EnsureCurrentTurnFits(units: seq<Unit>, maxCharacters: nat, maxTokens: nat) returns (accepted: bool)
    ensures accepted == CurrentTurnFits(units, maxCharacters, maxTokens)
  {
    hide Estimate, Joined, InstructionValues;
    var instructionLength := ReserveInstructions(units, maxCharacters / 3);
    var lastUserUnit := -1;
    var index := 0;
    while index < |units|
      invariant 0 <= index <= |units|
      invariant lastUserUnit == LastUser(units[..index])
    {
      assert units[..index + 1][..index] == units[..index];
      if units[index].hasUser {
        lastUserUnit := index;
      }
      index := index + 1;
    }
    assert units[..|units|] == units;
    var activeStart := if lastUserUnit >= 0 then lastUserUnit else 0;
    var activeLength, activeTokens := MeasureActive(units[activeStart..]);
    var available := maxCharacters - instructionLength - (if instructionLength > 0 && activeLength > 0 then 2 else 0);
    if activeLength > available {
      return false;
    }
    var instructionText := Joined(InstructionValues(units));
    var reservedInstructionTokens := Min(maxTokens / 3, Estimate(instructionText));
    return activeTokens <= maxTokens - reservedInstructionTokens;
  }

  method ReserveInstructions(units: seq<Unit>, instructionBudget: nat) returns (instructionLength: nat)
    ensures instructionLength == Reserve(units, 0, instructionBudget)
  {
    instructionLength := 0;
    var index := 0;
    assert units[0..] == units;
    while index < |units|
      invariant 0 <= index <= |units|
      invariant Reserve(units, 0, instructionBudget) == Reserve(units[index..], instructionLength, instructionBudget)
    {
      assert units[index..][1..] == units[index + 1..];
      if units[index].instruction {
        var separator := if instructionLength > 0 then 2 else 0;
        var available := instructionBudget - instructionLength - separator;
        if available <= 0 {
          return;
        }
        instructionLength := instructionLength + Min(|units[index].value|, available) + separator;
      }
      index := index + 1;
    }
  }

  method MeasureActive(units: seq<Unit>) returns (activeLength: nat, activeTokens: nat)
    ensures activeLength == LengthFrom(units, 0)
    ensures activeTokens == TotalEstimate(TurnValues(units))
  {
    hide Estimate;
    activeLength, activeTokens := 0, 0;
    var index := 0;
    assert units[0..] == units;
    while index < |units|
      invariant 0 <= index <= |units|
      invariant LengthFrom(units, 0) == LengthFrom(units[index..], activeLength)
      invariant TotalEstimate(TurnValues(units)) == activeTokens + TotalEstimate(TurnValues(units[index..]))
    {
      assert units[index..][1..] == units[index + 1..];
      if !units[index].instruction {
        assert TurnValues(units[index..])[1..] == TurnValues(units[index + 1..]);
        activeLength := activeLength + |units[index].value| + (if activeLength > 0 then 2 else 0);
        activeTokens := activeTokens + Estimate(units[index].value);
      } else {
        assert TurnValues(units[index..]) == TurnValues(units[index + 1..]);
      }
      index := index + 1;
    }
  }

  // ---- chatPrompt -----------------------------------------------------------------------

  predicate IsBlank(t: Text) {
    forall i :: 0 <= i < |t| ==> IsJsSpace(t[i])
  }

  function Chat(units: seq<Unit>, maxCharacters: nat, maxTokens: nat, pictographic: Pictographs): Outcome {
    if units == [] then EmptyPrompt
    else if !CurrentTurnFits(units, maxCharacters, maxTokens) then CurrentTurnTooLarge
    else
      match Bounded(Segments(units), maxCharacters, maxTokens, pictographic)
      case Prompt(text) => if IsBlank(text) then EmptyPrompt else Prompt(text)
      case other => other
  }

  method ChatPrompt(units: seq<Unit>, maxCharacters: nat, maxTokens: nat, pictographic: Pictographs) returns (outcome: Outcome)
    ensures outcome == Chat(units, maxCharacters, maxTokens, pictographic)
  {
    hide CurrentTurnFits, Bounded;
    if |units| == 0 {
      return EmptyPrompt;
    }
    var accepted := EnsureCurrentTurnFits(units, maxCharacters, maxTokens);
    if !accepted {
      return CurrentTurnTooLarge;
    }
    outcome := BoundPrompt(Segments(units), maxCharacters, maxTokens, pictographic);
    if outcome.Prompt? && IsBlank(outcome.text) {
      return EmptyPrompt;
    }
  }

  // ---- retention ------------------------------------------------------------------------

  /** chatPrompt renders every unit to a text that begins with a bracketed role; no unit is both kinds. */
  predicate WellFormed(units: seq<Unit>) {
    forall u :: u in units ==> IsRendered(u.value) && !(u.instruction && u.hasUser)
  }

  predicate IsRendered(t: Text) {
    t != [] && t[0] == 0x5B
  }

  predicate AllRendered(pieces: seq<Text>) {
    forall t :: t in pieces ==> IsRendered(t)
  }

  /** All instruction layers fit their third of both budgets. */
  predicate LayersFit(units: seq<Unit>, maxCharacters: nat, maxTokens: nat) {
    var layers := InstructionValues(units);
    |Joined(layers)| <= maxCharacters / 3 && TotalEstimate(layers) <= maxTokens / 3
  }

  lemma {:induction false} RenderedCosts(t: Text)
    requires IsRendered(t)
    ensures Estimate(t) >= 1
  {
    hide CountsOf;
    CountsHead(t);
    assert FirstCodePoint(t) == 0x5B && ClassOf(0x5B) == Syntax;
  }

  lemma {:induction false} JoinedCons(t: Text, rest: seq<Text>)
    ensures Joined([t] + rest) == if rest == [] then t else t + SEPARATOR + Joined(rest)
  {
    assert ([t] + rest)[1..] == rest;
  }

  /** A joined list of rendered texts shows its emptiness by its length. */
  lemma {:induction false} JoinedRendered(pieces: seq<Text>)
    requires AllRendered(pieces)
    ensures (pieces == []) == (Joined(pieces) == []) && (pieces != [] ==> IsRendered(Joined(pieces)))
  {
    if |pieces| >= 1 {
      assert IsRendered(pieces[0]);
    }
  }

  lemma {:induction false} ValuesRendered(units: seq<Unit>)
    requires WellFormed(units)
    ensures AllRendered(InstructionValues(units)) && AllRendered(TurnValues(units))
    ensures units != [] ==> InstructionValues(units) != [] || TurnValues(units) != []
  {
    if units != [] {
      assert units[0] in units;
      ValuesRendered(units[1..]);
    }
  }

  lemma {:induction false} ValuesAppend(a: seq<Unit>, b: seq<Unit>)
    ensures InstructionValues(a + b) == InstructionValues(a) + InstructionValues(b)
    ensures TurnValues(a + b) == TurnValues(a) + TurnValues(b)
  {
    if a == [] {
      assert a + b == b;
    } else {
      assert (a + b)[1..] == a[1..] + b;
      ValuesAppend(a[1..], b);
      assert InstructionValues(a + b) == (if a[0].instruction then [a[0].value] else []) + InstructionValues(a[1..] + b);
      assert TurnValues(a + b) == (if a[0].instruction then [] else [a[0].value]) + TurnValues(a[1..] + b);
    }
  }

  /** The length of a text of `length` units extended by more pieces. */
  function Extended(length: nat, pieces: seq<Text>): nat {
    if pieces == [] then length else length + SeparatorAfter(length) + |Joined(pieces)|
  }

  lemma {:induction false} ExtendedCons(length: nat, t: Text, rest: seq<Text>)
    requires t != []
    ensures Extended(length, [t] + rest) == Extended(length + |t| + SeparatorAfter(length), rest)
  {
    JoinedCons(t, rest);
  }

  lemma {:induction false} ReserveIsWhole(units: seq<Unit>, length: nat, budget: nat)
    requires WellFormed(units) && Extended(length, InstructionValues(units)) <= budget
    ensures Reserve(units, length, budget) == Extended(length, InstructionValues(units))
  {
    hide Extended, Joined;
    if units == [] {
      assert Extended(length, []) == length by { ExtendedNil(length); }
    } else {
      assert units[0] in units;
      var rest := InstructionValues(units[1..]);
      if units[0].instruction {
        ExtendedCons(length, units[0].value, rest);
        ExtendedGrows(length + |units[0].value| + SeparatorAfter(length), rest);
        ReserveIsWhole(units[1..], length + |units[0].value| + SeparatorAfter(length), budget);
      } else {
        assert InstructionValues(units) == rest;
        ReserveIsWhole(units[1..], length, budget);
      }
    }
  }

  /** Layers that do not fit reserve their whole third, but for room that a separator would have to itself. */
  lemma {:induction false} ReserveIsCapped(units: seq<Unit>, length: nat, budget: nat)
    requires WellFormed(units) && length <= budget
    ensures length <= Reserve(units, length, budget) <= budget
    ensures Extended(length, InstructionValues(units)) > budget ==> Reserve(units, length, budget) >= budget - 2
    decreases |units|
  {
    hide Extended, Joined;
    if units == [] {
      assert Extended(length, []) == length by { ExtendedNil(length); }
    } else {
      assert units[0] in units;
      var rest := InstructionValues(units[1..]);
      if units[0].instruction {
        var available := budget - length - SeparatorAfter(length);
        ExtendedCons(length, units[0].value, rest);
        if available > 0 {
          ReserveIsCapped(units[1..], length + Min(|units[0].value|, available) + SeparatorAfter(length), budget);
        }
      } else {
        assert InstructionValues(units) == rest;
        ReserveIsCapped(units[1..], length, budget);
      }
    }
  }

  lemma {:induction false} ExtendedNil(length: nat)
    ensures Extended(length, []) == length
  {
  }

  lemma {:induction false} ExtendedGrows(length: nat, pieces: seq<Text>)
    ensures Extended(length, pieces) >= length
  {
  }

  lemma {:induction false} LengthIsExtended(units: seq<Unit>, length: nat)
    requires WellFormed(units)
    ensures LengthFrom(units, length) == Extended(length, TurnValues(units))
  {
    hide Extended, Joined;
    if units == [] {
      ExtendedNil(length);
    } else {
      assert units[0] in units;
      var rest := TurnValues(units[1..]);
      if units[0].instruction {
        assert TurnValues(units) == rest;
        LengthIsExtended(units[1..], length);
      } else {
        ExtendedCons(length, units[0].value, rest);
        LengthIsExtended(units[1..], length + |units[0].value| + SeparatorAfter(length));
      }
    }
  }

  /** When the layers fit, the check is exact: it asks whether layers and active turn fit together. */
  lemma {:induction false} CheckIsExact(units: seq<Unit>, maxCharacters: nat, maxTokens: nat)
    requires WellFormed(units) && LayersFit(units, maxCharacters, maxTokens)
    ensures var instruction, active := Joined(InstructionValues(units)), Active(units);
            var fitsLength := active == [] || |Joined(active)| <= HistoryBudget(instruction, maxCharacters);
            CurrentTurnFits(units, maxCharacters, maxTokens)
              == (fitsLength && TotalEstimate(active) <= maxTokens - Estimate(instruction))
  {
    hide Estimate, InstructionValues, TurnValues, TotalEstimate, Reserve, LengthFrom;
    var layers, active := InstructionValues(units), Active(units);
    var tail := units[ActiveStart(units)..];
    ValuesRendered(units);
    ValuesRendered(tail);
    ReserveIsWhole(units, 0, maxCharacters / 3);
    LengthIsExtended(tail, 0);
    JoinedRendered(layers);
    JoinedRendered(active);
    JoinedEstimate(layers);
  }

  /**
   Whether or not the layers fit: the check passes exactly if the active turn fits beside what is reserved for them,
   which is all they take, or their whole third but for at most two characters.
   */
  lemma {:induction false} CheckReservesThird(units: seq<Unit>, maxCharacters: nat, maxTokens: nat) returns (reserved: nat)
    requires WellFormed(units)
    ensures var instruction, active, third := Joined(InstructionValues(units)), Active(units), maxCharacters / 3;
      && (if |instruction| <= third then reserved == |instruction| else third - 2 <= reserved <= third)
      && CurrentTurnFits(units, maxCharacters, maxTokens)
         == (|Joined(active)| + reserved + (if reserved > 0 && active != [] then 2 else 0) <= maxCharacters
             && TotalEstimate(active) <= maxTokens - Min(maxTokens / 3, Estimate(instruction)))
  {
    hide Estimate, InstructionValues, TurnValues, TotalEstimate, Reserve, LengthFrom;
    var layers, active := InstructionValues(units), Active(units);
    var tail := units[ActiveStart(units)..];
    reserved := Reserve(units, 0, maxCharacters / 3);
    ValuesRendered(units);
    ValuesRendered(tail);
    if |Joined(layers)| <= maxCharacters / 3 {
      ReserveIsWhole(units, 0, maxCharacters / 3);
    }
    ReserveIsCapped(units, 0, maxCharacters / 3);
    LengthIsExtended(tail, 0);
    JoinedRendered(layers);
    JoinedRendered(active);
  }

  // ---- both loops of boundPrompt on fitting layers ----------------------------------------

  lemma {:induction false} SegmentsSnoc(units: seq<Unit>)
    requires units != []
    ensures var n, segments := |units| - 1, Segments(units);
            && segments[..n] == Segments(units[..n])
            && segments[n] == Segment(units[n].instruction, units[n].value)
            && InstructionValues(units) == InstructionValues(units[..n]) + (if units[n].instruction then [units[n].value] else [])
            && TurnValues(units) == TurnValues(units[..n]) + (if units[n].instruction then [] else [units[n].value])
  {
    var n := |units| - 1;
    assert units == units[..n] + [units[n]];
    ValuesAppend(units[..n], [units[n]]);
    assert [units[n]][1..] == [];
  }

  lemma {:induction false} TurnsAreTurnValues(units: seq<Unit>)
    ensures Turns(Segments(units)) == TurnValues(units)
    decreases |units|
  {
    hide Segments;
    if units == [] {
      assert Segments(units) == [] by { NoSegments(); }
    } else {
      SegmentsSnoc(units);
      TurnsAreTurnValues(units[..|units| - 1]);
      assert |Segments(units)| == |units| by { SegmentCount(units); }
    }
  }

  lemma {:induction false} NoSegments()
    ensures Segments([]) == []
  {
  }

  lemma {:induction false} SegmentCount(units: seq<Unit>)
    ensures |Segments(units)| == |units|
  {
  }

  lemma {:induction false} TotalAppend(a: seq<Text>, b: seq<Text>)
    ensures TotalEstimate(a + b) == TotalEstimate(a) + TotalEstimate(b)
  {
    hide Estimate;
    if a == [] {
      assert a + b == b;
    } else {
      assert (a + b)[1..] == a[1..] + b;
      TotalAppend(a[1..], b);
    }
  }

  lemma {:induction false} LongerJoin(a: seq<Text>, b: seq<Text>)
    ensures |Joined(a + b)| >= |Joined(b)|
  {
    if a == [] {
      assert a + b == b;
    } else if b == [] {
      assert Joined(b) == [];
    } else {
      JoinedAppend(a, b);
    }
  }

  /** If a longer list fits both budgets then so does putting its last part before the kept ones. */
  lemma {:induction false} FittingInside(older: seq<Text>, value: Text, kept: Kept, budget: int, tokenBudget: int)
    requires Measured(kept)
    requires |Joined(older + [value] + kept.parts)| <= budget && TotalEstimate(older + [value] + kept.parts) <= tokenBudget
    ensures Fitting(kept, value, budget, tokenBudget)
  {
    hide Estimate;
    var tail := [value] + kept.parts;
    assert older + [value] + kept.parts == older + tail;
    LongerJoin(older, tail);
    TotalAppend(older, tail);
    JoinedCons(value, kept.parts);
    assert tail[1..] == kept.parts;
  }

  lemma {:induction false} AllLayersKept(units: seq<Unit>, kept: Kept, budget: nat, tokenBudget: nat, pictographic: Pictographs)
    requires WellFormed(units) && Measured(kept)
    requires var all := InstructionValues(units) + kept.parts; |Joined(all)| <= budget && TotalEstimate(all) <= tokenBudget
    ensures KeepInstructions(Segments(units), kept, budget, tokenBudget, pictographic).parts == InstructionValues(units) + kept.parts
    decreases |units|
  {
    hide Estimate, Segments, Joined, TotalEstimate, Measured;
    SegmentCount(units);
    if units != [] {
      var n := |units| - 1;
      assert units[n] in units;
      SegmentsSnoc(units);
      if units[n].instruction {
        var value := units[n].value;
        var older := InstructionValues(units[..n]);
        FittingInside(older, value, kept, budget, tokenBudget);
        RenderedCosts(value);
        PrependMeasured(kept, value);
        assert older + [value] + kept.parts == older + ([value] + kept.parts);
        AllLayersKept(units[..n], Prepend(kept, value), budget, tokenBudget, pictographic);
      } else {
        assert InstructionValues(units) == InstructionValues(units[..n]);
        AllLayersKept(units[..n], kept, budget, tokenBudget, pictographic);
      }
    }
  }

  lemma {:induction false} LayersAreWhole(units: seq<Unit>, maxCharacters: nat, maxTokens: nat, pictographic: Pictographs)
    requires WellFormed(units) && LayersFit(units, maxCharacters, maxTokens)
    ensures Layers(Segments(units), maxCharacters, maxTokens, pictographic).parts == InstructionValues(units)
  {
    hide Estimate, Segments, Joined, TotalEstimate, KeepInstructions;
    NothingIsMeasured();
    assert InstructionValues(units) + [] == InstructionValues(units);
    AllLayersKept(units, NOTHING, maxCharacters / 3, maxTokens / 3, pictographic);
  }

  /** The history loop takes at least a list of newest turns that fits. */
  lemma {:induction false} FittingTurnsKept(segments: seq<Segment>, older: seq<Text>, active: seq<Text>, budget: int, tokenBudget: int)
    requires Turns(segments) == older + active && budget >= 0
    requires active == [] || (|Joined(active)| <= budget && TotalEstimate(active) <= tokenBudget)
    ensures var kept := KeepHistory(segments, NOTHING, budget, tokenBudget).kept.parts;
            |active| <= |kept| <= |older + active| && kept == (older + active)[|older + active| - |kept|..]
  {
    hide Estimate, KeepHistory, Turns, Joined, TotalEstimate, Measured, Fitting;
    NothingIsMeasured();
    HistoryIsNewestRun(segments, NOTHING, budget, tokenBudget);
    HistoryStaysInside(segments, NOTHING, budget, tokenBudget);
    var filled := KeepHistory(segments, NOTHING, budget, tokenBudget);
    var kept := filled.kept.parts;
    var turns := older + active;
    var n := |kept|;
    assert kept == turns[|turns| - n..] by { assert turns[|turns| - n..] + [] == turns[|turns| - n..]; }
    if n < |active| {
      var i := |active| - n - 1;
      assert turns[|turns| - n - 1] == active[i];
      assert active[..i] + [active[i]] + kept == active;
      FittingInside(active[..i], active[i], filled.kept, budget, tokenBudget);
      assert false;
    }
  }

  // ---- the theorem ------------------------------------------------------------------------

  lemma {:induction false} ActiveIsSuffix(units: seq<Unit>)
    ensures TurnValues(units) == TurnValues(units[..ActiveStart(units)]) + Active(units)
  {
    var start := ActiveStart(units);
    assert units == units[..start] + units[start..];
    ValuesAppend(units[..start], units[start..]);
  }

  lemma {:induction false} SomethingToSay(units: seq<Unit>)
    requires units != [] && WellFormed(units)
    ensures InstructionValues(units) != [] || Active(units) != []
  {
    ValuesRendered(units);
    if LastUser(units) >= 0 {
      assert units[LastUser(units)] in units;
      assert units[LastUser(units)..][0] == units[LastUser(units)];
    } else {
      assert units[0..] == units;
    }
  }

  /** The history part of a prompt: perhaps the truncation marker, then turns. */
  function History(marked: bool, turns: seq<Text>): seq<Text> {
    (if marked then [ContextMarker()] else []) + turns
  }

  /** The prompt made of all instruction layers, perhaps the marker, and the turns from number k on. */
  function PromptFrom(units: seq<Unit>, marked: bool, k: nat): Text
    requires k <= |TurnValues(units)|
  {
    Joined(Parts(Joined(InstructionValues(units)), History(marked, TurnValues(units)[k..])))
  }

  lemma {:induction false} PromptFromIsNotBlank(units: seq<Unit>, marked: bool, k: nat)
    requires units != [] && WellFormed(units) && k <= |TurnValues(units)| - |Active(units)|
    ensures !IsBlank(PromptFrom(units, marked, k))
  {
    hide Estimate, InstructionValues, Active, TurnValues, ContextMarker, Joined;
    SomethingToSay(units);
    ValuesRendered(units);
    var instruction := Joined(InstructionValues(units));
    JoinedRendered(InstructionValues(units));
    assert IsRendered(ContextMarker()) by { ContextMarkerIsRendered(); }
    var parts := Parts(instruction, History(marked, TurnValues(units)[k..]));
    assert AllRendered(parts) && parts != [];
    JoinedRendered(parts);
  }

  lemma {:induction false} ContextMarkerIsRendered()
    ensures IsRendered(ContextMarker())
  {
  }

  /**
   If the instruction layers fit their third and the check passes, the prompt
   keeps every layer and, verbatim and in order, the turns from some point on
   that is no later than the start of the active turn.
   */
  lemma {:induction false} CurrentTurnIsKept(units: seq<Unit>, maxCharacters: nat, maxTokens: nat, pictographic: Pictographs)
    requires units != [] && WellFormed(units) && LayersFit(units, maxCharacters, maxTokens)
    requires CurrentTurnFits(units, maxCharacters, maxTokens)
    ensures exists marked: bool, k: nat | k <= |TurnValues(units)| - |Active(units)| ::
              Chat(units, maxCharacters, maxTokens, pictographic) == Prompt(PromptFrom(units, marked, k))
  {
    hide Estimate, InstructionValues, TurnValues, Active, ContextMarker, Joined, KeepHistory, Layers, Segments, TotalEstimate,
      CurrentTurnFits, Fitting, IsBlank;
    var segments, turns, active := Segments(units), TurnValues(units), Active(units);
    var instruction := Joined(InstructionValues(units));
    var budget, tokenBudget := HistoryBudget(instruction, maxCharacters), maxTokens - Estimate(instruction);
    LayersAreWhole(units, maxCharacters, maxTokens, pictographic);
    CheckIsExact(units, maxCharacters, maxTokens);
    TurnsAreTurnValues(units);
    ActiveIsSuffix(units);
    FittingTurnsKept(segments, TurnValues(units[..ActiveStart(units)]), active, budget, tokenBudget);
    var filled := KeepHistory(segments, NOTHING, budget, tokenBudget);
    var marked := filled.overflow && Fitting(filled.kept, ContextMarker(), budget, tokenBudget);
    var k := |turns| - |filled.kept.parts|;
    assert Newest(segments, instruction, maxCharacters, maxTokens) == History(marked, turns[k..]);
    ClosingCheckFiresOnInstructions(segments, maxCharacters, maxTokens, pictographic);
    JoinedEstimate(InstructionValues(units));
    PromptFromIsNotBlank(units, marked, k);
    assert Chat(units, maxCharacters, maxTokens, pictographic) == Prompt(PromptFrom(units, marked, k));
  }
}
