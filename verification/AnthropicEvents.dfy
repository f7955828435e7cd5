/** The Anthropic event stream, and the output grammar the gateway promises for it (README.md:464). */
module AnthropicEvents {
  import opened Utf16

  datatype StopReason = ToolUse | MaxTokens | EndTurn

  datatype BlockKind = TextBlock | ToolBlock(id: Text, name: Text)

  datatype Event =
    | MessageStart
    | BlockStart(index: nat, kind: BlockKind)
    | TextDelta(index: nat, text: Text)
    | JsonDelta(index: nat, json: Text)
    | BlockStop(index: nat)
    | MessageDelta(reason: StopReason)
    | MessageStop
    | ErrorEvent
    | Ping

  /** Where a well-formed stream stands. */
  datatype Phase =
    | Unopened
    | Between(next: nat)
    | InText(index: nat)
    | InTool(index: nat)
    | Closing
    | Stopped
    | Failed
    | Malformed

  predicate IsOpen(p: Phase) {
    p.Between? || p.InText? || p.InTool?
  }

  function Advance(p: Phase, e: Event): Phase {
    match e
    case MessageStart => if p.Unopened? then Between(0) else Malformed
    case BlockStart(i, kind) =>
      if p == Between(i) then (if kind.TextBlock? then InText(i) else InTool(i)) else Malformed
    case TextDelta(i, _) => if p == InText(i) then p else Malformed
    case JsonDelta(i, _) => if p == InTool(i) then p else Malformed
    case BlockStop(i) => if p == InText(i) || p == InTool(i) then Between(i + 1) else Malformed
    case MessageDelta(_) => if p.Between? then Closing else Malformed
    case MessageStop => if p.Closing? then Stopped else Malformed
    case ErrorEvent => if IsOpen(p) then Failed else Malformed
    case Ping => if IsOpen(p) then p else Malformed
  }

  /** The phase after a whole output; the output is well formed iff this is not Malformed. */
  function PhaseOf(out: seq<Event>): Phase {
    if out == [] then Unopened else Advance(PhaseOf(out[..|out| - 1]), out[|out| - 1])
  }

  /** All text_delta text, in order. */
  function TextOf(out: seq<Event>): Text {
    if out == [] then []
    else TextOf(out[..|out| - 1]) + (match out[|out| - 1] case TextDelta(_, t) => t case _ => [])
  }

  /** All input_json_delta text of one block, in order. */
  function JsonOf(out: seq<Event>, block: int): Text {
    if out == [] then []
    else JsonOf(out[..|out| - 1], block) + JsonPiece(out[|out| - 1], block)
  }

  function JsonPiece(e: Event, block: int): Text {
    match e
    case JsonDelta(i, json) => if i == block then json else []
    case _ => []
  }

  lemma {:induction false} Appended(out: seq<Event>, e: Event)
    ensures PhaseOf(out + [e]) == Advance(PhaseOf(out), e)
    ensures TextOf(out + [e]) == TextOf(out) + (match e case TextDelta(_, t) => t case _ => [])
    ensures forall b :: JsonOf(out + [e], b) == JsonOf(out, b) + JsonPiece(e, b)
  {
    assert (out + [e])[..|out|] == out;
  }

  // ---- what the grammar means ------------------------------------------------------

  lemma {:induction false} PrefixesAreWellFormed(out: seq<Event>, k: nat)
    requires PhaseOf(out) != Malformed && k <= |out|
    ensures PhaseOf(out[..k]) != Malformed
    decreases |out| - k
  {
    if k < |out| {
      PrefixesAreWellFormed(out, k + 1);
      assert out[..k + 1][..k] == out[..k];
    } else {
      assert out[..k] == out;
    }
  }

  /** message_stop or error comes at most once, and nothing follows it. */
  lemma {:induction false} TerminalIsLast(out: seq<Event>, k: nat)
    requires PhaseOf(out) != Malformed && k < |out| && (out[k].MessageStop? || out[k].ErrorEvent?)
    ensures k == |out| - 1
  {
    assert out[..k + 1][..k] == out[..k];
    PrefixesAreWellFormed(out, k + 1);
    if k + 1 < |out| {
      assert out[..k + 2][..k + 1] == out[..k + 1];
      PrefixesAreWellFormed(out, k + 2);
      assert false;
    }
  }

  lemma {:induction false} OpeningIsFirst(out: seq<Event>, k: nat)
    requires PhaseOf(out) != Malformed && k < |out|
    ensures out[k].MessageStart? <==> k == 0
  {
    assert out[..k + 1][..k] == out[..k];
    PrefixesAreWellFormed(out, k + 1);
    if k > 0 {
      PrefixesAreWellFormed(out, k);
      UnopenedIsEmpty(out[..k]);
    }
  }

  lemma {:induction false} UnopenedIsEmpty(out: seq<Event>)
    ensures PhaseOf(out).Unopened? ==> out == []
  {
  }

  function BlocksStarted(out: seq<Event>): nat {
    if out == [] then 0
    else BlocksStarted(out[..|out| - 1]) + if out[|out| - 1].BlockStart? then 1 else 0
  }

  /** The k-th block to start carries index k, and it starts with no block open. */
  lemma {:induction false} BlocksAreNumbered(out: seq<Event>)
    requires PhaseOf(out) != Malformed && out != []
    ensures PhaseOf(out).Between? ==> PhaseOf(out).next == BlocksStarted(out)
    ensures PhaseOf(out).InText? || PhaseOf(out).InTool? ==> PhaseOf(out).index + 1 == BlocksStarted(out)
    ensures out[|out| - 1].BlockStart? ==> out[|out| - 1].index == BlocksStarted(out[..|out| - 1])
    decreases |out|
  {
    var before := out[..|out| - 1];
    if before != [] {
      BlocksAreNumbered(before);
    } else {
      assert PhaseOf(before) == Unopened;
    }
  }
}
