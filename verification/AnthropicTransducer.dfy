/** streamingResponse (src/anthropic.ts): the closure variables as fields, its inner functions as methods. */
module AnthropicTransducer {
  import opened Utf16
  import opened AnthropicEvents
  import opened UpstreamDeltas
  import opened AnthropicBlocks
  import opened AnthropicRuns

  class Transducer {
    /** What controller.enqueue received. */
    var out: seq<Event>
    var blockIndex: int
    var blockOpen: bool
    var currentBlock: CurrentBlock
    var activeToolIndex: Active
    var toolStreams: ToolStreams
    var sawTerminal: bool
    var failed: bool
    var cancelled: bool

    /** The payloads consumed before cancellation, whether the buffer cap or the end of the body came after them. */
    ghost var input: seq<Payload>
    ghost var capped: bool
    ghost var ended: bool
    ghost var silent: bool

    predicate Live()
      reads this
    {
      !failed && !cancelled && !sawTerminal
    }

    function Now(): View
      reads this
    {
      View(out, blockIndex, currentBlock, activeToolIndex, toolStreams)
    }

    ghost function Owed(): Stream
      reads this
    {
      if capped then Fail(Run(input).view) else if ended then AtEnd(input) else Run(input)
    }

    /** The output is what the payloads so far call for; a live stream's variables are too. */
    ghost predicate Valid()
      reads this
    {
      && out == (if silent then [] else Owed().view.out)
      && (silent ==> cancelled)
      && (Live() ==> !capped && !ended && Owed() == Stream(Now(), Running) && Consistent())
      && (capped ==> Run(input).stage != Broken)
      && (!cancelled ==> (failed <==> Owed().stage == Broken) && (sawTerminal <==> Run(input).stage.Finished?))
    }

    ghost predicate Consistent()
      reads this
    {
      Live() && Fits(Now()) && (blockOpen <==> !currentBlock.NoBlock?)
    }

    constructor (aborted: bool)
      ensures Valid() && input == [] && cancelled == aborted && Live() == !aborted
      ensures out == if aborted then [] else [MessageStart]
    {
      blockIndex, blockOpen, currentBlock := -1, false, NoBlock;
      activeToolIndex, toolStreams := NoTool, map[];
      sawTerminal, failed, cancelled := false, false, aborted;
      out := if aborted then [] else [MessageStart];
      input, capped, ended, silent := [], false, false, aborted;
    }

    /** The downstream goes away: what was sent stays a well-formed prefix, and nothing follows it. */
    method Cancel()
      requires Valid()
      modifies this`cancelled
      ensures Valid() && cancelled
    {
      cancelled := true;
    }

    method Send(e: Event)
      modifies this`out
      ensures out == if cancelled then old(out) else old(out) + [e]
    {
      if !cancelled {
        out := out + [e];
      }
    }

    method StreamFailure()
      modifies this`failed, this`out
      ensures failed == (old(failed) || !cancelled)
      ensures out == if old(failed) || cancelled then old(out) else old(out) + [ErrorEvent]
    {
      if failed || cancelled {
        return;
      }
      failed := true;
      Send(ErrorEvent);
    }

    method CloseBlock()
      requires Consistent()
      modifies this`out, this`blockOpen, this`currentBlock, this`activeToolIndex, this`toolStreams
      ensures Consistent() && Now() == Closed(old(Now())) && !blockOpen
    {
      ClosedFits(Now());
      if !blockOpen {
        return;
      }
      Send(BlockStop(blockIndex));
      blockOpen := false;
      currentBlock := NoBlock;
      if activeToolIndex.Tool? {
        var state := toolStreams[activeToolIndex.index];
        toolStreams := toolStreams[activeToolIndex.index := state.(closed := true)];
        activeToolIndex := NoTool;
      }
    }

    /** startText and the delta that follows it. */
    method SendText(content: Text)
      requires Consistent() && content != []
      modifies this`out, this`blockIndex, this`blockOpen, this`currentBlock, this`activeToolIndex, this`toolStreams
      ensures Consistent() && Now() == WithText(old(Now()), content)
    {
      hide ToolsFit, NoStrayJson, PhaseOf, TextOf, Carried, JsonOf;
      if !(blockOpen && currentBlock == TextOpen) {
        CloseBlock();
        TextOpenedFits(Now());
        blockIndex := blockIndex + 1;
        blockOpen := true;
        currentBlock := TextOpen;
        Send(BlockStart(blockIndex, TextBlock));
      }
      TextSentFits(Now(), content);
      Send(TextDelta(blockIndex, content));
    }

    /** False when the tool must wait for its metadata, or when the stream failed. */
    method StartTool(index: nat) returns (started: bool)
      requires Consistent() && index in toolStreams
      modifies this`out, this`blockIndex, this`blockOpen, this`currentBlock, this`activeToolIndex, this`toolStreams,
               this`failed
      ensures var v := old(Now()); var st := v.tools[index];
        && (!Known(st) ==> !started && !failed && Now() == v && blockOpen == old(blockOpen))
        && (Known(st) && Elsewhere(v, index) ==> !started && failed && out == v.out + [ErrorEvent])
        && (Known(st) && !Elsewhere(v, index) ==>
              && started && Consistent() && activeToolIndex == Tool(index)
              && Now() == if v.active == Tool(index) then v
                          else (ClosedFits(v); SentJson(ToolOpened(Closed(v), index), st.pending)))
    {
      hide AtPhase, NoStrayJson, PhaseOf, TextOf, Carried, JsonOf, Closed;
      var state := toolStreams[index];
      if state.id == [] || state.name == [] {
        return false;
      }
      if state.closed || (activeToolIndex.Tool? && activeToolIndex.index != index) {
        StreamFailure();
        return false;
      }
      if state.blockIndex >= 0 {
        activeToolIndex := Tool(index);
        return true;
      }
      OpenTool(index);
      return true;
    }

    /** A fresh block for a tool, with the text that waited for it. */
    method OpenTool(index: nat)
      requires Consistent() && index in toolStreams && Known(toolStreams[index])
      requires toolStreams[index].blockIndex < 0 && activeToolIndex != Tool(index)
      modifies this`out, this`blockIndex, this`blockOpen, this`currentBlock, this`activeToolIndex, this`toolStreams
      ensures Consistent() && activeToolIndex == Tool(index)
      ensures var v := old(Now()); Now() == (ClosedFits(v); SentJson(ToolOpened(Closed(v), index), v.tools[index].pending))
    {
      hide ToolsFit, NoStrayJson, PhaseOf, TextOf, Carried, JsonOf;
      var state := toolStreams[index];
      CloseBlock();
      assert toolStreams[index] == state;
      ToolOpenedFits(Now(), index);
      SentJsonFits(ToolOpened(Now(), index), index, state.pending);
      blockIndex := blockIndex + 1;
      blockOpen := true;
      currentBlock := ToolOpen;
      activeToolIndex := Tool(index);
      toolStreams := toolStreams[index := state.(blockIndex := blockIndex, pending := [])];
      Send(BlockStart(blockIndex, ToolBlock(state.id, state.name)));
      if state.pending != [] {
        Send(JsonDelta(blockIndex, state.pending));
      }
    }

    method ToolTerminalReady() returns (ready: bool)
      requires Live()
      modifies this`out, this`failed
      ensures ready == Ready(old(Now()))
      ensures if ready then Live() && out == old(out) else failed && out == old(out) + [ErrorEvent]
    {
      ready := forall i :: i in toolStreams ==>
        toolStreams[i].id != [] && toolStreams[i].name != [] && toolStreams[i].blockIndex >= 0;
      if !ready {
        StreamFailure();
      }
    }

    method EmitTerminal(reason: StopReason)
      requires Consistent()
      modifies this`out, this`blockOpen, this`currentBlock, this`activeToolIndex, this`toolStreams, this`sawTerminal
      ensures sawTerminal && out == Terminal(old(Now()), reason).view.out
    {
      CloseBlock();
      Send(MessageDelta(reason));
      Send(MessageStop);
      sawTerminal := true;
    }

    /** One element of delta.tool_calls. */
    method ConsumeCall(raw: CallDelta, rawIndex: nat) returns (ok: bool)
      requires Consistent()
      modifies this`out, this`blockIndex, this`blockOpen, this`currentBlock, this`activeToolIndex, this`toolStreams,
               this`failed
      ensures ok <==> !Rejects(old(Now()), raw, rawIndex)
      ensures if ok then Consistent() && Now() == AfterCall(old(Now()), raw, rawIndex)
              else failed && out == old(out) + [ErrorEvent]
    {
      hide Fits, PhaseOf, TextOf, Carried, JsonOf, Placed;
      ghost var v := Now();
      if !raw.Call? || raw.index.BadIndex? || raw.id.NotString? || raw.name.NotString? || raw.arguments.NotString? {
        StreamFailure();
        return false;
      }
      var index := if raw.index.Implicit? then rawIndex else raw.index.index;
      var state := if index in toolStreams then toolStreams[index] else ToolState([], [], -1, [], false);
      if raw.id.Str? && raw.id.value != [] {
        if state.id != [] && state.id != raw.id.value {
          StreamFailure();
          return false;
        }
        state := state.(id := raw.id.value);
      }
      if raw.name.Str? && raw.name.value != [] {
        if state.name != [] && state.name != raw.name.value {
          StreamFailure();
          return false;
        }
        state := state.(name := raw.name.value);
      }
      NamingFits(v, raw, index);
      toolStreams := toolStreams[index := state];
      assert Now() == WithNames(v, raw, index);
      ok := PlaceArguments(index, TextIn(raw.arguments));
    }

    /** Argument text goes to its tool's block, or waits until the tool's metadata is known. */
    method PlaceArguments(index: nat, partial: Text) returns (ok: bool)
      requires Consistent() && index in toolStreams
      modifies this`out, this`blockIndex, this`blockOpen, this`currentBlock, this`activeToolIndex, this`toolStreams,
               this`failed
      ensures ok <==> Placeable(old(Now()), index, partial)
      ensures if ok then Consistent() && Now() == Placed(old(Now()), index, partial)
              else failed && out == old(out) + [ErrorEvent]
    {
      hide AtPhase, NoStrayJson, PhaseOf, TextOf, Carried, JsonOf, Closed, ToolOpened;
      ghost var v := Now();
      if Placeable(v, index, partial) {
        PlacedCarries(v, index, partial);
      }
      var state := toolStreams[index];
      var started := StartTool(index);
      if !started && state.id != [] && state.name != [] {
        return false;
      }
      if partial != [] {
        if toolStreams[index].blockIndex < 0 {
          toolStreams := toolStreams[index := state.(pending := state.pending + partial)];
          if |toolStreams[index].pending| > MAX_PENDING_ARGUMENTS {
            StreamFailure();
            return false;
          }
        } else {
          Send(JsonDelta(toolStreams[index].blockIndex, partial));
        }
      }
      if partial == [] && !Known(state) {
        assert state.pending + partial == state.pending;
        assert toolStreams[index := state] == toolStreams;
      }
      return true;
    }

    /** A payload reaches a live stream once; afterwards, and after cancellation, it changes nothing. */
    method Consume(data: Payload)
      requires Valid()
      modifies this
      ensures Valid() && cancelled == old(cancelled) && silent == old(silent) && ended == old(ended) && capped == old(capped)
      ensures input == if old(Live()) then old(input) + [data] else old(input)
    {
      hide Fits, PhaseOf, Closed, AfterCalls, WithText, Ready;
      if failed || cancelled || sawTerminal {
        return;
      }
      assert (input + [data])[..|input|] == input;
      input := input + [data];
      if data.Blank? {
        return;
      }
      if data.DoneMarker? {
        if toolStreams != map[] {
          var ready := ToolTerminalReady();
          if !ready {
            return;
          }
        }
        EmitTerminal(if toolStreams != map[] then ToolUse else EndTurn);
        return;
      }
      if !data.Chunk? {
        StreamFailure();
        return;
      }
      ConsumeChunk(data);
    }

    /** Text, then tool calls, then the finish reason of one choice. */
    method ConsumeChunk(data: Payload)
      requires Consistent() && data.Chunk?
      modifies this`out, this`blockIndex, this`blockOpen, this`currentBlock, this`activeToolIndex, this`toolStreams,
               this`failed, this`sawTerminal
      ensures var s := Consumed(old(Now()), data);
        && out == s.view.out && failed == (s.stage == Broken) && sawTerminal == s.stage.Finished?
        && (s.stage == Running ==> Consistent() && Now() == s.view)
    {
      hide Fits, PhaseOf, Closed, AfterCalls, WithText, Ready;
      NothingToAdd(Now());
      if data.content != [] {
        SendText(data.content);
      }
      var ok := ConsumeCalls(data.calls);
      if !ok {
        return;
      }
      NothingToAdd(Now());
      Conclude(data.finish, data.emptyDelta);
    }

    /** The tool_calls loop of one chunk. */
    method ConsumeCalls(calls: seq<CallDelta>) returns (ok: bool)
      requires Consistent()
      modifies this`out, this`blockIndex, this`blockOpen, this`currentBlock, this`activeToolIndex, this`toolStreams,
               this`failed
      ensures var r := AfterCalls(old(Now()), calls);
        ok == r.1 && if ok then Consistent() && Now() == r.0 else failed && out == r.0.out + [ErrorEvent]
    {
      hide Fits, Rejects, AfterCall;
      ghost var v := Now();
      var rawIndex := 0;
      while rawIndex < |calls|
        invariant 0 <= rawIndex <= |calls|
        invariant Consistent() && AfterCalls(v, calls[..rawIndex]) == (Now(), true)
      {
        assert calls[..rawIndex + 1][..rawIndex] == calls[..rawIndex];
        ok := ConsumeCall(calls[rawIndex], rawIndex);
        if !ok {
          RejectionSticks(v, calls, rawIndex + 1);
          return;
        }
        rawIndex := rawIndex + 1;
      }
      assert calls[..rawIndex] == calls;
      ok := true;
    }

    /** The finish_reason branch of one chunk. */
    method Conclude(finish: Finish, emptyDelta: bool)
      requires Consistent()
      modifies this`out, this`blockOpen, this`currentBlock, this`activeToolIndex, this`toolStreams, this`failed,
               this`sawTerminal
      ensures var v := old(Now()); var s := Consumed(v, Chunk([], [], finish, emptyDelta));
        && out == s.view.out && failed == (s.stage == Broken) && sawTerminal == s.stage.Finished?
        && (s.stage == Running ==> Consistent() && Now() == s.view)
    {
      if !finish.Unfinished? {
        var reason := if finish.ToolCalls? then ToolUse
                      else if finish.Length? then MaxTokens
                      else if toolStreams != map[] then ToolUse else EndTurn;
        if reason == ToolUse {
          var ready := ToolTerminalReady();
          if !ready {
            return;
          }
        }
        EmitTerminal(reason);
      } else if emptyDelta {
        PingFits(Now());
        Send(Ping);
      }
    }

    /** The check behind each read: it looks at `failed`, not at whether the message was finished. */
    method CapExceeded()
      requires Valid() && !ended
      modifies this`out, this`failed, this`capped
      ensures Valid() && input == old(input) && cancelled == old(cancelled)
      ensures capped == (old(capped) || (!old(failed) && !cancelled))
    {
      if !failed {
        StreamFailure();
        capped := capped || !cancelled;
      }
    }

    /** The upstream body ended. */
    method BodyEnded()
      requires Valid() && !ended
      modifies this`out, this`failed, this`ended
      ensures Valid() && input == old(input) && capped == old(capped) && (ended <==> !cancelled)
    {
      if !cancelled {
        ended := true;
        if !failed && !sawTerminal {
          StreamFailure();
        }
      }
    }
  }

  lemma {:induction false} NothingToAdd(v: View)
    requires Fits(v)
    ensures WithText(v, []) == v && AfterCalls(v, []) == (v, true)
  {
  }

  lemma {:induction false} RejectionSticks(v: View, calls: seq<CallDelta>, k: nat)
    requires Fits(v) && k <= |calls| && !AfterCalls(v, calls[..k]).1
    ensures AfterCalls(v, calls) == AfterCalls(v, calls[..k])
    decreases |calls|
  {
    if k == |calls| {
      assert calls[..k] == calls;
    } else {
      assert calls[..|calls| - 1][..k] == calls[..k];
      RejectionSticks(v, calls[..|calls| - 1], k);
    }
  }

  /** What the client has received is well formed unless the cap was exceeded behind a finished message. */
  lemma {:induction false} ReceivedIsWellFormed(t: Transducer)
    requires t.Valid()
    ensures PhaseOf(t.out) == Malformed <==> !t.silent && t.capped && Run(t.input).stage.Finished?
  {
    OutputIsWellFormed(t.input);
    if Run(t.input).stage != Broken {
      CappedPhase(t.input);
    }
  }

  /** One more error is in place while the stream is open, and out of place behind message_stop. */
  lemma {:induction false} CappedPhase(input: seq<Payload>)
    requires Run(input).stage != Broken
    ensures PhaseOf(Fail(Run(input).view).view.out) == if Run(input).stage == Running then Failed else Malformed
  {
    hide Run;
    var s := Run(input);
    assert Sound(s);
    Appended(s.view.out, ErrorEvent);
    if s.stage == Running {
      RunningIsOpen(s.view);
    }
  }
}
