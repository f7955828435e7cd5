/** Which tool each content block announces, and why a message ends (src/anthropic.ts:604-794). */
module AnthropicTools {
  import opened Utf16
  import opened AnthropicEvents
  import opened UpstreamDeltas
  import opened AnthropicBlocks
  import opened AnthropicRuns

  // ---- the specification: id and name by recursion over the input --------------------------------

  /** The id or the name in one call delta. */
  function Part(c: CallDelta, name: bool): Text {
    if !c.Call? then [] else if name then TextIn(c.name) else TextIn(c.id)
  }

  function Either(first: Text, second: Text): Text {
    if first != [] then first else second
  }

  /** The first one given for `tool` in one tool_calls array; empty if none is. */
  function GivenByCalls(calls: seq<CallDelta>, tool: nat, name: bool): Text {
    if calls == [] then []
    else
      var last := |calls| - 1;
      Either(GivenByCalls(calls[..last], tool, name),
             if calls[last].Call? && ToolOf(calls[last], last) == tool then Part(calls[last], name) else [])
  }

  /** The first one given for `tool` in the whole input. */
  function FirstGiven(input: seq<Payload>, tool: nat, name: bool): Text {
    if input == [] then []
    else
      var last := input[|input| - 1];
      Either(FirstGiven(input[..|input| - 1], tool, name), if last.Chunk? then GivenByCalls(last.calls, tool, name) else [])
  }

  /** The kinds under which blocks of this number were announced. */
  function KindsAt(out: seq<Event>, block: nat): seq<BlockKind> {
    if out == [] then []
    else
      var last := out[|out| - 1];
      KindsAt(out[..|out| - 1], block) + if last.BlockStart? && last.index == block then [last.kind] else []
  }

  lemma {:induction false} KindsSnoc(out: seq<Event>, e: Event)
    ensures forall b: nat :: KindsAt(out + [e], b) == KindsAt(out, b) + if e.BlockStart? && e.index == b then [e.kind] else []
  {
    assert (out + [e])[..|out|] == out;
  }

  // ---- block kinds of a view --------------------------------------------------------------------

  predicate HasBlock(tools: ToolStreams, b: nat) {
    exists i :: i in tools && tools[i].blockIndex == b
  }

  /** Each block was announced once: a tool's block under its id and name, any other block as text. */
  ghost predicate KindsFit(v: View) {
    && (forall b: nat :: b > v.blockIndex ==> KindsAt(v.out, b) == [])
    && (forall i :: i in v.tools && v.tools[i].blockIndex >= 0 ==>
          Known(v.tools[i]) && KindsAt(v.out, v.tools[i].blockIndex) == [ToolBlock(v.tools[i].id, v.tools[i].name)])
    && (forall b: nat :: b <= v.blockIndex && !HasBlock(v.tools, b) ==> KindsAt(v.out, b) == [TextBlock])
  }

  /** Blocks, ids and names are as they were. */
  predicate SameBlocks(v: View, w: View) {
    && w.blockIndex == v.blockIndex
    && (forall i :: i in w.tools && w.tools[i].blockIndex >= 0 ==> i in v.tools && v.tools[i].blockIndex >= 0)
    && (forall i :: i in v.tools && v.tools[i].blockIndex >= 0 ==>
          i in w.tools && w.tools[i].blockIndex == v.tools[i].blockIndex && w.tools[i].id == v.tools[i].id && w.tools[i].name == v.tools[i].name)
  }

  lemma {:induction false} SameKindsFit(v: View, w: View)
    requires KindsFit(v) && SameBlocks(v, w) && forall b: nat :: KindsAt(w.out, b) == KindsAt(v.out, b)
    ensures KindsFit(w)
  {
    forall b: nat | b <= w.blockIndex && !HasBlock(w.tools, b) ensures KindsAt(w.out, b) == [TextBlock] {
      assert !HasBlock(v.tools, b);
    }
  }

  lemma {:induction false} ClosedKinds(v: View)
    requires Fits(v) && KindsFit(v)
    ensures KindsFit(Closed(v))
  {
    hide KindsFit, NoStrayJson, PhaseOf;
    KindsSnoc(v.out, BlockStop(if v.blockIndex >= 0 then v.blockIndex else 0));
    SameKindsFit(v, Closed(v));
  }

  lemma {:induction false} SentKinds(v: View, e: Event)
    requires KindsFit(v) && !e.BlockStart?
    ensures KindsFit(Sent(v, e))
  {
    hide KindsFit;
    KindsSnoc(v.out, e);
    SameKindsFit(v, Sent(v, e));
  }

  lemma {:induction false} TextOpenedKinds(v: View)
    requires v.blockIndex >= -1 && KindsFit(v)
    requires forall i :: i in v.tools ==> v.tools[i].blockIndex <= v.blockIndex
    ensures KindsFit(TextOpened(v))
  {
    var w := TextOpened(v);
    KindsSnoc(v.out, BlockStart(v.blockIndex + 1, TextBlock));
    assert [] + [TextBlock] == [TextBlock];
    forall b: nat | b <= w.blockIndex && !HasBlock(w.tools, b) ensures KindsAt(w.out, b) == [TextBlock] {
      assert b <= v.blockIndex ==> !HasBlock(v.tools, b);
    }
  }

  lemma {:induction false} ToolOpenedKinds(v: View, i: nat)
    requires v.blockIndex >= -1 && KindsFit(v) && i in v.tools && v.tools[i].blockIndex < 0 && Known(v.tools[i])
    requires forall i :: i in v.tools ==> v.tools[i].blockIndex <= v.blockIndex
    ensures KindsFit(ToolOpened(v, i))
  {
    var w := ToolOpened(v, i);
    var kind := ToolBlock(v.tools[i].id, v.tools[i].name);
    KindsSnoc(v.out, BlockStart(v.blockIndex + 1, kind));
    assert [] + [kind] == [kind];
    assert w.tools[i].blockIndex == v.blockIndex + 1;
    forall b: nat | HasBlock(v.tools, b) ensures HasBlock(w.tools, b) {
      var j :| j in v.tools && v.tools[j].blockIndex == b;
      assert w.tools[j].blockIndex == b;
    }
  }

  lemma {:induction false} SentJsonKinds(v: View, t: Text)
    requires v.blockIndex >= 0 && KindsFit(v)
    ensures KindsFit(SentJson(v, t))
  {
    hide KindsFit;
    if t != [] {
      SentKinds(v, JsonDelta(v.blockIndex, t));
    }
  }

  lemma {:induction false} WithTextKinds(v: View, t: Text)
    requires Fits(v) && KindsFit(v)
    ensures KindsFit(WithText(v, t))
  {
    hide KindsFit, NoStrayJson, PhaseOf, TextOf, Carried;
    if t != [] {
      var c := if v.current.TextOpen? then v else Closed(v);
      if !v.current.TextOpen? {
        ClosedFits(v);
        ClosedKinds(v);
        TextOpenedKinds(c);
      }
      var o := if v.current.TextOpen? then c else TextOpened(c);
      SentKinds(o, TextDelta(o.blockIndex, t));
    }
  }

  lemma {:induction false} NamedKinds(v: View, c: CallDelta, i: nat)
    requires Fits(v) && KindsFit(v) && c.Call?
    requires !Conflicts(ToolState0(v, i).id, c.id) && !Conflicts(ToolState0(v, i).name, c.name)
    ensures KindsFit(WithNames(v, c, i)) && i in WithNames(v, c, i).tools
  {
    hide KindsFit, NoStrayJson, AtPhase;
    SameKindsFit(v, WithNames(v, c, i));
  }

  lemma {:induction false} OpenedKinds(v: View, i: nat, t: Text)
    requires Fits(v) && KindsFit(v) && i in v.tools && Known(v.tools[i]) && !v.tools[i].closed && v.active != Tool(i)
    ensures Fits(Closed(v)) && i in Closed(v).tools && Closed(v).blockIndex >= -1
    ensures KindsFit(SentJson(SentJson(ToolOpened(Closed(v), i), v.tools[i].pending), t))
  {
    hide KindsFit, NoStrayJson, PhaseOf, TextOf, Carried, SentJson;
    ClosedFits(v);
    ClosedKinds(v);
    assert Closed(v).tools[i] == v.tools[i] && v.tools[i].blockIndex < 0;
    ToolOpenedKinds(Closed(v), i);
    var o := ToolOpened(Closed(v), i);
    SentJsonKinds(o, v.tools[i].pending);
    assert SentJson(o, v.tools[i].pending).blockIndex == o.blockIndex by { JsonKeepsIndex(o, v.tools[i].pending); }
    SentJsonKinds(SentJson(o, v.tools[i].pending), t);
  }

  lemma {:induction false} JsonKeepsIndex(v: View, t: Text)
    requires v.blockIndex >= 0
    ensures SentJson(v, t).blockIndex == v.blockIndex && SentJson(v, t).tools == v.tools
  {
  }

  lemma {:induction false} PlacedKinds(v: View, i: nat, t: Text)
    requires Fits(v) && KindsFit(v) && i in v.tools && Placeable(v, i, t)
    ensures KindsFit(Placed(v, i, t))
  {
    hide KindsFit, NoStrayJson, PhaseOf, SentJson, Closed, ToolOpened;
    if !Known(v.tools[i]) {
      assert v.tools[i].blockIndex < 0;
      SameKindsFit(v, Buffered(v, i, t));
    } else if v.active == Tool(i) {
      SentJsonKinds(v, t);
    } else {
      OpenedKinds(v, i, t);
    }
  }

  lemma {:induction false} AfterCallsKinds(v: View, calls: seq<CallDelta>)
    requires Fits(v) && KindsFit(v)
    ensures KindsFit(AfterCalls(v, calls).0)
    decreases |calls|
  {
    hide KindsFit, Fits, Placed, WithNames, Conflicts;
    if calls != [] {
      var last := |calls| - 1;
      AfterCallsKinds(v, calls[..last]);
      var before := AfterCalls(v, calls[..last]);
      if before.1 && !Rejects(before.0, calls[last], last) {
        var i := ToolOf(calls[last], last);
        NamingFits(before.0, calls[last], i);
        NamedKinds(before.0, calls[last], i);
        PlacedKinds(WithNames(before.0, calls[last], i), i, TextIn(calls[last].arguments));
      }
    }
  }

  lemma {:induction false} TerminalKinds(v: View, reason: StopReason)
    requires Fits(v) && KindsFit(v)
    ensures KindsFit(Terminal(v, reason).view)
  {
    hide KindsFit, NoStrayJson, PhaseOf;
    ClosedKinds(v);
    SentKinds(Closed(v), MessageDelta(reason));
    SentKinds(Sent(Closed(v), MessageDelta(reason)), MessageStop);
  }

  lemma {:induction false} ConsumedKinds(v: View, p: Payload)
    requires Fits(v) && KindsFit(v)
    ensures KindsFit(Consumed(v, p).view)
  {
    hide KindsFit, Fits, AfterCalls, WithText, Ready, Terminal;
    var last := v;
    if p.Chunk? {
      WithTextKinds(v, p.content);
      AfterCallsKinds(WithText(v, p.content), p.calls);
      last := AfterCalls(WithText(v, p.content), p.calls).0;
    }
    SentKinds(last, ErrorEvent);
    SentKinds(last, Ping);
    TerminalKinds(last, ReasonFor(p, last.tools != map[]));
  }

  lemma {:induction false} RunKinds(input: seq<Payload>)
    ensures KindsFit(Run(input).view)
    decreases |input|
  {
    hide KindsFit, Consumed;
    if input == [] {
      StartKinds();
    } else {
      RunKinds(input[..|input| - 1]);
      var before := Run(input[..|input| - 1]);
      if before.stage == Running {
        ConsumedKinds(before.view, input[|input| - 1]);
      }
    }
  }

  lemma {:induction false} StartKinds()
    ensures KindsFit(Initial().view)
  {
    KindsSnoc([], MessageStart);
    assert [] + [MessageStart] == [MessageStart];
  }

  // ---- ids and names of a view ---------------------------------------------------------------------

  function PartOf(v: View, i: nat, name: bool): Text {
    if i !in v.tools then [] else if name then v.tools[i].name else v.tools[i].id
  }

  lemma {:induction false} NamingKeepsFirst(v: View, c: CallDelta, i: nat)
    requires c.Call? && !Conflicts(ToolState0(v, i).id, c.id) && !Conflicts(ToolState0(v, i).name, c.name)
    ensures forall j: nat, name :: PartOf(WithNames(v, c, i), j, name) == Either(PartOf(v, j, name), if j == i then Part(c, name) else [])
  {
  }

  lemma {:induction false} PlacingKeepsNames(v: View, i: nat, t: Text)
    requires Fits(v) && i in v.tools && Placeable(v, i, t)
    ensures forall j: nat, name :: PartOf(Placed(v, i, t), j, name) == PartOf(v, j, name)
  {
    hide ToolsFit, NoStrayJson, PhaseOf;
  }

  /** What the accepted calls gave is known; what is known is what was given first, also when a later call is rejected. */
  lemma {:induction false} CallsGive(v: View, calls: seq<CallDelta>, j: nat, name: bool)
    requires Fits(v)
    ensures var r := AfterCalls(v, calls); var given := Either(PartOf(v, j, name), GivenByCalls(calls, j, name));
      (r.1 || PartOf(r.0, j, name) != [] ==> PartOf(r.0, j, name) == given)
    decreases |calls|
  {
    hide Fits, Placed, WithNames, Conflicts, Part, PartOf;
    if calls != [] {
      var last := |calls| - 1;
      CallsGive(v, calls[..last], j, name);
      var before := AfterCalls(v, calls[..last]);
      if before.1 && !Rejects(before.0, calls[last], last) {
        var i := ToolOf(calls[last], last);
        NamingFits(before.0, calls[last], i);
        NamingKeepsFirst(before.0, calls[last], i);
        NamedIsThere(before.0, calls[last], i);
        PlacingKeepsNames(WithNames(before.0, calls[last], i), i, TextIn(calls[last].arguments));
      }
    }
  }

  lemma {:induction false} NamedIsThere(v: View, c: CallDelta, i: nat)
    requires c.Call?
    ensures i in WithNames(v, c, i).tools
  {
  }

  lemma {:induction false} ConsumedGives(v: View, p: Payload, j: nat, name: bool)
    requires Fits(v)
    ensures var s := Consumed(v, p);
      var given := Either(PartOf(v, j, name), if p.Chunk? then GivenByCalls(p.calls, j, name) else []);
      (s.stage != Broken || PartOf(s.view, j, name) != [] ==> PartOf(s.view, j, name) == given)
  {
    hide Fits, AfterCalls, WithText, Ready, Closed, Terminal, PartOf;
    if p.Chunk? {
      TextKeepsNames(v, p.content, j, name);
      CallsGive(WithText(v, p.content), p.calls, j, name);
      var last := AfterCalls(WithText(v, p.content), p.calls).0;
      EndKeepsNames(last, ReasonFor(p, last.tools != map[]), j, name);
    } else {
      EndKeepsNames(v, ReasonFor(p, v.tools != map[]), j, name);
    }
  }

  lemma {:induction false} TextKeepsNames(v: View, t: Text, j: nat, name: bool)
    requires Fits(v)
    ensures PartOf(WithText(v, t), j, name) == PartOf(v, j, name)
  {
    hide NoStrayJson, PhaseOf, JsonOf;
  }

  lemma {:induction false} EndKeepsNames(v: View, reason: StopReason, j: nat, name: bool)
    requires Fits(v)
    ensures PartOf(Terminal(v, reason).view, j, name) == PartOf(v, j, name)
    ensures forall e :: PartOf(Sent(v, e), j, name) == PartOf(v, j, name)
  {
    hide NoStrayJson, PhaseOf, JsonOf;
  }

  lemma {:induction false} RunGives(input: seq<Payload>, j: nat, name: bool)
    ensures var s := Run(input); var given := FirstGiven(Taken(input), j, name);
      (s.stage != Broken || PartOf(s.view, j, name) != [] ==> PartOf(s.view, j, name) == given)
    decreases |input|
  {
    hide Consumed, Fits, GivenByCalls, PartOf;
    if input == [] {
      assert PartOf(Initial().view, j, name) == [] by { NothingNamed(j, name); }
    } else {
      var before, p := input[..|input| - 1], input[|input| - 1];
      RunGives(before, j, name);
      if Run(before).stage == Running {
        ConsumedGives(Run(before).view, p, j, name);
        var taken := Taken(before);
        assert (taken + [p])[..|taken|] == taken;
        if p.Blank? {
          assert Run(input) == Run(before) by { BlankChangesNothing(Run(before).view); }
        }
      }
    }
  }

  lemma {:induction false} NothingNamed(j: nat, name: bool)
    ensures PartOf(Initial().view, j, name) == []
  {
  }

  lemma {:induction false} BlankChangesNothing(v: View)
    requires Fits(v)
    ensures Consumed(v, Blank) == Stream(v, Running)
  {
  }

  // ---- main results -------------------------------------------------------------------------------

  /**
   At every moment of every run: each block has been announced once; a tool's block under the id and the name that
   the input gave for that tool first, every other block as text.
   */
  lemma {:induction false} BlocksAnnounceTheirTools(input: seq<Payload>)
    ensures var v := Run(input).view; var taken := Taken(input);
      && (forall i :: i in v.tools && v.tools[i].blockIndex >= 0 ==>
            KindsAt(v.out, v.tools[i].blockIndex) == [ToolBlock(FirstGiven(taken, i, false), FirstGiven(taken, i, true))])
      && (forall b: nat :: b <= v.blockIndex && !HasBlock(v.tools, b) ==> KindsAt(v.out, b) == [TextBlock])
      && (forall b: nat :: b > v.blockIndex ==> KindsAt(v.out, b) == [])
  {
    hide Run, Taken, FirstGiven, KindsAt;
    RunKinds(input);
    var v := Run(input).view;
    forall i | i in v.tools && v.tools[i].blockIndex >= 0
      ensures KindsAt(v.out, v.tools[i].blockIndex) == [ToolBlock(FirstGiven(Taken(input), i, false), FirstGiven(Taken(input), i, true))]
    {
      RunGives(input, i, false);
      RunGives(input, i, true);
    }
  }

  /** A finished tool_use message: every tool the input named has one block, announced as that tool, with all its arguments. */
  lemma {:induction false} ToolUseIsFaithful(input: seq<Payload>, i: nat)
    requires Run(input).stage == Finished(ToolUse) && i in Tools(Taken(input))
    ensures var v := Run(input).view; var taken := Taken(input);
      && i in v.tools && v.tools[i].blockIndex >= 0
      && var b := v.tools[i].blockIndex;
      && KindsAt(v.out, b) == [ToolBlock(FirstGiven(taken, i, false), FirstGiven(taken, i, true))]
      && JsonOf(v.out, b) == Fragments(taken, i)
  {
    hide Run, Taken, FirstGiven, KindsAt, JsonOf, Fragments, Tools;
    ToolUseEmitsAllArguments(input);
    BlocksAnnounceTheirTools(input);
  }

  // ---- why a message ends -----------------------------------------------------------------------------

  /** The payload asks for the end of the message. */
  predicate Ends(p: Payload) {
    p.DoneMarker? || (p.Chunk? && !p.finish.Unfinished?)
  }

  lemma {:induction false} ConsumedEnds(v: View, p: Payload)
    requires Fits(v) && Consumed(v, p).stage.Finished?
    ensures var s := Consumed(v, p); var out := s.view.out; var anyTool := s.view.tools != map[];
      && Ends(p)
      && |out| >= 2 && out[|out| - 2] == MessageDelta(s.stage.reason) && out[|out| - 1] == MessageStop
      && s.stage.reason == if p.Chunk? && p.finish.Length? then MaxTokens
                           else if anyTool || (p.Chunk? && p.finish.ToolCalls?) then ToolUse else EndTurn
  {
    hide NoStrayJson, PhaseOf, AfterCalls, WithText, Ready, JsonOf;
    var last := if p.Chunk? then AfterCalls(WithText(v, p.content), p.calls).0 else v;
    ClosedKeepsTools(last);
  }

  lemma {:induction false} ClosedKeepsTools(v: View)
    requires Fits(v)
    ensures Closed(v).tools.Keys == v.tools.Keys && (Closed(v).tools == map[] <==> v.tools == map[])
  {
    hide NoStrayJson, PhaseOf, JsonOf;
    assert forall m: ToolStreams :: m == map[] <==> m.Keys == {};
  }

  /**
   The stop reason: max_tokens exactly for a finish reason of length; otherwise tool_use exactly when the input named
   a tool or asks for tool calls; otherwise end_turn. The output ends with that reason and message_stop.
   */
  lemma {:induction false} StopReasonIsExact(input: seq<Payload>)
    requires Run(input).stage.Finished?
    ensures var taken := Taken(input); var out, reason := Run(input).view.out, Run(input).stage.reason;
      && taken != [] && var p := taken[|taken| - 1];
      && Ends(p)
      && |out| >= 2 && out[|out| - 2] == MessageDelta(reason) && out[|out| - 1] == MessageStop
      && reason == if p.Chunk? && p.finish.Length? then MaxTokens
                   else if Tools(taken) != {} || (p.Chunk? && p.finish.ToolCalls?) then ToolUse else EndTurn
    decreases |input|
  {
    hide Consumed, Fits, Tools;
    ContentIsConserved(input);
    var before, p := input[..|input| - 1], input[|input| - 1];
    if Run(before).stage != Running {
      StopReasonIsExact(before);
    } else {
      ConsumedEnds(Run(before).view, p);
      var tools := Run(input).view.tools;
      assert tools == map[] <==> tools.Keys == {};
    }
  }
}
