/** What each upstream payload does to the stream, and what holds of every run. */
module AnthropicRuns {
  import opened Utf16
  import opened AnthropicEvents
  import opened UpstreamDeltas
  import opened AnthropicBlocks

  /** MAX_PENDING_TOOL_ARGUMENT_CHARS */
  const MAX_PENDING_ARGUMENTS: nat := 256 * 1024

  datatype Stage = Running | Finished(reason: StopReason) | Broken
  datatype Stream = Stream(view: View, stage: Stage)

  function Initial(): Stream {
    Stream(View([MessageStart], -1, NoBlock, NoTool, map[]), Running)
  }

  predicate Known(st: ToolState) {
    st.id != [] && st.name != []
  }

  function ToolState0(v: View, i: nat): ToolState {
    if i in v.tools then v.tools[i] else ToolState([], [], -1, [], false)
  }

  /** An id or name seen before wins over an empty one; a different one is a conflict. */
  function Merged(known: Text, f: Field): Text {
    if f.Str? && f.value != [] then f.value else known
  }

  predicate Conflicts(known: Text, f: Field) {
    f.Str? && f.value != [] && known != [] && known != f.value
  }

  function WithNames(v: View, c: CallDelta, i: nat): View
    requires c.Call?
  {
    Named(v, i, Merged(ToolState0(v, i).id, c.id), Merged(ToolState0(v, i).name, c.name))
  }

  predicate IllTyped(c: CallDelta) {
    !c.Call? || c.index.BadIndex? || c.id.NotString? || c.name.NotString? || c.arguments.NotString?
  }

  /** The tool's block is over, or another tool's block is open. */
  predicate Elsewhere(v: View, i: nat)
    requires i in v.tools
  {
    v.tools[i].closed || (v.active.Tool? && v.active.index != i)
  }

  /** Argument text for tool i can be sent now, or may wait for the tool's metadata. */
  predicate Placeable(v: View, i: nat, t: Text)
    requires i in v.tools
  {
    && (Known(v.tools[i]) ==> !Elsewhere(v, i))
    && (!Known(v.tools[i]) && t != [] ==> |v.tools[i].pending + t| <= MAX_PENDING_ARGUMENTS)
  }

  /** The stream cannot represent this call delta, so it must fail closed. */
  predicate Rejects(v: View, c: CallDelta, position: nat) {
    || IllTyped(c)
    || (var i := ToolOf(c, position);
        || Conflicts(ToolState0(v, i).id, c.id) || Conflicts(ToolState0(v, i).name, c.name)
        || !Placeable(WithNames(v, c, i), i, TextIn(c.arguments)))
  }

  function SentJson(v: View, t: Text): View
    requires v.blockIndex >= 0
  {
    if t == [] then v else Sent(v, JsonDelta(v.blockIndex, t))
  }

  /** Argument text either waits for its tool's metadata or lands in its tool's block. */
  function Placed(v: View, i: nat, t: Text): View
    requires Fits(v) && i in v.tools && Placeable(v, i, t)
  {
    if !Known(v.tools[i]) then Buffered(v, i, t)
    else if v.active == Tool(i) then SentJson(v, t)
    else
      ClosedFits(v);
      SentJson(SentJson(ToolOpened(Closed(v), i), v.tools[i].pending), t)
  }

  function AfterCall(v: View, c: CallDelta, position: nat): View
    requires Fits(v) && !Rejects(v, c, position)
  {
    var i := ToolOf(c, position);
    NamingFits(v, c, i);
    Placed(WithNames(v, c, i), i, TextIn(c.arguments))
  }

  lemma {:induction false} NamingFits(v: View, c: CallDelta, i: nat)
    requires Fits(v) && c.Call?
    requires !Conflicts(ToolState0(v, i).id, c.id) && !Conflicts(ToolState0(v, i).name, c.name)
    ensures Fits(WithNames(v, c, i)) && forall j: nat :: Carried(WithNames(v, c, i), j) == Carried(v, j)
  {
    NamedFits(v, i, Merged(ToolState0(v, i).id, c.id), Merged(ToolState0(v, i).name, c.name));
  }

  lemma {:induction false} SentJsonFits(v: View, i: nat, t: Text)
    requires Fits(v) && v.active == Tool(i)
    ensures Fits(SentJson(v, t)) && SentJson(v, t).active == Tool(i) && SentJson(v, t).tools == v.tools
    ensures TextOf(SentJson(v, t).out) == TextOf(v.out)
    ensures Carried(SentJson(v, t), i) == Carried(v, i) + t
    ensures forall j: nat :: j != i ==> Carried(SentJson(v, t), j) == Carried(v, j)
  {
    if t != [] {
      JsonSentFits(v, i, t);
    }
  }

  lemma {:induction false} PlacedCarries(v: View, i: nat, t: Text)
    requires Fits(v) && i in v.tools && Placeable(v, i, t)
    ensures var w := Placed(v, i, t);
      && Fits(w) && TextOf(w.out) == TextOf(v.out) && w.tools.Keys == v.tools.Keys
      && Carried(w, i) == Carried(v, i) + t
      && forall j: nat :: j != i ==> Carried(w, j) == Carried(v, j)
  {
    hide Carried, TextOf, AtPhase, NoStrayJson;
    if !Known(v.tools[i]) {
      BufferedFits(v, i, t);
    } else if v.active == Tool(i) {
      SentJsonFits(v, i, t);
    } else {
      OpenedCarries(v, i, t);
    }
  }

  /** An accepted call delta keeps the view consistent and adds exactly its argument text to its tool. */
  lemma {:induction false} AfterCallCarries(v: View, c: CallDelta, position: nat)
    requires Fits(v) && !Rejects(v, c, position)
    ensures var w := AfterCall(v, c, position); var i := ToolOf(c, position);
      && Fits(w) && TextOf(w.out) == TextOf(v.out) && w.tools.Keys == v.tools.Keys + {i}
      && Carried(w, i) == Carried(v, i) + TextIn(c.arguments)
      && forall j: nat :: j != i ==> Carried(w, j) == Carried(v, j)
  {
    hide Carried, TextOf, Fits, Placed;
    var i := ToolOf(c, position);
    NamingFits(v, c, i);
    PlacedCarries(WithNames(v, c, i), i, TextIn(c.arguments));
  }

  lemma {:induction false} ClosedOpenedCarries(c: View, i: nat, t: Text)
    requires Fits(c) && c.current.NoBlock? && i in c.tools && Known(c.tools[i]) && c.tools[i].blockIndex < 0
    ensures c.blockIndex >= -1
    ensures var w := SentJson(SentJson(ToolOpened(c, i), c.tools[i].pending), t);
      && Fits(w) && TextOf(w.out) == TextOf(c.out) && w.tools.Keys == c.tools.Keys
      && Carried(w, i) == Carried(c, i) + t
      && forall j: nat :: j != i ==> Carried(w, j) == Carried(c, j)
  {
    hide ToolsFit, NoStrayJson, Carried, TextOf, JsonOf, SentJson;
    ToolOpenedFits(c, i);
    ToolOpenedCarries(c, i);
    var o := ToolOpened(c, i);
    SentJsonFits(o, i, c.tools[i].pending);
    SentJsonFits(SentJson(o, c.tools[i].pending), i, t);
  }

  lemma {:induction false} OpenedCarries(v: View, i: nat, t: Text)
    requires Fits(v) && i in v.tools && Known(v.tools[i]) && !v.tools[i].closed && v.active != Tool(i)
    ensures Fits(Closed(v)) && i in Closed(v).tools
    ensures var w := SentJson(SentJson(ToolOpened(Closed(v), i), v.tools[i].pending), t);
      && Fits(w) && TextOf(w.out) == TextOf(v.out) && w.tools.Keys == v.tools.Keys
      && Carried(w, i) == Carried(v, i) + t
      && forall j: nat :: j != i ==> Carried(w, j) == Carried(v, j)
  {
    ClosedFits(v);
    assert i in Closed(v).tools && Closed(v).tools[i] == v.tools[i] && v.tools[i].blockIndex < 0;
    ClosedOpenedCarries(Closed(v), i, t);
  }

  /** The calls of one chunk in order, up to the first that is rejected. */
  function AfterCalls(v: View, calls: seq<CallDelta>): (r: (View, bool))
    requires Fits(v)
    ensures Fits(r.0)
  {
    if calls == [] then (v, true)
    else
      var last := |calls| - 1;
      var before := AfterCalls(v, calls[..last]);
      if !before.1 || Rejects(before.0, calls[last], last) then (before.0, false)
      else
        AfterCallCarries(before.0, calls[last], last);
        (AfterCall(before.0, calls[last], last), true)
  }

  lemma {:induction false} AfterCallsCarries(v: View, calls: seq<CallDelta>)
    requires Fits(v)
    ensures var r := AfterCalls(v, calls);
      && TextOf(r.0.out) == TextOf(v.out)
      && (r.1 ==> r.0.tools.Keys == v.tools.Keys + CallTools(calls)
                  && forall j: nat :: Carried(r.0, j) == Carried(v, j) + CallFragments(calls, j))
    decreases |calls|
  {
    hide AfterCall, Conflicts, WithNames, Carried, Fits, TextOf;
    if calls != [] {
      var last := |calls| - 1;
      AfterCallsCarries(v, calls[..last]);
      var before := AfterCalls(v, calls[..last]);
      if before.1 && !Rejects(before.0, calls[last], last) {
        AfterCallCarries(before.0, calls[last], last);
        assert forall j: nat, t: Text ::
          (Carried(v, j) + CallFragments(calls[..last], j)) + t == Carried(v, j) + (CallFragments(calls[..last], j) + t);
      }
    }
  }

  function WithText(v: View, t: Text): (w: View)
    requires Fits(v)
    ensures Fits(w)
  {
    if t == [] then v
    else
      var c := if v.current.TextOpen? then v else (ClosedFits(v); Closed(v));
      var o := if v.current.TextOpen? then c else (TextOpenedFits(c); TextOpened(c));
      TextSentFits(o, t);
      Sent(o, TextDelta(o.blockIndex, t))
  }

  lemma {:induction false} WithTextCarries(v: View, t: Text)
    requires Fits(v)
    ensures var w := WithText(v, t);
      && TextOf(w.out) == TextOf(v.out) + t && w.tools.Keys == v.tools.Keys
      && forall j: nat :: Carried(w, j) == Carried(v, j)
  {
    if t != [] {
      if v.current.TextOpen? {
        TextSentFits(v, t);
      } else {
        ClosedFits(v);
        TextOpenedFits(Closed(v));
        TextSentFits(TextOpened(Closed(v)), t);
      }
    }
  }

  /** toolTerminalReady: every tool has had its block. */
  predicate Ready(v: View) {
    forall i :: i in v.tools ==> Known(v.tools[i]) && v.tools[i].blockIndex >= 0
  }

  function Fail(v: View): Stream {
    Stream(Sent(v, ErrorEvent), Broken)
  }

  function Terminal(v: View, reason: StopReason): Stream
    requires Fits(v)
  {
    Stream(Sent(Sent(Closed(v), MessageDelta(reason)), MessageStop), Finished(reason))
  }

  function Consumed(v: View, p: Payload): Stream
    requires Fits(v)
  {
    match p
    case Blank => Stream(v, Running)
    case DoneMarker =>
      if v.tools != map[] && !Ready(v) then Fail(v) else Terminal(v, ReasonFor(p, v.tools != map[]))
    case Chunk(content, calls, finish, emptyDelta) =>
      var r := AfterCalls(WithText(v, content), calls);
      var reason := ReasonFor(p, r.0.tools != map[]);
      if !r.1 then Fail(r.0)
      else if finish.Unfinished? then Stream(if emptyDelta then Sent(r.0, Ping) else r.0, Running)
      else if reason == ToolUse && !Ready(r.0) then Fail(r.0)
      else Terminal(r.0, reason)
    case _ => Fail(v)
  }

  lemma {:induction false} PingFits(v: View)
    requires Fits(v)
    ensures Fits(Sent(v, Ping)) && SameContent(v, Sent(v, Ping))
  {
    Appended(v.out, Ping);
  }

  ghost predicate Sound(s: Stream) {
    match s.stage
    case Running => Fits(s.view)
    case Finished(_) => PhaseOf(s.view.out) == Stopped
    case Broken => PhaseOf(s.view.out) == Failed
  }

  lemma {:induction false} FailIsSound(v: View)
    requires Fits(v)
    ensures Sound(Fail(v)) && TextOf(Fail(v).view.out) == TextOf(v.out)
  {
    Appended(v.out, ErrorEvent);
  }

  lemma {:induction false} TerminalEvents(out: seq<Event>, reason: StopReason)
    requires PhaseOf(out).Between?
    ensures var w := out + [MessageDelta(reason)] + [MessageStop];
      PhaseOf(w).Stopped? && TextOf(w) == TextOf(out) && forall b :: JsonOf(w, b) == JsonOf(out, b)
  {
    Appended(out, MessageDelta(reason));
    Appended(out + [MessageDelta(reason)], MessageStop);
  }

  lemma {:induction false} TerminalIsSound(v: View, reason: StopReason)
    requires Fits(v)
    ensures Sound(Terminal(v, reason)) && SameContent(v, Terminal(v, reason).view)
  {
    hide NoStrayJson, TextOf, JsonOf, Closed;
    ClosedFits(v);
    TerminalEvents(Closed(v).out, reason);
    assert forall i: nat :: Carried(Terminal(v, reason).view, i) == Carried(Closed(v), i);
  }

  lemma {:induction false} ConsumedIsSound(v: View, p: Payload)
    requires Fits(v)
    ensures Sound(Consumed(v, p))
  {
    hide AfterCalls, WithText, Ready, Fits, PhaseOf, Terminal, Fail, SameContent;
    var last := if p.Chunk? then AfterCalls(WithText(v, p.content), p.calls).0 else v;
    FailIsSound(last);
    TerminalIsSound(last, ReasonFor(p, last.tools != map[]));
    PingFits(last);
  }

  /** What a payload adds to the text and to each tool's arguments, unless it breaks the stream. */
  lemma {:induction false} ConsumedCarries(v: View, p: Payload)
    requires Fits(v) && !p.Blank?
    ensures var s := Consumed(v, p);
      && TextOf(s.view.out) == TextOf(v.out) + (if p.Chunk? then p.content else [])
      && (s.stage != Broken ==>
            && s.view.tools.Keys == v.tools.Keys + (if p.Chunk? then CallTools(p.calls) else {})
            && forall j: nat :: Carried(s.view, j) == Carried(v, j) + if p.Chunk? then CallFragments(p.calls, j) else [])
  {
    hide Carried, Fits, AfterCalls, WithText, TextOf, CallFragments, CallTools, Ready, Sound;
    var last := v;
    if p.Chunk? {
      WithTextCarries(v, p.content);
      AfterCallsCarries(WithText(v, p.content), p.calls);
      last := AfterCalls(WithText(v, p.content), p.calls).0;
    }
    FailIsSound(last);
    TerminalIsSound(last, ReasonFor(p, last.tools != map[]));
    PingFits(last);
  }

  // ---- whole runs ----------------------------------------------------------------------

  /** The stream after a sequence of payloads; a stream that has ended takes no more. */
  function Run(input: seq<Payload>): (s: Stream)
    ensures Sound(s)
  {
    if input == [] then
      StartFits();
      Initial()
    else
      var before := Run(input[..|input| - 1]);
      if before.stage != Running then before
      else
        ConsumedIsSound(before.view, input[|input| - 1]);
        Consumed(before.view, input[|input| - 1])
  }

  lemma {:induction false} StartFits()
    ensures Fits(Initial().view) && TextOf(Initial().view.out) == []
    ensures forall i: nat :: Carried(Initial().view, i) == []
  {
    assert [MessageStart] == [] + [MessageStart];
    Appended([], MessageStart);
  }

  /** The payloads the stream took: those before and including the one that ended it. */
  function Taken(input: seq<Payload>): seq<Payload> {
    if input == [] then []
    else
      var before := input[..|input| - 1];
      if Run(before).stage == Running && !input[|input| - 1].Blank? then Taken(before) + [input[|input| - 1]]
      else Taken(before)
  }

  /** End of the upstream body: a stream that has not ended is reported as disconnected. */
  function AtEnd(input: seq<Payload>): Stream {
    var s := Run(input);
    if s.stage == Running then Fail(s.view) else s
  }

  // ---- main results -----------------------------------------------------------------------

  /**
   Every output is well formed, at every moment and at its end, and a
   completed output ends with exactly one message_stop or error.
   */
  lemma {:induction false} OutputIsWellFormed(input: seq<Payload>)
    ensures PhaseOf(Run(input).view.out) != Malformed
    ensures PhaseOf(AtEnd(input).view.out).Stopped? || PhaseOf(AtEnd(input).view.out).Failed?
  {
    if Run(input).stage == Running {
      FailIsSound(Run(input).view);
    }
  }

  /**
   Nothing sent is ever taken back: a longer input only extends the output,
   and once a terminal event is out no further payload changes anything.
   */
  lemma {:induction false} OutputOnlyGrows(input: seq<Payload>, p: Payload)
    ensures Run(input).view.out <= Run(input + [p]).view.out
    ensures PhaseOf(Run(input).view.out).Stopped? || PhaseOf(Run(input).view.out).Failed?
      ==> Run(input + [p]) == Run(input)
  {
    hide Fits, Consumed;
    assert (input + [p])[..|input|] == input;
    if Run(input).stage == Running {
      ConsumedGrows(Run(input).view, p);
      assert Sound(Run(input));
      RunningIsOpen(Run(input).view);
    }
  }

  lemma {:induction false} RunningIsOpen(v: View)
    requires Fits(v)
    ensures IsOpen(PhaseOf(v.out))
  {
  }

  lemma {:induction false} ConsumedGrows(v: View, p: Payload)
    requires Fits(v)
    ensures v.out <= Consumed(v, p).view.out
  {
    hide Ready, Rejects, PhaseOf, ToolsFit, NoStrayJson, AfterCalls;
    if p.Chunk? {
      CallsGrow(WithText(v, p.content), p.calls);
    }
  }

  lemma {:induction false} CallsGrow(v: View, calls: seq<CallDelta>)
    requires Fits(v)
    ensures v.out <= AfterCalls(v, calls).0.out
    decreases |calls|
  {
    hide Rejects, Fits;
    if calls != [] {
      CallsGrow(v, calls[..|calls| - 1]);
    }
  }

  /**
   Text and arguments are conserved: until the stream breaks, the text sent is
   all text received, and for every tool the arguments sent followed by those
   waiting are all the fragments received.
   */
  lemma {:induction false} ContentIsConserved(input: seq<Payload>)
    ensures var s := Run(input);
      && TextOf(s.view.out) == Contents(Taken(input))
      && (s.stage != Broken ==>
            && s.view.tools.Keys == Tools(Taken(input))
            && forall i: nat :: Carried(s.view, i) == Fragments(Taken(input), i))
    decreases |input|
  {
    hide Carried, Fits, AfterCalls, Terminal, TextOf, CallFragments, CallTools;
    if input == [] {
      StartFits();
    } else {
      var before := input[..|input| - 1];
      var p := input[|input| - 1];
      ContentIsConserved(before);
      if Run(before).stage == Running && !p.Blank? {
        ConsumedCarries(Run(before).view, p);
        InputExtended(Taken(before), p);
      }
    }
  }

  /**
   A stream that ends with stop_reason tool_use has emitted every argument
   fragment of every tool, each tool's in one block of its own.
   */
  lemma {:induction false} ToolUseEmitsAllArguments(input: seq<Payload>)
    requires Run(input).stage == Finished(ToolUse)
    ensures var v := Run(input).view;
      && (forall i :: i in Tools(Taken(input)) ==>
            i in v.tools && v.tools[i].blockIndex >= 0
            && JsonOf(v.out, v.tools[i].blockIndex) == Fragments(Taken(input), i))
      && (forall i, j :: i in v.tools && j in v.tools && i != j ==> v.tools[i].blockIndex != v.tools[j].blockIndex)
    decreases |input|
  {
    ContentIsConserved(input);
    var before := input[..|input| - 1];
    if Run(before).stage != Running {
      ToolUseEmitsAllArguments(before);
    } else {
      FinishedToolsHaveBlocks(Run(before).view, input[|input| - 1]);
    }
    forall i | i in Tools(Taken(input))
      ensures JsonOf(Run(input).view.out, Run(input).view.tools[i].blockIndex) == Fragments(Taken(input), i)
    {
      assert Carried(Run(input).view, i) == Fragments(Taken(input), i);
    }
  }

  /** Every tool of a finished tool_use stream has its own block, and nothing waits. */
  ghost predicate ToolsDone(v: View) {
    && (forall i :: i in v.tools ==> v.tools[i].blockIndex >= 0 && v.tools[i].pending == [])
    && (forall i, j :: i in v.tools && j in v.tools && i != j ==> v.tools[i].blockIndex != v.tools[j].blockIndex)
  }

  lemma {:induction false} FinishedToolsHaveBlocks(v: View, p: Payload)
    requires Fits(v) && Consumed(v, p).stage == Finished(ToolUse)
    ensures ToolsDone(Consumed(v, p).view)
  {
    hide Fits, AfterCalls, WithText, Closed, Ready, ToolsDone;
    var last := if p.Chunk? then AfterCalls(WithText(v, p.content), p.calls).0 else v;
    assert Ready(last) || last.tools == map[];
    ClosedToolsDone(last);
    assert Consumed(v, p).view.tools == Closed(last).tools;
    SameToolsDone(Closed(last), Consumed(v, p).view);
  }

  lemma {:induction false} SameToolsDone(v: View, w: View)
    requires ToolsDone(v) && w.tools == v.tools
    ensures ToolsDone(w)
  {
  }

  lemma {:induction false} ClosedToolsDone(v: View)
    requires Fits(v) && (Ready(v) || v.tools == map[])
    ensures (v.active.Tool? ==> v.active.index in v.tools) && (!v.current.NoBlock? ==> v.blockIndex >= 0)
    ensures ToolsDone(Closed(v))
  {
    hide NoStrayJson;
  }
}
