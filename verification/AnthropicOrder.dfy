/**
 The order of an Anthropic stream (src/anthropic.ts:604-794): the events sent are those that the payloads call for, one
 by one. The outline of a stream forgets block numbers and the closing of blocks, and keeps everything else.
 */
module AnthropicOrder {
  import opened Utf16
  import opened AnthropicEvents
  import opened UpstreamDeltas
  import opened AnthropicBlocks
  import opened AnthropicRuns
  import opened AnthropicTools

  /** A text block starts, text is added, a tool block starts, argument text is added, and what is no content. */
  datatype Item = Talks | Said(text: Text) | Calls(id: Text, name: Text) | Wrote(json: Text) | Pinged | Ended(reason: StopReason) | Erred

  function ItemOf(e: Event): seq<Item> {
    match e
    case BlockStart(_, TextBlock) => [Talks]
    case BlockStart(_, ToolBlock(id, name)) => [Calls(id, name)]
    case TextDelta(_, text) => [Said(text)]
    case JsonDelta(_, json) => [Wrote(json)]
    case MessageDelta(reason) => [Ended(reason)]
    case ErrorEvent => [Erred]
    case Ping => [Pinged]
    case _ => []
  }

  function Items(out: seq<Event>): seq<Item> {
    if out == [] then [] else Items(out[..|out| - 1]) + ItemOf(out[|out| - 1])
  }

  lemma {:induction false} ItemsSnoc(out: seq<Event>, e: Event)
    ensures Items(out + [e]) == Items(out) + ItemOf(e)
  {
    assert (out + [e])[..|out|] == out;
  }

  // ---- the outline that the payloads call for --------------------------------------------------

  /** What is known of a tool: its argument text waits until id and name are known and its block is open. */
  datatype Sketch = Sketch(id: Text, name: Text, pending: Text, started: bool)

  datatype Outline = Outline(items: seq<Item>, tools: map<nat, Sketch>, talking: bool)

  function Written(t: Text): seq<Item> {
    if t == [] then [] else [Wrote(t)]
  }

  function WithSpeech(o: Outline, t: Text): Outline {
    if t == [] then o
    else o.(items := o.items + (if o.talking then [Said(t)] else [Talks, Said(t)]), talking := true)
  }

  function WithCall(o: Outline, c: CallDelta, position: nat): Outline {
    if !c.Call? then o
    else
      var i := ToolOf(c, position);
      var was := if i in o.tools then o.tools[i] else Sketch([], [], [], false);
      var id, name, args := Either(was.id, TextIn(c.id)), Either(was.name, TextIn(c.name)), TextIn(c.arguments);
      if id == [] || name == [] then o.(tools := o.tools[i := Sketch(id, name, was.pending + args, false)])
      else
        var opening := if was.started then [] else [Calls(id, name)] + Written(was.pending);
        Outline(o.items + opening + Written(args), o.tools[i := Sketch(id, name, [], true)], false)
  }

  function WithCalls(o: Outline, calls: seq<CallDelta>): Outline {
    if calls == [] then o
    else WithCall(WithCalls(o, calls[..|calls| - 1]), calls[|calls| - 1], |calls| - 1)
  }

  function WithEnd(o: Outline, p: Payload): Outline {
    if p.Chunk? && p.finish.Unfinished? then (if p.emptyDelta then o.(items := o.items + [Pinged]) else o)
    else
      var reason := if p.Chunk? && p.finish.Length? then MaxTokens
                    else if o.tools != map[] || (p.Chunk? && p.finish.ToolCalls?) then ToolUse else EndTurn;
      o.(items := o.items + [Ended(reason)], talking := false)
  }

  function WithPayload(o: Outline, p: Payload): Outline {
    match p
    case DoneMarker => WithEnd(o, p)
    case Chunk(content, calls, _, _) => WithEnd(WithCalls(WithSpeech(o, content), calls), p)
    case _ => o
  }

  function Told(taken: seq<Payload>): Outline {
    if taken == [] then Outline([], map[], false)
    else WithPayload(Told(taken[..|taken| - 1]), taken[|taken| - 1])
  }

  // ---- the outline of a view --------------------------------------------------------------------

  function SketchOf(st: ToolState): Sketch {
    Sketch(st.id, st.name, st.pending, st.blockIndex >= 0)
  }

  function Drawn(v: View): Outline {
    Outline(Items(v.out), map i | i in v.tools :: SketchOf(v.tools[i]), v.current.TextOpen?)
  }

  lemma {:induction false} ClosedDrawn(v: View)
    requires Fits(v)
    ensures Drawn(Closed(v)) == Drawn(v).(talking := false)
  {
    hide NoStrayJson, PhaseOf, JsonOf;
    if !v.current.NoBlock? {
      ItemsSnoc(v.out, BlockStop(v.blockIndex));
    }
  }

  lemma {:induction false} SentDrawn(v: View, e: Event)
    ensures Drawn(Sent(v, e)) == Drawn(v).(items := Drawn(v).items + ItemOf(e))
  {
    ItemsSnoc(v.out, e);
  }

  lemma {:induction false} SentJsonDrawn(v: View, t: Text)
    requires v.blockIndex >= 0
    ensures Drawn(SentJson(v, t)) == Drawn(v).(items := Drawn(v).items + Written(t))
  {
    hide Drawn;
    if t != [] {
      SentDrawn(v, JsonDelta(v.blockIndex, t));
    } else {
      assert Drawn(v).items + [] == Drawn(v).items;
    }
  }

  lemma {:induction false} ToolOpenedDrawn(v: View, i: nat)
    requires i in v.tools && v.blockIndex >= -1 && v.current.NoBlock?
    ensures var st := v.tools[i]; var o := Drawn(v);
      Drawn(ToolOpened(v, i)) == o.(items := o.items + [Calls(st.id, st.name)], tools := o.tools[i := Sketch(st.id, st.name, [], true)])
  {
    ItemsSnoc(v.out, BlockStart(v.blockIndex + 1, ToolBlock(v.tools[i].id, v.tools[i].name)));
  }

  lemma {:induction false} SpeechDrawn(v: View, t: Text)
    requires Fits(v)
    ensures Drawn(WithText(v, t)) == WithSpeech(Drawn(v), t)
  {
    hide NoStrayJson, PhaseOf, JsonOf, Closed;
    if t != [] {
      if v.current.TextOpen? {
        SentDrawn(v, TextDelta(v.blockIndex, t));
      } else {
        ClosedFits(v);
        ClosedDrawn(v);
        TalkDrawn(Closed(v), t);
      }
    }
  }

  lemma {:induction false} TalkDrawn(v: View, t: Text)
    requires v.blockIndex >= -1
    ensures var o := Drawn(v); var w := TextOpened(v);
      Drawn(Sent(w, TextDelta(w.blockIndex, t))) == Outline(o.items + [Talks, Said(t)], o.tools, true)
  {
    var w := TextOpened(v);
    ItemsSnoc(v.out, BlockStart(v.blockIndex + 1, TextBlock));
    ItemsSnoc(w.out, TextDelta(w.blockIndex, t));
    assert Items(v.out) + [Talks] + [Said(t)] == Items(v.out) + [Talks, Said(t)];
  }

  // ---- one call ---------------------------------------------------------------------------------

  lemma {:induction false} NamedDrawn(v: View, c: CallDelta, i: nat)
    requires c.Call? && !Conflicts(ToolState0(v, i).id, c.id) && !Conflicts(ToolState0(v, i).name, c.name)
    ensures var w := WithNames(v, c, i); var was := if i in v.tools then SketchOf(v.tools[i]) else Sketch([], [], [], false);
      && i in w.tools
      && SketchOf(w.tools[i]) == was.(id := Either(was.id, TextIn(c.id)), name := Either(was.name, TextIn(c.name)))
      && Drawn(w) == Drawn(v).(tools := Drawn(v).tools[i := SketchOf(w.tools[i])])
  {
  }

  /** Argument text of a tool whose id and name are what they are. */
  function Placing(o: Outline, i: nat, args: Text): Outline
    requires i in o.tools
  {
    var st := o.tools[i];
    if st.id == [] || st.name == [] then o.(tools := o.tools[i := st.(pending := st.pending + args, started := false)])
    else
      var opening := if st.started then [] else [Calls(st.id, st.name)] + Written(st.pending);
      Outline(o.items + opening + Written(args), o.tools[i := st.(pending := [], started := true)], false)
  }

  lemma {:induction false} PlacedDrawn(v: View, i: nat, t: Text)
    requires Fits(v) && i in v.tools && Placeable(v, i, t)
    ensures Drawn(Placed(v, i, t)) == Placing(Drawn(v), i, t)
  {
    hide NoStrayJson, PhaseOf, JsonOf, SentJson, Closed, ToolOpened;
    if !Known(v.tools[i]) {
      BufferedDrawn(v, i, t);
    } else if v.active == Tool(i) {
      SentJsonDrawn(v, t);
      assert Drawn(v).items + [] == Drawn(v).items;
    } else {
      OpenedDrawn(v, i, t);
    }
  }

  lemma {:induction false} BufferedDrawn(v: View, i: nat, t: Text)
    requires i in v.tools && v.tools[i].blockIndex < 0
    ensures var st := SketchOf(v.tools[i]);
      Drawn(Buffered(v, i, t)) == Drawn(v).(tools := Drawn(v).tools[i := st.(pending := st.pending + t, started := false)])
  {
  }

  lemma {:induction false} OpenedDrawn(v: View, i: nat, t: Text)
    requires Fits(v) && i in v.tools && Known(v.tools[i]) && !v.tools[i].closed && v.active != Tool(i)
    ensures Fits(Closed(v)) && i in Closed(v).tools && Closed(v).blockIndex >= -1
    ensures Drawn(SentJson(SentJson(ToolOpened(Closed(v), i), v.tools[i].pending), t)) == Placing(Drawn(v), i, t)
  {
    hide NoStrayJson, PhaseOf, TextOf, Carried, SentJson, Drawn;
    ClosedFits(v);
    ClosedDrawn(v);
    assert Closed(v).tools[i] == v.tools[i] && v.tools[i].blockIndex < 0;
    ToolOpenedDrawn(Closed(v), i);
    var st, o := v.tools[i], ToolOpened(Closed(v), i);
    SentJsonDrawn(o, st.pending);
    JsonKeepsIndex(o, st.pending);
    SentJsonDrawn(SentJson(o, st.pending), t);
    assert Drawn(v).tools[i] == SketchOf(st) by { SketchIsDrawn(v, i); }
    var items := Drawn(v).items;
    assert items + [Calls(st.id, st.name)] + Written(st.pending) == items + ([Calls(st.id, st.name)] + Written(st.pending));
  }

  lemma {:induction false} SketchIsDrawn(v: View, i: nat)
    ensures i in v.tools <==> i in Drawn(v).tools
    ensures i in v.tools ==> Drawn(v).tools[i] == SketchOf(v.tools[i])
  {
  }

  lemma {:induction false} CallDrawn(v: View, c: CallDelta, position: nat)
    requires Fits(v) && !Rejects(v, c, position)
    ensures Drawn(AfterCall(v, c, position)) == WithCall(Drawn(v), c, position)
  {
    hide Fits, Drawn, Placed, WithNames, Conflicts, Placeable, ToolState0;
    var i := ToolOf(c, position);
    NamingFits(v, c, i);
    NamedDrawn(v, c, i);
    SketchIsDrawn(v, i);
    var w := WithNames(v, c, i);
    PlacedDrawn(w, i, TextIn(c.arguments));
    PlacingIsCall(Drawn(v), Drawn(w), c, i, position);
  }

  lemma {:induction false} PlacingIsCall(o: Outline, w: Outline, c: CallDelta, i: nat, position: nat)
    requires c.Call? && i == ToolOf(c, position) && i in w.tools
    requires var was := if i in o.tools then o.tools[i] else Sketch([], [], [], false);
      && w == o.(tools := o.tools[i := was.(id := Either(was.id, TextIn(c.id)), name := Either(was.name, TextIn(c.name)))])
    ensures Placing(w, i, TextIn(c.arguments)) == WithCall(o, c, position)
  {
  }

  // ---- whole payloads -------------------------------------------------------------------------------

  /** The rejected call and what follows it leave no trace; what came before does. */
  lemma {:induction false} CallsDrawn(v: View, calls: seq<CallDelta>)
    requires Fits(v)
    ensures var r := AfterCalls(v, calls); var o := WithCalls(Drawn(v), calls);
      if r.1 then Drawn(r.0) == o else Drawn(r.0).items <= o.items
    decreases |calls|
  {
    hide Fits, Drawn, AfterCall, Rejects, WithCall;
    if calls != [] {
      var last := |calls| - 1;
      CallsDrawn(v, calls[..last]);
      var before := AfterCalls(v, calls[..last]);
      CallExtends(WithCalls(Drawn(v), calls[..last]), calls[last], last);
      if before.1 && !Rejects(before.0, calls[last], last) {
        CallDrawn(before.0, calls[last], last);
      }
    }
  }

  lemma {:induction false} CallExtends(o: Outline, c: CallDelta, position: nat)
    ensures o.items <= WithCall(o, c, position).items
  {
  }

  /** What one payload adds; a stream that it breaks stops somewhere on the way, with an error. */
  predicate Tells(o: Outline, s: Stream) {
    match s.stage
    case Broken =>
      var items := Items(s.view.out);
      items != [] && items[|items| - 1] == Erred && items[..|items| - 1] <= o.items
    case _ => Drawn(s.view) == o
  }

  lemma {:induction false} FailTells(v: View, o: Outline)
    requires Drawn(v).items <= o.items
    ensures Tells(o, Fail(v))
  {
    ItemsSnoc(v.out, ErrorEvent);
    var items := Items(v.out) + [Erred];
    assert items[..|items| - 1] == Items(v.out);
  }

  lemma {:induction false} TerminalDrawn(v: View, reason: StopReason)
    requires Fits(v)
    ensures Drawn(Terminal(v, reason).view) == Drawn(v).(items := Drawn(v).items + [Ended(reason)], talking := false)
  {
    hide NoStrayJson, PhaseOf, Drawn;
    ClosedDrawn(v);
    SentDrawn(Closed(v), MessageDelta(reason));
    SentDrawn(Sent(Closed(v), MessageDelta(reason)), MessageStop);
    var items := Drawn(v).items + [Ended(reason)];
    assert items + [] == items;
  }

  lemma {:induction false} NoToolsDrawn(v: View)
    ensures v.tools == map[] <==> Drawn(v).tools == map[]
  {
    assert v.tools.Keys == Drawn(v).tools.Keys;
    assert v.tools == map[] <==> v.tools.Keys == {};
    assert Drawn(v).tools == map[] <==> Drawn(v).tools.Keys == {};
  }

  lemma {:induction false} EndTells(v: View, p: Payload)
    requires Fits(v) && (p.DoneMarker? || p.Chunk?)
    ensures var reason := ReasonFor(p, v.tools != map[]); var o := WithEnd(Drawn(v), p);
      && Drawn(v).items <= o.items
      && (Ends(p) ==> Drawn(Terminal(v, reason).view) == o)
      && (!Ends(p) ==> Drawn(if p.emptyDelta then Sent(v, Ping) else v) == o)
  {
    hide Fits, Drawn, Terminal;
    NoToolsDrawn(v);
    TerminalDrawn(v, ReasonFor(p, v.tools != map[]));
    SentDrawn(v, Ping);
  }

  lemma {:induction false} PayloadTells(v: View, p: Payload)
    requires Fits(v)
    ensures Tells(WithPayload(Drawn(v), p), Consumed(v, p))
  {
    hide Fits, Drawn, AfterCalls, WithText, Ready, Terminal, Fail, Tells, WithEnd, WithSpeech, WithCalls;
    var o := WithPayload(Drawn(v), p);
    match p
    case Chunk(content, calls, finish, emptyDelta) =>
      SpeechDrawn(v, content);
      CallsDrawn(WithText(v, content), calls);
      var r := AfterCalls(WithText(v, content), calls);
      EndExtends(WithCalls(WithSpeech(Drawn(v), content), calls), p);
      EndTells(r.0, p);
      FinishTells(r.0, o, p, r.1);
    case DoneMarker =>
      EndTells(v, p);
      FinishTells(v, o, p, true);
    case Blank => StepTells(Stream(v, Running), o);
    case _ => FailTells(v, o);
  }

  lemma {:induction false} EndExtends(o: Outline, p: Payload)
    ensures o.items <= WithEnd(o, p).items
  {
  }

  lemma {:induction false} StepTells(s: Stream, o: Outline)
    requires s.stage != Broken && Drawn(s.view) == o
    ensures Tells(o, s)
  {
  }

  /** Whichever way the last part of a payload goes, the outline tells of it. */
  lemma {:induction false} FinishTells(v: View, o: Outline, p: Payload, accepted: bool)
    requires Fits(v) && (p.DoneMarker? || p.Chunk?) && Drawn(v).items <= o.items
    requires accepted && Ends(p) ==> Drawn(Terminal(v, ReasonFor(p, v.tools != map[])).view) == o
    requires accepted && !Ends(p) ==> Drawn(if p.emptyDelta then Sent(v, Ping) else v) == o
    ensures Tells(o, Fail(v))
    ensures accepted && Ends(p) ==> Tells(o, Terminal(v, ReasonFor(p, v.tools != map[])))
    ensures accepted && !Ends(p) ==> Tells(o, Stream(if p.emptyDelta then Sent(v, Ping) else v, Running))
  {
    hide Fits, Drawn;
    FailTells(v, o);
  }

  // ---- main result ------------------------------------------------------------------------------------

  /**
   The stream tells what the payloads told, in their order and piece by piece: each text and each argument piece is
   one delta, a tool's block starts once its id and name are known, with what waited for it, and a text block starts
   only where no text block is open. A broken stream tells the beginning of that, and then an error.
   */
  lemma {:induction false} OutputTellsInput(input: seq<Payload>)
    ensures Tells(Told(Taken(input)), Run(input))
    decreases |input|
  {
    hide Consumed, Fits, Drawn, Tells, WithPayload;
    if input == [] {
      NothingTold();
    } else {
      var before, p := input[..|input| - 1], input[|input| - 1];
      OutputTellsInput(before);
      if Run(before).stage == Running {
        RunningTells(Told(Taken(before)), Run(before));
        PayloadTells(Run(before).view, p);
        var taken := Taken(before);
        assert (taken + [p])[..|taken|] == taken;
        if p.Blank? {
          BlankTold(Told(taken));
        }
      }
    }
  }

  lemma {:induction false} RunningTells(o: Outline, s: Stream)
    requires Tells(o, s) && s.stage == Running
    ensures Drawn(s.view) == o
  {
  }

  lemma {:induction false} BlankTold(o: Outline)
    ensures WithPayload(o, Blank) == o
  {
  }

  lemma {:induction false} NothingTold()
    ensures Tells(Told([]), Run([]))
  {
    ItemsSnoc([], MessageStart);
    assert [] + [MessageStart] == [MessageStart];
    assert Run([]) == Initial();
  }

  // ---- when a stream goes on, ends or breaks ------------------------------------------------------------

  /** A call that cannot be shown: ill-typed, at odds with an id or name already known, out of turn, or waiting too long. */
  predicate Unshowable(v: View, c: CallDelta, position: nat) {
    || !c.Call? || c.index == BadIndex || c.id == NotString || c.name == NotString || c.arguments == NotString
    || (var i := ToolOf(c, position);
        var id, name, args := Either(PartOf(v, i, false), TextIn(c.id)), Either(PartOf(v, i, true), TextIn(c.name)), TextIn(c.arguments);
        || (TextIn(c.id) != [] && id != TextIn(c.id)) || (TextIn(c.name) != [] && name != TextIn(c.name))
        || (if id != [] && name != []
            then (i in v.tools && v.tools[i].closed) || (v.active.Tool? && v.active.index != i)
            else args != [] && |args| + (if i in v.tools then |v.tools[i].pending| else 0) > MAX_PENDING_ARGUMENTS))
  }

  lemma {:induction false} RejectsExactly(v: View, c: CallDelta, position: nat)
    ensures Rejects(v, c, position) <==> Unshowable(v, c, position)
  {
  }

  /** The k-th call of a chunk is shown after those before it. */
  ghost predicate ShownInTurn(v: View, calls: seq<CallDelta>, k: int)
    requires Fits(v)
  {
    0 <= k < |calls| ==> !Unshowable(AfterCalls(v, calls[..k]).0, calls[k], k)
  }

  /** The calls of a chunk are accepted exactly when each is shown in its turn. */
  lemma {:induction false} AcceptsExactly(v: View, calls: seq<CallDelta>)
    requires Fits(v)
    ensures AfterCalls(v, calls).1 <==> forall k :: ShownInTurn(v, calls, k)
    decreases |calls|
  {
    hide Fits, Unshowable, Rejects, AfterCall;
    if calls != [] {
      var last := |calls| - 1;
      var front := calls[..last];
      AcceptsExactly(v, front);
      RejectsExactly(AfterCalls(v, front).0, calls[last], last);
      forall k | 0 <= k < last ensures ShownInTurn(v, calls, k) == ShownInTurn(v, front, k) {
        assert front[..k] == calls[..k];
      }
      assert ShownInTurn(v, calls, last) == !Rejects(AfterCalls(v, front).0, calls[last], last);
      if AfterCalls(v, calls).1 {
        forall k ensures ShownInTurn(v, calls, k) {
          assert 0 <= k < last ==> ShownInTurn(v, front, k);
        }
      } else if forall k :: ShownInTurn(v, calls, k) {
        forall k ensures ShownInTurn(v, front, k) {
          assert ShownInTurn(v, calls, k);
        }
        assert false;
      }
    }
  }

  /** A payload ends the message, breaks it, or lets it go on. */
  lemma {:induction false} StageIsExact(v: View, p: Payload)
    requires Fits(v)
    ensures var stage := Consumed(v, p).stage;
      var last := if p.Chunk? then AfterCalls(WithText(v, p.content), p.calls) else (v, true);
      var byTools := !(p.Chunk? && p.finish.Length?) && (last.0.tools != map[] || (p.Chunk? && p.finish.ToolCalls?));
      var complete := forall i :: i in last.0.tools ==> last.0.tools[i].id != [] && last.0.tools[i].name != [] && last.0.tools[i].blockIndex >= 0;
      && (stage.Finished? <==> Ends(p) && last.1 && (byTools ==> complete))
      && (stage.Running? <==> p.Blank? || (p.Chunk? && p.finish.Unfinished? && last.1))
  {
    hide Fits, AfterCalls, WithText, Closed;
  }

  // ---- one run ------------------------------------------------------------------------------------------

  /** A tool call in two pieces, and the finish reason that goes with it. */
  function TwoPieces(id: Text, name: Text, first: Text, second: Text): seq<Payload> {
    [Chunk([], [Call(Implicit, Str(id), Str(name), Str(first))], Unfinished, false),
     Chunk([], [Call(Implicit, Absent, Absent, Str(second))], Unfinished, false),
     Chunk([], [], ToolCalls, true)]
  }

  lemma {:induction false} ToolCallIsShown(id: Text, name: Text, first: Text, second: Text)
    requires id != [] && name != [] && first != [] && second != []
    ensures Run(TwoPieces(id, name, first, second)).view.out ==
      [MessageStart, BlockStart(0, ToolBlock(id, name)), JsonDelta(0, first), JsonDelta(0, second), BlockStop(0),
       MessageDelta(ToolUse), MessageStop]
  {
    hide Run, Consumed, Fits;
    var input := TwoPieces(id, name, first, second);
    var start := Initial().view;
    StartFits();
    ShownFirst(start, id, name, first);
    ConsumedIsSound(start, input[0]);
    var v := Shown(start, id, name, first);
    ShownMore(v, second);
    ConsumedIsSound(v, input[1]);
    var w := Sent(v, JsonDelta(0, second));
    ShownEnd(w);
    RunOn([], input[0]);
    RunOn([input[0]], input[1]);
    RunOn([input[0], input[1]], input[2]);
    assert [] + [input[0]] == [input[0]] && [input[0]] + [input[1]] == [input[0], input[1]];
    assert [input[0], input[1]] + [input[2]] == input;
  }

  lemma {:induction false} RunOn(input: seq<Payload>, p: Payload)
    ensures Run([]) == Initial()
    ensures Run(input + [p]) == if Run(input).stage == Running then Consumed(Run(input).view, p) else Run(input)
  {
    assert (input + [p])[..|input|] == input;
  }

  function Shown(v: View, id: Text, name: Text, first: Text): View {
    View(v.out + [BlockStart(0, ToolBlock(id, name))] + [JsonDelta(0, first)], 0, ToolOpen, Tool(0), map[0 := ToolState(id, name, 0, [], false)])
  }

  lemma {:induction false} OneCall(v: View, c: CallDelta)
    requires Fits(v)
    ensures AfterCalls(v, [c]) == if Rejects(v, c, 0) then (v, false) else (AfterCall(v, c, 0), true)
  {
    var none: seq<CallDelta> := [];
    assert [c][..0] == none;
    assert AfterCalls(v, none) == (v, true);
  }

  lemma {:induction false} ShownFirst(v: View, id: Text, name: Text, first: Text)
    requires v == Initial().view && Fits(v) && id != [] && name != [] && first != []
    ensures Consumed(v, TwoPieces(id, name, first, [])[0]) == Stream(Shown(v, id, name, first), Running)
  {
    hide Fits, AfterCalls;
    OneCall(v, TwoPieces(id, name, first, [])[0].calls[0]);
    assert [] + first == first;
  }

  lemma {:induction false} ShownMore(v: View, second: Text)
    requires Fits(v) && v.active == Tool(0) && 0 in v.tools && v.tools.Keys == {0} && Known(v.tools[0]) && !v.tools[0].closed
    requires v.blockIndex == 0 && second != []
    ensures Consumed(v, TwoPieces([], [], [], second)[1]) == Stream(Sent(v, JsonDelta(0, second)), Running)
  {
    hide Fits, AfterCalls;
    OneCall(v, TwoPieces([], [], [], second)[1].calls[0]);
    assert v.tools[0 := v.tools[0]] == v.tools;
  }

  lemma {:induction false} ShownEnd(v: View)
    requires Fits(v) && v.active == Tool(0) && v.tools.Keys == {0} && Known(v.tools[0]) && v.tools[0].blockIndex == 0 == v.blockIndex
    requires v.current.ToolOpen?
    ensures Consumed(v, TwoPieces([], [], [], [])[2]).view.out == v.out + [BlockStop(0)] + [MessageDelta(ToolUse)] + [MessageStop]
  {
    hide Fits;
  }
}
