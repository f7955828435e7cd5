/** What the upstream sends, and what a correct Anthropic stream must say about it. */
module UpstreamDeltas {
  import opened Utf16
  import opened AnthropicEvents

  /** An optional JSON string property: absent, a string, or some other value. */
  datatype Field = Absent | Str(value: Text) | NotString

  datatype CallIndex = Implicit | Given(index: nat) | BadIndex

  /** One element of delta.tool_calls. */
  datatype CallDelta = NotRecord | Call(index: CallIndex, id: Field, name: Field, arguments: Field)

  datatype Finish = Unfinished | ToolCalls | Length | OtherFinish

  /** The data of one SSE frame, after JSON.parse. */
  datatype Payload =
    | Blank
    | DoneMarker
    | Unparsable
    | UpstreamError
    | NoChoice
    | Chunk(content: Text, calls: seq<CallDelta>, finish: Finish, emptyDelta: bool)

  function TextIn(f: Field): Text {
    if f.Str? then f.value else []
  }

  /** The tool a call delta speaks of; without an index of its own it is its position. */
  function ToolOf(c: CallDelta, position: nat): nat
    requires c.Call?
  {
    if c.index.Given? then c.index.index else position
  }

  // ---- the specification: fragments and text by recursion over the input ---------------

  /** Argument text for `tool` in one tool_calls array. */
  function CallFragments(calls: seq<CallDelta>, tool: nat): Text {
    if calls == [] then []
    else
      var last := |calls| - 1;
      CallFragments(calls[..last], tool)
      + if calls[last].Call? && ToolOf(calls[last], last) == tool then TextIn(calls[last].arguments) else []
  }

  /** The tools one tool_calls array mentions. */
  function CallTools(calls: seq<CallDelta>): set<nat> {
    if calls == [] then {}
    else
      var last := |calls| - 1;
      CallTools(calls[..last]) + if calls[last].Call? then {ToolOf(calls[last], last)} else {}
  }

  function Fragments(input: seq<Payload>, tool: nat): Text {
    if input == [] then []
    else
      var last := input[|input| - 1];
      Fragments(input[..|input| - 1], tool) + if last.Chunk? then CallFragments(last.calls, tool) else []
  }

  function Tools(input: seq<Payload>): set<nat> {
    if input == [] then {}
    else
      var last := input[|input| - 1];
      Tools(input[..|input| - 1]) + if last.Chunk? then CallTools(last.calls) else {}
  }

  function Contents(input: seq<Payload>): Text {
    if input == [] then []
    else
      var last := input[|input| - 1];
      Contents(input[..|input| - 1]) + if last.Chunk? then last.content else []
  }

  /** The stop reason the last payload asks for, if it ends the message. */
  function ReasonFor(last: Payload, anyTool: bool): StopReason {
    var byTools := if anyTool then ToolUse else EndTurn;
    match last
    case Chunk(_, _, ToolCalls, _) => ToolUse
    case Chunk(_, _, Length, _) => MaxTokens
    case _ => byTools
  }

  lemma {:induction false} InputExtended(input: seq<Payload>, p: Payload)
    ensures forall t :: Fragments(input + [p], t) == Fragments(input, t) + if p.Chunk? then CallFragments(p.calls, t) else []
    ensures Tools(input + [p]) == Tools(input) + if p.Chunk? then CallTools(p.calls) else {}
    ensures Contents(input + [p]) == Contents(input) + if p.Chunk? then p.content else []
  {
    assert (input + [p])[..|input|] == input;
  }
}

/** The block bookkeeping of streamingResponse, as a value, and what each change to it preserves. */
module AnthropicBlocks {
  import opened Utf16
  import opened AnthropicEvents

  datatype ToolState = ToolState(id: Text, name: Text, blockIndex: int, pending: Text, closed: bool)
  type ToolStreams = map<nat, ToolState>

  datatype CurrentBlock = NoBlock | TextOpen | ToolOpen

  /** activeToolIndex: no tool is active, or one is. */
  datatype Active = NoTool | Tool(index: nat)

  /** What has been sent, and the variables that say where the next event belongs. */
  datatype View = View(out: seq<Event>, blockIndex: int, current: CurrentBlock, active: Active, tools: ToolStreams)

  /** Text emitted for tool i so far, followed by what still waits for its block. */
  ghost function Carried(v: View, i: nat): Text {
    if i in v.tools then JsonOf(v.out, v.tools[i].blockIndex) + v.tools[i].pending else []
  }

  /** A tool has its block once its metadata is known; the block is open iff the tool is active. */
  ghost predicate ToolFits(st: ToolState, isActive: bool, blockIndex: int) {
    && -1 <= st.blockIndex <= blockIndex
    && (isActive ==> st.blockIndex == blockIndex >= 0 && !st.closed)
    && (st.blockIndex >= 0 ==> st.id != [] && st.name != [] && st.pending == [] && (isActive || st.closed))
    && (st.closed ==> st.blockIndex >= 0)
  }

  ghost predicate ToolsFit(v: View) {
    && (v.active.Tool? ==> v.active.index in v.tools)
    && (forall i :: i in v.tools ==> ToolFits(v.tools[i], v.active == Tool(i), v.blockIndex))
    && (forall i, j :: i in v.tools && j in v.tools && v.tools[i].blockIndex == v.tools[j].blockIndex >= 0 ==> i == j)
  }

  /** Blocks that have not started carry no argument text. */
  ghost predicate NoStrayJson(v: View) {
    forall b :: b > v.blockIndex || b < 0 ==> JsonOf(v.out, b) == []
  }

  ghost predicate AtPhase(v: View) {
    && v.blockIndex >= -1
    && (v.active.Tool? <==> v.current.ToolOpen?)
    && (!v.current.NoBlock? ==> v.blockIndex >= 0)
    && PhaseOf(v.out) == match v.current
                         case NoBlock => Between(v.blockIndex + 1)
                         case TextOpen => InText(v.blockIndex)
                         case ToolOpen => InTool(v.blockIndex)
  }

  /** Everything that holds while events may still be sent. */
  ghost predicate Fits(v: View) {
    AtPhase(v) && ToolsFit(v) && NoStrayJson(v)
  }

  /** w keeps v's promises to the reader: same text, same argument text for every tool. */
  ghost predicate SameContent(v: View, w: View) {
    TextOf(w.out) == TextOf(v.out) && w.tools.Keys == v.tools.Keys && forall i: nat :: Carried(w, i) == Carried(v, i)
  }

  function Sent(v: View, e: Event): View {
    v.(out := v.out + [e])
  }

  function Closed(v: View): View
    requires v.active.Tool? ==> v.active.index in v.tools
    requires !v.current.NoBlock? ==> v.blockIndex >= 0
  {
    if v.current.NoBlock? then v
    else Sent(v, BlockStop(v.blockIndex)).(
           current := NoBlock, active := NoTool,
           tools := if v.active.NoTool? then v.tools
                    else v.tools[v.active.index := v.tools[v.active.index].(closed := true)])
  }

  lemma {:induction false} ClosedFits(v: View)
    requires Fits(v)
    ensures Fits(Closed(v)) && Closed(v).current.NoBlock? && SameContent(v, Closed(v))
  {
    if !v.current.NoBlock? {
      Appended(v.out, BlockStop(v.blockIndex));
    }
  }

  function TextOpened(v: View): View
    requires v.blockIndex >= -1
  {
    Sent(v, BlockStart(v.blockIndex + 1, TextBlock)).(blockIndex := v.blockIndex + 1, current := TextOpen)
  }

  lemma {:induction false} TextOpenedFits(v: View)
    requires Fits(v) && v.current.NoBlock?
    ensures Fits(TextOpened(v)) && SameContent(v, TextOpened(v))
  {
    Appended(v.out, BlockStart(v.blockIndex + 1, TextBlock));
  }

  /** A fresh block for a tool, before the text that waited for it. */
  function ToolOpened(v: View, i: nat): View
    requires i in v.tools && v.blockIndex >= -1
  {
    var st := v.tools[i];
    Sent(v, BlockStart(v.blockIndex + 1, ToolBlock(st.id, st.name))).(
      blockIndex := v.blockIndex + 1, current := ToolOpen, active := Tool(i),
      tools := v.tools[i := st.(blockIndex := v.blockIndex + 1, pending := [])])
  }

  lemma {:induction false} ToolOpenedFits(v: View, i: nat)
    requires Fits(v) && v.current.NoBlock? && i in v.tools && v.tools[i].blockIndex < 0
    requires v.tools[i].id != [] && v.tools[i].name != []
    ensures Fits(ToolOpened(v, i))
  {
    var w := ToolOpened(v, i);
    Appended(v.out, BlockStart(v.blockIndex + 1, ToolBlock(v.tools[i].id, v.tools[i].name)));
    assert AtPhase(w) && NoStrayJson(w);
    forall j | j in w.tools ensures ToolFits(w.tools[j], w.active == Tool(j), w.blockIndex) {
      assert ToolFits(v.tools[j], v.active == Tool(j), v.blockIndex);
    }
  }

  lemma {:induction false} ToolOpenedCarries(v: View, i: nat)
    requires Fits(v) && i in v.tools && v.tools[i].blockIndex < 0
    ensures TextOf(ToolOpened(v, i).out) == TextOf(v.out)
    ensures Carried(v, i) == v.tools[i].pending && Carried(ToolOpened(v, i), i) == []
    ensures forall j: nat :: j != i ==> Carried(ToolOpened(v, i), j) == Carried(v, j)
  {
    Appended(v.out, BlockStart(v.blockIndex + 1, ToolBlock(v.tools[i].id, v.tools[i].name)));
  }

  lemma {:induction false} TextSentFits(v: View, t: Text)
    requires Fits(v) && v.current.TextOpen?
    ensures var w := Sent(v, TextDelta(v.blockIndex, t));
      Fits(w) && TextOf(w.out) == TextOf(v.out) + t && forall i: nat :: Carried(w, i) == Carried(v, i)
  {
    Appended(v.out, TextDelta(v.blockIndex, t));
  }

  lemma {:induction false} JsonSentFits(v: View, i: nat, t: Text)
    requires Fits(v) && v.active == Tool(i)
    ensures var w := Sent(v, JsonDelta(v.blockIndex, t));
      && Fits(w) && TextOf(w.out) == TextOf(v.out)
      && Carried(w, i) == Carried(v, i) + t && forall j: nat :: j != i ==> Carried(w, j) == Carried(v, j)
  {
    Appended(v.out, JsonDelta(v.blockIndex, t));
  }

  /** A tool's waiting text grows while it has no block. */
  function Buffered(v: View, i: nat, t: Text): View
    requires i in v.tools
  {
    v.(tools := v.tools[i := v.tools[i].(pending := v.tools[i].pending + t)])
  }

  lemma {:induction false} BufferedFits(v: View, i: nat, t: Text)
    requires Fits(v) && i in v.tools && v.tools[i].blockIndex < 0
    ensures Fits(Buffered(v, i, t)) && Carried(Buffered(v, i, t), i) == Carried(v, i) + t
    ensures forall j: nat :: j != i ==> Carried(Buffered(v, i, t), j) == Carried(v, j)
  {
  }

  /** A tool becomes known, or learns its id and name. */
  function Named(v: View, i: nat, id: Text, name: Text): View {
    var st := if i in v.tools then v.tools[i] else ToolState([], [], -1, [], false);
    v.(tools := v.tools[i := st.(id := id, name := name)])
  }

  lemma {:induction false} NamedFits(v: View, i: nat, id: Text, name: Text)
    requires Fits(v)
    requires i in v.tools ==>
      && (v.tools[i].id != [] ==> id == v.tools[i].id) && (v.tools[i].name != [] ==> name == v.tools[i].name)
    ensures Fits(Named(v, i, id, name)) && forall j: nat :: Carried(Named(v, i, id, name), j) == Carried(v, j)
  {
  }
}
