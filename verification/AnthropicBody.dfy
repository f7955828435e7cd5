/** The read loop of streamingResponse (src/anthropic.ts:564-568, 820-851): chunks to frames to payloads to events. */
module AnthropicBody {
  import opened Utf16
  import opened AnthropicEvents
  import opened UpstreamDeltas
  import opened AnthropicBlocks
  import opened AnthropicRuns
  import opened SseSplitter
  import opened AnthropicTransducer
  import Js = PortableTurns

  /** JSON.parse and the shape checks behind it, left uninterpreted. */
  type Parser = Text -> Payload

  // ---- from a frame to its payload ---------------------------------------------------

  function DataLines(lines: seq<Text>): seq<Text> {
    if lines == [] then []
    else
      var line := lines[|lines| - 1];
      DataLines(lines[..|lines| - 1]) + if Ascii("data:") <= line then [Js.TrimStart(line[5..])] else []
  }

  /** eventData and the first two tests of consume; a frame without data lines is as blank as one with empty data. */
  function PayloadOf(block: Text, parse: Parser): Payload {
    var data := Js.Join(DataLines(Js.Split(block, [LF])), [LF]);
    if data == [] then Blank else if Js.Trim(data) == Ascii("[DONE]") then DoneMarker else parse(data)
  }

  function Payloads(frames: seq<Text>, parse: Parser): seq<Payload> {
    if frames == [] then []
    else Payloads(frames[..|frames| - 1], parse) + [PayloadOf(frames[|frames| - 1], parse)]
  }

  lemma {:induction false} PayloadsJoin(a: seq<Text>, b: seq<Text>, parse: Parser)
    ensures Payloads(a + b, parse) == Payloads(a, parse) + Payloads(b, parse)
    decreases |b|
  {
    hide PayloadOf;
    if b == [] {
      assert a + b == a;
    } else {
      assert (a + b)[..|a + b| - 1] == a + b[..|b| - 1];
      PayloadsJoin(a, b[..|b| - 1], parse);
    }
  }

  // ---- the loop ---------------------------------------------------------------------------

  /** The unfinished frame, the payloads handed to consume, and whether the buffer cap ended the loop. */
  datatype Reading = Reading(buffer: Text, input: seq<Payload>, capped: bool)

  predicate Halted(r: Reading) {
    r.capped || Run(r.input).stage != Running
  }

  /** One turn of the loop: all complete frames are consumed, then the rest is held against the cap. */
  function ReadOne(r: Reading, chunk: Text, parse: Parser): Reading {
    if Halted(r) then r
    else
      var cut := Feed(r.buffer, chunk);
      var input := r.input + Payloads(cut.frames, parse);
      Reading(cut.rest, input, Run(input).stage != Broken && |cut.rest| > MAX_BUFFER)
  }

  function Reads(chunks: seq<Text>, parse: Parser): Reading {
    if chunks == [] then Reading([], [], false)
    else ReadOne(Reads(chunks[..|chunks| - 1], parse), chunks[|chunks| - 1], parse)
  }

  /** What the client has received. */
  function Output(r: Reading): seq<Event> {
    if r.capped then Fail(Run(r.input).view).view.out else Run(r.input).view.out
  }

  /** The body ends, and the decoder flushes what it held; or a read is rejected. */
  datatype Ending = EndOfBody(flushed: Text) | Lost

  /** A last frame may come without its blank line. */
  function LastPayload(rest: Text, parse: Parser): seq<Payload> {
    if Js.Trim(rest) == [] then [] else [PayloadOf(rest, parse)]
  }

  function Concluded(r: Reading, ending: Ending, parse: Parser): seq<Event> {
    if Halted(r) then Output(r)
    else AtEnd(r.input + if ending.Lost? then [] else LastPayload(r.buffer + ending.flushed, parse)).view.out
  }

  // ---- payload by payload -----------------------------------------------------------------

  lemma {:induction false} RunSnoc(a: seq<Payload>, p: Payload)
    ensures Run(a + [p]) == if Run(a).stage == Running then Consumed(Run(a).view, p) else Run(a)
  {
    assert (a + [p])[..|a|] == a;
  }

  /** A stream that has ended takes no more, and no stream takes back what it sent. */
  lemma {:induction false} RunExtends(a: seq<Payload>, b: seq<Payload>)
    ensures Run(a).view.out <= Run(a + b).view.out
    ensures Run(a).stage != Running ==> Run(a + b) == Run(a)
    decreases |b|
  {
    hide Consumed, Sound;
    if b == [] {
      assert a + b == a;
    } else {
      var c := b[..|b| - 1];
      assert a + b == (a + c) + [b[|b| - 1]];
      RunExtends(a, c);
      RunSnoc(a + c, b[|b| - 1]);
      OutputOnlyGrows(a + c, b[|b| - 1]);
    }
  }

  lemma {:induction false} SameRun(a: seq<Payload>, b: seq<Payload>, more: seq<Payload>)
    requires Run(a) == Run(b)
    ensures Run(a + more) == Run(b + more)
    decreases |more|
  {
    hide Consumed, Sound;
    if more == [] {
      assert a + more == a && b + more == b;
    } else {
      var c := more[..|more| - 1];
      assert a + more == (a + c) + [more[|more| - 1]] && b + more == (b + c) + [more[|more| - 1]];
      SameRun(a, b, c);
      RunSnoc(a + c, more[|more| - 1]);
      RunSnoc(b + c, more[|more| - 1]);
    }
  }

  // ---- the loop against the whole body ---------------------------------------------------

  function Framed(chunks: seq<Text>, parse: Parser): seq<Payload> {
    Payloads(ReadAll(chunks).frames, parse)
  }

  lemma {:induction false} FramedSnoc(chunks: seq<Text>, chunk: Text, parse: Parser)
    ensures var last := Feed(ReadAll(chunks).rest, chunk);
      && ReadAll(chunks + [chunk]).rest == last.rest
      && Framed(chunks + [chunk], parse) == Framed(chunks, parse) + Payloads(last.frames, parse)
  {
    hide Payloads, Feed;
    assert (chunks + [chunk])[..|chunks|] == chunks;
    PayloadsJoin(ReadAll(chunks).frames, Feed(ReadAll(chunks).rest, chunk).frames, parse);
  }

  /** The loop goes on exactly while no read left too much and the payloads so far leave the stream running. */
  lemma {:induction false} HaltedExactly(chunks: seq<Text>, parse: Parser)
    ensures Halted(Reads(chunks, parse)) <==> Overflows(chunks) || Run(Framed(chunks, parse)).stage != Running
    ensures !Halted(Reads(chunks, parse))
      ==> Reads(chunks, parse) == Reading(ReadAll(chunks).rest, Framed(chunks, parse), false)
    decreases |chunks|
  {
    hide Run, Feed, Payloads, Overflows, Framed, ReadAll;
    if chunks == [] {
      NothingRead(parse);
    } else {
      var before, chunk := chunks[..|chunks| - 1], chunks[|chunks| - 1];
      assert chunks == before + [chunk];
      HaltedExactly(before, parse);
      OverflowGrows(before, chunk);
      FramedSnoc(before, chunk, parse);
      RunExtends(Framed(before, parse), Payloads(Feed(ReadAll(before).rest, chunk).frames, parse));
    }
  }

  lemma {:induction false} NothingRead(parse: Parser)
    ensures Framed([], parse) == [] && ReadAll([]) == Cut([], []) && !Overflows([]) && Run([]).stage == Running
  {
  }

  /** A read that takes the payload that finishes the message and leaves more than the cap behind it. */
  ghost predicate FinishingRead(chunks: seq<Text>, k: int, parse: Parser) {
    && 0 <= k < |chunks| && !Overflows(chunks[..k])
    && Run(Framed(chunks[..k], parse)).stage == Running
    && Run(Framed(chunks[..k + 1], parse)).stage.Finished?
    && |ReadAll(chunks[..k + 1]).rest| > MAX_BUFFER
  }

  lemma {:induction false} FinishingSnoc(chunks: seq<Text>, chunk: Text, parse: Parser)
    ensures (exists k :: FinishingRead(chunks + [chunk], k, parse))
       <==> (exists k :: FinishingRead(chunks, k, parse)) || FinishingRead(chunks + [chunk], |chunks|, parse)
  {
    hide Run, Framed, ReadAll, Overflows;
    var all := chunks + [chunk];
    forall k | 0 <= k < |chunks| ensures FinishingRead(all, k, parse) == FinishingRead(chunks, k, parse) {
      assert all[..k] == chunks[..k] && all[..k + 1] == chunks[..k + 1];
    }
    if k :| FinishingRead(all, k, parse) {
      assert k == |chunks| || FinishingRead(chunks, k, parse);
    }
    if k :| FinishingRead(chunks, k, parse) {
      assert FinishingRead(all, k, parse);
    }
  }

  lemma {:induction false} CappedBehindFinish(chunks: seq<Text>, parse: Parser)
    ensures var r := Reads(chunks, parse);
      r.capped && Run(r.input).stage.Finished? <==> exists k :: FinishingRead(chunks, k, parse)
    ensures var r := Reads(chunks, parse); r.capped ==> Run(r.input).stage != Broken
    decreases |chunks|
  {
    hide Run, Feed, Payloads, Overflows, Framed, ReadAll;
    if chunks != [] {
      var before, chunk := chunks[..|chunks| - 1], chunks[|chunks| - 1];
      assert chunks == before + [chunk] && chunks[..|before| + 1] == chunks;
      CappedBehindFinish(before, parse);
      HaltedExactly(before, parse);
      FinishingSnoc(before, chunk, parse);
      FramedSnoc(before, chunk, parse);
    }
  }

  // ---- main results ---------------------------------------------------------------------------

  /**
   The output is well formed after every read, except that a read which finishes the message and leaves
   more than MAX_BUFFER behind it adds an error to the complete output.
   */
  lemma {:induction false} OutputWellFormedExactly(chunks: seq<Text>, parse: Parser)
    ensures PhaseOf(Output(Reads(chunks, parse))) == Malformed <==> exists k :: FinishingRead(chunks, k, parse)
    ensures (exists k :: FinishingRead(chunks, k, parse)) ==>
      exists done :: PhaseOf(done) == Stopped && Output(Reads(chunks, parse)) == done + [ErrorEvent]
  {
    hide Run, Reads, PhaseOf, FinishingRead;
    var r := Reads(chunks, parse);
    CappedBehindFinish(chunks, parse);
    OutputIsWellFormed(r.input);
    if r.capped {
      CappedPhase(r.input);
      assert Sound(Run(r.input));
      assert Output(r) == Run(r.input).view.out + [ErrorEvent];
    }
  }

  /** Once the body has ended, the output ends with exactly one message_stop or error, with that one exception. */
  lemma {:induction false} CompleteExactly(chunks: seq<Text>, ending: Ending, parse: Parser)
    ensures var p := PhaseOf(Concluded(Reads(chunks, parse), ending, parse));
      if exists k :: FinishingRead(chunks, k, parse) then p == Malformed else p == Stopped || p == Failed
  {
    hide Run, Reads, PhaseOf, FinishingRead, LastPayload, AtEnd;
    var r := Reads(chunks, parse);
    CappedBehindFinish(chunks, parse);
    if !Halted(r) {
      OutputIsWellFormed(r.input + if ending.Lost? then [] else LastPayload(r.buffer + ending.flushed, parse));
    } else if r.capped {
      CappedPhase(r.input);
    } else {
      assert Sound(Run(r.input));
    }
  }

  /** A further read, and the end of the body, only add to what the client has received. */
  lemma {:induction false} OutputOnlyExtends(chunks: seq<Text>, chunk: Text, ending: Ending, parse: Parser)
    ensures Output(Reads(chunks, parse)) <= Output(Reads(chunks + [chunk], parse))
    ensures Output(Reads(chunks, parse)) <= Concluded(Reads(chunks, parse), ending, parse)
  {
    hide Run, Feed, Payloads, LastPayload;
    assert (chunks + [chunk])[..|chunks|] == chunks;
    var r := Reads(chunks, parse);
    RunExtends(r.input, Payloads(Feed(r.buffer, chunk).frames, parse));
    RunExtends(r.input, if ending.Lost? then [] else LastPayload(r.buffer + ending.flushed, parse));
  }

  lemma {:induction false} ReadsRun(chunks: seq<Text>, parse: Parser)
    requires !Overflows(chunks)
    ensures !Reads(chunks, parse).capped && Run(Reads(chunks, parse).input) == Run(Framed(chunks, parse))
    decreases |chunks|
  {
    hide Run, Feed, Payloads, Overflows, Framed, ReadAll;
    if chunks == [] {
      NothingRead(parse);
    } else {
      var before, chunk := chunks[..|chunks| - 1], chunks[|chunks| - 1];
      assert chunks == before + [chunk];
      OverflowGrows(before, chunk);
      ReadsRun(before, parse);
      HaltedExactly(before, parse);
      FramedSnoc(before, chunk, parse);
      RunExtends(Framed(before, parse), Payloads(Feed(ReadAll(before).rest, chunk).frames, parse));
    }
  }

  /** What the client receives of a body is decided by its text alone, however the body was cut. */
  lemma {:induction false} OutputIgnoresChunking(chunks: seq<Text>, flushed: Text, parse: Parser)
    requires !HasDoubleReturn(Join(chunks)) && !Overflows(chunks)
    ensures var cut := Frames(Normalise(Join(chunks))); var input := Payloads(cut.frames, parse);
      && Output(Reads(chunks, parse)) == Run(input).view.out
      && Concluded(Reads(chunks, parse), EndOfBody(flushed), parse)
         == AtEnd(input + LastPayload(cut.rest + flushed, parse)).view.out
  {
    hide Run, Payloads, Overflows, Normalise, Frames, HasDoubleReturn, LastPayload, Reads;
    ChunksReadAsOne(chunks);
    ReadsRun(chunks, parse);
    HaltedExactly(chunks, parse);
    RunExtends(Framed(chunks, parse), LastPayload(ReadAll(chunks).rest + flushed, parse));
  }

  /** A body of frames that leave a little room under the cap is well formed at its end, however it was cut. */
  lemma {:induction false} SmallFramesAreWellFormed(chunks: seq<Text>, flushed: Text, parse: Parser)
    requires !HasDoubleReturn(Join(chunks)) && Within(Normalise(Join(chunks)), MAX_BUFFER - 2)
    ensures var cut := Frames(Normalise(Join(chunks)));
      var out := Concluded(Reads(chunks, parse), EndOfBody(flushed), parse);
      && out == AtEnd(Payloads(cut.frames, parse) + LastPayload(cut.rest + flushed, parse)).view.out
      && (PhaseOf(out) == Stopped || PhaseOf(out) == Failed)
  {
    hide Run, AtEnd, Payloads, Normalise, Frames, HasDoubleReturn, LastPayload, Reads, Concluded, PhaseOf, Within;
    SmallFramesNeverOverflow(chunks);
    OutputIgnoresChunking(chunks, flushed, parse);
    var cut := Frames(Normalise(Join(chunks)));
    OutputIsWellFormed(Payloads(cut.frames, parse) + LastPayload(cut.rest + flushed, parse));
  }

  // ---- frames as they are written --------------------------------------------------------

  lemma {:induction false} NoBreak(t: Text, i: nat)
    requires LF !in t && i <= |t|
    ensures Js.FindFrom(t, [LF], i) == -1
    decreases |t| - i
  {
    if i < |t| {
      assert t[i..i + 1][0] == t[i];
      NoBreak(t, i + 1);
    }
  }

  lemma {:induction false} FirstBreak(line: Text, more: Text, i: nat)
    requires LF !in line && i <= |line|
    ensures Js.FindFrom(line + [LF] + more, [LF], i) == |line|
    decreases |line| - i
  {
    var t := line + [LF] + more;
    if i == |line| {
      assert t[i..i + 1] == [LF];
    } else {
      assert t[i..i + 1][0] == line[i];
      FirstBreak(line, more, i + 1);
    }
  }

  lemma {:induction false} LinesComeBack(lines: seq<Text>)
    requires lines != [] && forall line :: line in lines ==> LF !in line
    ensures Js.Split(Js.Join(lines, [LF]), [LF]) == lines
    decreases |lines|
  {
    if |lines| == 1 {
      NoBreak(lines[0], 0);
    } else {
      var rest := Js.Join(lines[1..], [LF]);
      var t := lines[0] + [LF] + rest;
      FirstBreak(lines[0], rest, 0);
      assert t[..|lines[0]|] == lines[0] && t[|lines[0]| + 1..] == rest;
      LinesComeBack(lines[1..]);
    }
  }

  /** One line, and not indented. */
  predicate Plain(line: Text) {
    LF !in line && Js.TrimStart(line) == line
  }

  /** Each line of a payload as the gateway's own stream writes it. */
  function Written(lines: seq<Text>): seq<Text> {
    if lines == [] then [] else Written(lines[..|lines| - 1]) + [Ascii("data: ") + lines[|lines| - 1]]
  }

  lemma {:induction false} WrittenLine(line: Text)
    requires Plain(line)
    ensures var w := Ascii("data: ") + line; LF !in w && Ascii("data:") <= w && Js.TrimStart(w[5..]) == line
  {
    var w := Ascii("data: ") + line;
    assert w[5..] == [0x20] + line && ([0x20] + line)[1..] == line;
  }

  lemma {:induction false} WrittenLines(lines: seq<Text>)
    requires forall line :: line in lines ==> Plain(line)
    ensures |Written(lines)| == |lines| && forall line :: line in Written(lines) ==> LF !in line
    ensures DataLines(Written(lines)) == lines
    decreases |lines|
  {
    hide Ascii, Js.TrimStart, Plain;
    if lines != [] {
      var before, line := lines[..|lines| - 1], lines[|lines| - 1];
      assert lines == before + [line];
      WrittenLines(before);
      WrittenLine(line);
      var w := Ascii("data: ") + line;
      assert Written(lines) == Written(before) + [w] && (Written(before) + [w])[..|before|] == Written(before);
    }
  }

  /** A payload written one data line per line is read back as it was, unless a line starts with white space. */
  lemma {:induction false} FramesReadBack(lines: seq<Text>, parse: Parser)
    requires lines != [] && forall line :: line in lines ==> Plain(line)
    ensures var data := Js.Join(lines, [LF]);
      PayloadOf(Js.Join(Written(lines), [LF]), parse)
      == if data == [] then Blank else if Js.Trim(data) == Ascii("[DONE]") then DoneMarker else parse(data)
  {
    WrittenLines(lines);
    LinesComeBack(Written(lines));
  }

  lemma {:induction false} DataLinesJoin(a: seq<Text>, b: seq<Text>)
    ensures DataLines(a + b) == DataLines(a) + DataLines(b)
    decreases |b|
  {
    hide Ascii, Js.TrimStart;
    if b == [] {
      assert a + b == a;
    } else {
      assert (a + b)[..|a + b| - 1] == a + b[..|b| - 1];
      DataLinesJoin(a, b[..|b| - 1]);
    }
  }

  /** Lines of other fields, and comments, change nothing wherever they stand in a frame. */
  lemma {:induction false} OtherLinesAreIgnored(a: seq<Text>, other: Text, b: seq<Text>, parse: Parser)
    requires a + b != [] && LF !in other && !(Ascii("data:") <= other)
    requires forall line :: line in a + b ==> LF !in line
    ensures PayloadOf(Js.Join(a + [other] + b, [LF]), parse) == PayloadOf(Js.Join(a + b, [LF]), parse)
  {
    hide DataLines, Js.Join, Js.Split, Js.Trim;
    LinesComeBack(a + [other] + b);
    LinesComeBack(a + b);
    DataLinesJoin(a + [other], b);
    DataLinesJoin(a, [other]);
    DataLinesJoin(a, b);
    NoData(other);
    assert DataLines(a) + [] == DataLines(a);
    assert Js.Split(Js.Join(a + [other] + b, [LF]), [LF]) == a + [other] + b;
    assert DataLines(a + [other] + b) == DataLines(a + b);
  }

  lemma {:induction false} NoData(other: Text)
    requires !(Ascii("data:") <= other)
    ensures DataLines([other]) == []
  {
    var none: seq<Text> := [];
    assert [other][..0] == none;
  }

  lemma {:induction false} FlatOneMore(frames: seq<Text>, f: Text)
    ensures Flat(frames + [f]) == Flat(frames) + f + [LF, LF]
  {
    FlatJoins(frames, [f]);
    assert [f][1..] == [];
    assert Flat([f]) == f + [LF, LF];
  }

  lemma {:induction false} WithoutReturns(t: Text)
    requires CR !in t
    ensures !HasDoubleReturn(t) && Normalise(t) == t
  {
    CleanStays(t);
  }

  /** The last frame may come without its blank line: the client receives the same. */
  lemma {:induction false} LastFrameNeedsNoBlankLine(
      frames: seq<Text>, f: Text, open: seq<Text>, closed: seq<Text>, parse: Parser)
    requires IsFrame(f) && Js.Trim(f) != [] && forall frame :: frame in frames ==> IsFrame(frame)
    requires CR !in Flat(frames + [f])
    requires Join(open) == Flat(frames) + f && Join(closed) == Flat(frames + [f]) && !Overflows(open) && !Overflows(closed)
    ensures Concluded(Reads(open, parse), EndOfBody([]), parse) == Concluded(Reads(closed, parse), EndOfBody([]), parse)
  {
    hide Concluded, Reads, Flat, Frames, Overflows, PayloadOf, Join, Normalise, HasDoubleReturn, IsFrame;
    FlatOneMore(frames, f);
    WithoutReturns(Join(open));
    WithoutReturns(Join(closed));
    OutputIgnoresChunking(open, [], parse);
    OutputIgnoresChunking(closed, [], parse);
    OpenAndClosed(frames, f);
    LastOfPayloads(frames, f, parse);
  }

  lemma {:induction false} OpenAndClosed(frames: seq<Text>, f: Text)
    requires IsFrame(f) && forall frame :: frame in frames ==> IsFrame(frame)
    ensures Frames(Flat(frames) + f) == Cut(frames, f) && Frames(Flat(frames + [f])) == Cut(frames + [f], [])
  {
    hide Flat, Frames, IsFrame;
    FrameHasNoBlank(f);
    PiecesAreTheFrames(frames, f);
    PiecesAreTheFrames(frames + [f], []);
    assert Flat(frames + [f]) + [] == Flat(frames + [f]);
  }

  lemma {:induction false} LastOfPayloads(frames: seq<Text>, f: Text, parse: Parser)
    requires Js.Trim(f) != []
    ensures Payloads(frames, parse) + LastPayload(f + [], parse) == Payloads(frames + [f], parse) + LastPayload([] + [], parse)
  {
    hide PayloadOf;
    var nothing: Text := [];
    assert f + nothing == f && nothing + nothing == nothing;
    assert (frames + [f])[..|frames|] == frames;
  }

  lemma {:induction false} FrameHasNoBlank(f: Text)
    requires IsFrame(f)
    ensures FirstBlank(f) == -1
  {
    forall j ensures !BlankAt(f, j) {
      assert BlankAt(f, j) ==> BlankAt(f + [LF, LF], j);
    }
  }

  // ---- the input the promise fails on -----------------------------------------------------

  lemma {:induction false} DoneFrame(parse: Parser)
    ensures PayloadOf(Ascii("data: [DONE]"), parse) == DoneMarker
  {
    var done := Ascii("[DONE]");
    var none: seq<Text> := [];
    assert [done][..0] == none && Written([done]) == [Ascii("data: ") + done];
    assert Ascii("data: ") + done == Ascii("data: [DONE]");
    assert Js.TrimStart(done) == done && Js.TrimEnd(done) == done;
    FramesReadBack([done], parse);
  }

  lemma {:induction false} DoneRun()
    ensures Run([DoneMarker]) == Stream(View([MessageStart, MessageDelta(EndTurn), MessageStop], -1, NoBlock, NoTool, map[]),
                                        Finished(EndTurn))
  {
    var none: seq<Payload> := [];
    assert [DoneMarker][..0] == none && Run(none) == Initial();
  }

  lemma {:induction false} OneFrame(frame: Text, more: Text)
    requires LF !in frame && CR !in frame && LF !in more && CR !in more
    ensures Feed([], frame + [LF, LF] + more) == Cut([frame], more)
  {
    hide Normalise, Frames;
    var t := frame + [LF, LF] + more;
    CleanStays(t);
    assert [] + t == t;
    assert BlankAt(t, |frame|) && forall j :: 0 <= j < |frame| ==> !BlankAt(t, j);
    FirstBlankIs(t, |frame|);
    assert t[..|frame|] == frame && t[|frame| + 2..] == more;
    FramesCons(t);
    FramesUncut(more);
  }

  /**
   The same body, read in one piece and in two: with more than MAX_BUFFER units behind the last frame, the
   first client is told of an error after message_stop, the second is not.
   */
  lemma {:induction false} OversizedTailBreaks(filler: Text, parse: Parser)
    requires |filler| > MAX_BUFFER && LF !in filler && CR !in filler
    ensures var last := Ascii("data: [DONE]") + [LF, LF]; var done := [MessageStart, MessageDelta(EndTurn), MessageStop];
      && Output(Reads([last + filler], parse)) == done + [ErrorEvent] && PhaseOf(done + [ErrorEvent]) == Malformed
      && Output(Reads([last, filler], parse)) == done && PhaseOf(done) == Stopped
  {
    hide Feed, PayloadOf, PhaseOf, Run, Reads, Output, MAX_BUFFER;
    DoneTogether(filler, parse);
    DoneApart(filler, parse);
    DoneIsStopped();
  }

  lemma {:induction false} DoneIsStopped()
    ensures var done := [MessageStart, MessageDelta(EndTurn), MessageStop];
      PhaseOf(done) == Stopped && PhaseOf(done + [ErrorEvent]) == Malformed
  {
    DoneRun();
    assert Sound(Run([DoneMarker]));
    Appended([MessageStart, MessageDelta(EndTurn), MessageStop], ErrorEvent);
  }

  lemma {:induction false} DoneTogether(filler: Text, parse: Parser)
    requires |filler| > MAX_BUFFER && LF !in filler && CR !in filler
    ensures Output(Reads([Ascii("data: [DONE]") + [LF, LF] + filler], parse))
         == [MessageStart, MessageDelta(EndTurn), MessageStop] + [ErrorEvent]
  {
    hide Feed, PayloadOf, PhaseOf, Run;
    var frame := Ascii("data: [DONE]");
    OneFrame(frame, filler);
    DoneFrame(parse);
    DoneRun();
    var none: seq<Text>, nothing: seq<Payload> := [], [];
    NothingRead(parse);
    assert [frame][..0] == none && [frame + [LF, LF] + filler][..0] == none;
    assert nothing + Payloads([frame], parse) == [DoneMarker];
  }

  lemma {:induction false} DoneApart(filler: Text, parse: Parser)
    requires LF !in filler && CR !in filler
    ensures Output(Reads([Ascii("data: [DONE]") + [LF, LF], filler], parse)) == [MessageStart, MessageDelta(EndTurn), MessageStop]
  {
    hide Feed, PayloadOf, PhaseOf, Run;
    var frame := Ascii("data: [DONE]");
    var last := frame + [LF, LF];
    OneFrame(frame, []);
    assert last + [] == last;
    DoneFrame(parse);
    DoneRun();
    var none: seq<Text>, nothing: seq<Payload> := [], [];
    NothingRead(parse);
    assert [frame][..0] == none && [last][..0] == none && [last, filler][..1] == [last];
    assert nothing + Payloads([frame], parse) == [DoneMarker];
    assert Reads([last], parse) == Reading([], [DoneMarker], false);
    assert Reads([last, filler], parse) == Reads([last], parse);
  }

  // ---- the loop itself ------------------------------------------------------------------------

  /** A payload reaches a live stream only, and Run takes no other either. */
  lemma {:induction false} TakenAlike(a: seq<Payload>, b: seq<Payload>, p: Payload)
    requires Run(a) == Run(b)
    ensures Run(if Run(a).stage == Running then a + [p] else a) == Run(b + [p])
  {
    hide Consumed, Sound;
    RunSnoc(a, p);
    RunSnoc(b, p);
  }

  lemma {:induction false} LiveExactly(t: Transducer)
    requires t.Valid() && !t.cancelled && !t.ended
    ensures t.Live() <==> !t.capped && Run(t.input).stage == Running
    ensures t.out == Output(Reading([], t.input, t.capped))
    ensures t.failed <==> t.capped || Run(t.input).stage == Broken
  {
    hide Run;
  }

  lemma {:induction false} OneTurn(chunks: seq<Text>, chunk: Text, blocks: seq<Text>, parse: Parser)
    requires ReadAll(chunks + [chunk]).frames == ReadAll(chunks).frames + blocks && !Halted(Reads(chunks, parse))
    ensures var input := Reads(chunks, parse).input + Payloads(blocks, parse);
      var rest := ReadAll(chunks + [chunk]).rest;
      Reads(chunks + [chunk], parse) == Reading(rest, input, Run(input).stage != Broken && |rest| > MAX_BUFFER)
  {
    hide Run, Feed, Payloads, Overflows;
    HaltedExactly(chunks, parse);
    assert (chunks + [chunk])[..|chunks|] == chunks;
    var last := Feed(ReadAll(chunks).rest, chunk);
    var frames := ReadAll(chunks).frames;
    assert blocks == (frames + blocks)[|frames|..] == (frames + last.frames)[|frames|..] == last.frames;
  }

  /** What follows the loop, told by the payloads the transducer has taken by then. */
  lemma {:induction false} EndsAlike(r: Reading, ending: Ending, input: seq<Payload>, parse: Parser)
    requires !r.capped
    requires var last := if ending.Lost? then [] else LastPayload(r.buffer + ending.flushed, parse);
      Run(input) == Run(if Halted(r) then r.input else r.input + last)
    ensures AtEnd(input).view.out == Concluded(r, ending, parse)
  {
    hide Run, LastPayload;
  }

  class Body {
    const parse: Parser
    const splitter: Splitter
    const transducer: Transducer
    /** The loop has not been left. */
    var reading: bool

    ghost function Now(): Reading
      reads this, splitter
    {
      Reads(splitter.chunks, parse)
    }

    /** Unless the client went away, it has received what the chunks read so far call for. */
    ghost predicate Valid()
      reads this, splitter, transducer
    {
      && splitter.Valid() && transducer.Valid()
      && (reading ==> !splitter.failed && !transducer.ended && !transducer.capped)
      && (!transducer.cancelled && !transducer.ended ==>
            && Run(transducer.input) == Run(Now().input) && transducer.capped == Now().capped
            && transducer.out == Output(Now()) && (reading <==> !Halted(Now())))
    }

    constructor (parse: Parser, aborted: bool)
      ensures Valid() && splitter.chunks == [] && transducer.cancelled == aborted
      ensures fresh(splitter) && fresh(transducer) && this.parse == parse
    {
      this.parse := parse;
      splitter := new Splitter();
      transducer := new Transducer(aborted);
      reading := !aborted;
    }

    method Cancel()
      requires Valid()
      modifies transducer
      ensures Valid() && transducer.cancelled && transducer.out == old(transducer.out)
    {
      transducer.Cancel();
    }

    /** One turn of the loop, from the chunk that a read delivered to the cap check. */
    method Read(chunk: Text)
      requires Valid() && reading
      modifies this, splitter, transducer
      ensures Valid() && splitter.chunks == old(splitter.chunks) + [chunk]
      ensures transducer.cancelled == old(transducer.cancelled)
      ensures !transducer.cancelled ==> transducer.out == Output(Reads(old(splitter.chunks) + [chunk], parse))
    {
      hide Run, Feed, Payloads, PayloadOf, Overflows, Reads, ReadAll;
      ghost var before := Now();
      var blocks := splitter.Read(chunk);
      if !transducer.cancelled {
        OneTurn(old(splitter.chunks), chunk, blocks, parse);
      }
      ConsumeAll(blocks, before.input);
      if !transducer.cancelled {
        LiveExactly(transducer);
      }
      if !transducer.failed && splitter.failed {
        transducer.CapExceeded();
        if !transducer.cancelled {
          LiveExactly(transducer);
        }
      }
      reading := transducer.Live();
    }

    /** The frames of one read go to the transducer in order. */
    method ConsumeAll(blocks: seq<Text>, ghost before: seq<Payload>)
      requires transducer.Valid() && !transducer.ended && !transducer.capped
      requires !transducer.cancelled ==> Run(transducer.input) == Run(before)
      modifies transducer
      ensures transducer.Valid() && !transducer.ended && !transducer.capped
      ensures transducer.cancelled == old(transducer.cancelled)
      ensures !transducer.cancelled ==> Run(transducer.input) == Run(before + Payloads(blocks, parse))
    {
      hide Run, PayloadOf;
      var i := 0;
      assert before + Payloads(blocks[..0], parse) == before;
      while i < |blocks|
        invariant 0 <= i <= |blocks|
        invariant transducer.Valid() && !transducer.ended && !transducer.capped
        invariant transducer.cancelled == old(transducer.cancelled)
        invariant !transducer.cancelled ==> Run(transducer.input) == Run(before + Payloads(blocks[..i], parse))
      {
        var data := PayloadOf(blocks[i], parse);
        ghost var so := before + Payloads(blocks[..i], parse);
        if !transducer.cancelled {
          LiveExactly(transducer);
          TakenAlike(transducer.input, so, data);
        }
        transducer.Consume(data);
        assert blocks[..i + 1][..i] == blocks[..i];
        assert before + Payloads(blocks[..i + 1], parse) == so + [data];
        i := i + 1;
      }
      assert blocks[..i] == blocks;
    }

    /** What follows the loop. */
    method End(ending: Ending)
      requires Valid() && !transducer.ended
      modifies transducer
      ensures transducer.Valid() && transducer.cancelled == old(transducer.cancelled)
      ensures !transducer.cancelled ==> transducer.out == Concluded(Now(), ending, parse)
    {
      hide Run, PayloadOf, Overflows, ReadAll, Reads, AtEnd;
      ghost var r := Now();
      assert r.input + [] == r.input;
      if !transducer.cancelled {
        HaltedExactly(splitter.chunks, parse);
        LiveExactly(transducer);
      }
      if ending.EndOfBody? && !transducer.cancelled && !transducer.failed {
        var last := splitter.buffer + ending.flushed;
        if Js.Trim(last) != [] {
          TakenAlike(transducer.input, r.input, PayloadOf(last, parse));
          transducer.Consume(PayloadOf(last, parse));
        }
      }
      if !transducer.cancelled && !r.capped {
        EndsAlike(r, ending, transducer.input, parse);
      }
      transducer.BodyEnded();
    }
  }
}
