/** The incremental SSE splitter of the Anthropic adapter (src/anthropic.ts), and when chunking matters. */
module SseSplitter {
  import opened Utf16

  const CR: CodeUnit := 0x0D
  const LF: CodeUnit := 0x0A

  /** MAX_SSE_BUFFER_CHARS */
  const MAX_BUFFER: nat := 1024 * 1024

  /** One pass of replace(/\r\n/gu, "\n"). */
  function Normalise(t: Text): Text {
    if t == [] then []
    else if |t| >= 2 && t[0] == CR && t[1] == LF then [LF] + Normalise(t[2..])
    else [t[0]] + Normalise(t[1..])
  }

  predicate BlankAt(t: Text, i: int) {
    0 <= i && i + 1 < |t| && t[i] == LF && t[i + 1] == LF
  }

  /** indexOf("\n\n") */
  function FirstBlank(t: Text, from: nat := 0): (i: int)
    requires from <= |t|
    ensures i == -1 ==> forall j :: j >= from ==> !BlankAt(t, j)
    ensures i != -1 ==> i >= from && BlankAt(t, i) && forall j :: from <= j < i ==> !BlankAt(t, j)
    decreases |t| - from
  {
    if from + 1 >= |t| then -1
    else if BlankAt(t, from) then from
    else FirstBlank(t, from + 1)
  }

  datatype Cut = Cut(frames: seq<Text>, rest: Text)

  /** All complete frames of a text, and the unfinished one behind them. */
  function Frames(t: Text): Cut
    decreases |t|
  {
    var i := FirstBlank(t);
    if i == -1 then Cut([], t)
    else
      var tail := Frames(t[i + 2..]);
      Cut([t[..i]] + tail.frames, tail.rest)
  }

  /** One read(): the buffer before, the decoded chunk, and what comes out. */
  function Feed(buffer: Text, chunk: Text): Cut {
    Frames(Normalise(buffer + chunk))
  }

  /** A whole body read chunk by chunk. */
  function ReadAll(chunks: seq<Text>): Cut {
    if chunks == [] then Cut([], [])
    else
      var before := ReadAll(chunks[..|chunks| - 1]);
      var last := Feed(before.rest, chunks[|chunks| - 1]);
      Cut(before.frames + last.frames, last.rest)
  }

  function Join(chunks: seq<Text>): Text {
    if chunks == [] then [] else Join(chunks[..|chunks| - 1]) + chunks[|chunks| - 1]
  }

  /** The frames put back together with their separators. */
  function Flat(frames: seq<Text>): Text {
    if frames == [] then [] else frames[0] + [LF, LF] + Flat(frames[1..])
  }

  ghost predicate DoubleReturnAt(t: Text, i: int) {
    0 <= i && i + 2 < |t| && t[i] == CR && t[i + 1] == CR && t[i + 2] == LF
  }

  /** The text contains CR CR LF. */
  ghost predicate HasDoubleReturn(t: Text) {
    exists i :: DoubleReturnAt(t, i)
  }

  ghost predicate ReturnAt(t: Text, i: int) {
    0 <= i && i + 1 < |t| && t[i] == CR && t[i + 1] == LF
  }

  ghost predicate Clean(t: Text) {
    forall i :: !ReturnAt(t, i)
  }

  // ---- splitting -------------------------------------------------------------------

  lemma {:induction false} FramesUncut(t: Text)
    ensures FirstBlank(t) == -1 ==> Frames(t) == Cut([], t)
  {
  }

  lemma {:induction false} FramesCons(t: Text)
    ensures var i := FirstBlank(t);
      i != -1 ==> Frames(t) == Cut([t[..i]] + Frames(t[i + 2..]).frames, Frames(t[i + 2..]).rest)
  {
  }

  lemma {:induction false} FlatNone()
    ensures Flat([]) == []
  {
  }

  lemma {:induction false} FlatCons(frame: Text, frames: seq<Text>)
    ensures Flat([frame] + frames) == frame + [LF, LF] + Flat(frames)
  {
    assert ([frame] + frames)[1..] == frames;
  }

  lemma {:induction false} Rejoined(t: Text, i: nat, flat: Text, rest: Text)
    requires i + 2 <= |t| && t[i] == LF && t[i + 1] == LF && flat + rest == t[i + 2..]
    ensures t[..i] + [LF, LF] + flat + rest == t
  {
    assert t[..i] + [LF, LF] + flat + rest == t[..i] + [LF, LF] + (flat + rest);
    assert t[..i] + [LF, LF] + t[i + 2..] == t;
  }

  lemma {:induction false} FramesRejoin(t: Text)
    ensures Flat(Frames(t).frames) + Frames(t).rest == t
    decreases |t|
  {
    hide Frames, Flat;
    var i := FirstBlank(t);
    FramesUncut(t);
    FramesCons(t);
    if i == -1 {
      FlatNone();
    } else {
      var tail := Frames(t[i + 2..]);
      FramesRejoin(t[i + 2..]);
      FlatCons(t[..i], tail.frames);
      Rejoined(t, i, Flat(tail.frames), tail.rest);
    }
  }

  lemma {:induction false} FirstBlankIs(t: Text, i: nat)
    requires BlankAt(t, i) && forall j :: 0 <= j < i ==> !BlankAt(t, j)
    ensures FirstBlank(t) == i
  {
  }

  /** Frames that are complete stay as they are when more text follows. */
  lemma {:induction false} FramesExtend(t: Text, more: Text)
    ensures Frames(t + more) == Cut(Frames(t).frames + Frames(Frames(t).rest + more).frames,
                                    Frames(Frames(t).rest + more).rest)
    decreases |t|
  {
    hide Frames;
    FramesUncut(t);
    var i := FirstBlank(t);
    if i != -1 {
      assert forall j :: 0 <= j <= i ==> BlankAt(t + more, j) == BlankAt(t, j);
      FirstBlankIs(t + more, i);
      assert (t + more)[..i] == t[..i] && (t + more)[i + 2..] == t[i + 2..] + more;
      FramesCons(t);
      FramesCons(t + more);
      FramesExtend(t[i + 2..], more);
      var tail := Frames(t[i + 2..]);
      assert [t[..i]] + (tail.frames + Frames(tail.rest + more).frames)
          == ([t[..i]] + tail.frames) + Frames(tail.rest + more).frames;
    } else {
      assert [] + Frames(t + more).frames == Frames(t + more).frames;
    }
  }

  /** A frame as the splitter finds it: the blank line behind it is the first one. */
  predicate IsFrame(f: Text) {
    FirstBlank(f + [LF, LF]) == |f|
  }

  /**
   The frames of a text are the pieces between its blank lines, each blank line found as early as possible, and the
   rest holds none: no other cut of the text is like this.
   */
  lemma {:induction false} FramesAreThePieces(t: Text)
    ensures forall f :: f in Frames(t).frames ==> IsFrame(f)
    ensures FirstBlank(Frames(t).rest) == -1
    ensures Flat(Frames(t).frames) + Frames(t).rest == t
    decreases |t|
  {
    hide Flat, Frames, IsFrame;
    FramesRejoin(t);
    FramesUncut(t);
    var i := FirstBlank(t);
    if i != -1 {
      FramesAreThePieces(t[i + 2..]);
      FramesCons(t);
      FirstPieceIsFrame(t, i);
    }
  }

  lemma {:induction false} FirstPieceIsFrame(t: Text, i: nat)
    requires FirstBlank(t) == i
    ensures i <= |t| && IsFrame(t[..i])
  {
    var f := t[..i];
    forall j | 0 <= j < i ensures !BlankAt(f + [LF, LF], j) {
      assert !BlankAt(t, j);
    }
    FirstBlankIs(f + [LF, LF], i);
  }

  lemma {:induction false} PiecesAreTheFrames(frames: seq<Text>, rest: Text)
    requires (forall f :: f in frames ==> IsFrame(f)) && FirstBlank(rest) == -1
    ensures Frames(Flat(frames) + rest) == Cut(frames, rest)
    decreases |frames|
  {
    if frames == [] {
      assert Flat(frames) + rest == rest;
    } else {
      var f, more := frames[0], Flat(frames[1..]) + rest;
      var t := Flat(frames) + rest;
      assert t == f + [LF, LF] + more;
      PiecesAreTheFrames(frames[1..], rest);
      assert f in frames;
      assert forall j :: 0 <= j < |f| ==> BlankAt(t, j) ==> BlankAt(f + [LF, LF], j);
      FirstBlankIs(t, |f|);
      assert t[..|f|] == f && t[|f| + 2..] == more;
      assert [f] + frames[1..] == frames;
    }
  }

  // ---- normalisation ------------------------------------------------------------------

  lemma {:induction false} CleanStays(t: Text)
    requires Clean(t)
    ensures Normalise(t) == t
    decreases |t|
  {
    if t != [] {
      assert !ReturnAt(t, 0);
      forall i ensures !ReturnAt(t[1..], i) {
        assert !ReturnAt(t, i + 1);
      }
      CleanStays(t[1..]);
    }
  }

  lemma {:induction false} Glued(u: CodeUnit, a: Text, b: Text)
    ensures [u] + a + b == [u] + (a + b)
  {
  }

  /** What a pass does, and all it does: the first CR LF becomes LF, and a text without one stays. */
  lemma {:induction false} NormaliseReplacesReturns(clean: Text, rest: Text)
    requires Clean(clean + [CR])
    ensures Normalise(clean + [CR, LF] + rest) == clean + [LF] + Normalise(rest)
    ensures Normalise(clean) == clean
  {
    CleanPrefix(clean, [CR]);
    CleanStays(clean);
    var tail := [CR, LF] + rest;
    assert clean + [CR, LF] + rest == clean + tail;
    NormaliseSplits(clean, tail);
    assert tail[2..] == rest;
    Regrouped(clean, [LF], Normalise(rest));
  }

  lemma {:induction false} CleanPrefix(a: Text, b: Text)
    requires Clean(a + b)
    ensures Clean(a)
  {
    forall i ensures !ReturnAt(a, i) {
      assert !ReturnAt(a + b, i);
    }
  }

  lemma {:induction false} Regrouped(a: Text, b: Text, c: Text)
    ensures a + b + c == a + (b + c)
  {
  }

  /** A pass may be split anywhere but inside a CR LF. */
  lemma {:induction false} NormaliseSplits(a: Text, b: Text)
    requires !(a != [] && b != [] && a[|a| - 1] == CR && b[0] == LF)
    ensures Normalise(a + b) == Normalise(a) + Normalise(b)
    decreases |a|
  {
    if a == [] {
      assert a + b == b;
      assert Normalise(a) + Normalise(b) == Normalise(b);
    } else if |a| >= 2 && a[0] == CR && a[1] == LF {
      assert (a + b)[2..] == a[2..] + b;
      NormaliseSplits(a[2..], b);
      Glued(LF, Normalise(a[2..]), Normalise(b));
    } else {
      assert (a + b)[1..] == a[1..] + b;
      NormaliseSplits(a[1..], b);
      Glued(a[0], Normalise(a[1..]), Normalise(b));
    }
  }

  lemma {:induction false} NormaliseShrinks(t: Text)
    ensures |Normalise(t)| <= |t|
    ensures !Clean(t) ==> |Normalise(t)| < |t|
    decreases |t|
  {
    if t != [] && !(|t| >= 2 && t[0] == CR && t[1] == LF) {
      NormaliseShrinks(t[1..]);
      if !Clean(t) {
        var i :| ReturnAt(t, i);
        assert ReturnAt(t[1..], i - 1);
      }
    } else if t != [] {
      NormaliseShrinks(t[2..]);
    }
  }

  /** Without CR CR LF, one pass leaves no CR LF behind. */
  lemma {:induction false} NormaliseCleans(t: Text)
    requires !HasDoubleReturn(t)
    ensures Clean(Normalise(t))
    ensures t != [] ==> Normalise(t) != [] && (Normalise(t)[0] == LF ==> t[0] == LF || (|t| >= 2 && t[0] == CR && t[1] == LF))
    decreases |t|
  {
    if t == [] {
    } else if |t| >= 2 && t[0] == CR && t[1] == LF {
      TailHasNone(t, 2);
      NormaliseCleans(t[2..]);
      PrependClean(LF, Normalise(t[2..]));
    } else {
      TailHasNone(t, 1);
      NormaliseCleans(t[1..]);
      if t[0] == CR && |t| >= 3 && t[1] == CR && t[2] == LF {
        assert DoubleReturnAt(t, 0);
      }
      PrependClean(t[0], Normalise(t[1..]));
    }
  }

  lemma {:induction false} TailHasNone(t: Text, k: nat)
    requires !HasDoubleReturn(t) && k <= |t|
    ensures !HasDoubleReturn(t[k..])
  {
    forall i ensures !DoubleReturnAt(t[k..], i) {
      assert !DoubleReturnAt(t, i + k);
    }
  }

  lemma {:induction false} HeadHasNone(a: Text, b: Text)
    requires !HasDoubleReturn(a + b)
    ensures !HasDoubleReturn(a)
  {
    forall i ensures !DoubleReturnAt(a, i) {
      assert !DoubleReturnAt(a + b, i);
    }
  }

  lemma {:induction false} PrependClean(c: CodeUnit, t: Text)
    requires Clean(t) && !(c == CR && t != [] && t[0] == LF)
    ensures Clean([c] + t)
  {
    forall i ensures !ReturnAt([c] + t, i) {
      assert i > 0 ==> ReturnAt([c] + t, i) == ReturnAt(t, i - 1);
    }
  }

  /** Without CR CR LF, normalising what was already normalised, plus more, is normalising it all. */
  lemma {:induction false} NormaliseTwice(a: Text, b: Text)
    requires !HasDoubleReturn(a + b)
    ensures Normalise(Normalise(a) + b) == Normalise(a + b)
  {
    HeadHasNone(a, b);
    NormaliseCleans(a);
    if a != [] && b != [] && a[|a| - 1] == CR && b[0] == LF {
      var h := a[..|a| - 1];
      assert a == h + [CR] && a + b == h + ([CR] + b);
      if h != [] && h[|h| - 1] == CR {
        assert DoubleReturnAt(a + b, |h| - 1);
      }
      NormaliseSplits(h, [CR]);
      NormaliseSplits(h, [CR] + b);
      assert Normalise([CR]) == [CR] by { assert [CR][1..] == []; }
      HeadHasNone(h, [CR] + b);
      NormaliseCleans(h);
      CleanStays(Normalise(h));
      NormaliseEndsAlike(h);
      assert Normalise(a) + b == Normalise(h) + ([CR] + b);
      NormaliseSplits(Normalise(h), [CR] + b);
    } else {
      NormaliseEndsAlike(a);
      NormaliseSplits(Normalise(a), b);
      NormaliseSplits(a, b);
      CleanStays(Normalise(a));
    }
  }

  lemma {:induction false} NormaliseEndsAlike(t: Text)
    ensures t != [] ==> Normalise(t) != [] && Normalise(t)[|Normalise(t)| - 1] == t[|t| - 1]
    ensures t == [] ==> Normalise(t) == []
    decreases |t|
  {
    if |t| >= 2 && t[0] == CR && t[1] == LF {
      NormaliseEndsAlike(t[2..]);
    } else if t != [] {
      NormaliseEndsAlike(t[1..]);
    }
  }

  // ---- reading in chunks is reading at once -----------------------------------------------

  lemma {:induction false} FlatEnds(frames: seq<Text>)
    ensures frames != [] ==> Flat(frames) != [] && Flat(frames)[|Flat(frames)| - 1] == LF
  {
    if frames != [] {
      FlatEnds(frames[1..]);
    }
  }

  lemma {:induction false} FeedContinues(a: Text, chunk: Text)
    requires !HasDoubleReturn(a + chunk)
    ensures var before := Frames(Normalise(a)); var last := Feed(before.rest, chunk);
      Frames(Normalise(a + chunk)) == Cut(before.frames + last.frames, last.rest)
  {
    hide Frames, Flat, Normalise, HasDoubleReturn;
    var x := Normalise(a);
    var before := Frames(x);
    var flat := Flat(before.frames);
    FramesRejoin(x);
    HeadHasNone(a, chunk);
    NormaliseCleans(a);
    NormaliseTwice(a, chunk);
    assert x + chunk == flat + (before.rest + chunk);
    forall i ensures !ReturnAt(flat, i) {
      assert ReturnAt(flat, i) ==> ReturnAt(x, i);
    }
    CleanStays(flat);
    FlatNone();
    FlatEnds(before.frames);
    var more := Normalise(before.rest + chunk);
    NormaliseSplits(flat, before.rest + chunk);
    FramesOfFlat(x);
    FramesExtend(flat, more);
    assert [] + more == more;
  }

  /** Cutting the frames' own text gives back the frames and leaves nothing. */
  lemma {:induction false} FramesOfFlat(t: Text)
    ensures Frames(Flat(Frames(t).frames)) == Cut(Frames(t).frames, [])
    decreases |t|
  {
    var i := FirstBlank(t);
    if i == -1 {
      assert Frames([]) == Cut([], []);
    } else {
      FramesOfFlat(t[i + 2..]);
      var tail := Flat(Frames(t[i + 2..]).frames);
      assert Frames(t).frames[1..] == Frames(t[i + 2..]).frames;
      var flat := t[..i] + [LF, LF] + tail;
      assert flat == Flat(Frames(t).frames);
      assert forall j :: 0 <= j < i ==> BlankAt(flat, j) ==> BlankAt(t, j);
      FirstBlankIs(flat, i);
      assert flat[..i] == t[..i] && flat[i + 2..] == tail;
    }
  }

  lemma {:induction false} ChunksReadAsOne(chunks: seq<Text>)
    requires !HasDoubleReturn(Join(chunks))
    ensures ReadAll(chunks) == Frames(Normalise(Join(chunks)))
    decreases |chunks|
  {
    if chunks == [] {
      assert Frames([]) == Cut([], []);
    } else {
      var before := chunks[..|chunks| - 1];
      HeadHasNone(Join(before), chunks[|chunks| - 1]);
      ChunksReadAsOne(before);
      FeedContinues(Join(before), chunks[|chunks| - 1]);
    }
  }

  // ---- CR CR LF is the one thing chunking can change -----------------------------------------

  function Size(c: Cut): nat {
    |Flat(c.frames)| + |c.rest|
  }

  lemma {:induction false} FlatJoins(a: seq<Text>, b: seq<Text>)
    ensures Flat(a + b) == Flat(a) + Flat(b)
    decreases |a|
  {
    if a == [] {
      assert a + b == b;
    } else {
      assert (a + b)[1..] == a[1..] + b;
      FlatJoins(a[1..], b);
    }
  }

  lemma {:induction false} RestKeepsEnding(t: Text)
    requires |t| >= 2 && t[|t| - 2] == CR && t[|t| - 1] == LF
    ensures ReturnAt(Frames(t).rest, |Frames(t).rest| - 2)
    decreases |t|
  {
    var i := FirstBlank(t);
    if i != -1 {
      assert i + 2 <= |t| - 2;
      RestKeepsEnding(t[i + 2..]);
    }
  }

  /** A read that stops right after CR CR LF comes out shorter than reading everything at once. */
  lemma {:induction false} SplitLosesReturn(a: Text, b: Text)
    requires |a| >= 3 && DoubleReturnAt(a, |a| - 3)
    ensures Size(ReadAll([a, b])) < Size(ReadAll([a + b]))
  {
    hide Frames, Flat, Normalise, ReadAll;
    var x := Normalise(a);
    var before := Frames(x);
    TwoReads(a, b);
    FramesRejoin(x);
    FramesRejoin(Normalise(before.rest + b));
    FramesRejoin(Normalise(a + b));
    FlatJoins(before.frames, Feed(before.rest, b).frames);
    NormaliseSplits(a, b);
    NormalisedEnding(a);
    RestKeepsEnding(x);
    NormaliseSplits(before.rest, b);
    NormaliseShrinks(before.rest);
  }

  lemma {:induction false} TwoReads(a: Text, b: Text)
    ensures ReadAll([a + b]) == Frames(Normalise(a + b))
    ensures var before := Frames(Normalise(a)); var last := Feed(before.rest, b);
      ReadAll([a, b]) == Cut(before.frames + last.frames, last.rest)
  {
    var none: seq<Text> := [];
    assert [a, b][..1] == [a] && [a][..0] == none && [a + b][..0] == none;
    assert [] + a == a && [] + (a + b) == a + b;
    assert forall c: Cut :: Cut([] + c.frames, c.rest) == c;
    assert ReadAll([a]) == Frames(Normalise(a));
  }

  lemma {:induction false} NormalisedEnding(a: Text)
    requires |a| >= 3 && DoubleReturnAt(a, |a| - 3)
    ensures var x := Normalise(a); |x| >= 2 && x[|x| - 2] == CR && x[|x| - 1] == LF
  {
    var h := a[..|a| - 2];
    assert a == h + [CR, LF];
    NormaliseSplits(h, [CR, LF]);
    assert Normalise([CR, LF]) == [LF] by { assert [CR, LF][2..] == []; }
    NormaliseEndsAlike(h);
  }

  lemma {:induction false} JoinsOfFew(a: Text, b: Text)
    ensures Join([a]) == a && Join([a, b]) == a + b
  {
    var none: seq<Text> := [];
    assert [a, b][..1] == [a] && [a][..0] == none;
    assert [] + a == a;
  }

  /**
   Reading does not depend on how the body is cut into chunks, exactly for the
   bodies that do not contain CR CR LF.
   */
  lemma {:induction false} ChunkingIsInvisible(text: Text)
    ensures (forall chunks :: Join(chunks) == text ==> ReadAll(chunks) == ReadAll([text])) <==> !HasDoubleReturn(text)
  {
    hide Frames, Normalise, ReadAll;
    JoinsOfFew(text, []);
    if HasDoubleReturn(text) {
      var i :| DoubleReturnAt(text, i);
      var a, b := text[..i + 3], text[i + 3..];
      assert text == a + b;
      assert DoubleReturnAt(a, i);
      SplitLosesReturn(a, b);
      JoinsOfFew(a, b);
      assert ReadAll([a, b]) != ReadAll([text]);
    } else {
      ChunksReadAsOne([text]);
      forall chunks | Join(chunks) == text ensures ReadAll(chunks) == ReadAll([text]) {
        ChunksReadAsOne(chunks);
      }
    }
  }

  // ---- the buffer cap ------------------------------------------------------------------------

  /** Some read of this chunking leaves more than the cap unfinished. */
  ghost predicate Overflows(chunks: seq<Text>) {
    exists k :: 0 <= k <= |chunks| && |ReadAll(chunks[..k]).rest| > MAX_BUFFER
  }

  ghost predicate Within(t: Text, limit: nat) {
    |Frames(t).rest| <= limit && forall f :: f in Frames(t).frames ==> |f| <= limit
  }

  lemma {:induction false} PrefixRest(x: Text, y: Text, limit: nat)
    requires x <= y && Within(y, limit)
    ensures |Frames(x).rest| <= limit + 1
    decreases |y|
  {
    var i := FirstBlank(y);
    if i == -1 {
      forall j ensures !BlankAt(x, j) {
        assert BlankAt(x, j) ==> BlankAt(y, j);
      }
      assert FirstBlank(x) == -1;
    } else {
      assert Frames(y).frames[0] == y[..i];
      if |x| < i + 2 {
        forall j ensures !BlankAt(x, j) {
          assert BlankAt(x, j) ==> BlankAt(y, j) && j < i;
        }
        assert FirstBlank(x) == -1;
      } else {
        assert BlankAt(x, i) && forall j :: 0 <= j < i ==> BlankAt(x, j) ==> BlankAt(y, j);
        FirstBlankIs(x, i);
        forall f | f in Frames(y[i + 2..]).frames ensures |f| <= limit {
          assert f in Frames(y).frames;
        }
        PrefixRest(x[i + 2..], y[i + 2..], limit);
      }
    }
  }

  lemma {:induction false} OneMoreUnit(x: Text)
    ensures |Frames(x + [CR]).rest| <= |Frames(x).rest| + 1
  {
    FramesExtend(x, [CR]);
    FramesRejoin(Frames(x).rest + [CR]);
  }

  /** What one pass makes of a prefix is a prefix of what it makes of the whole, but for a last lone CR. */
  lemma {:induction false} NormalisedPrefix(p: Text, more: Text)
    ensures Normalise(p) <= Normalise(p + more)
         || (exists h :: Normalise(p) == h + [CR] && h <= Normalise(p + more))
  {
    if p != [] && more != [] && p[|p| - 1] == CR && more[0] == LF {
      var h := p[..|p| - 1];
      assert p == h + [CR] && p + more == h + ([CR] + more);
      NormaliseSplits(h, [CR]);
      NormaliseSplits(h, [CR] + more);
      assert Normalise([CR]) == [CR] by { assert [CR][1..] == []; }
      assert Normalise(p) == Normalise(h) + [CR];
    } else {
      NormaliseSplits(p, more);
    }
  }

  lemma {:induction false} JoinOfPrefix(chunks: seq<Text>, k: nat)
    requires k <= |chunks|
    ensures Join(chunks[..k]) <= Join(chunks)
    decreases |chunks|
  {
    if k < |chunks| {
      assert chunks[..|chunks| - 1][..k] == chunks[..k];
      JoinOfPrefix(chunks[..|chunks| - 1], k);
    } else {
      assert chunks[..k] == chunks;
    }
  }

  /** A body whose frames leave room for a separator and a split CR LF never hits the cap, however it is cut. */
  lemma {:induction false} SmallFramesNeverOverflow(chunks: seq<Text>)
    requires !HasDoubleReturn(Join(chunks))
    requires Within(Normalise(Join(chunks)), MAX_BUFFER - 2)
    ensures !Overflows(chunks)
  {
    forall k | 0 <= k <= |chunks| ensures |ReadAll(chunks[..k]).rest| <= MAX_BUFFER {
      JoinOfPrefix(chunks, k);
      var p := Join(chunks[..k]);
      var more := Join(chunks)[|p|..];
      assert p + more == Join(chunks);
      HeadHasNone(p, more);
      ChunksReadAsOne(chunks[..k]);
      NormalisedPrefix(p, more);
      if Normalise(p) <= Normalise(p + more) {
        PrefixRest(Normalise(p), Normalise(p + more), MAX_BUFFER - 2);
      } else {
        var h :| Normalise(p) == h + [CR] && h <= Normalise(p + more);
        PrefixRest(h, Normalise(p + more), MAX_BUFFER - 2);
        OneMoreUnit(h);
      }
    }
  }

  // ---- the loop itself ---------------------------------------------------------------------

  class Splitter {
    var buffer: Text
    var failed: bool
    ghost var chunks: seq<Text>

    /** While reading goes on, the buffer is what reading all chunks so far leaves. */
    ghost predicate Valid()
      reads this
    {
      !failed ==> buffer == ReadAll(chunks).rest && !Overflows(chunks)
    }

    constructor ()
      ensures Valid() && !failed && chunks == []
    {
      buffer, failed, chunks := [], false, [];
    }

    /** The body of the read loop: the frames it hands to the consumer, and the cap check behind them. */
    method Read(chunk: Text) returns (blocks: seq<Text>)
      requires Valid() && !failed
      modifies this
      ensures Valid() && chunks == old(chunks) + [chunk]
      ensures ReadAll(chunks).frames == ReadAll(old(chunks)).frames + blocks
      ensures failed <==> |ReadAll(chunks).rest| > MAX_BUFFER
    {
      hide Frames, Normalise, Overflows;
      ghost var text := Normalise(buffer + chunk);
      buffer := Normalise(buffer + chunk);
      blocks := [];
      var boundary := FirstBlank(buffer);
      while boundary >= 0
        invariant boundary == FirstBlank(buffer)
        invariant Frames(text) == Cut(blocks + Frames(buffer).frames, Frames(buffer).rest)
        invariant chunks == old(chunks) && !failed
        decreases |buffer|
      {
        var block := buffer[..boundary];
        FramesCons(buffer);
        assert blocks + ([block] + Frames(buffer[boundary + 2..]).frames)
            == (blocks + [block]) + Frames(buffer[boundary + 2..]).frames;
        buffer := buffer[boundary + 2..];
        blocks := blocks + [block];
        boundary := FirstBlank(buffer);
      }
      FramesUncut(buffer);
      assert blocks + [] == blocks;
      assert (chunks + [chunk])[..|chunks|] == chunks;
      chunks := chunks + [chunk];
      failed := |buffer| > MAX_BUFFER;
      OverflowGrows(old(chunks), chunk);
    }
  }

  lemma {:induction false} OverflowGrows(chunks: seq<Text>, chunk: Text)
    ensures Overflows(chunks + [chunk]) <==> Overflows(chunks) || |ReadAll(chunks + [chunk]).rest| > MAX_BUFFER
  {
    var all := chunks + [chunk];
    assert all[..|all|] == all;
    assert forall k :: 0 <= k <= |chunks| ==> all[..k] == chunks[..k];
  }
}
