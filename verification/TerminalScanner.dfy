/** responsesTerminalScanner (src/openai.ts:6979-6996) on the streams responsesLifecycleEvent prints. */
module TerminalScanner {
  import opened Utf16
  import PortableTurns
  import PromptPrefix

  const LF: CodeUnit := 0x0A
  const CR: CodeUnit := 0x0D
  const MAXIMUM_CARRY := 256

  datatype Kind = Completed | Failed
  datatype Option = None | Some(kind: Kind)

  // ---- the pattern ------------------------------------------------------------------------

  /** Simple case folding, as far as the letters of the pattern can tell. */
  function Folded(u: CodeUnit): CodeUnit {
    if 0x41 <= u <= 0x5A then u + 32 else if u == 0x17F then 0x73 else u
  }

  predicate Starts(t: Text, word: Text) {
    |word| <= |t| && forall i :: 0 <= i < |word| ==> Folded(t[i]) == word[i]
  }

  function EventWord(): Text {
    Ascii("event:")
  }

  function Name(kind: Kind): Text {
    match kind
    case Completed => Ascii("response.") + Ascii("completed")
    case Failed => Ascii("response.") + Ascii("failed")
  }

  /** \r?\n */
  predicate EndsLine(t: Text) {
    (|t| >= 1 && t[0] == LF) || (|t| >= 2 && t[0] == CR && t[1] == LF)
  }

  predicate Names(t: Text, kind: Kind) {
    Starts(t, Name(kind)) && EndsLine(t[|Name(kind)|..])
  }

  /** The event the pattern finds when it is tried at the head of t, its line-start alternative apart. */
  function EventOf(t: Text): Option {
    if !Starts(t, EventWord()) then None
    else
      var rest := PortableTurns.TrimStart(t[|EventWord()|..]);
      if Names(rest, Completed) then Some(Completed) else if Names(rest, Failed) then Some(Failed) else None
  }

  /** marker.exec: the leftmost match at the start of the text or behind a line feed. */
  function Exec(t: Text, atStart: bool): Option {
    if t == [] then None
    else if atStart && EventOf(t).Some? then EventOf(t)
    else Exec(t[1..], t[0] == LF)
  }

  // ---- printed streams --------------------------------------------------------------------------

  datatype Frame = Frame(name: Text, data: Text)

  predicate IsNameUnit(u: CodeUnit) {
    0x61 <= u <= 0x7A || u == 0x5F || u == 0x2E
  }

  /** Event names are lower-case words; JSON.stringify of an object has no raw line break and ends in a brace. */
  predicate IsFrame(f: Frame) {
    && f.name != [] && (forall u :: u in f.name ==> IsNameUnit(u))
    && f.data != [] && (forall u :: u in f.data ==> u != LF && u != CR) && f.data[|f.data| - 1] == 0x7D
  }

  predicate AreFrames(frames: seq<Frame>) {
    forall f :: f in frames ==> IsFrame(f)
  }

  function Header(name: Text): Text {
    EventWord() + [0x20] + name + [LF]
  }

  /** responsesLifecycleEvent */
  function Printed(f: Frame): Text {
    Header(f.name) + Ascii("data: ") + f.data + [LF, LF]
  }

  function Stream(frames: seq<Frame>): Text {
    if frames == [] then [] else Printed(frames[0]) + Stream(frames[1..])
  }

  function KindOf(name: Text): Option {
    if name == Name(Completed) then Some(Completed) else if name == Name(Failed) then Some(Failed) else None
  }

  /** The first completed or failed event whose header is complete within the first n units of the stream. */
  function FirstTerminal(frames: seq<Frame>, n: nat): Option {
    if frames == [] || n < |Header(frames[0].name)| then None
    else if KindOf(frames[0].name).Some? then KindOf(frames[0].name)
    else if n < |Printed(frames[0])| then None
    else FirstTerminal(frames[1..], n - |Printed(frames[0])|)
  }

  // ---- lemmas about the pattern -------------------------------------------------------------------

  lemma {:induction false} NamesApart(t: Text)
    ensures !(Names(t, Completed) && Names(t, Failed))
  {
    assert Name(Completed)[9] == 0x63 && Name(Failed)[9] == 0x66;
  }

  lemma {:induction false} TrimStartMore(t: Text, more: Text)
    requires PortableTurns.TrimStart(t) != []
    ensures PortableTurns.TrimStart(t + more) == PortableTurns.TrimStart(t) + more
  {
    if t == [] {
      assert false;
    } else {
      assert (t + more)[1..] == t[1..] + more;
      if PromptPrefix.IsJsSpace(t[0]) {
        TrimStartMore(t[1..], more);
      }
    }
  }

  lemma {:induction false} NamesMore(t: Text, more: Text, kind: Kind)
    requires Names(t, kind)
    ensures Names(t + more, kind)
  {
    var k := |Name(kind)|;
    assert (t + more)[k..] == t[k..] + more;
  }

  /** A match survives whatever is appended. */
  lemma {:induction false} EventMore(t: Text, more: Text)
    requires EventOf(t).Some?
    ensures EventOf(t + more) == EventOf(t)
  {
    hide Names, PortableTurns.TrimStart;
    var w := |EventWord()|;
    var rest := PortableTurns.TrimStart(t[w..]);
    assert rest != [] by { NothingNamed(); }
    TrimStartMore(t[w..], more);
    assert (t + more)[w..] == t[w..] + more;
    NamesMore(rest, more, EventOf(t).kind);
    NamesApart(rest + more);
  }

  lemma {:induction false} NothingNamed()
    ensures !Names([], Completed) && !Names([], Failed)
  {
  }

  lemma {:induction false} TrimStartIsSuffix(t: Text) returns (k: nat)
    ensures k <= |t| && PortableTurns.TrimStart(t) == t[k..]
    ensures forall i :: 0 <= i < k ==> PromptPrefix.IsJsSpace(t[i])
  {
    hide PromptPrefix.IsJsSpace;
    if t != [] && PromptPrefix.IsJsSpace(t[0]) {
      var j := TrimStartIsSuffix(t[1..]);
      k := j + 1;
      assert t[1..][j..] == t[k..];
      assert forall i :: 1 <= i < k ==> t[i] == t[1..][i - 1];
    } else {
      k := 0;
    }
  }

  lemma {:induction false} EventNeedsLineFeed(t: Text)
    requires EventOf(t).Some?
    ensures LF in t
  {
    hide PortableTurns.TrimStart;
    var w := |EventWord()|;
    var k := TrimStartIsSuffix(t[w..]);
    var rest := t[w..][k..];
    var n := |Name(EventOf(t).kind)|;
    var tail := rest[n..];
    assert LF in tail;
    assert tail == t[w + k + n..];
  }

  // ---- lemmas about frames ----------------------------------------------------------------------------

  predicate IsName(name: Text) {
    name != [] && forall u :: u in name ==> IsNameUnit(u)
  }

  /** At the head of a header line the pattern finds exactly the event that is named there. */
  lemma {:induction false} NameIsFound(name: Text, after: Text, kind: Kind)
    requires IsName(name)
    ensures Names(name + [LF] + after, kind) <==> name == Name(kind)
  {
    var t, word := name + [LF] + after, Name(kind);
    NameIsWord(kind);
    assert forall i :: 0 <= i < |name| ==> t[i] == name[i] && IsNameUnit(name[i]);
    assert t[|name|] == LF;
    if name == word {
      assert t[|word|..] == [LF] + after;
    }
    assert |name| < |word| ==> Folded(t[|name|]) != word[|name|];
    if Names(t, kind) {
      assert t[|word|..][0] == t[|word|];
      assert |name| == |word|;
      assert forall i :: 0 <= i < |word| ==> name[i] == word[i];
    }
  }

  lemma {:induction false} NameIsWord(kind: Kind)
    ensures IsName(Name(kind)) && |Header(Name(kind))| <= 26
    ensures forall i :: 0 <= i < |Name(kind)| ==> IsNameUnit(Name(kind)[i])
  {
  }

  lemma {:induction false} HeaderMatches(name: Text, after: Text)
    requires IsName(name)
    ensures EventOf(Header(name) + after) == KindOf(name)
  {
    hide Names, Name;
    var t := Header(name) + after;
    var w := |EventWord()|;
    assert Starts(t, EventWord());
    assert t[w..] == [0x20] + (name + [LF] + after);
    SpaceThenName(name, after);
    NameIsFound(name, after, Completed);
    NameIsFound(name, after, Failed);
  }

  lemma {:induction false} SpaceThenName(name: Text, after: Text)
    requires IsName(name)
    ensures PortableTurns.TrimStart([0x20] + (name + [LF] + after)) == name + [LF] + after
  {
    var rest := name + [LF] + after;
    assert rest[0] == name[0] && IsNameUnit(name[0]);
    assert ([0x20] + rest)[1..] == rest;
  }

  lemma {:induction false} StartsWithEvent(t: Text)
    requires Starts(t, EventWord())
    ensures |t| >= 6 && Folded(t[0]) == 0x65 && t[5] == 0x3A
    ensures forall i :: 0 <= i < 6 ==> t[i] != LF
  {
    var w := EventWord();
    assert w[0] == 0x65 && w[5] == 0x3A;
    assert forall i :: 0 <= i < 6 ==> Folded(t[i]) == w[i] && w[i] != LF;
  }

  /** Inside a header line, past its start, the pattern finds nothing. */
  lemma {:induction false} HeaderIsQuiet(name: Text, k: nat, rest: Text)
    requires IsName(name) && 0 < k < |Header(name)|
    ensures !Starts(Header(name)[k..] + rest, EventWord())
  {
    var h := Header(name);
    var t := h[k..] + rest;
    var last := |h| - 1;
    assert t[last - k] == h[last] == LF;
    assert last - k >= 6 && k == 1 ==> t[5] == h[6] == 0x20;
    assert last - k >= 6 && k >= 2 ==> t[5] == h[k + 5] && h[k + 5] == name[k - 2] && IsNameUnit(name[k - 2]);
    if Starts(t, EventWord()) {
      StartsWithEvent(t);
    }
  }

  /** Inside the JSON of a data line the pattern finds nothing: what it could match would have to end in a brace. */
  lemma {:induction false} DataIsQuiet(data: Text, j: nat, rest: Text)
    requires j < |data| && data[|data| - 1] == 0x7D && (forall u :: u in data ==> u != LF && u != CR)
    ensures EventOf(data[j..] + ([LF, LF] + rest)) == None
  {
    hide PortableTurns.TrimStart, Names, PromptPrefix.IsJsSpace;
    var t := data[j..] + ([LF, LF] + rest);
    var d := |data| - j;
    if Starts(t, EventWord()) {
      StartsWithEvent(t);
      assert t[d] == LF;
      assert t[d - 1] == 0x7D;
      var s := TrimStartIsSuffix(t[6..]);
      BraceIsNoSpace();
      assert d >= 7;
      assert t[6..][d - 7] == 0x7D;
      var text := data[j + 6 + s..];
      assert t[6..][s..] == text + ([LF, LF] + rest);
      assert text[|text| - 1] == data[|data| - 1] && forall u :: u in text ==> u in data;
      BraceEndsNoName(text, rest, Completed);
      BraceEndsNoName(text, rest, Failed);
    }
  }

  lemma {:induction false} BraceIsNoSpace()
    ensures !PromptPrefix.IsJsSpace(0x7D)
  {
  }

  lemma {:induction false} BraceEndsNoName(text: Text, rest: Text, kind: Kind)
    requires text != [] && text[|text| - 1] == 0x7D && (forall u :: u in text ==> u != LF && u != CR)
    ensures !Names(text + ([LF, LF] + rest), kind)
  {
    hide Name;
    var t, word := text + ([LF, LF] + rest), Name(kind);
    NameIsWord(kind);
    var p := |text| - 1;
    assert t[p] == 0x7D;
    assert |word| > p ==> Folded(t[p]) != word[p];
    assert |word| <= p ==> t[|word|..][0] == text[|word|] && text[|word|] in text;
  }

  /** Past its first unit no position of a frame matches, whatever follows the frame. */
  lemma {:induction false} FrameIsQuiet(f: Frame, k: nat, rest: Text)
    requires IsFrame(f) && 0 < k < |Printed(f)|
    ensures EventOf(Printed(f)[k..] + rest) == None
  {
    hide EventOf, Header, EventWord;
    var h, tag := Header(f.name), Ascii("data: ");
    var t := Printed(f)[k..] + rest;
    if k < |h| {
      var tail := tag + f.data + [LF, LF] + rest;
      assert t == h[k..] + tail;
      HeaderIsQuiet(f.name, k, tail);
      NoStartNoEvent(t);
    } else if k < |h| + 6 {
      assert t[0] == tag[k - |h|];
      assert Folded(t[0]) != 0x65;
      OtherStart(t);
    } else if k < |h| + 6 + |f.data| {
      var j := k - |h| - 6;
      assert t == f.data[j..] + ([LF, LF] + rest);
      DataIsQuiet(f.data, j, rest);
    } else {
      assert t[0] == LF;
      OtherStart(t);
    }
  }

  lemma {:induction false} NoStartNoEvent(t: Text)
    requires !Starts(t, EventWord())
    ensures EventOf(t) == None
  {
  }

  lemma {:induction false} OtherStart(t: Text)
    requires t != [] && Folded(t[0]) != 0x65
    ensures EventOf(t) == None
  {
    if Starts(t, EventWord()) {
      StartsWithEvent(t);
    }
  }

  // ---- lemmas about streams -----------------------------------------------------------------------------

  /** At position k the text has the whole header line of this kind, at its start or behind a line feed. */
  predicate IsHeaderAt(t: Text, k: nat, kind: Kind)
    requires k <= |t|
  {
    Header(Name(kind)) <= t[k..] && (k == 0 || t[k - 1] == LF)
  }

  lemma {:induction false} KindIsName(name: Text)
    requires KindOf(name).Some?
    ensures name == Name(KindOf(name).kind)
  {
  }

  lemma {:induction false} PartOfFrame(f: Frame, n: nat, k: nat)
    requires IsFrame(f) && k < n <= |Printed(f)|
    ensures EventOf(Printed(f)[..n][k..]).Some? ==> k == 0 && n >= |Header(f.name)| && EventOf(Printed(f)[..n]) == KindOf(f.name)
    ensures n >= |Header(f.name)| ==> EventOf(Printed(f)[..n]) == KindOf(f.name)
  {
    hide EventOf, KindOf, Ascii, EventWord;
    var all := Printed(f);
    var part := all[..n];
    var h := Header(f.name);
    if n >= |h| {
      assert part == h + part[|h|..];
      HeaderMatches(f.name, part[|h|..]);
    }
    if EventOf(part[k..]).Some? {
      EventMore(part[k..], all[n..]);
      assert part[k..] + all[n..] == all[k..];
      if k > 0 {
        assert all[k..] + [] == all[k..];
        FrameIsQuiet(f, k, []);
      } else {
        assert part[0..] == part;
        EventNeedsLineFeed(part);
        assert forall i :: 0 <= i < n && n < |h| ==> part[i] == h[i];
        HeaderHasOneLineFeed(f.name);
      }
    }
  }

  lemma {:induction false} HeaderHasOneLineFeed(name: Text)
    requires IsName(name)
    ensures forall i :: 0 <= i < |Header(name)| - 1 ==> Header(name)[i] != LF
  {
    var w := EventWord();
    assert forall i :: 0 <= i < 6 ==> w[i] != LF;
    forall i | 0 <= i < |Header(name)| - 1
      ensures Header(name)[i] != LF
    {
      if i >= 7 {
        assert Header(name)[i] == name[i - 7] && IsNameUnit(name[i - 7]);
      }
    }
  }

  /** In a part of a printed stream the pattern matches only at the header lines of completed and failed events. */
  lemma {:induction false} MatchesAreHeaders(frames: seq<Frame>, n: nat, k: nat)
    requires AreFrames(frames) && k < n <= |Stream(frames)|
    requires EventOf(Stream(frames)[..n][k..]).Some?
    ensures IsHeaderAt(Stream(frames)[..n], k, EventOf(Stream(frames)[..n][k..]).kind)
    decreases |frames|
  {
    hide EventOf, KindOf, Header, Printed, Name;
    var f, rest := frames[0], Stream(frames[1..]);
    assert IsFrame(f);
    var all, part := Printed(f), Stream(frames)[..n];
    if n <= |all| {
      assert part == all[..n];
      PartOfFrame(f, n, k);
      assert part[0..] == part;
      PrintedStartsWithHeader(f);
      KindIsName(f.name);
    } else {
      assert part == all + rest[..n - |all|];
      if k < |all| {
        assert part[k..] == all[k..] + rest[..n - |all|];
        if k > 0 {
          FrameIsQuiet(f, k, rest[..n - |all|]);
        } else {
          PrintedStartsWithHeader(f);
          var h := Header(f.name);
          assert part == h + part[|h|..] && part[0..] == part;
          HeaderMatches(f.name, part[|h|..]);
          KindIsName(f.name);
        }
      } else {
        assert part[k..] == rest[..n - |all|][k - |all|..];
        MatchesAreHeaders(frames[1..], n - |all|, k - |all|);
        PrintedEndsLine(f);
      }
    }
  }

  lemma {:induction false} PrintedStartsWithHeader(f: Frame)
    ensures Header(f.name) <= Printed(f)
  {
  }

  lemma {:induction false} PrintedEndsLine(f: Frame)
    ensures |Printed(f)| > 0 && Printed(f)[|Printed(f)| - 1] == LF
  {
  }

  /** The first match at any position, in line or not. */
  function FirstEvent(t: Text): Option {
    if t == [] then None else if EventOf(t).Some? then EventOf(t) else FirstEvent(t[1..])
  }

  lemma {:induction false} SkipQuiet(t: Text, m: nat)
    requires m <= |t| && forall k :: 0 <= k < m ==> EventOf(t[k..]) == None
    ensures FirstEvent(t) == FirstEvent(t[m..])
  {
    hide EventOf;
    if m == 0 {
      assert t[0..] == t;
    } else {
      assert t[0..] == t;
      forall k | 0 <= k < m - 1
        ensures EventOf(t[1..][k..]) == None
      {
        assert t[1..][k..] == t[k + 1..];
      }
      SkipQuiet(t[1..], m - 1);
      assert t[1..][m - 1..] == t[m..];
    }
  }

  lemma {:induction false} NoFirstEvent(t: Text, k: nat)
    requires FirstEvent(t) == None && k < |t|
    ensures EventOf(t[k..]) == None
  {
    hide EventOf;
    if k == 0 {
      assert t[0..] == t;
    } else {
      NoFirstEvent(t[1..], k - 1);
      assert t[1..][k - 1..] == t[k..];
    }
  }

  /** Where all matches begin lines, the regular expression finds the first match of all. */
  lemma {:induction false} ExecFindsFirst(t: Text, atStart: bool)
    requires forall k :: 0 <= k < |t| && EventOf(t[k..]).Some? ==> if k == 0 then atStart else t[k - 1] == LF
    ensures Exec(t, atStart) == FirstEvent(t)
  {
    hide EventOf;
    if t != [] {
      assert t[0..] == t;
      if EventOf(t) == None {
        forall k | 0 <= k < |t[1..]| && EventOf(t[1..][k..]).Some?
          ensures if k == 0 then t[0] == LF else t[1..][k - 1] == LF
        {
          assert t[1..][k..] == t[k + 1..];
        }
        ExecFindsFirst(t[1..], t[0] == LF);
      }
    }
  }

  lemma {:induction false} FirstIsFirstTerminal(frames: seq<Frame>, n: nat)
    requires AreFrames(frames) && n <= |Stream(frames)|
    ensures FirstEvent(Stream(frames)[..n]) == FirstTerminal(frames, n)
    decreases |frames|
  {
    hide EventOf, KindOf, Header, Printed;
    var part := Stream(frames)[..n];
    if part == [] {
      if frames != [] {
        HeaderIsNotEmpty(frames[0].name);
      }
    } else {
      var f, rest := frames[0], Stream(frames[1..]);
      assert IsFrame(f);
      var all := Printed(f);
      PrintedStartsWithHeader(f);
      PrintedEndsLine(f);
      var m := if n <= |all| then n else |all|;
      assert part[..m] == all[..m];
      var tail := if n <= |all| then [] else rest[..n - |all|];
      assert part == all[..m] + tail;
      HeadOfStream(f, m, tail);
      if FirstEventAt(f, m) == None {
        SkipQuiet(part, m);
        assert part[m..] == tail;
        if n >= |all| {
          FirstIsFirstTerminal(frames[1..], n - |all|);
          assert tail == rest[..n - |all|];
        }
      } else {
        assert part[0..] == part;
      }
    }
  }

  lemma {:induction false} HeaderIsNotEmpty(name: Text)
    ensures |Header(name)| > 0
  {
  }

  /** What a frame of which m units are there contributes. */
  function FirstEventAt(f: Frame, m: nat): Option {
    if m < |Header(f.name)| then None else KindOf(f.name)
  }

  lemma {:induction false} HeadOfStream(f: Frame, m: nat, tail: Text)
    requires IsFrame(f) && 0 < m <= |Printed(f)| && (m < |Printed(f)| ==> tail == [])
    ensures var part := Printed(f)[..m] + tail;
            && EventOf(part) == FirstEventAt(f, m)
            && forall k :: 0 < k < m ==> EventOf(part[k..]) == None
  {
    hide EventOf, KindOf, Header, Printed;
    var all, h := Printed(f), Header(f.name);
    var part := all[..m] + tail;
    PrintedStartsWithHeader(f);
    forall k | 0 < k < m
      ensures EventOf(part[k..]) == None
    {
      if m == |all| {
        assert part[k..] == all[k..] + tail;
        FrameIsQuiet(f, k, tail);
      } else {
        assert part == all[..m];
        PartOfFrame(f, m, k);
      }
    }
    if m >= |h| {
      assert part == h + part[|h|..];
      HeaderMatches(f.name, part[|h|..]);
    } else {
      assert part == all[..m] && part[0..] == part;
      PartOfFrame(f, m, 0);
    }
  }

  // ---- the scanner ----------------------------------------------------------------------------------------

  datatype State = State(carry: Text, seen: Option)
  datatype Fed = Fed(state: State, fired: Option)

  function LastPart(t: Text, n: nat): Text {
    if |t| > n then t[|t| - n..] else t
  }

  /** One call with a decoded chunk. */
  function Feed(s: State, chunk: Text): Fed {
    if s.seen.Some? then Fed(s, None)
    else
      var carry := s.carry + chunk;
      var matched := Exec(carry, true);
      if matched.Some? then Fed(State(carry, matched), matched) else Fed(State(LastPart(carry, MAXIMUM_CARRY), None), None)
  }

  class Scanner {
    var carry: Text
    var seen: Option

    constructor ()
      ensures carry == [] && seen == None
    {
      carry, seen := [], None;
    }

    method Scan(chunk: Text) returns (event: Option)
      modifies this
      ensures Fed(State(carry, seen), event) == Feed(old(State(carry, seen)), chunk)
    {
      if seen.Some? {
        return None;
      }
      carry := carry + chunk;
      var matched := Exec(carry, true);
      if matched.Some? {
        seen := matched;
        return seen;
      }
      if |carry| > MAXIMUM_CARRY {
        carry := carry[|carry| - MAXIMUM_CARRY..];
      }
      return None;
    }
  }

  /** The scanner after it was fed the first n units of a stream, however they were cut. */
  predicate InStep(s: State, frames: seq<Frame>, n: nat)
    requires n <= |Stream(frames)|
  {
    && s.seen == FirstTerminal(frames, n)
    && (s.seen == None ==> s.carry == LastPart(Stream(frames)[..n], MAXIMUM_CARRY))
  }

  /** A match that the carry has lost would have been seen before. */
  lemma {:induction false} CarryLosesNothing(frames: seq<Frame>, n: nat, more: nat, k: nat)
    requires AreFrames(frames) && n <= more <= |Stream(frames)| && k < more && k + MAXIMUM_CARRY <= n
    requires FirstTerminal(frames, n) == None
    ensures EventOf(Stream(frames)[..more][k..]) == None
  {
    hide EventOf, FirstTerminal, Stream, Name, Header;
    var before, after := Stream(frames)[..n], Stream(frames)[..more];
    if EventOf(after[k..]).Some? {
      MatchesAreHeaders(frames, more, k);
      var kind := EventOf(after[k..]).kind;
      var h := Header(Name(kind));
      NameIsWord(kind);
      assert h <= before[k..] by {
        assert before[k..] == after[k..n];
        assert forall i :: 0 <= i < |h| ==> before[k..][i] == after[k..][i];
      }
      assert before[k..] == h + before[k..][|h|..];
      HeaderMatches(Name(kind), before[k..][|h|..]);
      NameHasKind(kind);
      FirstIsFirstTerminal(frames, n);
      NoFirstEvent(before, k);
    }
  }

  lemma {:induction false} NameHasKind(kind: Kind)
    ensures KindOf(Name(kind)) == Some(kind)
  {
    assert Name(Completed)[9] == 0x63 && Name(Failed)[9] == 0x66;
  }

  lemma {:induction false} CarryIsSuffix(frames: seq<Frame>, n: nat, more: nat, m: nat)
    requires n <= more <= |Stream(frames)| && m == (if n > MAXIMUM_CARRY then n - MAXIMUM_CARRY else 0)
    ensures LastPart(Stream(frames)[..n], MAXIMUM_CARRY) + Stream(frames)[n..more] == Stream(frames)[..more][m..]
  {
  }

  lemma {:induction false} ExecOnCarry(frames: seq<Frame>, n: nat, more: nat, m: nat)
    requires AreFrames(frames) && n <= more <= |Stream(frames)| && FirstTerminal(frames, n) == None
    requires m == if n > MAXIMUM_CARRY then n - MAXIMUM_CARRY else 0
    ensures Exec(Stream(frames)[..more][m..], true) == FirstTerminal(frames, more)
  {
    hide EventOf, FirstTerminal, Stream;
    var after := Stream(frames)[..more];
    var carry := after[m..];
    forall k | 0 <= k < |carry| && EventOf(carry[k..]).Some?
      ensures if k == 0 then true else carry[k - 1] == LF
    {
      assert carry[k..] == after[m + k..];
      MatchesAreHeaders(frames, more, m + k);
    }
    ExecFindsFirst(carry, true);
    forall k | 0 <= k < m
      ensures EventOf(after[k..]) == None
    {
      CarryLosesNothing(frames, n, more, k);
    }
    SkipQuiet(after, m);
    FirstIsFirstTerminal(frames, more);
  }

  lemma {:induction false} TerminalStays(frames: seq<Frame>, n: nat, more: nat)
    requires n <= more && FirstTerminal(frames, n).Some?
    ensures FirstTerminal(frames, more) == FirstTerminal(frames, n)
    decreases |frames|
  {
    hide Header, Printed, KindOf;
    if KindOf(frames[0].name) == None {
      TerminalStays(frames[1..], n - |Printed(frames[0])|, more - |Printed(frames[0])|);
    }
  }

  /** The call reports an event exactly when its chunk completes the first terminal header, and reports that event. */
  lemma {:induction false} FeedStaysInStep(s: State, frames: seq<Frame>, n: nat, more: nat)
    requires AreFrames(frames) && n <= more <= |Stream(frames)| && InStep(s, frames, n)
    ensures var fed := Feed(s, Stream(frames)[n..more]);
            && InStep(fed.state, frames, more)
            && fed.fired == if FirstTerminal(frames, n) == None then FirstTerminal(frames, more) else None
  {
    hide FirstTerminal, Stream, Exec;
    if s.seen.Some? {
      TerminalStays(frames, n, more);
    } else {
      var m := if n > MAXIMUM_CARRY then n - MAXIMUM_CARRY else 0;
      CarryIsSuffix(frames, n, more, m);
      ExecOnCarry(frames, n, more, m);
      var carry := Stream(frames)[..more][m..];
      assert LastPart(carry, MAXIMUM_CARRY) == LastPart(Stream(frames)[..more], MAXIMUM_CARRY);
    }
  }

  /** The scanner fed piece by piece, up to position `cuts[i]` each time. */
  function Run(s: State, frames: seq<Frame>, n: nat, cuts: seq<nat>): seq<Option>
    requires n <= |Stream(frames)| && Ascending(n, cuts, |Stream(frames)|)
    decreases |cuts|
  {
    if cuts == [] then []
    else
      var fed := Feed(s, Stream(frames)[n..cuts[0]]);
      [fed.fired] + Run(fed.state, frames, cuts[0], cuts[1..])
  }

  predicate Ascending(n: nat, cuts: seq<nat>, end: nat)
    decreases |cuts|
  {
    cuts == [] || (n <= cuts[0] <= end && Ascending(cuts[0], cuts[1..], end))
  }

  lemma {:induction false} FiresInStep(s: State, frames: seq<Frame>, n: nat, cuts: seq<nat>, i: nat)
    requires AreFrames(frames) && n <= |Stream(frames)| && Ascending(n, cuts, |Stream(frames)|) && InStep(s, frames, n)
    requires i < |cuts|
    ensures var before := if i == 0 then n else cuts[i - 1];
            && |Run(s, frames, n, cuts)| == |cuts|
            && Run(s, frames, n, cuts)[i] == if FirstTerminal(frames, before) == None then FirstTerminal(frames, cuts[i]) else None
    decreases |cuts|
  {
    hide Feed, InStep, FirstTerminal, Stream;
    FeedStaysInStep(s, frames, n, cuts[0]);
    var fed := Feed(s, Stream(frames)[n..cuts[0]]);
    if i > 0 {
      FiresInStep(fed.state, frames, cuts[0], cuts[1..], i - 1);
    } else if |cuts| > 1 {
      FiresInStep(fed.state, frames, cuts[0], cuts[1..], 0);
    }
  }

  /** A fresh scanner is in step with the empty part of any stream. */
  lemma {:induction false} FreshIsInStep(frames: seq<Frame>)
    ensures InStep(State([], None), frames, 0)
  {
  }

  /**
   However a printed stream is cut, call i of a fresh scanner fires exactly when
   its chunk brings the first completed or failed event, and reports that event.
   */
  lemma {:induction false} FiresExactlyOnFirstTerminal(frames: seq<Frame>, cuts: seq<nat>, i: nat)
    requires AreFrames(frames) && Ascending(0, cuts, |Stream(frames)|) && i < |cuts|
    ensures var before := if i == 0 then 0 else cuts[i - 1];
            var calls := Run(State([], None), frames, 0, cuts);
            |calls| == |cuts| && calls[i] == if FirstTerminal(frames, before) == None then FirstTerminal(frames, cuts[i]) else None
  {
    hide InStep, FirstTerminal, Stream, Run;
    FreshIsInStep(frames);
    FiresInStep(State([], None), frames, 0, cuts, i);
  }
}
