/** Bounding framed portable history by whole turns (src/chat-session.ts:152-174, 238-301). */
module PortableTurns {
  import opened Utf16
  import opened Utf8
  import opened PortableTail
  import opened PromptPrefix

  /** What the two header patterns find in a turn: the request text, untrimmed at its end, and the assistant header. */
  datatype Sections = Unmatched | Matched(request: Text, header: Text)

  /** The patterns of portableTurnIsComplete and compactOversizedPortableTurn, left uninterpreted. */
  datatype Grammar = Grammar(isTurn: Text -> bool, sections: Text -> Sections)

  function TurnSeparator(): (s: Text)
    ensures |s| == 25 && s[0] == 0x0A && s[24] == 0x0A && forall i :: 0 <= i < |s| ==> s[i] < 0x80
  {
    Ascii("\n") + [0x1E] + Ascii("M365_PORTABLE_TURN_V1") + [0x1F] + Ascii("\n")
  }

  function OmissionMarker(): Text {
    Ascii("[OVERSIZED PORTABLE ") + Ascii("TURN CONTENT OMITTED]")
  }

  // ---- string functions ---------------------------------------------------------------

  function TrimStart(t: Text): Text {
    if t != [] && IsJsSpace(t[0]) then TrimStart(t[1..]) else t
  }

  function TrimEnd(t: Text): (r: Text)
    ensures r <= t
  {
    if t != [] && IsJsSpace(t[|t| - 1]) then TrimEnd(t[..|t| - 1]) else t
  }

  function Trim(t: Text): Text {
    TrimEnd(TrimStart(t))
  }

  predicate IsAt(value: Text, separator: Text, i: nat) {
    i + |separator| <= |value| && value[i..i + |separator|] == separator
  }

  function FindFrom(value: Text, separator: Text, i: nat): (at: int)
    ensures at == -1 || (i <= at && IsAt(value, separator, at))
    decreases |value| - i
  {
    if IsAt(value, separator, i) then i else if i >= |value| then -1 else FindFrom(value, separator, i + 1)
  }

  /** value.split(separator) */
  function Split(value: Text, separator: Text): (pieces: seq<Text>)
    requires separator != []
    ensures pieces != []
    decreases |value|
  {
    var at := FindFrom(value, separator, 0);
    if at < 0 then [value] else [value[..at]] + Split(value[at + |separator|..], separator)
  }

  function Join(pieces: seq<Text>, separator: Text): Text {
    if pieces == [] then [] else if |pieces| == 1 then pieces[0] else pieces[0] + separator + Join(pieces[1..], separator)
  }

  /** portableTurnIsComplete */
  predicate IsComplete(t: Text, g: Grammar) {
    Trim(t) != [] && Trim(t)[0] == 0x5B && g.isTurn(Trim(t))
  }

  /** The trimmed complete turns, oldest first. */
  function CompleteTurns(raw: seq<Text>, g: Grammar): seq<Text> {
    if raw == [] then []
    else CompleteTurns(raw[..|raw| - 1], g) + (if IsComplete(raw[|raw| - 1], g) then [Trim(raw[|raw| - 1])] else [])
  }

  // ---- compaction of one turn ---------------------------------------------------------

  function CompactionSuffix(header: Text): (t: Text)
    ensures |t| >= 2 && t[0] == 0x0A
  {
    Ascii("\n\n") + header + Ascii("\n") + OmissionMarker()
  }

  /** compactOversizedPortableTurn */
  function Compacted(turn: Text, maxBytes: int, g: Grammar): Text {
    match g.sections(Trim(turn))
    case Unmatched => []
    case Matched(request, header) =>
      var suffix := CompactionSuffix(header);
      var available := maxBytes - Utf8Bytes(suffix);
      if available <= 0 then []
      else
        var compacted := TrimEnd(Utf8Prefix(TrimEnd(request), available)) + suffix;
        if Utf8Bytes(compacted) <= maxBytes then compacted else []
  }

  // ---- whole turns --------------------------------------------------------------------

  function JoinedBytes(turns: seq<Text>): nat {
    Utf8Bytes(Join(turns, TurnSeparator()))
  }

  /** The loop, from the newest complete turn back. */
  function KeepTurns(turns: seq<Text>, selected: seq<Text>, maxBytes: nat): seq<Text>
    decreases |turns|
  {
    if turns == [] then selected
    else
      var turn := turns[|turns| - 1];
      if Utf8Bytes(turn) + (if selected != [] then 25 else 0) + JoinedBytes(selected) <= maxBytes
      then KeepTurns(turns[..|turns| - 1], [turn] + selected, maxBytes)
      else selected
  }

  /** The last n turns. */
  function Newest(turns: seq<Text>, n: nat): seq<Text>
    requires n <= |turns|
  {
    turns[|turns| - n..]
  }

  function Framed(turns: seq<Text>, maxBytes: nat, g: Grammar): Text
    requires turns != []
  {
    var kept := KeepTurns(turns, [], maxBytes);
    if kept == [] then Compacted(turns[|turns| - 1], maxBytes, g) else Join(kept, TurnSeparator())
  }

  function BoundedSuffix(value: Text, maxBytes: int, g: Grammar): Text {
    if value == [] || maxBytes <= 0 then []
    else if Utf8Bytes(value) <= maxBytes then value
    else
      var turns := CompleteTurns(Split(value, TurnSeparator()), g);
      if turns == [] then Utf8Suffix(value, maxBytes) else Framed(turns, maxBytes, g)
  }

  // ---- the programs -------------------------------------------------------------------

  method CompactOversizedPortableTurn(turn: Text, maxBytes: int, g: Grammar) returns (compacted: Text)
    ensures compacted == Compacted(turn, maxBytes, g)
  {
    hide Utf8Bytes, Utf8Prefix, CompactionSuffix, Trim;
    var value := Trim(turn);
    match g.sections(value)
    case Unmatched =>
      return [];
    case Matched(section, header) =>
      var request := TrimEnd(section);
      var suffix := CompactionSuffix(header);
      var available := maxBytes - Utf8Bytes(suffix);
      if available <= 0 {
        return [];
      }
      var prefix := BoundedUtf8Prefix(request, available);
      compacted := TrimEnd(prefix) + suffix;
      if Utf8Bytes(compacted) > maxBytes {
        return [];
      }
  }

  method BoundedPortableProtocolSuffix(value: Text, maxBytes: int, g: Grammar) returns (suffix: Text)
    ensures suffix == BoundedSuffix(value, maxBytes, g)
  {
    hide Utf8Bytes, Utf8Suffix, Trim, IsComplete, Split, Compacted, JoinedBytes, Join, CompleteTurns, KeepTurns, TurnSeparator;
    if value == [] || maxBytes <= 0 {
      return [];
    }
    if Utf8Bytes(value) <= maxBytes {
      return value;
    }
    var rawTurns := Split(value, TurnSeparator());
    var hasFramedTurn := exists turn | turn in rawTurns :: IsComplete(turn, g);
    SomeComplete(rawTurns, g);
    if !hasFramedTurn {
      suffix := BoundedUtf8Suffix(value, maxBytes);
      return;
    }
    var selected: seq<Text> := [];
    var selectedBytes := 0;
    var index := |rawTurns|;
    ghost var turns := CompleteTurns(rawTurns, g);
    assert rawTurns[..index] == rawTurns;
    JoinOne([]);
    SeparatorBytes();
    while index > 0
      invariant 0 <= index <= |rawTurns|
      invariant KeepTurns(turns, [], maxBytes) == KeepTurns(CompleteTurns(rawTurns[..index], g), selected, maxBytes)
      invariant selectedBytes == JoinedBytes(selected)
      invariant selected == [] ==> CompleteTurns(rawTurns[..index], g) == turns
    {
      index := index - 1;
      TurnAt(rawTurns, index, g);
      var turn := Trim(rawTurns[index]);
      TrimTwice(rawTurns[index], g);
      if IsComplete(turn, g) {
        KeepTurn(CompleteTurns(rawTurns[..index], g), turn, selected, maxBytes);
        var separatorBytes := if |selected| > 0 then Utf8Bytes(TurnSeparator()) else 0;
        var turnBytes := Utf8Bytes(turn);
        if turnBytes + separatorBytes + selectedBytes <= maxBytes {
          GrowSelection(turn, selected);
          selected := [turn] + selected;
          selectedBytes := selectedBytes + (turnBytes + separatorBytes);
        } else {
          if |selected| == 0 {
            suffix := CompactOversizedPortableTurn(turn, maxBytes, g);
            return;
          }
          return Join(selected, TurnSeparator());
        }
      }
    }
    NoTurnsLeft(g, selected, maxBytes);
    return Join(selected, TurnSeparator());
  }

  lemma {:induction false} TurnAt(raw: seq<Text>, index: nat, g: Grammar)
    requires index < |raw|
    ensures CompleteTurns(raw[..index + 1], g)
         == CompleteTurns(raw[..index], g) + (if IsComplete(raw[index], g) then [Trim(raw[index])] else [])
    ensures !IsComplete(raw[index], g) ==> CompleteTurns(raw[..index + 1], g) == CompleteTurns(raw[..index], g)
  {
    hide IsComplete, Trim;
    assert raw[..index + 1][..index] == raw[..index];
  }

  lemma {:induction false} KeepTurn(older: seq<Text>, turn: Text, selected: seq<Text>, maxBytes: nat)
    ensures KeepTurns(older + [turn], selected, maxBytes)
         == if Utf8Bytes(turn) + (if selected != [] then 25 else 0) + JoinedBytes(selected) <= maxBytes
            then KeepTurns(older, [turn] + selected, maxBytes) else selected
  {
    hide Utf8Bytes, JoinedBytes;
    assert (older + [turn])[..|older|] == older;
  }

  lemma {:induction false} NoTurnsLeft(g: Grammar, selected: seq<Text>, maxBytes: nat)
    ensures CompleteTurns([], g) == [] && KeepTurns([], selected, maxBytes) == selected
  {
  }

  lemma {:induction false} GrowSelection(turn: Text, selected: seq<Text>)
    ensures JoinedBytes([turn] + selected)
         == Utf8Bytes(turn) + (if selected == [] then 0 else 25) + (if selected == [] then 0 else JoinedBytes(selected))
    ensures selected == [] ==> JoinedBytes(selected) == 0
  {
    hide Utf8Bytes, JoinedBytes;
    JoinOne(turn);
    if selected == [] {
      assert [turn] + selected == [turn];
    } else {
      JoinCons(turn, selected);
    }
  }

  lemma {:induction false} TrimEndTwice(t: Text)
    ensures TrimEnd(TrimEnd(t)) == TrimEnd(t)
    decreases |t|
  {
    if t != [] && IsJsSpace(t[|t| - 1]) {
      TrimEndTwice(t[..|t| - 1]);
    }
  }

  lemma {:induction false} TrimStartIsSettled(t: Text)
    ensures TrimStart(t) != [] ==> !IsJsSpace(TrimStart(t)[0])
  {
    if t != [] && IsJsSpace(t[0]) {
      TrimStartIsSettled(t[1..]);
    }
  }

  lemma {:induction false} TrimTwice(t: Text, g: Grammar)
    ensures Trim(Trim(t)) == Trim(t) && IsComplete(Trim(t), g) == IsComplete(t, g)
  {
    hide IsJsSpace;
    TrimStartIsSettled(t);
    TrimEndTwice(TrimStart(t));
    assert TrimStart(Trim(t)) == Trim(t);
  }

  lemma {:induction false} SomeComplete(raw: seq<Text>, g: Grammar)
    ensures (exists turn | turn in raw :: IsComplete(turn, g)) <==> CompleteTurns(raw, g) != []
    decreases |raw|
  {
    hide IsComplete, Trim;
    if raw != [] {
      var front, last := raw[..|raw| - 1], raw[|raw| - 1];
      SomeComplete(front, g);
      assert raw == front + [last];
    }
  }

  // ---- lemmas about joining -----------------------------------------------------------

  lemma {:induction false} SeparatorBytes()
    ensures Utf8Bytes(TurnSeparator()) == 25
  {
    hide Utf8Bytes;
    AsciiBytes(TurnSeparator());
  }

  lemma {:induction false} AsciiBytes(t: Text)
    requires forall i :: 0 <= i < |t| ==> t[i] < 0x80
    ensures Utf8Bytes(t) == |t|
  {
    if t != [] {
      AsciiBytes(t[1..]);
    }
  }

  lemma {:induction false} JoinCons(turn: Text, rest: seq<Text>)
    requires rest != []
    ensures JoinedBytes([turn] + rest) == Utf8Bytes(turn) + 25 + JoinedBytes(rest)
  {
    hide Utf8Bytes;
    var s := TurnSeparator();
    assert ([turn] + rest)[1..] == rest;
    SeparatorBytes();
    BytesSplit(turn, s);
    BytesSplit(turn + s, Join(rest, s));
  }

  lemma {:induction false} JoinOne(turn: Text)
    ensures JoinedBytes([turn]) == Utf8Bytes(turn) && JoinedBytes([]) == 0
  {
    hide Utf8Bytes;
    NoBytes();
  }

  lemma {:induction false} MoreTurnsMoreBytes(turns: seq<Text>, m: nat, n: nat)
    requires n <= m <= |turns|
    ensures JoinedBytes(Newest(turns, n)) <= JoinedBytes(Newest(turns, m))
    decreases m - n
  {
    hide Utf8Bytes, JoinedBytes;
    if n < m {
      var turn := turns[|turns| - n - 1];
      assert Newest(turns, n + 1) == [turn] + Newest(turns, n);
      JoinOne(turn);
      if n > 0 {
        JoinCons(turn, Newest(turns, n));
      } else {
        assert Newest(turns, 0) == [];
      }
      MoreTurnsMoreBytes(turns, m, n + 1);
    }
  }

  /** The last n turns fit, and no longer run of newest turns does. */
  predicate IsLongestRun(turns: seq<Text>, n: nat, maxBytes: nat)
    requires n <= |turns|
  {
    && JoinedBytes(Newest(turns, n)) <= maxBytes
    && forall m :: n < m <= |turns| ==> JoinedBytes(Newest(turns, m)) > maxBytes
  }

  lemma {:induction false} KeepTurnsIsLongestRun(turns: seq<Text>, i: nat, maxBytes: nat)
    requires i <= |turns| && JoinedBytes(Newest(turns, i)) <= maxBytes
    ensures var kept := KeepTurns(turns[..|turns| - i], Newest(turns, i), maxBytes);
            |kept| <= |turns| && kept == Newest(turns, |kept|) && IsLongestRun(turns, |kept|, maxBytes)
    decreases |turns| - i
  {
    hide Utf8Bytes, JoinedBytes;
    var selected := Newest(turns, i);
    if i < |turns| {
      var older := turns[..|turns| - i];
      var turn := older[|older| - 1];
      assert older[..|older| - 1] == turns[..|turns| - (i + 1)];
      assert [turn] + selected == Newest(turns, i + 1);
      JoinOne(turn);
      assert (i == 0) == (selected == []);
      if i > 0 {
        JoinCons(turn, selected);
      } else {
        assert Newest(turns, 1) == [turn];
      }
      if JoinedBytes(Newest(turns, i + 1)) <= maxBytes {
        KeepTurnsIsLongestRun(turns, i + 1, maxBytes);
      } else {
        forall m | i < m <= |turns|
          ensures JoinedBytes(Newest(turns, m)) > maxBytes
        {
          MoreTurnsMoreBytes(turns, m, i + 1);
        }
      }
    }
  }

  lemma {:induction false} TrimEndSeparates(t: Text, suffix: Text)
    requires suffix != [] && suffix[0] == 0x0A
    ensures Utf8Bytes(t + suffix) == Utf8Bytes(t) + Utf8Bytes(suffix)
  {
    hide Utf8Bytes;
    BytesSplit(t, suffix);
  }

  lemma {:induction false} TrimEndShrinks(t: Text)
    ensures Utf8Bytes(TrimEnd(t)) <= Utf8Bytes(t)
    decreases |t|
  {
    hide Utf8Bytes;
    if t != [] && IsJsSpace(t[|t| - 1]) {
      var front, last := t[..|t| - 1], t[|t| - 1..];
      TrimEndShrinks(front);
      assert t == front + last;
      BytesSplit(front, last);
    }
  }

  /** The compaction's closing size check never fails: a matched turn with room for its suffix shows the longest prefix of its own request that fits. */
  lemma {:induction false} CompactionFits(turn: Text, maxBytes: int, g: Grammar)
    ensures Utf8Bytes(Compacted(turn, maxBytes, g)) <= (if maxBytes > 0 then maxBytes else 0)
    ensures g.sections(Trim(turn)).Matched? && Utf8Bytes(CompactionSuffix(g.sections(Trim(turn)).header)) < maxBytes ==>
              var found := g.sections(Trim(turn));
              var suffix := CompactionSuffix(found.header);
              var shown := Utf8Prefix(TrimEnd(found.request), maxBytes - Utf8Bytes(suffix));
              Compacted(turn, maxBytes, g) == TrimEnd(shown) + suffix
    ensures !(g.sections(Trim(turn)).Matched? && Utf8Bytes(CompactionSuffix(g.sections(Trim(turn)).header)) < maxBytes) ==>
              Compacted(turn, maxBytes, g) == []
  {
    hide Utf8Bytes, CompactionSuffix, Utf8Prefix, TrimEnd, Trim;
    NoBytes();
    match g.sections(Trim(turn))
    case Unmatched =>
    case Matched(request, header) =>
      var suffix := CompactionSuffix(header);
      var available := maxBytes - Utf8Bytes(suffix);
      if available > 0 {
        var prefix := Utf8Prefix(TrimEnd(request), available);
        SuffixAndPrefixFit(TrimEnd(request), available);
        TrimEndShrinks(prefix);
        TrimEndSeparates(TrimEnd(prefix), suffix);
        assert Compacted(turn, maxBytes, g) == TrimEnd(prefix) + suffix;
      }
  }

  /** The bound holds for every text, framed or not. */
  lemma {:induction false} SuffixFits(value: Text, maxBytes: int, g: Grammar)
    ensures Utf8Bytes(BoundedSuffix(value, maxBytes, g)) <= (if maxBytes > 0 then maxBytes else 0)
  {
    hide Utf8Bytes, Compacted, CompleteTurns, Utf8Suffix, KeepTurns, Split;
    NoBytes();
    if value != [] && maxBytes > 0 {
      var turns := CompleteTurns(Split(value, TurnSeparator()), g);
      SuffixAndPrefixFit(value, maxBytes);
      if turns != [] {
        CompactionFits(turns[|turns| - 1], maxBytes, g);
        assert Newest(turns, 0) == [] && turns[..|turns| - 0] == turns;
        JoinOne([]);
        KeepTurnsIsLongestRun(turns, 0, maxBytes);
      }
    }
  }

  /**
   A framed text that must be cut keeps exactly the longest run of newest
   complete turns that fits; when not even the newest fits, its compaction.
   */
  lemma {:induction false} FramedKeepsLongestRun(value: Text, maxBytes: nat, g: Grammar)
    requires maxBytes > 0 && Utf8Bytes(value) > maxBytes
    requires CompleteTurns(Split(value, TurnSeparator()), g) != []
    ensures var turns := CompleteTurns(Split(value, TurnSeparator()), g);
            exists n: nat | n <= |turns| :: IsLongestRun(turns, n, maxBytes) && BoundedSuffix(value, maxBytes, g)
              == if n > 0 then Join(Newest(turns, n), TurnSeparator()) else Compacted(turns[|turns| - 1], maxBytes, g)
  {
    hide Utf8Bytes, Compacted, CompleteTurns, Utf8Suffix, KeepTurns, Split, Join;
    var turns := CompleteTurns(Split(value, TurnSeparator()), g);
    NoBytes();
    assert Newest(turns, 0) == [] && turns[..|turns| - 0] == turns;
    JoinOne([]);
    KeepTurnsIsLongestRun(turns, 0, maxBytes);
    assert value != [];
    var n := |KeepTurns(turns, [], maxBytes)|;
    assert IsLongestRun(turns, n, maxBytes);
  }

  /** The characters from number k on fit, and no longer suffix does. */
  predicate IsLongestSuffix(s: seq<Scalar>, k: nat, maxBytes: nat)
    requires k <= |s|
  {
    Size(s[k..]) <= maxBytes && forall j :: 0 <= j < k ==> Size(s[j..]) > maxBytes
  }

  /** A text without a complete turn becomes its longest code-point suffix, but for a byte order mark in front. */
  lemma {:induction false} UnframedKeepsLongestSuffix(value: Text, maxBytes: nat, g: Grammar)
    requires maxBytes > 0 && Utf8Bytes(value) > maxBytes
    requires CompleteTurns(Split(value, TurnSeparator()), g) == []
    ensures exists k: nat | k <= |Scalars(value)| ::
              IsLongestSuffix(Scalars(value), k, maxBytes) && BoundedSuffix(value, maxBytes, g) == ToText(WithoutMark(Scalars(value)[k..]))
  {
    hide CompleteTurns, Split, Size, Scalars, ToText, WithoutMark, FirstKept;
    var s := Scalars(value);
    var k := FirstKept(s, maxBytes);
    assert value != [] by { NoBytes(); }
    forall j | 0 <= j <= |s|
      ensures Size(s[j..]) <= maxBytes <==> j >= k
    {
      FirstKeptIsLeast(s, maxBytes, j);
    }
    assert IsLongestSuffix(s, k, maxBytes);
  }

  /** The complete turns of a text are those of its pieces, each trimmed, in their order. */
  lemma {:induction false} TurnsKeepTheirOrder(before: seq<Text>, piece: Text, after: seq<Text>, g: Grammar)
    ensures CompleteTurns(before + [piece] + after, g)
         == CompleteTurns(before, g) + (if IsComplete(piece, g) then [Trim(piece)] else []) + CompleteTurns(after, g)
    decreases |after|
  {
    hide IsComplete, Trim;
    if after == [] {
      assert before + [piece] + after == before + [piece] && (before + [piece])[..|before|] == before;
    } else {
      var all := before + [piece] + after;
      assert all[..|all| - 1] == before + [piece] + after[..|after| - 1];
      TurnsKeepTheirOrder(before, piece, after[..|after| - 1], g);
    }
  }

  /** Trimming takes white space off both ends, all of it, and nothing else. */
  lemma {:induction false} TrimTakesSpaceOnly(t: Text) returns (front: Text, back: Text)
    ensures t == front + Trim(t) + back
    ensures forall i :: 0 <= i < |front| ==> IsJsSpace(front[i])
    ensures forall i :: 0 <= i < |back| ==> IsJsSpace(back[i])
    ensures Trim(t) != [] ==> !IsJsSpace(Trim(t)[0]) && !IsJsSpace(Trim(t)[|Trim(t)| - 1])
  {
    hide IsJsSpace;
    var inner := TrimStart(t);
    front := StartTaken(t);
    back := EndTaken(inner);
    assert t == front + (Trim(t) + back);
  }

  lemma {:induction false} StartTaken(t: Text) returns (front: Text)
    ensures t == front + TrimStart(t) && forall i :: 0 <= i < |front| ==> IsJsSpace(front[i])
    ensures TrimStart(t) != [] ==> !IsJsSpace(TrimStart(t)[0])
    decreases |t|
  {
    hide IsJsSpace;
    front := [];
    if t != [] && IsJsSpace(t[0]) {
      var rest := StartTaken(t[1..]);
      front := [t[0]] + rest;
    }
  }

  lemma {:induction false} EndTaken(t: Text) returns (back: Text)
    ensures t == TrimEnd(t) + back && forall i :: 0 <= i < |back| ==> IsJsSpace(back[i])
    ensures TrimEnd(t) != [] ==> !IsJsSpace(TrimEnd(t)[|TrimEnd(t)| - 1]) && TrimEnd(t)[0] == t[0]
    decreases |t|
  {
    hide IsJsSpace;
    back := [];
    if t != [] && IsJsSpace(t[|t| - 1]) {
      var rest := EndTaken(t[..|t| - 1]);
      back := rest + [t[|t| - 1]];
    }
  }

  /** Splitting loses nothing. */
  lemma {:induction false} SplitJoins(value: Text, separator: Text)
    requires separator != []
    ensures Join(Split(value, separator), separator) == value
    decreases |value|
  {
    var at := FindFrom(value, separator, 0);
    if at >= 0 {
      var rest := value[at + |separator|..];
      SplitJoins(rest, separator);
      assert ([value[..at]] + Split(rest, separator))[1..] == Split(rest, separator);
      assert value == value[..at] + value[at..at + |separator|] + rest;
    }
  }

  // ---- the row budget -----------------------------------------------------------------

  datatype Portable = Portable(anchors: Text, tail: Text)
  datatype Outcome = StateTooLarge | Kept(portable: Portable)

  /** What a row may still spend on anchors and tail, its other columns taking fieldBytes. */
  function PortableBudget(fieldBytes: nat): int {
    var rest := MAX_CHAT_SESSION_STATE_BYTES - PERSISTED_STATE_METADATA_RESERVE_BYTES - fieldBytes;
    if rest < MAX_PORTABLE_SESSION_BYTES then rest else MAX_PORTABLE_SESSION_BYTES
  }

  /** boundPortableForPersistedFields, for fields already validated and anchors already encoded. */
  function BoundPortable(fieldBytes: nat, anchors: Text, tail: Text, g: Grammar): Outcome {
    var budget := PortableBudget(fieldBytes);
    if budget < Utf8Bytes(anchors) then StateTooLarge
    else Kept(Portable(anchors, BoundedSuffix(tail, budget - Utf8Bytes(anchors), g)))
  }

  predicate WithinBudget(p: Portable) {
    Utf8Bytes(p.anchors) + Utf8Bytes(p.tail) <= MAX_PORTABLE_SESSION_BYTES
  }

  /** Anchors and tail together stay within 64 KiB, and with the other columns within 192 KiB. */
  lemma {:induction false} PortableIsBounded(fieldBytes: nat, anchors: Text, tail: Text, g: Grammar)
    requires BoundPortable(fieldBytes, anchors, tail, g).Kept?
    ensures var p := BoundPortable(fieldBytes, anchors, tail, g).portable;
            && p.anchors == anchors
            && WithinBudget(p)
            && fieldBytes + Utf8Bytes(p.anchors) + Utf8Bytes(p.tail) + PERSISTED_STATE_METADATA_RESERVE_BYTES
               <= MAX_CHAT_SESSION_STATE_BYTES
  {
    hide Utf8Bytes, BoundedSuffix;
    SuffixFits(tail, PortableBudget(fieldBytes) - Utf8Bytes(anchors), g);
  }
}
