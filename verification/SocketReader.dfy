/** socketReader (src/chathub.ts:1663-1759): a bounded queue of frames, or of reads that wait for them. */
module SocketReader {
  import opened Utf16

  const MAX_FRAME_CHARACTERS := 1_500_000
  const MAX_FRAME_EARLY_REJECT_BYTES := MAX_FRAME_CHARACTERS * 4

  datatype Reason =
    | FrameTooLarge(observed: nat) | BufferTooLarge(observed: nat)
    | ClosedBeforeCompletion(code: nat) | ErrorBeforeCompletion | ClosedByReader | ReadTimeout

  datatype Terminal = Open | Ended(reason: Reason, discarded: bool)

  /** Text frames have no byte length; binary frames carry one beside their decoded text. */
  datatype Frame = TextFrame(text: Text) | BinaryFrame(byteLength: nat, text: Text)

  /** Reads are numbered as they are requested. */
  datatype Settled = Resolved(read: nat, value: Text) | Rejected(read: nat, reason: Reason)

  datatype State = State(
    queued: seq<Text>, queuedCharacters: int, waiting: seq<nat>, terminal: Terminal,
    nextRead: nat, accepted: seq<Text>, settled: seq<Settled>)

  const START := State([], 0, [], Open, 0, [], [])

  function Rejections(ids: seq<nat>, reason: Reason): seq<Settled> {
    seq(|ids|, i requires 0 <= i < |ids| => Rejected(ids[i], reason))
  }

  function Fail(s: State, reason: Reason, discardQueued: bool): State {
    if s.terminal.Ended? then s
    else
      s.(terminal := Ended(reason, discardQueued),
         queued := if discardQueued then [] else s.queued,
         queuedCharacters := if discardQueued then 0 else s.queuedCharacters,
         waiting := [],
         settled := s.settled + Rejections(s.waiting, reason))
  }

  function Settle(s: State, value: Text, cap: nat): State {
    if s.terminal.Ended? then s
    else if s.waiting != [] then
      s.(waiting := s.waiting[1..], accepted := s.accepted + [value], settled := s.settled + [Resolved(s.waiting[0], value)])
    else if s.queuedCharacters + |value| > cap then Fail(s, BufferTooLarge(AtLeastZero(s.queuedCharacters + |value|)), true)
    else s.(queued := s.queued + [value], queuedCharacters := s.queuedCharacters + |value|, accepted := s.accepted + [value])
  }

  function AtLeastZero(n: int): nat {
    if n < 0 then 0 else n
  }

  function OnMessage(s: State, frame: Frame, cap: nat): State {
    if frame.BinaryFrame? && frame.byteLength > MAX_FRAME_EARLY_REJECT_BYTES then Fail(s, FrameTooLarge(MAX_FRAME_CHARACTERS + 1), true)
    else if |frame.text| > MAX_FRAME_CHARACTERS then Fail(s, FrameTooLarge(|frame.text|), true)
    else Settle(s, frame.text, cap)
  }

  function Next(s: State): State {
    var asked := s.(nextRead := s.nextRead + 1);
    if s.queued != [] then
      asked.(queued := s.queued[1..], queuedCharacters := s.queuedCharacters - |s.queued[0]|,
             settled := s.settled + [Resolved(s.nextRead, s.queued[0])])
    else if s.terminal.Ended? then asked.(settled := s.settled + [Rejected(s.nextRead, s.terminal.reason)])
    else asked.(waiting := s.waiting + [s.nextRead])
  }

  function Without(ids: seq<nat>, read: nat): seq<nat> {
    if ids == [] then [] else if ids[0] == read then ids[1..] else [ids[0]] + Without(ids[1..], read)
  }

  /** A timer that was not cleared fires. */
  function Expire(s: State, read: nat): State {
    if read in s.waiting then s.(waiting := Without(s.waiting, read), settled := s.settled + [Rejected(read, ReadTimeout)]) else s
  }

  datatype Step = Message(frame: Frame) | Closed(code: nat) | Errored | Read | TimerFires(read: nat) | Close

  function Apply(s: State, step: Step, cap: nat): State {
    match step
    case Message(frame) => OnMessage(s, frame, cap)
    case Closed(code) => Fail(s, ClosedBeforeCompletion(code), false)
    case Errored => Fail(s, ErrorBeforeCompletion, false)
    case Read => Next(s)
    case TimerFires(read) => Expire(s, read)
    case Close => Fail(s, ClosedByReader, false)
  }

  function Exec(s: State, steps: seq<Step>, cap: nat): State
    decreases |steps|
  {
    if steps == [] then s else Exec(Apply(s, steps[0], cap), steps[1..], cap)
  }

  // ---- invariant --------------------------------------------------------------------------

  function Characters(values: seq<Text>): nat {
    if values == [] then 0 else |values[0]| + Characters(values[1..])
  }

  /** The values handed to reads, in the order of the hand-over, and the reads that got them. */
  function Values(settled: seq<Settled>): seq<Text> {
    if settled == [] then []
    else Values(settled[..|settled| - 1]) + (if settled[|settled| - 1].Resolved? then [settled[|settled| - 1].value] else [])
  }

  function Served(settled: seq<Settled>): seq<nat> {
    if settled == [] then []
    else Served(settled[..|settled| - 1]) + (if settled[|settled| - 1].Resolved? then [settled[|settled| - 1].read] else [])
  }

  predicate Increasing(ids: seq<nat>, bound: nat) {
    && (forall i, j :: 0 <= i < j < |ids| ==> ids[i] < ids[j])
    && (forall i :: 0 <= i < |ids| ==> ids[i] < bound)
  }

  /** Never both a queued frame and a waiting read; the count is exact and within the cap. */
  predicate Balanced(s: State, cap: nat) {
    && (s.queued == [] || s.waiting == [])
    && (s.terminal.Ended? ==> s.waiting == [])
    && s.queuedCharacters == Characters(s.queued) <= cap
  }

  /** Nothing accepted is lost, duplicated or reordered; only a size violation drops the frames still queued. */
  predicate InOrder(s: State) {
    if s.terminal.Ended? && s.terminal.discarded then Values(s.settled) <= s.accepted && s.queued == []
    else s.accepted == Values(s.settled) + s.queued
  }

  /** Reads are served in the order they were made. */
  predicate Fair(s: State) {
    Increasing(Served(s.settled) + s.waiting, s.nextRead)
  }

  predicate Inv(s: State, cap: nat) {
    Balanced(s, cap) && InOrder(s) && Fair(s)
  }

  // ---- lemmas -----------------------------------------------------------------------------

  lemma {:induction false} CharactersAppend(values: seq<Text>, value: Text)
    ensures Characters(values + [value]) == Characters(values) + |value|
  {
    if values == [] {
      assert values + [value] == [value] && [value][1..] == [];
    } else {
      assert (values + [value])[1..] == values[1..] + [value];
      CharactersAppend(values[1..], value);
    }
  }

  lemma {:induction false} RejectedOne(settled: seq<Settled>, read: nat, reason: Reason)
    ensures Values(settled + [Rejected(read, reason)]) == Values(settled)
    ensures Served(settled + [Rejected(read, reason)]) == Served(settled)
  {
    hide Values, Served;
    SettledOne(settled, Rejected(read, reason));
    assert Values(settled) + [] == Values(settled) && Served(settled) + [] == Served(settled);
  }

  lemma {:induction false} SettledOne(settled: seq<Settled>, one: Settled)
    ensures Values(settled + [one]) == Values(settled) + (if one.Resolved? then [one.value] else [])
    ensures Served(settled + [one]) == Served(settled) + (if one.Resolved? then [one.read] else [])
  {
    assert (settled + [one])[..|settled|] == settled;
  }

  lemma {:induction false} RejectionsServeNone(settled: seq<Settled>, ids: seq<nat>, reason: Reason)
    ensures Values(settled + Rejections(ids, reason)) == Values(settled)
    ensures Served(settled + Rejections(ids, reason)) == Served(settled)
    decreases |ids|
  {
    if ids == [] {
      assert settled + Rejections(ids, reason) == settled;
    } else {
      var front, last := ids[..|ids| - 1], Rejected(ids[|ids| - 1], reason);
      assert Rejections(ids, reason) == Rejections(front, reason) + [last];
      assert settled + Rejections(ids, reason) == (settled + Rejections(front, reason)) + [last];
      RejectionsServeNone(settled, front, reason);
      SettledOne(settled + Rejections(front, reason), last);
    }
  }

  lemma {:induction false} IncreasingPart(a: seq<nat>, b: seq<nat>, bound: nat)
    requires Increasing(a + b, bound)
    ensures Increasing(a, bound)
  {
    forall i | 0 <= i < |a|
      ensures a[i] == (a + b)[i]
    {
    }
    assert forall i, j :: 0 <= i < j < |a| ==> (a + b)[i] < (a + b)[j];
  }

  lemma {:induction false} FailKeeps(s: State, reason: Reason, discardQueued: bool, cap: nat)
    requires Inv(s, cap)
    ensures Inv(Fail(s, reason, discardQueued), cap)
  {
    hide Values, Served, Increasing, Rejections;
    if s.terminal.Open? {
      RejectionsServeNone(s.settled, s.waiting, reason);
      IncreasingPart(Served(s.settled), s.waiting, s.nextRead);
      assert Served(s.settled) + [] == Served(s.settled);
    }
  }

  lemma {:induction false} SettleKeeps(s: State, value: Text, cap: nat)
    requires Inv(s, cap)
    ensures Inv(Settle(s, value, cap), cap)
  {
    hide Values, Served, Increasing, Fail, Characters;
    if s.terminal.Open? {
      if s.waiting != [] {
        SettledOne(s.settled, Resolved(s.waiting[0], value));
        assert Served(s.settled) + [s.waiting[0]] + s.waiting[1..] == Served(s.settled) + s.waiting;
        assert Values(s.settled) + [] == Values(s.settled);
        assert s.queued == [];
      } else if s.queuedCharacters + |value| > cap {
        FailKeeps(s, BufferTooLarge(AtLeastZero(s.queuedCharacters + |value|)), true, cap);
      } else {
        CharactersAppend(s.queued, value);
        assert Values(s.settled) + s.queued + [value] == Values(s.settled) + (s.queued + [value]);
      }
    }
  }

  lemma {:induction false} NextKeeps(s: State, cap: nat)
    requires Inv(s, cap)
    ensures Inv(Next(s), cap)
  {
    hide Values, Served, Increasing;
    var read := s.nextRead;
    if s.queued != [] {
      SettledOne(s.settled, Resolved(read, s.queued[0]));
      assert Values(s.settled) + [s.queued[0]] + s.queued[1..] == Values(s.settled) + s.queued;
      assert Served(s.settled) + [] == Served(s.settled);
      LaterRead(Served(s.settled), read);
      assert Served(s.settled) + [read] + [] == Served(s.settled) + [read];
    } else if s.terminal.Ended? {
      RejectedOne(s.settled, read, s.terminal.reason);
      LaterRead(Served(s.settled) + s.waiting, read);
    } else {
      LaterRead(Served(s.settled) + s.waiting, read);
      assert Served(s.settled) + s.waiting + [read] == Served(s.settled) + (s.waiting + [read]);
    }
  }

  lemma {:induction false} LaterRead(ids: seq<nat>, read: nat)
    requires Increasing(ids, read)
    ensures Increasing(ids + [read], read + 1) && Increasing(ids, read + 1)
  {
  }

  lemma {:induction false} WithoutKeepsOrder(a: seq<nat>, ids: seq<nat>, read: nat, bound: nat)
    requires Increasing(a + ids, bound)
    ensures Increasing(a + Without(ids, read), bound)
    decreases |ids|
  {
    hide Increasing;
    if ids != [] {
      if ids[0] == read {
        DropMiddle(a, ids, bound);
      } else {
        assert a + ids == (a + [ids[0]]) + ids[1..];
        WithoutKeepsOrder(a + [ids[0]], ids[1..], read, bound);
        assert (a + [ids[0]]) + Without(ids[1..], read) == a + ([ids[0]] + Without(ids[1..], read));
      }
    }
  }

  lemma {:induction false} DropMiddle(a: seq<nat>, ids: seq<nat>, bound: nat)
    requires ids != [] && Increasing(a + ids, bound)
    ensures Increasing(a + ids[1..], bound)
  {
    var before, after := a + ids, a + ids[1..];
    assert forall i :: 0 <= i < |after| ==> after[i] == before[if i < |a| then i else i + 1];
  }

  lemma {:induction false} ExpireKeeps(s: State, read: nat, cap: nat)
    requires Inv(s, cap)
    ensures Inv(Expire(s, read), cap)
  {
    hide Values, Served, Increasing, Without;
    if read in s.waiting {
      RejectedOne(s.settled, read, ReadTimeout);
      WithoutKeepsOrder(Served(s.settled), s.waiting, read, s.nextRead);
    }
  }

  lemma {:induction false} StepKeepsInv(s: State, step: Step, cap: nat)
    requires Inv(s, cap)
    ensures Inv(Apply(s, step, cap), cap)
  {
    hide Inv, Settle, Next, Expire, Fail;
    match step
    case Message(frame) =>
      SettleKeeps(s, frame.text, cap);
      FailKeeps(s, FrameTooLarge(MAX_FRAME_CHARACTERS + 1), true, cap);
      FailKeeps(s, FrameTooLarge(|frame.text|), true, cap);
    case Closed(code) => FailKeeps(s, ClosedBeforeCompletion(code), false, cap);
    case Errored => FailKeeps(s, ErrorBeforeCompletion, false, cap);
    case Read => NextKeeps(s, cap);
    case TimerFires(read) => ExpireKeeps(s, read, cap);
    case Close => FailKeeps(s, ClosedByReader, false, cap);
  }

  /** In every run the reader is balanced, in order and fair. */
  lemma {:induction false} RunKeepsInv(s: State, steps: seq<Step>, cap: nat)
    requires Inv(s, cap)
    ensures Inv(Exec(s, steps, cap), cap)
    decreases |steps|
  {
    hide Inv, Apply;
    if steps != [] {
      StepKeepsInv(s, steps[0], cap);
      RunKeepsInv(Apply(s, steps[0], cap), steps[1..], cap);
    }
  }

  /** From the start: the values reads received are a prefix of the accepted frames, each once and in order. */
  lemma {:induction false} ReadsArePrefix(steps: seq<Step>, cap: nat)
    ensures var s := Exec(START, steps, cap);
            && Values(s.settled) <= s.accepted
            && (s.terminal.Open? ==> s.accepted == Values(s.settled) + s.queued)
            && (s.queued == [] || s.waiting == [])
            && Characters(s.queued) <= cap
  {
    hide Exec, Values, Served, Increasing, Characters;
    StartHolds(cap);
    RunKeepsInv(START, steps, cap);
  }

  lemma {:induction false} StartHolds(cap: nat)
    ensures Inv(START, cap)
  {
  }

  // ---- the first reason stays ---------------------------------------------------------------

  /** Once ended, the terminal reason never changes, no frame is accepted, and every new read ends in that reason or a queued frame. */
  lemma {:induction false} FirstReasonStays(s: State, steps: seq<Step>, cap: nat)
    requires s.terminal.Ended? && s.waiting == []
    ensures var later := Exec(s, steps, cap);
            && later.terminal == s.terminal && later.accepted == s.accepted && later.waiting == []
            && later.settled[..Min(|s.settled|, |later.settled|)] == s.settled
            && forall i :: |s.settled| <= i < |later.settled| && later.settled[i].Rejected? ==> later.settled[i].reason == s.terminal.reason
    decreases |steps|
  {
    if steps != [] {
      var one := Apply(s, steps[0], cap);
      EndedStep(s, steps[0], cap);
      FirstReasonStays(one, steps[1..], cap);
      var later := Exec(s, steps, cap);
      PrefixChain(s.settled, one.settled, later.settled);
    }
  }

  function Min(a: nat, b: nat): nat {
    if a < b then a else b
  }

  lemma {:induction false} PrefixChain(a: seq<Settled>, b: seq<Settled>, c: seq<Settled>)
    requires a <= b && c[..Min(|b|, |c|)] == b
    ensures c[..Min(|a|, |c|)] == a
    ensures forall i :: |a| <= i < |b| ==> |b| <= |c| && c[i] == b[i]
  {
    assert |b| <= |c|;
    assert c[..|a|] == b[..|a|];
  }

  lemma {:induction false} EndedStep(s: State, step: Step, cap: nat)
    requires s.terminal.Ended? && s.waiting == []
    ensures var one := Apply(s, step, cap);
            && one.terminal == s.terminal && one.accepted == s.accepted && one.waiting == []
            && s.settled <= one.settled
            && forall i :: |s.settled| <= i < |one.settled| && one.settled[i].Rejected? ==> one.settled[i].reason == s.terminal.reason
  {
  }

  // ---- every read ends at most once -------------------------------------------------------------

  function ReadsOf(settled: seq<Settled>): multiset<nat> {
    if settled == [] then multiset{} else ReadsOf(settled[..|settled| - 1]) + multiset{settled[|settled| - 1].read}
  }

  /** Every read made so far either waits or has been settled, exactly once; no other read has. */
  ghost predicate ExactlyOnce(s: State) {
    forall r: nat :: All(s)[r] == if r < s.nextRead then 1 else 0
  }

  lemma {:induction false} ReadsOfOne(settled: seq<Settled>, one: Settled)
    ensures ReadsOf(settled + [one]) == ReadsOf(settled) + multiset{one.read}
  {
    assert (settled + [one])[..|settled|] == settled;
  }

  lemma {:induction false} ReadsOfRejections(settled: seq<Settled>, ids: seq<nat>, reason: Reason)
    ensures ReadsOf(settled + Rejections(ids, reason)) == ReadsOf(settled) + multiset(ids)
    decreases |ids|
  {
    hide Rejections, ReadsOf;
    RejectionsSnoc(ids, reason);
    if ids == [] {
      assert settled + Rejections(ids, reason) == settled;
    } else {
      var front, last := ids[..|ids| - 1], Rejected(ids[|ids| - 1], reason);
      assert settled + Rejections(ids, reason) == (settled + Rejections(front, reason)) + [last];
      ReadsOfRejections(settled, front, reason);
      ReadsOfOne(settled + Rejections(front, reason), last);
      assert ids == front + [ids[|ids| - 1]];
    }
  }

  lemma {:induction false} RejectionsSnoc(ids: seq<nat>, reason: Reason)
    ensures ids == [] ==> Rejections(ids, reason) == []
    ensures ids != [] ==> Rejections(ids, reason) == Rejections(ids[..|ids| - 1], reason) + [Rejected(ids[|ids| - 1], reason)]
  {
  }

  lemma {:induction false} WithoutAt(ids: seq<nat>, read: nat, index: nat)
    requires index < |ids| && ids[index] == read && read !in ids[..index]
    ensures Without(ids, read) == ids[..index] + ids[index + 1..]
  {
    if index > 0 {
      assert ids[0] in ids[..index];
      assert ids[1..][..index - 1] == ids[..index][1..];
      WithoutAt(ids[1..], read, index - 1);
      assert ids[..index] == [ids[0]] + ids[1..][..index - 1];
    }
  }

  lemma {:induction false} WithoutOne(ids: seq<nat>, read: nat)
    requires read in ids
    ensures multiset(Without(ids, read)) + multiset{read} == multiset(ids)
  {
    assert ids == [ids[0]] + ids[1..];
    if ids[0] != read {
      WithoutOne(ids[1..], read);
    }
  }

  /** All reads that wait or have been settled. */
  function All(s: State): multiset<nat> {
    ReadsOf(s.settled) + multiset(s.waiting)
  }

  lemma {:induction false} FailMovesReads(s: State, reason: Reason, discardQueued: bool)
    ensures All(Fail(s, reason, discardQueued)) == All(s)
  {
    hide ReadsOf, Rejections;
    ReadsOfRejections(s.settled, s.waiting, reason);
  }

  lemma {:induction false} SettleMovesReads(s: State, value: Text, cap: nat)
    ensures All(Settle(s, value, cap)) == All(s)
  {
    hide ReadsOf, Fail;
    FailMovesReads(s, BufferTooLarge(AtLeastZero(s.queuedCharacters + |value|)), true);
    if s.terminal.Open? && s.waiting != [] {
      FirstWaiterServed(s, value, cap);
    }
  }

  lemma {:induction false} FirstWaiterServed(s: State, value: Text, cap: nat)
    requires s.terminal.Open? && s.waiting != []
    ensures All(Settle(s, value, cap)) == All(s)
  {
    hide ReadsOf;
    ReadsOfOne(s.settled, Resolved(s.waiting[0], value));
    assert s.waiting == [s.waiting[0]] + s.waiting[1..];
  }

  lemma {:induction false} NextAddsRead(s: State)
    ensures All(Next(s)) == All(s) + multiset{s.nextRead}
  {
    hide ReadsOf;
    if s.queued != [] {
      ReadsOfOne(s.settled, Resolved(s.nextRead, s.queued[0]));
    } else if s.terminal.Ended? {
      ReadsOfOne(s.settled, Rejected(s.nextRead, s.terminal.reason));
    }
  }

  lemma {:induction false} ExpireMovesReads(s: State, read: nat)
    ensures All(Expire(s, read)) == All(s)
  {
    hide ReadsOf, Without;
    if read in s.waiting {
      ReadsOfOne(s.settled, Rejected(read, ReadTimeout));
      WithoutOne(s.waiting, read);
    }
  }

  /** Settling moves a read from the waiting ones to the settled ones; asking adds a new read. */
  lemma {:induction false} StepMovesReads(s: State, step: Step, cap: nat)
    ensures All(Apply(s, step, cap)) == All(s) + (if step.Read? then multiset{s.nextRead} else multiset{})
    ensures Apply(s, step, cap).nextRead == if step.Read? then s.nextRead + 1 else s.nextRead
  {
    hide All, Rejections, Without;
    match step
    case Message(frame) =>
      SettleMovesReads(s, frame.text, cap);
      FailMovesReads(s, FrameTooLarge(MAX_FRAME_CHARACTERS + 1), true);
      FailMovesReads(s, FrameTooLarge(|frame.text|), true);
    case Closed(code) => FailMovesReads(s, ClosedBeforeCompletion(code), false);
    case Errored => FailMovesReads(s, ErrorBeforeCompletion, false);
    case Read => NextAddsRead(s);
    case TimerFires(read) => ExpireMovesReads(s, read);
    case Close => FailMovesReads(s, ClosedByReader, false);
  }

  /** In every run each read is settled at most once, and is lost never: it waits, or has its one outcome. */
  lemma {:induction false} ReadsSettleOnce(s: State, steps: seq<Step>, cap: nat)
    requires Inv(s, cap) && ExactlyOnce(s)
    ensures ExactlyOnce(Exec(s, steps, cap))
    decreases |steps|
  {
    hide Values, Served, Increasing, Characters, Apply, All;
    if steps != [] {
      StepMovesReads(s, steps[0], cap);
      StepKeepsInv(s, steps[0], cap);
      ReadsSettleOnce(Apply(s, steps[0], cap), steps[1..], cap);
    }
  }

  /** From the start: every read made so far either waits or has its one outcome. */
  lemma {:induction false} EveryReadSettlesOnce(steps: seq<Step>, cap: nat)
    ensures ExactlyOnce(Exec(START, steps, cap))
  {
    hide Exec, Inv;
    StartHolds(cap);
    StartSettlesNone();
    ReadsSettleOnce(START, steps, cap);
  }

  lemma {:induction false} StartSettlesNone()
    ensures ExactlyOnce(START)
  {
  }

  lemma {:induction false} SameReadsSettleOnce(s: State, t: State)
    requires ExactlyOnce(s) && All(t) == All(s) && t.nextRead == s.nextRead
    ensures ExactlyOnce(t)
  {
  }

  lemma {:induction false} FailOnce(s: State, reason: Reason, discardQueued: bool)
    requires ExactlyOnce(s)
    ensures ExactlyOnce(Fail(s, reason, discardQueued))
  {
    hide All, ExactlyOnce;
    FailMovesReads(s, reason, discardQueued);
    SameReadsSettleOnce(s, Fail(s, reason, discardQueued));
  }

  lemma {:induction false} SettleOnce(s: State, value: Text, cap: nat)
    requires ExactlyOnce(s)
    ensures ExactlyOnce(Settle(s, value, cap))
  {
    hide All, ExactlyOnce;
    SettleMovesReads(s, value, cap);
    SameReadsSettleOnce(s, Settle(s, value, cap));
  }

  lemma {:induction false} NextOnce(s: State)
    requires ExactlyOnce(s)
    ensures ExactlyOnce(Next(s))
  {
    hide All;
    NextAddsRead(s);
  }

  lemma {:induction false} ExpireOnce(s: State, read: nat)
    requires ExactlyOnce(s)
    ensures ExactlyOnce(Expire(s, read))
  {
    hide All, ExactlyOnce;
    ExpireMovesReads(s, read);
    SameReadsSettleOnce(s, Expire(s, read));
  }

  lemma {:induction false} SettleMeans(s: State, value: Text, cap: nat)
    requires Inv(s, cap) && s.terminal.Open?
    ensures var t := Settle(s, value, cap);
            && (s.waiting != [] ==> t.settled == s.settled + [Resolved(s.waiting[0], value)])
            && (t.terminal.Open? ==> t.accepted == s.accepted + [value])
            && (t.terminal.Ended? ==> s.waiting == [] && Characters(s.queued) + |value| > cap)
  {
    hide Rejections, Characters, InOrder, Fair;
  }

  lemma {:induction false} NobodyWaits(s: State, cap: nat)
    requires Inv(s, cap)
    ensures s.terminal.Ended? ==> s.waiting == []
  {
  }

  // ---- the object ---------------------------------------------------------------------------------

  class Reader {
    const maximumQueuedCharacters: nat
    var queued: seq<Text>
    var queuedCharacters: int
    /** Reads whose promise is open, oldest first. */
    var waiting: seq<nat>
    var terminal: Terminal
    var nextRead: nat
    /** The frames taken in, and the settled promises. */
    ghost var accepted: seq<Text>
    ghost var settled: seq<Settled>

    ghost function Now(): State
      reads this
    {
      State(queued, queuedCharacters, waiting, terminal, nextRead, accepted, settled)
    }

    /** Queue and waiters are balanced, frames in order, reads fair, and every read has its one outcome or waits. */
    ghost predicate Valid()
      reads this
    {
      Inv(Now(), maximumQueuedCharacters) && ExactlyOnce(Now())
    }

    constructor (maximumQueuedCharacters: nat)
      ensures Valid() && Now() == START && this.maximumQueuedCharacters == maximumQueuedCharacters
    {
      this.maximumQueuedCharacters := maximumQueuedCharacters;
      queued, queuedCharacters, waiting, terminal, nextRead := [], 0, [], Open, 0;
      accepted, settled := [], [];
      new;
      StartHolds(maximumQueuedCharacters);
      StartSettlesNone();
    }

    /** The first reason stays; from then on nobody waits and nothing is accepted. */
    method FailWith(reason: Reason, discardQueued: bool)
      requires Valid()
      modifies this
      ensures Valid() && Now() == Fail(old(Now()), reason, discardQueued)
      ensures terminal == (if old(terminal).Open? then Ended(reason, discardQueued) else old(terminal))
      ensures waiting == [] && accepted == old(accepted) && Values(settled) == Values(old(settled))
    {
      hide Values, Inv, ExactlyOnce;
      RejectionsServeNone(settled, waiting, reason);
      FailKeeps(Now(), reason, discardQueued, maximumQueuedCharacters);
      FailOnce(Now(), reason, discardQueued);
      NobodyWaits(Now(), maximumQueuedCharacters);
      if terminal.Ended? {
        return;
      }
      terminal := Ended(reason, discardQueued);
      if discardQueued {
        queued, queuedCharacters := [], 0;
      }
      RejectAll(reason);
    }

    /** for (const waiter of waiting.splice(0)) */
    method RejectAll(reason: Reason)
      modifies this`waiting, this`settled
      ensures waiting == [] && settled == old(settled) + Rejections(old(waiting), reason)
    {
      var rejected := waiting;
      waiting := [];
      var i := 0;
      assert rejected[..0] == [];
      while i < |rejected|
        invariant 0 <= i <= |rejected| && waiting == []
        invariant settled == old(settled) + Rejections(rejected[..i], reason)
      {
        assert Rejections(rejected[..i + 1], reason) == Rejections(rejected[..i], reason) + [Rejected(rejected[i], reason)];
        settled := settled + [Rejected(rejected[i], reason)];
        i := i + 1;
      }
      assert rejected[..|rejected|] == rejected;
    }

    /** An open reader gives the value to its oldest waiting read, keeps it for the next one, or ends at the cap. */
    method SettleWith(value: Text)
      requires Valid()
      modifies this
      ensures Valid() && Now() == Settle(old(Now()), value, maximumQueuedCharacters)
      ensures old(terminal).Open? && old(waiting) != [] ==> settled == old(settled) + [Resolved(old(waiting)[0], value)]
      ensures old(terminal).Open? && terminal.Open? ==> accepted == old(accepted) + [value]
      ensures old(terminal).Open? && terminal.Ended? ==> old(waiting) == [] && Characters(old(queued)) + |value| > maximumQueuedCharacters
      ensures old(terminal).Ended? ==> Now() == old(Now())
    {
      hide Inv, ExactlyOnce, Characters;
      SettleKeeps(Now(), value, maximumQueuedCharacters);
      SettleOnce(Now(), value, maximumQueuedCharacters);
      if terminal.Open? {
        SettleMeans(Now(), value, maximumQueuedCharacters);
      }
      hide Fail;
      if terminal.Ended? {
        return;
      }
      if |waiting| == 0 {
        var observedCharacters := queuedCharacters + |value|;
        if observedCharacters > maximumQueuedCharacters {
          FailWith(BufferTooLarge(AtLeastZero(observedCharacters)), true);
          return;
        }
        queued := queued + [value];
        queuedCharacters := queuedCharacters + |value|;
      } else {
        settled := settled + [Resolved(waiting[0], value)];
        waiting := waiting[1..];
      }
      accepted := accepted + [value];
    }

    /** Frames over the size limit end an open reader; any other frame is settled. */
    method Receive(frame: Frame)
      requires Valid()
      modifies this
      ensures Valid() && Now() == OnMessage(old(Now()), frame, maximumQueuedCharacters)
      ensures accepted != old(accepted) ==> accepted == old(accepted) + [frame.text] && |frame.text| <= MAX_FRAME_CHARACTERS
      ensures |frame.text| > MAX_FRAME_CHARACTERS ==> terminal.Ended? && accepted == old(accepted)
    {
      hide Inv, ExactlyOnce;
      if frame.BinaryFrame? && frame.byteLength > MAX_FRAME_EARLY_REJECT_BYTES {
        FailWith(FrameTooLarge(MAX_FRAME_CHARACTERS + 1), true);
        return;
      }
      if |frame.text| > MAX_FRAME_CHARACTERS {
        FailWith(FrameTooLarge(|frame.text|), true);
        return;
      }
      SettleWith(frame.text);
    }

    /** next(): true when the promise is settled at once, with the oldest queued frame or the terminal reason. */
    method Ask() returns (read: nat, settledAtOnce: bool)
      requires Valid()
      modifies this
      ensures Valid() && Now() == Next(old(Now())) && read == old(nextRead)
      ensures settledAtOnce <==> |settled| > |old(settled)|
      ensures old(queued) != [] ==> settled == old(settled) + [Resolved(read, old(queued)[0])]
      ensures old(queued) == [] && old(terminal).Ended? ==> settled == old(settled) + [Rejected(read, old(terminal).reason)]
    {
      hide Inv, ExactlyOnce;
      NextKeeps(Now(), maximumQueuedCharacters);
      NextOnce(Now());
      read := nextRead;
      nextRead := nextRead + 1;
      if queued != [] {
        var value := queued[0];
        queued := queued[1..];
        queuedCharacters := queuedCharacters - |value|;
        settled := settled + [Resolved(read, value)];
        return read, true;
      }
      if terminal.Ended? {
        settled := settled + [Rejected(read, terminal.reason)];
        return read, true;
      }
      waiting := waiting + [read];
      return read, false;
    }

    /** A timeout takes back only the read it belongs to; frames and queue are untouched. */
    method TimerFires(read: nat)
      requires Valid()
      modifies this
      ensures Valid() && Now() == Expire(old(Now()), read)
      ensures queued == old(queued) && accepted == old(accepted) && Values(settled) == Values(old(settled))
    {
      hide Without, Values, Inv, ExactlyOnce;
      ExpireKeeps(Now(), read, maximumQueuedCharacters);
      ExpireOnce(Now(), read);
      RejectedOne(settled, read, ReadTimeout);
      var index := IndexOf(waiting, read);
      if index < |waiting| {
        WithoutAt(waiting, read, index);
        waiting := waiting[..index] + waiting[index + 1..];
        settled := settled + [Rejected(read, ReadTimeout)];
      }
    }
  }

  /** The place of the record in the list, or the length of the list. */
  method IndexOf(ids: seq<nat>, read: nat) returns (index: nat)
    ensures index <= |ids| && read !in ids[..index]
    ensures if index < |ids| then ids[index] == read else read !in ids
  {
    index := 0;
    while index < |ids| && ids[index] != read
      invariant 0 <= index <= |ids| && read !in ids[..index]
    {
      assert ids[..index + 1] == ids[..index] + [ids[index]];
      index := index + 1;
    }
    assert ids[..|ids|] == ids;
  }
}
