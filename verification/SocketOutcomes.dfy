/** What each step of the socket reader does to its reads and its frames (src/chathub.ts:1663-1759). */
module SocketOutcomes {
  import opened Utf16
  import opened SocketReader

  /** A frame larger than the limits for one frame. */
  predicate TooLarge(frame: Frame) {
    || (frame.BinaryFrame? && frame.byteLength > 6_000_000)
    || |frame.text| > 1_500_000
  }

  /** What an open reader ends for, if it ends. */
  predicate EndsFor(s: State, step: Step, cap: nat, reason: Reason, discarded: bool) {
    match step
    case Message(frame) =>
      && discarded
      && (if TooLarge(frame) then
            reason == FrameTooLarge(if frame.BinaryFrame? && frame.byteLength > 6_000_000 then 1_500_001 else |frame.text|)
          else
            && s.waiting == [] && Characters(s.queued) + |frame.text| > cap
            && reason == BufferTooLarge(Characters(s.queued) + |frame.text|))
    case Closed(code) => !discarded && reason == Reason.ClosedBeforeCompletion(code)
    case Errored => !discarded && reason == ErrorBeforeCompletion
    case Close => !discarded && reason == ClosedByReader
    case _ => false
  }

  /** A reader ends once, for exactly these reasons; what is queued is dropped only for a size violation. */
  lemma {:induction false} EndsExactly(s: State, step: Step, cap: nat)
    requires Inv(s, cap)
    ensures var t := Apply(s, step, cap);
      && (s.terminal.Ended? ==> t.terminal == s.terminal)
      && (s.terminal.Open? ==>
            forall reason, discarded :: t.terminal == Ended(reason, discarded) <==> EndsFor(s, step, cap, reason, discarded))
      && (s.terminal.Open? && t.terminal.Ended? ==> t.queued == (if t.terminal.discarded then [] else s.queued) && t.waiting == [])
  {
    hide Rejections, InOrder, Fair;
  }

  /** A frame is taken in exactly when the reader is open, the frame is not too large, and a read waits or the cap allows it. */
  lemma {:induction false} AcceptsExactly(s: State, step: Step, cap: nat)
    requires Inv(s, cap)
    ensures Apply(s, step, cap).accepted ==
      if step.Message? && s.terminal.Open? && !TooLarge(step.frame)
         && (s.waiting != [] || Characters(s.queued) + |step.frame.text| <= cap)
      then s.accepted + [step.frame.text] else s.accepted
  {
    hide Rejections, InOrder, Fair;
  }

  /** Which reads a step settles, and with what. */
  lemma {:induction false} SettlesExactly(s: State, step: Step, cap: nat)
    requires Inv(s, cap)
    ensures var t := Apply(s, step, cap);
      t.settled == s.settled +
        if s.terminal.Open? && t.terminal.Ended? then Rejections(s.waiting, t.terminal.reason)
        else match step
             case Message(frame) => if s.waiting != [] then [Resolved(s.waiting[0], frame.text)] else []
             case Read =>
               if s.queued != [] then [Resolved(s.nextRead, s.queued[0])]
               else if s.terminal.Ended? then [Rejected(s.nextRead, s.terminal.reason)] else []
             case TimerFires(read) => if read in s.waiting then [Rejected(read, ReadTimeout)] else []
             case _ => []
  {
    hide InOrder, Fair, Without;
    assert s.settled + [] == s.settled;
  }

  /** Whom a step leaves waiting. */
  lemma {:induction false} WaitsExactly(s: State, step: Step, cap: nat)
    requires Inv(s, cap)
    ensures var t := Apply(s, step, cap);
      && t.nextRead == s.nextRead + (if step.Read? then 1 else 0)
      && t.waiting ==
           if s.terminal.Open? && t.terminal.Ended? then []
           else match step
                case Message(_) => if s.waiting != [] then s.waiting[1..] else []
                case Read => if s.queued == [] && s.terminal.Open? then s.waiting + [s.nextRead] else s.waiting
                case TimerFires(read) => if read in s.waiting then Without(s.waiting, read) else s.waiting
                case _ => s.waiting
  {
    hide InOrder, Fair, Without, Rejections;
  }
}
