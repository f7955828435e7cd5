/** When chatHub tries again and exchange moves to another account, and how each ends (src/chathub.ts:2230-2292, src/openai.ts:2791-3027). */
module ExchangeOutcomes {
  import opened Exchange

  // ---- chatHub ------------------------------------------------------------------------------

  /** The attempt ended without a trace: nothing sent, nothing heard, time and caller still there, and the message is one of transport. */
  predicate Reconnects(a: Attempt) {
    && a.ending.Threw? && a.ending.failure.AttemptError? && !a.ending.failure.submitted
    && MayReconnect(a.ending.failure.message, false)
    && !a.emitted && !a.semanticStarted && !a.late && !a.aborted && !a.laterStill
  }

  /** How an attempt that is not repeated ends the call: a plain failure after the deadline is reported as the deadline. */
  function EndingOf(a: Attempt): Ending {
    if a.ending.Threw? && a.ending.failure.Plain? && a.late then Threw(AttemptError(DeadlineExceeded, false)) else a.ending
  }

  /** A failed upload is no attempt; the first attempt is repeated exactly when it may reconnect, and the last one gives the ending. */
  lemma {:induction false} HubEndsExactly(upload: Ending, script: nat -> Attempt)
    ensures var hub, first, second := RunHub(upload, script), script(0), script(1);
      && (upload.Threw? ==> hub == Hub(upload, 0, 0))
      && (upload.Returned? ==>
            && hub.attempts == (if Reconnects(first) then 2 else 1)
            && hub.ending == EndingOf(if Reconnects(first) then second else first)
            && hub.submissions == (if first.submits then 1 else 0) + (if Reconnects(first) && second.submits then 1 else 0))
  {
    if upload.Returned? {
      LastAttempt(script, if script(0).submits then 1 else 0);
    }
  }

  lemma {:induction false} LastAttempt(script: nat -> Attempt, submissions: nat)
    ensures Attempts(script, 1, false, submissions) == Hub(EndingOf(script(1)), submissions + (if script(1).submits then 1 else 0), 2)
  {
  }

  // ---- exchange -----------------------------------------------------------------------------

  /** The route of an account that is gone is changed once, before anything was sent, for a fresh or portable conversation. */
  predicate MayChangeRoute(t: Turn, r: Round, portable: bool)
    requires CauseOf(r).Threw?
  {
    && (CauseOf(r).failure.message == AccountNotActive || CauseOf(r).failure.message == AccountMissing)
    && !t.routeRetryUsed && !r.lateForRoute && |t.attempted| < 2
    && (portable || (!t.started && !t.locked)) && !Submitted(r)
  }

  /** Another account takes over only a fresh conversation, after a failure classified as safe that sent nothing. */
  predicate MayTakeOver(t: Turn, r: Round)
    requires CauseOf(r).Threw?
  {
    && r.classifiedAsSafe && !t.started && !t.locked && !r.late && |t.attempted| < 2
    && CauseOf(r).failure.message != RequestAborted && CauseOf(r).failure.message != DeadlineExceeded
    && CauseOf(r).failure.message != ProgressTimeout
    && !Submitted(r) && !(Completed(r) && r.locks)
  }

  /** Every way a round can end. */
  lemma {:induction false} RoundEndsExactly(t: Turn, r: Round, portable: bool)
    ensures var d := Decide(t, r, portable);
      if CauseOf(r).Returned? then d == Finish(Returned, LeftToCaller)
      else
        var route := MayChangeRoute(t, r, portable);
        var used := t.routeRetryUsed || route;
        if route && !r.routeChoice.NoneLeft? then
          match r.routeChoice
          case SelectionFailed(failure) => d == Finish(Threw(failure), Released)
          case Chosen(next) =>
            if r.routeSwitch.Threw? then d == Finish(r.routeSwitch, Released)
            else d == Again(Turn(next, false, false, t.attempted + {next}, true))
          case NoneLeft => false
        else if MayTakeOver(t, r) && !r.failoverChoice.NoneLeft? then
          match r.failoverChoice
          case SelectionFailed(failure) => d == Finish(Threw(failure), Released)
          case Chosen(next) =>
            if r.failoverSwitch.Threw? then d == Finish(r.failoverSwitch, LeftToCaller)
            else d == Again(Turn(next, false, false, t.attempted + {next}, used))
          case NoneLeft => false
        else d == Finish(CauseOf(r), if Submitted(r) then Tombstoned else Released)
  {
  }

  /** An exchange is one round or two: the second, on another account, follows exactly when the first moved on, and it is the last. */
  lemma {:induction false} ExchangeEndsExactly(start: Turn, script: nat -> Round, portable: bool)
    requires start.attempted == {start.account} && Excludes(start, script(0))
    ensures var result := Rounds(start, script, 0, portable);
      match Decide(start, script(0), portable)
      case Finish(ending, cleanup) => result == Result(ending, cleanup, Contact(script(0), start.account))
      case Again(next) =>
        && next.account != start.account
        && Decide(next, script(1), portable).Finish?
        && var last := Decide(next, script(1), portable);
           result == Result(last.ending, last.cleanup, Contact(script(0), start.account) + Contact(script(1), next.account))
  {
    hide Decide, Contact;
    if Decide(start, script(0), portable).Again? {
      DecisionUsesUpAccounts(start, script(0), portable);
      GoesOn(start, script, 0, portable);
      SecondAccountIsLast(Decide(start, script(0), portable).turn, script, 1, portable);
    }
  }
}
