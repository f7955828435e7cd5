/** At most one submission: the retry rules of chatHub (src/chathub.ts) and exchange (src/openai.ts). */
module Exchange {
  /** The failure messages the rules tell apart; a dial failure carries its HTTP status. */
  datatype Message =
    | DialError | ReadTimeout | ErrorBeforeCompletion | ClosedBeforeCompletion | DialFailed(status: nat)
    | RequestAborted | DeadlineExceeded | ProgressTimeout | AccountNotActive | AccountMissing | OtherMessage

  /** An ordinary error, or a ChatHubAttemptError with its submission bit. */
  datatype Failure = Plain(message: Message) | AttemptError(message: Message, submitted: bool)

  datatype Ending = Returned | Threw(failure: Failure)

  predicate MayReconnect(message: Message, submitted: bool) {
    && !submitted
    && (message in {DialError, ReadTimeout, ErrorBeforeCompletion, ClosedBeforeCompletion}
        || (message.DialFailed? && (message.status in {408, 425} || 500 <= message.status < 600)))
  }

  /** mayRetryUnseenChatHubFailure; reconnectSafe is what the error's constructor computed. */
  predicate MayRetryUnseen(failure: Failure, responseStarted: bool) {
    !responseStarted && failure.AttemptError? && MayReconnect(failure.message, failure.submitted)
  }

  /** preserveChatHubSubmissionHistory */
  function Preserved(failure: Failure, submitted: bool): Failure {
    if !submitted || WasSubmitted(failure) then failure else AttemptError(failure.message, true)
  }

  /** chatHubInvocationWasSubmitted */
  predicate WasSubmitted(failure: Failure) {
    failure.AttemptError? && failure.submitted
  }

  /** mayFailOverChatHubFailure */
  predicate MayFailOver(failure: Failure) {
    failure.message !in {RequestAborted, DeadlineExceeded, ProgressTimeout} && !WasSubmitted(failure)
  }

  // ---- chatHub ----------------------------------------------------------------------------------

  /** What one runChatHub attempt does, whether it sends the prompt, and what the clock and the signal say after it. */
  datatype Attempt = Attempt(
    submits: bool, ending: Ending, emitted: bool, semanticStarted: bool, late: bool, aborted: bool, laterStill: bool)

  datatype Hub = Hub(ending: Ending, submissions: nat, attempts: nat)

  /** The attempt reports a submission it made. */
  predicate Faithful(a: Attempt) {
    a.submits && a.ending.Threw? ==> WasSubmitted(a.ending.failure)
  }

  /** The attempt loop from attempt number k on, with the submissions made so far. */
  function Attempts(script: nat -> Attempt, k: nat, submitted: bool, submissions: nat): Hub
    requires k < 2
    decreases 2 - k
  {
    var a := script(k);
    var count := submissions + (if a.submits then 1 else 0);
    match a.ending
    case Returned => Hub(Returned, count, k + 1)
    case Threw(cause) =>
      var now := submitted || WasSubmitted(cause);
      var historical := Preserved(cause, now);
      if a.late then Hub(Threw(if historical.AttemptError? then historical else AttemptError(DeadlineExceeded, now)), count, k + 1)
      else if a.aborted || a.emitted || a.semanticStarted || now || k == 1 || a.laterStill
              || !MayRetryUnseen(cause, a.emitted || a.semanticStarted || now)
      then Hub(Threw(historical), count, k + 1)
      else Attempts(script, k + 1, now, count)
  }

  /** chatHub: images are uploaded once, before any attempt. */
  function RunHub(upload: Ending, script: nat -> Attempt): Hub {
    if upload.Threw? then Hub(upload, 0, 0) else Attempts(script, 0, false, 0)
  }

  method ChatHub(upload: Ending, script: nat -> Attempt) returns (hub: Hub)
    ensures hub == RunHub(upload, script)
  {
    if upload.Threw? {
      return Hub(upload, 0, 0);
    }
    var invocationSubmitted := false;
    var submissions := 0;
    var attempt := 0;
    while attempt < 2
      invariant 0 <= attempt < 2
      invariant RunHub(upload, script) == Attempts(script, attempt, invocationSubmitted, submissions)
      decreases 2 - attempt
    {
      var a := script(attempt);
      if a.submits {
        submissions := submissions + 1;
      }
      if a.ending.Returned? {
        return Hub(Returned, submissions, attempt + 1);
      }
      var cause := a.ending.failure;
      invocationSubmitted := invocationSubmitted || WasSubmitted(cause);
      var historicalCause := Preserved(cause, invocationSubmitted);
      if a.late {
        if historicalCause.Plain? {
          historicalCause := AttemptError(DeadlineExceeded, invocationSubmitted);
        }
        return Hub(Threw(historicalCause), submissions, attempt + 1);
      }
      if a.aborted || a.emitted || a.semanticStarted || invocationSubmitted || attempt == 1 || a.laterStill
         || !MayRetryUnseen(cause, a.emitted || a.semanticStarted || invocationSubmitted) {
        return Hub(Threw(historicalCause), submissions, attempt + 1);
      }
      attempt := attempt + 1;
    }
  }

  /** A submission is reported, and made at most once. */
  predicate Sound(hub: Hub) {
    && hub.submissions <= 1
    && hub.attempts <= 2
    && (hub.submissions > 0 && hub.ending.Threw? ==> WasSubmitted(hub.ending.failure))
  }

  lemma {:induction false} AttemptsAreSound(script: nat -> Attempt, k: nat)
    requires k < 2 && Faithful(script(0)) && Faithful(script(1))
    ensures Sound(Attempts(script, k, false, 0))
    decreases 2 - k
  {
    var a := script(k);
    assert Faithful(a) by { assert k == 0 || k == 1; }
    if k == 0 && a.ending.Threw? && !a.submits && !WasSubmitted(a.ending.failure) {
      AttemptsAreSound(script, 1);
    }
  }

  /** No transport retry follows a submission. */
  lemma {:induction false} HubSubmitsOnce(upload: Ending, script: nat -> Attempt)
    requires Faithful(script(0)) && Faithful(script(1))
    ensures Sound(RunHub(upload, script))
  {
    AttemptsAreSound(script, 0);
  }

  // ---- exchange ---------------------------------------------------------------------------------

  type Account = nat

  datatype Choice = Chosen(next: Account) | NoneLeft | SelectionFailed(failure: Failure)

  /** One pass of the exchange loop: what each awaited call answers. */
  datatype Round = Round(
    gate: Ending,                  // acquiring the gate and marking the run, before any upstream contact
    hub: Hub,                      // the upstream run
    afterwards: Ending,            // locking the account and emitting the completed text
    locks: bool,                   // whether the account was locked before afterwards ended
    lock: Ending,                  // the account lock, when the catch block waits for it; its failure replaces the cause
    lateForRoute: bool, routeChoice: Choice, routeSwitch: Ending,
    classifiedAsSafe: bool, late: bool, failoverChoice: Choice, failoverSwitch: Ending)

  /** The lease facts the rules look at. */
  datatype Turn = Turn(account: Account, started: bool, locked: bool, attempted: set<Account>, routeRetryUsed: bool)

  /** An upstream run: on which account, how often it submitted, and whether exchange will call it submitted. */
  datatype Run = Run(account: Account, submissions: nat, reported: bool)

  datatype Cleanup = Released | Tombstoned | LeftToCaller
  datatype Result = Result(ending: Ending, cleanup: Cleanup, runs: seq<Run>)

  /** The upstream part of a round: nothing, a failed run, or a completed one. */
  function Contact(r: Round, account: Account): seq<Run> {
    if r.gate.Threw? then [] else [Run(account, r.hub.submissions, r.hub.ending.Returned? || WasSubmitted(r.hub.ending.failure))]
  }

  /** originalCause, or the completed round. */
  function OriginalOf(r: Round): Ending {
    if r.gate.Threw? then r.gate else if r.hub.ending.Threw? then r.hub.ending else r.afterwards
  }

  function CauseOf(r: Round): Ending {
    if OriginalOf(r).Threw? && r.lock.Threw? then r.lock else OriginalOf(r)
  }

  predicate Completed(r: Round) {
    r.gate.Returned? && r.hub.ending.Returned?
  }

  /** invocationSubmitted, as the catch block computes it: a lock failure cannot hide a submission. */
  predicate Submitted(r: Round)
    requires CauseOf(r).Threw?
  {
    Completed(r) || WasSubmitted(OriginalOf(r).failure) || WasSubmitted(CauseOf(r).failure)
  }

  /** shouldRetryAccountRouteChanged, with the bound on accounts. */
  predicate RetriesRoute(t: Turn, r: Round, portable: bool)
    requires CauseOf(r).Threw?
  {
    && CauseOf(r).failure.message in {AccountNotActive, AccountMissing}
    && !Submitted(r) && !t.routeRetryUsed && !r.lateForRoute
    && ((!t.started && !t.locked) || portable)
    && |t.attempted| < 2
  }

  /** mayFailOverExchange, with the bound on accounts; `visible` starts as the account lock. */
  predicate FailsOver(t: Turn, r: Round)
    requires CauseOf(r).Threw?
  {
    && r.classifiedAsSafe && !t.started && !t.locked && !(Completed(r) && r.locks)
    && !(Submitted(r) || !MayFailOver(CauseOf(r).failure)) && !r.late
    && |t.attempted| < 2
  }

  function Moved(t: Turn, next: Account): Turn {
    Turn(next, false, false, t.attempted + {next}, t.routeRetryUsed)
  }

  /** Selection excludes the accounts already attempted. */
  predicate Excludes(t: Turn, r: Round) {
    (r.routeChoice.Chosen? ==> r.routeChoice.next !in t.attempted) && (r.failoverChoice.Chosen? ==> r.failoverChoice.next !in t.attempted)
  }

  datatype Decision = Finish(ending: Ending, cleanup: Cleanup) | Again(turn: Turn)

  /** The end of a round: the result is returned or the cause thrown, or the turn moves to another account. */
  function Decide(t: Turn, r: Round, portable: bool): Decision {
    if CauseOf(r).Returned? then Finish(Returned, LeftToCaller)
    else
      var cause := CauseOf(r).failure;
      if RetriesRoute(t, r, portable) && r.routeChoice.SelectionFailed? then Finish(Threw(r.routeChoice.failure), Released)
      else if RetriesRoute(t, r, portable) && r.routeChoice.Chosen? then
        if r.routeSwitch.Threw? then Finish(r.routeSwitch, Released)
        else Again(Moved(t, r.routeChoice.next).(routeRetryUsed := true))
      else AfterRoute(if RetriesRoute(t, r, portable) then t.(routeRetryUsed := true) else t, r)
  }

  function AfterRoute(t: Turn, r: Round): Decision
    requires CauseOf(r).Threw?
  {
    if FailsOver(t, r) && r.failoverChoice.SelectionFailed? then Finish(Threw(r.failoverChoice.failure), Released)
    else if FailsOver(t, r) && r.failoverChoice.Chosen? then
      if r.failoverSwitch.Threw? then Finish(r.failoverSwitch, LeftToCaller) else Again(Moved(t, r.failoverChoice.next))
    else Finish(CauseOf(r), if Submitted(r) then Tombstoned else Released)
  }

  lemma {:induction false} DecisionUsesUpAccounts(t: Turn, r: Round, portable: bool)
    requires (|t.attempted| < 2 ==> Excludes(t, r)) && t.account in t.attempted && Decide(t, r, portable).Again?
    ensures |t.attempted| < 2 && |Decide(t, r, portable).turn.attempted| == |t.attempted| + 1
    ensures t.attempted <= Decide(t, r, portable).turn.attempted
    ensures Decide(t, r, portable).turn.account in Decide(t, r, portable).turn.attempted - t.attempted
    ensures !Submitted(r)
  {
  }

  /** The first account counts as attempted, and as long as another may be tried selection excludes the attempted ones. */
  predicate Ready(t: Turn, script: nat -> Round, k: nat) {
    t.account in t.attempted && |t.attempted| >= 1 && (|t.attempted| < 2 ==> Excludes(t, script(k)))
  }

  /** The loop from round k on. */
  function Rounds(t: Turn, script: nat -> Round, k: nat, portable: bool): Result
    requires Ready(t, script, k)
    decreases 2 - |t.attempted|
  {
    var r := script(k);
    match Decide(t, r, portable)
    case Finish(ending, cleanup) => Result(ending, cleanup, Contact(r, t.account))
    case Again(turn) =>
      (DecisionUsesUpAccounts(t, r, portable);
       var rest := Rounds(turn, script, k + 1, portable);
       Result(rest.ending, rest.cleanup, Contact(r, t.account) + rest.runs))
  }

  /** The catch block: retry on the new route, fail over, or give up with the cleanup that fits. */
  method HandleRound(turn: Turn, r: Round, portable: bool) returns (decision: Decision)
    ensures decision == Decide(turn, r, portable)
  {
    if CauseOf(r).Returned? {
      return Finish(Returned, LeftToCaller);
    }
    var lease := turn;
    if RetriesRoute(lease, r, portable) {
      lease := lease.(routeRetryUsed := true);
      match r.routeChoice
      case SelectionFailed(selectionCause) =>
        return Finish(Threw(selectionCause), Released);
      case Chosen(next) =>
        if r.routeSwitch.Threw? {
          return Finish(r.routeSwitch, Released);
        }
        return Again(Moved(lease, next));
      case NoneLeft =>
    }
    if FailsOver(lease, r) {
      match r.failoverChoice
      case SelectionFailed(selectionCause) =>
        return Finish(Threw(selectionCause), Released);
      case Chosen(next) =>
        if r.failoverSwitch.Threw? {
          return Finish(r.failoverSwitch, LeftToCaller);
        }
        return Again(Moved(lease, next));
      case NoneLeft =>
    }
    if Submitted(r) {
      return Finish(CauseOf(r), Tombstoned);
    }
    return Finish(CauseOf(r), Released);
  }

  /** exchange: every pass tries one account. */
  method Exchange(start: Turn, script: nat -> Round, portable: bool) returns (result: Result)
    requires start.attempted == {start.account} && Excludes(start, script(0))
    ensures result == Rounds(start, script, 0, portable)
  {
    hide Decide, Contact, Excludes;
    var turn := start;
    var runs: seq<Run> := [];
    var k := 0;
    while true
      invariant Ready(turn, script, k)
      invariant Rounds(start, script, 0, portable) == Extended(runs, Rounds(turn, script, k, portable))
      decreases 2 - |turn.attempted|
    {
      var r := script(k);
      runs := runs + Contact(r, turn.account);
      var decision := HandleRound(turn, r, portable);
      if decision.Finish? {
        return Result(decision.ending, decision.cleanup, runs);
      }
      DecisionUsesUpAccounts(turn, r, portable);
      GoesOn(turn, script, k, portable);
      turn := decision.turn;
      k := k + 1;
    }
  }

  function Extended(runs: seq<Run>, rest: Result): Result {
    Result(rest.ending, rest.cleanup, runs + rest.runs)
  }

  lemma {:induction false} GoesOn(t: Turn, script: nat -> Round, k: nat, portable: bool)
    requires Ready(t, script, k) && Decide(t, script(k), portable).Again?
    ensures Ready(Decide(t, script(k), portable).turn, script, k + 1)
    ensures Rounds(t, script, k, portable)
         == Extended(Contact(script(k), t.account), Rounds(Decide(t, script(k), portable).turn, script, k + 1, portable))
  {
    hide Decide;
    DecisionUsesUpAccounts(t, script(k), portable);
  }

  // ---- safety over every run ------------------------------------------------------------------------

  function Submissions(runs: seq<Run>): nat {
    if runs == [] then 0 else runs[0].submissions + Submissions(runs[1..])
  }

  /** Every run but the last was reported as not submitted, and indeed submitted nothing. */
  predicate OnlyLastSubmits(runs: seq<Run>) {
    forall i :: 0 <= i < |runs| - 1 ==> runs[i].submissions == 0 && !runs[i].reported
  }

  predicate DistinctAccounts(runs: seq<Run>) {
    forall i, j :: 0 <= i < j < |runs| ==> runs[i].account != runs[j].account
  }

  /** What holds of one exchange, given how many accounts it had already attempted. */
  predicate Safe(result: Result, attempted: nat) {
    && |result.runs| + attempted <= 3
    && DistinctAccounts(result.runs)
    && OnlyLastSubmits(result.runs)
    && Submissions(result.runs) <= 1
    && (result.ending.Threw? && Submissions(result.runs) > 0 ==> result.cleanup == Tombstoned)
    && (result.cleanup == Released ==> Submissions(result.runs) == 0)
  }

  lemma {:induction false} LastRoundIsSafe(t: Turn, r: Round, portable: bool)
    requires Sound(r.hub) && 1 <= |t.attempted| <= 2 && Decide(t, r, portable).Finish?
    ensures var d := Decide(t, r, portable); Safe(Result(d.ending, d.cleanup, Contact(r, t.account)), |t.attempted|)
  {
    var runs := Contact(r, t.account);
    assert runs != [] ==> runs[1..] == [];
  }

  lemma {:induction false} EarlierRoundIsQuiet(t: Turn, r: Round, portable: bool)
    requires Sound(r.hub) && Decide(t, r, portable).Again? && t.account in t.attempted
    requires |t.attempted| < 2 ==> Excludes(t, r)
    ensures forall run :: run in Contact(r, t.account) ==> run.submissions == 0 && !run.reported && run.account == t.account
    ensures |Contact(r, t.account)| <= 1
  {
    DecisionUsesUpAccounts(t, r, portable);
  }

  lemma {:induction false} QuietPrefix(first: seq<Run>, rest: seq<Run>)
    requires |first| <= 1 && forall run :: run in first ==> run.submissions == 0 && !run.reported
    requires forall i, j :: 0 <= i < |first| && 0 <= j < |rest| ==> first[i].account != rest[j].account
    requires OnlyLastSubmits(rest) && DistinctAccounts(rest)
    ensures OnlyLastSubmits(first + rest) && DistinctAccounts(first + rest) && Submissions(first + rest) == Submissions(rest)
  {
    if first == [] {
      assert first + rest == rest;
    } else {
      assert first[0] in first;
      assert (first + rest)[1..] == rest;
    }
  }

  /**
   Over every script of faithful runs the prompt is submitted at most once, on
   at most two accounts; no account is contacted after the one that submitted,
   and a failure after a submission always tombstones the conversation.
   */
  lemma {:induction false} ExchangeSubmitsOnce(t: Turn, script: nat -> Round, k: nat, portable: bool)
    requires Ready(t, script, k) && 1 <= |t.attempted| <= 2
    requires Sound(script(k).hub) && Sound(script(k + 1).hub)
    ensures Safe(Rounds(t, script, k, portable), |t.attempted|)
    ensures forall run :: run in Rounds(t, script, k, portable).runs ==> run.account == t.account || run.account !in t.attempted
    decreases 2 - |t.attempted|
  {
    hide Decide, Submissions, Contact, Sound;
    var r := script(k);
    if Decide(t, r, portable).Finish? {
      LastRoundIsSafe(t, r, portable);
      ContactIsOwn(r, t.account);
    } else {
      var next := Decide(t, r, portable).turn;
      DecisionUsesUpAccounts(t, r, portable);
      EarlierRoundIsQuiet(t, r, portable);
      GoesOn(t, script, k, portable);
      SecondAccountIsLast(next, script, k + 1, portable);
      LastRoundIsSafe(next, script(k + 1), portable);
      ContactIsOwn(script(k + 1), next.account);
      ContactIsOwn(r, t.account);
      var rest := Rounds(next, script, k + 1, portable).runs;
      assert next.account != t.account;
      QuietPrefix(Contact(r, t.account), rest);
    }
  }

  lemma {:induction false} ContactIsOwn(r: Round, account: Account)
    ensures forall run :: run in Contact(r, account) ==> run.account == account
  {
  }

  lemma {:induction false} SecondAccountIsLast(t: Turn, script: nat -> Round, k: nat, portable: bool)
    requires Ready(t, script, k) && |t.attempted| == 2
    ensures var d := Decide(t, script(k), portable);
            d.Finish? && Rounds(t, script, k, portable) == Result(d.ending, d.cleanup, Contact(script(k), t.account))
  {
  }

  /** The whole chain: from attempts that report their submissions to one exchange. */
  lemma {:induction false} PromptIsSubmittedOnce(
      start: Turn, rounds: nat -> Round, portable: bool, uploads: nat -> Ending, attempts: nat -> nat -> Attempt)
    requires start.attempted == {start.account} && Excludes(start, rounds(0))
    requires forall k :: 0 <= k < 2 ==> rounds(k).hub == RunHub(uploads(k), attempts(k))
    requires forall k, i :: 0 <= k < 2 && 0 <= i < 2 ==> Faithful(attempts(k)(i))
    ensures Safe(Rounds(start, rounds, 0, portable), 1)
  {
    hide Rounds, RunHub, Faithful, Safe;
    assert Faithful(attempts(0)(0)) && Faithful(attempts(0)(1)) && Faithful(attempts(1)(0)) && Faithful(attempts(1)(1));
    HubSubmitsOnce(uploads(0), attempts(0));
    HubSubmitsOnce(uploads(1), attempts(1));
    ExchangeSubmitsOnce(start, rounds, 0, portable);
  }

  /** The assumption is needed: a runner that hides a submission lets the prompt go out twice. */
  lemma {:induction false} HiddenSubmissionRepeats(start: Turn, script: nat -> Round)
    requires start == Turn(1, false, false, {1}, false)
    requires var r := script(0);
             && r.gate == Returned && r.hub == Hub(Threw(Plain(OtherMessage)), 1, 1) && r.lock == Returned
             && r.classifiedAsSafe && !r.late && r.failoverChoice == Chosen(2) && r.failoverSwitch == Returned
             && (r.routeChoice.Chosen? ==> r.routeChoice.next != 1)
    requires script(1).gate == Returned && script(1).hub == Hub(Returned, 1, 1) && script(1).afterwards == Returned
    ensures Submissions(Rounds(start, script, 0, false).runs) == 2
  {
    var next := Turn(2, false, false, {1, 2}, false);
    assert Decide(start, script(0), false) == Again(next) by { FailoverHappens(start, script(0)); }
    GoesOn(start, script, 0, false);
    var first, second := Run(1, 1, false), Run(2, 1, true);
    assert Contact(script(0), 1) == [first];
    assert Rounds(next, script, 1, false).runs == [second];
    assert Rounds(start, script, 0, false).runs == [first] + [second];
    TwoRuns(first, second);
  }

  lemma {:induction false} TwoRuns(first: Run, second: Run)
    ensures Submissions([first] + [second]) == first.submissions + second.submissions
  {
    var runs, rest := [first] + [second], [second];
    assert runs[1..] == rest && rest[1..] == [];
    assert Submissions(rest) == second.submissions;
  }

  lemma {:induction false} FailoverHappens(start: Turn, r: Round)
    requires start == Turn(1, false, false, {1}, false)
    requires r.gate == Returned && r.hub == Hub(Threw(Plain(OtherMessage)), 1, 1) && r.lock == Returned
    requires r.classifiedAsSafe && !r.late && r.failoverChoice == Chosen(2) && r.failoverSwitch == Returned
    ensures Decide(start, r, false) == Again(Turn(2, false, false, {1, 2}, false))
  {
    assert {1} + {2} == {1, 2};
  }
}
