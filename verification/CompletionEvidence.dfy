/** The evidence fold and the verdict on completion claims (src/completion-evidence.ts:508-588, 685-751). */
module CompletionEvidence {
  datatype Action = Deploy | Fix | Install | Verify | Upload | Delete | Create | Configure | Start
  datatype Status = Success | Failure | Unknown | Pending

  /** A tool record as the classifiers see it: its status, its operations, and whether a check follows its mutations. */
  datatype Record = Record(status: Status, actions: seq<Action>, ordered: bool)

  datatype Evidence = Evidence(latest: Status, successes: nat, failures: nat, unknown: nat, pending: nat)
  type Table = map<Action, Evidence>

  datatype Summary = Summary(
    actions: Table, successfulTools: nat, failedTools: nat, unknownTools: nat, pendingTools: nat,
    classifiedSuccessfulTools: nat, classifiedFailedTools: nat, unclassifiedFailedTools: nat, unclassifiedUnknownTools: nat)

  // ---- the fold -----------------------------------------------------------------------------

  function Count(e: Evidence, status: Status): Evidence {
    match status
    case Success => e.(latest := status, successes := e.successes + 1)
    case Failure => e.(latest := status, failures := e.failures + 1)
    case Unknown => e.(latest := status, unknown := e.unknown + 1)
    case Pending => e.(latest := status, pending := e.pending + 1)
  }

  const NONE := Evidence(Success, 0, 0, 0, 0)

  /** updateActionEvidence */
  function Updated(table: Table, action: Action, status: Status): Table {
    table[action := Count(if action in table then table[action] else NONE, status)]
  }

  /** invalidatesPriorVerification */
  predicate Mutates(actions: seq<Action>) {
    exists action | action in actions :: action != Verify
  }

  /** The check of a record that mutates counts only when it is known to come after. */
  predicate SkipsVerify(r: Record) {
    Mutates(r.actions) && !r.ordered
  }

  function UpdatedAll(table: Table, actions: seq<Action>, status: Status, skipsVerify: bool): Table {
    if actions == [] then table
    else
      var front, last := actions[..|actions| - 1], actions[|actions| - 1];
      var before := UpdatedAll(table, front, status, skipsVerify);
      if last == Verify && skipsVerify then before else Updated(before, last, status)
  }

  /** updateOrderedActionEvidence */
  function Step(table: Table, r: Record): Table {
    UpdatedAll(if Mutates(r.actions) then table - {Verify} else table, r.actions, r.status, SkipsVerify(r))
  }

  function Fold(records: seq<Record>): Table {
    if records == [] then map[] else Step(Fold(records[..|records| - 1]), records[|records| - 1])
  }

  /** Records that still wait for their result, as the second loop enters them. */
  function AsPending(records: seq<Record>): seq<Record> {
    seq(|records|, i requires 0 <= i < |records| => records[i].(status := Pending))
  }

  function Tools(records: seq<Record>, wanted: Record -> bool): nat {
    if records == [] then 0 else Tools(records[..|records| - 1], wanted) + (if wanted(records[|records| - 1]) then 1 else 0)
  }

  predicate HasStatus(r: Record, status: Status) {
    if status == Unknown then r.status in {Unknown, Pending} else r.status == status
  }

  /** summarizeCompletionEvidence */
  function Summarized(completed: seq<Record>, pending: seq<Record>): Summary {
    Summary(
      Fold(completed + AsPending(pending)),
      Tools(completed, (r: Record) => HasStatus(r, Success)),
      Tools(completed, (r: Record) => HasStatus(r, Failure)),
      Tools(completed, (r: Record) => HasStatus(r, Unknown)),
      |pending|,
      Tools(completed, (r: Record) => r.status == Success && r.actions != []),
      Tools(completed, (r: Record) => r.status == Failure && r.actions != []),
      Tools(completed, (r: Record) => r.status == Failure && r.actions == []),
      Tools(completed, (r: Record) => r.status == Unknown && r.actions == []))
  }

  // ---- what the fold means --------------------------------------------------------------------

  function Hits(actions: seq<Action>, action: Action): nat {
    if actions == [] then 0 else Hits(actions[..|actions| - 1], action) + (if actions[|actions| - 1] == action then 1 else 0)
  }

  function Repeat(status: Status, n: nat): seq<Status> {
    if n == 0 then [] else Repeat(status, n - 1) + [status]
  }

  /** How often r is credited with the action. */
  function Credit(r: Record, action: Action): nat {
    if action == Verify && SkipsVerify(r) then 0 else Hits(r.actions, action)
  }

  /** A mutation makes all earlier verification worthless. */
  predicate Resets(r: Record, action: Action) {
    action == Verify && Mutates(r.actions)
  }

  /** The statuses credited to the action since the last mutation that reset it, oldest first. */
  function Credited(records: seq<Record>, action: Action): seq<Status> {
    if records == [] then []
    else
      var last := records[|records| - 1];
      (if Resets(last, action) then [] else Credited(records[..|records| - 1], action)) + Repeat(last.status, Credit(last, action))
  }

  function Tally(statuses: seq<Status>): Evidence {
    if statuses == [] then NONE else Count(Tally(statuses[..|statuses| - 1]), statuses[|statuses| - 1])
  }

  /** The table holds exactly these statuses of the action. */
  predicate Holds(table: Table, action: Action, statuses: seq<Status>) {
    && (action in table <==> statuses != [])
    && (action in table ==> table[action] == Tally(statuses))
  }

  lemma {:induction false} UpdatedHolds(table: Table, action: Action, other: Action, status: Status, statuses: seq<Status>)
    requires Holds(table, action, statuses)
    ensures Holds(Updated(table, other, status), action, if other == action then statuses + [status] else statuses)
  {
    assert (statuses + [status])[..|statuses|] == statuses;
  }

  lemma {:induction false} UpdatedAllHolds(
      table: Table, actions: seq<Action>, status: Status, skipsVerify: bool, action: Action, statuses: seq<Status>)
    requires Holds(table, action, statuses)
    ensures var n := if action == Verify && skipsVerify then 0 else Hits(actions, action);
            Holds(UpdatedAll(table, actions, status, skipsVerify), action, statuses + Repeat(status, n))
  {
    hide Holds, Updated;
    if actions == [] {
      assert statuses + [] == statuses;
    } else {
      var front, last := actions[..|actions| - 1], actions[|actions| - 1];
      var n := if action == Verify && skipsVerify then 0 else Hits(front, action);
      UpdatedAllHolds(table, front, status, skipsVerify, action, statuses);
      if !(last == Verify && skipsVerify) {
        UpdatedHolds(UpdatedAll(table, front, status, skipsVerify), action, last, status, statuses + Repeat(status, n));
        assert statuses + Repeat(status, n) + [status] == statuses + (Repeat(status, n) + [status]);
      }
    }
  }

  /** For every action the table holds the tally of the statuses credited since its last reset, and nothing else. */
  lemma {:induction false} FoldIsTally(records: seq<Record>, action: Action)
    ensures Holds(Fold(records), action, Credited(records, action))
  {
    hide Tally, UpdatedAll, Credit, Mutates;
    if records != [] {
      var front, last := records[..|records| - 1], records[|records| - 1];
      FoldIsTally(front, action);
      var before := Fold(front);
      var cleared := if Mutates(last.actions) then before - {Verify} else before;
      var kept := if Resets(last, action) then [] else Credited(front, action);
      assert Holds(cleared, action, kept);
      UpdatedAllHolds(cleared, last.actions, last.status, SkipsVerify(last), action, kept);
      assert Credit(last, action) == if action == Verify && SkipsVerify(last) then 0 else Hits(last.actions, action) by { CreditIs(last, action); }
    }
  }

  lemma {:induction false} CreditIs(r: Record, action: Action)
    ensures Credit(r, action) == if action == Verify && SkipsVerify(r) then 0 else Hits(r.actions, action)
  {
  }

  // ---- verdict on one specific claim ------------------------------------------------------------

  datatype Reason = NoCompletionClaim | Supported | PendingEvidence | FailedEvidence | UnknownEvidence | MissingEvidence

  function ReasonOf(status: Status): Reason {
    match status
    case Success => Supported
    case Failure => FailedEvidence
    case Unknown => UnknownEvidence
    case Pending => PendingEvidence
  }

  function SpecificReason(summary: Summary, action: Action): Reason {
    if summary.pendingTools > 0 then PendingEvidence
    else if action !in summary.actions then MissingEvidence
    else ReasonOf(summary.actions[action].latest)
  }

  /** Record i is the last one credited with the action, and no later mutation resets it. */
  predicate IsDecisive(records: seq<Record>, i: nat, action: Action)
    requires i < |records|
  {
    && Credit(records[i], action) > 0
    && forall j :: i < j < |records| ==> Credit(records[j], action) == 0 && !Resets(records[j], action)
  }

  lemma {:induction false} RepeatEnds(status: Status, n: nat)
    ensures |Repeat(status, n)| == n && (n > 0 ==> Repeat(status, n)[n - 1] == status)
  {
    if n > 0 {
      RepeatEnds(status, n - 1);
    }
  }

  /** The last credited status is that of the decisive record; there is none exactly when nothing was credited since the reset. */
  predicate HasDecisive(records: seq<Record>, action: Action) {
    exists i :: 0 <= i < |records| && IsDecisive(records, i, action)
  }

  lemma {:induction false} LastCreditIsDecisive(records: seq<Record>, action: Action)
    ensures Credited(records, action) != [] <==> HasDecisive(records, action)
    ensures forall i :: 0 <= i < |records| && IsDecisive(records, i, action) ==>
              Credited(records, action) != [] && Credited(records, action)[|Credited(records, action)| - 1] == records[i].status
  {
    hide Credit, Resets, Repeat, IsDecisive;
    if records == [] {
      NothingDecisive(action);
    } else {
      var front, last := records[..|records| - 1], records[|records| - 1];
      LastCreditIsDecisive(front, action);
      RepeatEnds(last.status, Credit(last, action));
      if Credit(last, action) > 0 {
        LastIsDecisive(records, action);
      } else {
        var kept := if Resets(last, action) then [] else Credited(front, action);
        assert Credited(records, action) == kept;
        OnlyFrontIsDecisive(records, action);
      }
    }
  }

  lemma {:induction false} NothingDecisive(action: Action)
    ensures !HasDecisive([], action)
  {
  }

  lemma {:induction false} LastIsDecisive(records: seq<Record>, action: Action)
    requires records != [] && Credit(records[|records| - 1], action) > 0
    ensures HasDecisive(records, action)
    ensures forall i :: 0 <= i < |records| && IsDecisive(records, i, action) ==> i == |records| - 1
  {
    hide Credit, Resets;
    assert IsDecisive(records, |records| - 1, action);
  }

  lemma {:induction false} OnlyFrontIsDecisive(records: seq<Record>, action: Action)
    requires records != [] && Credit(records[|records| - 1], action) == 0
    ensures var front, last := records[..|records| - 1], records[|records| - 1];
            && (HasDecisive(records, action) <==> HasDecisive(front, action) && !Resets(last, action))
            && forall i :: 0 <= i < |records| && IsDecisive(records, i, action) ==>
                 i < |front| && IsDecisive(front, i, action) && records[i] == front[i]
  {
    hide Credit, Resets;
    var front, last := records[..|records| - 1], records[|records| - 1];
    forall i | 0 <= i < |front|
      ensures IsDecisive(records, i, action) <==> IsDecisive(front, i, action) && !Resets(last, action)
    {
      DecisiveInFront(records, i, action);
    }
    if HasDecisive(front, action) && !Resets(last, action) {
      var i :| 0 <= i < |front| && IsDecisive(front, i, action);
      assert IsDecisive(records, i, action);
    }
  }

  lemma {:induction false} DecisiveInFront(records: seq<Record>, i: nat, action: Action)
    requires i < |records| - 1 && Credit(records[|records| - 1], action) == 0
    ensures IsDecisive(records, i, action) <==> IsDecisive(records[..|records| - 1], i, action) && !Resets(records[|records| - 1], action)
  {
    hide Credit, Resets;
    var front := records[..|records| - 1];
    if IsDecisive(front, i, action) && !Resets(records[|records| - 1], action) {
      forall j | i < j < |records|
        ensures Credit(records[j], action) == 0 && !Resets(records[j], action)
      {
        assert j < |front| ==> records[j] == front[j];
      }
    }
  }

  lemma {:induction false} TallyLatest(statuses: seq<Status>)
    requires statuses != []
    ensures Tally(statuses).latest == statuses[|statuses| - 1]
  {
  }

  /**
   A specific claim is supported exactly when nothing is pending and some
   record is decisive for it and succeeded: it is the last credited one, and
   for verify no later record mutates.
   */
  lemma {:induction false} SpecificClaimSupported(completed: seq<Record>, pending: seq<Record>, action: Action)
    ensures SpecificReason(Summarized(completed, pending), action) == Supported
       <==> pending == [] && exists i :: 0 <= i < |completed| && IsDecisive(completed, i, action) && completed[i].status == Success
  {
    hide Fold, Credited, IsDecisive, Tools, Tally;
    if pending == [] {
      assert completed + AsPending(pending) == completed;
      FoldIsTally(completed, action);
      LastCreditIsDecisive(completed, action);
      if Credited(completed, action) != [] {
        TallyLatest(Credited(completed, action));
      }
    }
  }

  /** A record without operations changes the verdict on no specific claim. */
  lemma {:induction false} PassiveRecordIsNeutral(before: seq<Record>, passive: Record, after: seq<Record>, pending: seq<Record>, action: Action)
    requires passive.actions == []
    ensures SpecificReason(Summarized(before + [passive] + after, pending), action)
         == SpecificReason(Summarized(before + after, pending), action)
  {
    hide Fold, Tools;
    if pending == [] {
      PassiveRecordFolds(before, passive, after);
      assert before + [passive] + after + AsPending(pending) == before + [passive] + after;
      assert before + after + AsPending(pending) == before + after;
    }
  }

  lemma {:induction false} PassiveRecordFolds(before: seq<Record>, passive: Record, after: seq<Record>)
    requires passive.actions == []
    ensures Fold(before + [passive] + after) == Fold(before + after)
    decreases |after|
  {
    hide Step;
    var long, short := before + [passive] + after, before + after;
    if after == [] {
      assert long[..|long| - 1] == before && short == before && long[|long| - 1] == passive;
      assert Step(Fold(before), passive) == Fold(before) by { StepOfPassive(Fold(before), passive); }
    } else {
      var front := after[..|after| - 1];
      assert long[..|long| - 1] == before + [passive] + front && short[..|short| - 1] == before + front;
      assert long[|long| - 1] == after[|after| - 1] == short[|short| - 1];
      PassiveRecordFolds(before, passive, front);
    }
  }

  lemma {:induction false} StepOfPassive(table: Table, passive: Record)
    requires passive.actions == []
    ensures Step(table, passive) == table
  {
  }

  // ---- verdict on the whole task ------------------------------------------------------------------

  /** The first state in property order that is no success decides. */
  function FirstFlaw(table: Table, order: seq<Action>): Reason {
    if order == [] then Supported
    else if order[0] in table && table[order[0]].latest != Success then ReasonOf(table[order[0]].latest)
    else FirstFlaw(table, order[1..])
  }

  predicate HasSucceedingMutation(table: Table) {
    exists action | action in table :: action != Verify && table[action].latest == Success
  }

  /** genericCompletionSupported; `order` is the property order of the action states. */
  function GenericReason(summary: Summary, order: seq<Action>): Reason {
    if summary.pendingTools > 0 then PendingEvidence
    else if summary.unclassifiedFailedTools > 0 then FailedEvidence
    else if summary.unclassifiedUnknownTools > 0 then UnknownEvidence
    else if summary.classifiedSuccessfulTools == 0 then
      if summary.failedTools > 0 then FailedEvidence
      else if summary.unknownTools > 0 || summary.successfulTools > 0 then UnknownEvidence
      else MissingEvidence
    else if !HasSucceedingMutation(summary.actions) then UnknownEvidence
    else FirstFlaw(summary.actions, order)
  }

  predicate Lists(order: seq<Action>, table: Table) {
    forall action :: action in table <==> action in order
  }

  lemma {:induction false} NoFlawMeansAllSucceed(table: Table, order: seq<Action>)
    ensures FirstFlaw(table, order) == Supported <==> forall action :: action in order && action in table ==> table[action].latest == Success
  {
    if order != [] {
      NoFlawMeansAllSucceed(table, order[1..]);
      assert order == [order[0]] + order[1..];
    }
  }

  lemma {:induction false} NoToolsMeansNone(records: seq<Record>, wanted: Record -> bool)
    ensures Tools(records, wanted) == 0 <==> forall r :: r in records ==> !wanted(r)
  {
    if records != [] {
      var front, last := records[..|records| - 1], records[|records| - 1];
      NoToolsMeansNone(front, wanted);
      assert records == front + [last];
    }
  }

  predicate Succeeds(completed: seq<Record>, action: Action) {
    exists i :: 0 <= i < |completed| && IsDecisive(completed, i, action) && completed[i].status == Success
  }

  /** The latest state of an action is the status of its decisive record. */
  lemma {:induction false} LatestIsDecisive(completed: seq<Record>, action: Action)
    ensures action in Fold(completed) <==> HasDecisive(completed, action)
    ensures action in Fold(completed) ==> (Fold(completed)[action].latest == Success <==> Succeeds(completed, action))
  {
    hide Fold, Credited, Tally, IsDecisive;
    FoldIsTally(completed, action);
    LastCreditIsDecisive(completed, action);
    if Credited(completed, action) != [] {
      TallyLatest(Credited(completed, action));
    }
  }

  /** A credited record has operations. */
  lemma {:induction false} CreditedIsClassified(r: Record, action: Action)
    requires Credit(r, action) > 0
    ensures r.actions != []
  {
  }

  lemma {:induction false} SuccessIsClassified(completed: seq<Record>, action: Action)
    requires Succeeds(completed, action)
    ensures Tools(completed, (r: Record) => r.status == Success && r.actions != []) > 0
  {
    hide Credit;
    var i :| 0 <= i < |completed| && IsDecisive(completed, i, action) && completed[i].status == Success;
    CreditedIsClassified(completed[i], action);
    NoToolsMeansNone(completed, (r: Record) => r.status == Success && r.actions != []);
    assert completed[i] in completed;
  }

  /** What a claim that the whole task is complete takes. */
  predicate TaskSupported(completed: seq<Record>, pending: seq<Record>) {
    && pending == []
    && (forall r :: r in completed && r.actions == [] ==> r.status != Failure && r.status != Unknown)
    && (exists action :: action != Verify && Succeeds(completed, action))
    && (forall action :: HasDecisive(completed, action) ==> Succeeds(completed, action))
  }

  /**
   The general claim is supported exactly when nothing is pending, every
   unclassified record is clean, every operation's decisive record succeeded,
   and one of those operations is more than a check.
   */
  lemma {:induction false} GenericClaimSupported(completed: seq<Record>, pending: seq<Record>, order: seq<Action>)
    requires Lists(order, Summarized(completed, pending).actions)
    ensures GenericReason(Summarized(completed, pending), order) == Supported <==> TaskSupported(completed, pending)
  {
    hide Fold, Tools, FirstFlaw, Succeeds, HasDecisive;
    if pending == [] {
      assert completed + AsPending(pending) == completed;
      var table := Fold(completed);
      NoFlawMeansAllSucceed(table, order);
      NoToolsMeansNone(completed, (r: Record) => r.status == Failure && r.actions == []);
      NoToolsMeansNone(completed, (r: Record) => r.status == Unknown && r.actions == []);
      forall action: Action
        ensures action in table <==> HasDecisive(completed, action)
        ensures action in table ==> (table[action].latest == Success <==> Succeeds(completed, action))
        ensures Succeeds(completed, action) ==> HasDecisive(completed, action)
        ensures Succeeds(completed, action) ==> Tools(completed, (r: Record) => r.status == Success && r.actions != []) > 0
      {
        LatestIsDecisive(completed, action);
        SucceedingIsDecisive(completed, action);
        if Succeeds(completed, action) {
          SuccessIsClassified(completed, action);
        }
      }
    }
  }

  lemma {:induction false} SucceedingIsDecisive(completed: seq<Record>, action: Action)
    ensures Succeeds(completed, action) ==> HasDecisive(completed, action)
  {
    hide IsDecisive;
  }

  // ---- the decision -------------------------------------------------------------------------------

  datatype Claim = Specific(action: Action) | Complete
  datatype Disposition = Allow | Downgrade | Terminate
  datatype Decision = Decision(allowed: bool, disposition: Disposition, reason: Reason, unsupported: seq<Claim>)

  function ClaimReason(summary: Summary, order: seq<Action>, claim: Claim): Reason {
    match claim
    case Complete => GenericReason(summary, order)
    case Specific(action) => SpecificReason(summary, action)
  }

  function Unsupported(claims: seq<Claim>, summary: Summary, order: seq<Action>): seq<Claim> {
    if claims == [] then []
    else
      var front, last := claims[..|claims| - 1], claims[|claims| - 1];
      Unsupported(front, summary, order) + (if ClaimReason(summary, order, last) != Supported then [last] else [])
  }

  predicate SomeReason(claims: seq<Claim>, summary: Summary, order: seq<Action>, reason: Reason) {
    exists claim | claim in claims :: ClaimReason(summary, order, claim) == reason
  }

  /** The gravest reason among the unsupported claims. */
  function Gravest(claims: seq<Claim>, summary: Summary, order: seq<Action>): Reason {
    if SomeReason(claims, summary, order, PendingEvidence) then PendingEvidence
    else if SomeReason(claims, summary, order, FailedEvidence) then FailedEvidence
    else if SomeReason(claims, summary, order, UnknownEvidence) then UnknownEvidence
    else MissingEvidence
  }

  function Evaluated(claims: seq<Claim>, summary: Summary, order: seq<Action>): Decision {
    var unsupported := Unsupported(claims, summary, order);
    if claims == [] then Decision(true, Allow, NoCompletionClaim, [])
    else if unsupported == [] then Decision(true, Allow, Supported, [])
    else
      var reason := Gravest(unsupported, summary, order);
      Decision(false, if reason in {PendingEvidence, FailedEvidence} then Terminate else Downgrade, reason, unsupported)
  }

  method EvaluateCompletionEvidence(claims: seq<Claim>, summary: Summary, order: seq<Action>) returns (decision: Decision)
    ensures decision == Evaluated(claims, summary, order)
  {
    hide ClaimReason;
    if |claims| == 0 {
      return Decision(true, Allow, NoCompletionClaim, []);
    }
    var reasons: map<Claim, Reason> := map[];
    var i := 0;
    while i < |claims|
      invariant 0 <= i <= |claims|
      invariant forall claim :: claim in claims[..i] <==> claim in reasons
      invariant forall claim :: claim in reasons ==> reasons[claim] == ClaimReason(summary, order, claim)
    {
      reasons := reasons[claims[i] := ClaimReason(summary, order, claims[i])];
      assert claims[..i + 1] == claims[..i] + [claims[i]];
      i := i + 1;
    }
    assert claims[..i] == claims;
    var unsupportedActions: seq<Claim> := [];
    i := 0;
    while i < |claims|
      invariant 0 <= i <= |claims|
      invariant unsupportedActions == Unsupported(claims[..i], summary, order)
      invariant forall claim :: claim in unsupportedActions ==> claim in claims
    {
      assert claims[..i + 1][..i] == claims[..i];
      assert claims[i] in claims;
      if reasons[claims[i]] != Supported {
        unsupportedActions := unsupportedActions + [claims[i]];
      }
      i := i + 1;
    }
    assert claims[..i] == claims;
    if |unsupportedActions| == 0 {
      return Decision(true, Allow, Supported, []);
    }
    var reason :=
      if exists claim | claim in unsupportedActions :: reasons[claim] == PendingEvidence then PendingEvidence
      else if exists claim | claim in unsupportedActions :: reasons[claim] == FailedEvidence then FailedEvidence
      else if exists claim | claim in unsupportedActions :: reasons[claim] == UnknownEvidence then UnknownEvidence
      else MissingEvidence;
    var disposition := if reason == PendingEvidence || reason == FailedEvidence then Terminate else Downgrade;
    return Decision(false, disposition, reason, unsupportedActions);
  }

  lemma {:induction false} UnsupportedMeans(claims: seq<Claim>, summary: Summary, order: seq<Action>, claim: Claim)
    ensures claim in Unsupported(claims, summary, order) <==> claim in claims && ClaimReason(summary, order, claim) != Supported
  {
    hide ClaimReason;
    if claims != [] {
      var front, last := claims[..|claims| - 1], claims[|claims| - 1];
      UnsupportedMeans(front, summary, order, claim);
      assert claims == front + [last];
    }
  }

  /** What each single claim takes, in terms of the tool history alone. */
  predicate ClaimHolds(completed: seq<Record>, pending: seq<Record>, claim: Claim) {
    match claim
    case Complete => TaskSupported(completed, pending)
    case Specific(action) => pending == [] && Succeeds(completed, action)
  }

  /** An answer is let through exactly when the tool history supports every claim it makes. */
  lemma {:induction false} AllowedExactlyWhenAllHold(claims: seq<Claim>, completed: seq<Record>, pending: seq<Record>, order: seq<Action>)
    requires Lists(order, Summarized(completed, pending).actions)
    ensures Evaluated(claims, Summarized(completed, pending), order).allowed
       <==> forall claim :: claim in claims ==> ClaimHolds(completed, pending, claim)
  {
    hide Summarized, SpecificReason, GenericReason, TaskSupported, Succeeds, Unsupported;
    var summary := Summarized(completed, pending);
    forall claim: Claim
      ensures ClaimReason(summary, order, claim) == Supported <==> ClaimHolds(completed, pending, claim)
      ensures claim in Unsupported(claims, summary, order) <==> claim in claims && ClaimReason(summary, order, claim) != Supported
    {
      UnsupportedMeans(claims, summary, order, claim);
      match claim
      case Complete => GenericClaimSupported(completed, pending, order);
      case Specific(action) =>
        SpecificClaimSupported(completed, pending, action);
        SucceedsMeans(completed, action);
    }
    if Unsupported(claims, summary, order) != [] {
      var first := Unsupported(claims, summary, order)[0];
      assert first in Unsupported(claims, summary, order);
    }
    NoClaims(summary, order);
  }

  lemma {:induction false} NoClaims(summary: Summary, order: seq<Action>)
    ensures Unsupported([], summary, order) == []
  {
  }

  lemma {:induction false} SucceedsMeans(completed: seq<Record>, action: Action)
    ensures Succeeds(completed, action)
       <==> exists i :: 0 <= i < |completed| && IsDecisive(completed, i, action) && completed[i].status == Success
  {
  }

  // ---- the program --------------------------------------------------------------------------------

  /** The summary object that summarizeCompletionEvidence fills in place. */
  class Accumulator {
    var actions: Table
    var successfulTools: nat
    var failedTools: nat
    var unknownTools: nat
    var pendingTools: nat
    var classifiedSuccessfulTools: nat
    var classifiedFailedTools: nat
    var unclassifiedFailedTools: nat
    var unclassifiedUnknownTools: nat

    function Now(): Summary
      reads this
    {
      Summary(actions, successfulTools, failedTools, unknownTools, pendingTools, classifiedSuccessfulTools,
              classifiedFailedTools, unclassifiedFailedTools, unclassifiedUnknownTools)
    }

    constructor (pending: nat)
      ensures Now() == Summary(map[], 0, 0, 0, pending, 0, 0, 0, 0)
    {
      actions := map[];
      successfulTools, failedTools, unknownTools, pendingTools := 0, 0, 0, pending;
      classifiedSuccessfulTools, classifiedFailedTools, unclassifiedFailedTools, unclassifiedUnknownTools := 0, 0, 0, 0;
    }

    method UpdateActionEvidence(action: Action, status: Status)
      modifies this`actions
      ensures actions == Updated(old(actions), action, status)
    {
      var evidence := if action in actions then actions[action] else NONE;
      evidence := evidence.(latest := status);
      if status == Success {
        evidence := evidence.(successes := evidence.successes + 1);
      } else if status == Failure {
        evidence := evidence.(failures := evidence.failures + 1);
      } else if status == Unknown {
        evidence := evidence.(unknown := evidence.unknown + 1);
      } else {
        evidence := evidence.(pending := evidence.pending + 1);
      }
      actions := actions[action := evidence];
    }

    method UpdateOrderedActionEvidence(r: Record, status: Status)
      modifies this`actions
      ensures actions == Step(old(actions), r.(status := status))
    {
      hide Updated;
      var invalidatesVerification := Mutates(r.actions);
      if invalidatesVerification {
        actions := actions - {Verify};
      }
      ghost var cleared := actions;
      var i := 0;
      while i < |r.actions|
        invariant 0 <= i <= |r.actions|
        invariant actions == UpdatedAll(cleared, r.actions[..i], status, SkipsVerify(r))
      {
        assert r.actions[..i + 1][..i] == r.actions[..i];
        if !(r.actions[i] == Verify && invalidatesVerification && !r.ordered) {
          UpdateActionEvidence(r.actions[i], status);
        }
        i := i + 1;
      }
      assert r.actions[..i] == r.actions;
    }

    /** One completed record. */
    method AddCompleted(r: Record)
      modifies this
      ensures Now() == AfterRecord(old(Now()), r)
    {
      hide Step;
      if r.status == Success {
        successfulTools := successfulTools + 1;
      } else if r.status == Failure {
        failedTools := failedTools + 1;
      } else {
        unknownTools := unknownTools + 1;
      }
      if r.status == Success && |r.actions| > 0 {
        classifiedSuccessfulTools := classifiedSuccessfulTools + 1;
      }
      if r.status == Failure && |r.actions| > 0 {
        classifiedFailedTools := classifiedFailedTools + 1;
      }
      if r.status == Failure && |r.actions| == 0 {
        unclassifiedFailedTools := unclassifiedFailedTools + 1;
      }
      if r.status == Unknown && |r.actions| == 0 {
        unclassifiedUnknownTools := unclassifiedUnknownTools + 1;
      }
      assert r.(status := r.status) == r;
      UpdateOrderedActionEvidence(r, r.status);
    }
  }

  function One(b: bool): nat {
    if b then 1 else 0
  }

  function AfterRecord(s: Summary, r: Record): Summary {
    Summary(
      Step(s.actions, r),
      s.successfulTools + One(HasStatus(r, Success)), s.failedTools + One(HasStatus(r, Failure)),
      s.unknownTools + One(HasStatus(r, Unknown)), s.pendingTools,
      s.classifiedSuccessfulTools + One(r.status == Success && r.actions != []),
      s.classifiedFailedTools + One(r.status == Failure && r.actions != []),
      s.unclassifiedFailedTools + One(r.status == Failure && r.actions == []),
      s.unclassifiedUnknownTools + One(r.status == Unknown && r.actions == []))
  }

  /** The summary after the first loop has seen these records. */
  function Counted(completed: seq<Record>, pendingTools: nat): Summary {
    Summarized(completed, []).(pendingTools := pendingTools)
  }

  lemma {:induction false} CountedOneMore(completed: seq<Record>, r: Record, pendingTools: nat)
    ensures Counted(completed + [r], pendingTools) == AfterRecord(Counted(completed, pendingTools), r)
  {
    hide Step;
    var more := completed + [r];
    assert more[..|more| - 1] == completed && more[|more| - 1] == r;
    assert completed + AsPending([]) == completed && more + AsPending([]) == more;
  }

  lemma {:induction false} PendingOneMore(completed: seq<Record>, pending: seq<Record>, i: nat)
    requires i < |pending|
    ensures Fold(completed + AsPending(pending[..i + 1])) == Step(Fold(completed + AsPending(pending[..i])), pending[i].(status := Pending))
  {
    hide Step;
    var more := completed + AsPending(pending[..i + 1]);
    assert more[..|more| - 1] == completed + AsPending(pending[..i]) && more[|more| - 1] == pending[i].(status := Pending);
  }

  lemma {:induction false} NothingCounted(pendingTools: nat)
    ensures Counted([], pendingTools) == Summary(map[], 0, 0, 0, pendingTools, 0, 0, 0, 0)
  {
    assert [] + AsPending([]) == [];
  }

  lemma {:induction false} CountedThenPending(completed: seq<Record>, pending: seq<Record>)
    ensures Counted(completed, |pending|).(actions := Fold(completed + AsPending(pending))) == Summarized(completed, pending)
  {
  }

  method SummarizeCompletionEvidence(completed: seq<Record>, pending: seq<Record>) returns (summary: Summary)
    ensures summary == Summarized(completed, pending)
  {
    hide Summarized, Step, Fold;
    var accumulator := new Accumulator(|pending|);
    NothingCounted(|pending|);
    var i := 0;
    while i < |completed|
      invariant 0 <= i <= |completed|
      invariant accumulator.Now() == Counted(completed[..i], |pending|)
    {
      assert completed[..i + 1] == completed[..i] + [completed[i]];
      CountedOneMore(completed[..i], completed[i], |pending|);
      accumulator.AddCompleted(completed[i]);
      i := i + 1;
    }
    assert completed[..i] == completed;
    ghost var counted := accumulator.Now();
    i := 0;
    assert counted.actions == Fold(completed + AsPending(pending[..0])) by { NonePending(completed, pending); }
    while i < |pending|
      invariant 0 <= i <= |pending|
      invariant accumulator.Now() == counted.(actions := Fold(completed + AsPending(pending[..i])))
    {
      PendingOneMore(completed, pending, i);
      accumulator.UpdateOrderedActionEvidence(pending[i], Pending);
      i := i + 1;
    }
    assert pending[..i] == pending;
    CountedThenPending(completed, pending);
    return accumulator.Now();
  }

  lemma {:induction false} NonePending(completed: seq<Record>, pending: seq<Record>)
    ensures Counted(completed, |pending|).actions == Fold(completed + AsPending(pending[..0]))
  {
    assert completed + AsPending(pending[..0]) == completed && completed + AsPending([]) == completed;
  }
}
