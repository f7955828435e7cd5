/** Reason and disposition of the verdict on completion claims, told by the tool history alone (src/completion-evidence.ts:656-751). */
module EvidenceVerdict {
  import opened CompletionEvidence

  predicate IsStatusOf(completed: seq<Record>, action: Action, status: Status) {
    exists i :: 0 <= i < |completed| && IsDecisive(completed, i, action) && completed[i].status == status
  }

  predicate Some(completed: seq<Record>, status: Status, classified: bool) {
    exists r | r in completed :: r.status == status && (r.actions != []) == classified
  }

  /** The first action in this order whose decisive record is no success. */
  function FirstUnsupported(completed: seq<Record>, order: seq<Action>): Reason {
    if order == [] then Supported
    else if IsStatusOf(completed, order[0], Failure) then FailedEvidence
    else if IsStatusOf(completed, order[0], Unknown) then UnknownEvidence
    else if IsStatusOf(completed, order[0], Pending) then PendingEvidence
    else FirstUnsupported(completed, order[1..])
  }

  /** Why a claim does not hold, or Supported. */
  function Why(completed: seq<Record>, pending: seq<Record>, order: seq<Action>, claim: Claim): Reason {
    if pending != [] then PendingEvidence
    else
      match claim
      case Specific(action) =>
        if !HasDecisive(completed, action) then MissingEvidence
        else if IsStatusOf(completed, action, Success) then Supported
        else if IsStatusOf(completed, action, Failure) then FailedEvidence
        else if IsStatusOf(completed, action, Unknown) then UnknownEvidence
        else PendingEvidence
      case Complete =>
        if Some(completed, Failure, false) then FailedEvidence
        else if Some(completed, Unknown, false) then UnknownEvidence
        else if completed == [] then MissingEvidence
        else if !Some(completed, Success, true) then (if Some(completed, Failure, true) then FailedEvidence else UnknownEvidence)
        else if !(exists action :: action != Verify && IsStatusOf(completed, action, Success)) then UnknownEvidence
        else FirstUnsupported(completed, order)
  }

  lemma {:induction false} StatusIs(completed: seq<Record>, action: Action)
    ensures action in Fold(completed) <==> HasDecisive(completed, action)
    ensures forall status :: IsStatusOf(completed, action, status) <==> action in Fold(completed) && Fold(completed)[action].latest == status
  {
    hide Fold, Credited, Tally, IsDecisive;
    FoldIsTally(completed, action);
    LastCreditIsDecisive(completed, action);
    if Credited(completed, action) != [] {
      TallyLatest(Credited(completed, action));
    }
  }

  lemma {:induction false} FirstFlawIs(completed: seq<Record>, order: seq<Action>)
    ensures FirstFlaw(Fold(completed), order) == FirstUnsupported(completed, order)
    decreases |order|
  {
    hide Fold, IsStatusOf, HasDecisive;
    if order != [] {
      StatusIs(completed, order[0]);
      FirstFlawIs(completed, order[1..]);
    }
  }

  /** The counters of the summary say which kinds of records there are. */
  lemma {:induction false} CountersMean(completed: seq<Record>)
    ensures var s := Summarized(completed, []);
      && (s.unclassifiedFailedTools > 0 <==> Some(completed, Failure, false))
      && (s.unclassifiedUnknownTools > 0 <==> Some(completed, Unknown, false))
      && (s.classifiedSuccessfulTools > 0 <==> Some(completed, Success, true))
      && (s.failedTools > 0 <==> Some(completed, Failure, false) || Some(completed, Failure, true))
      && (s.failedTools > 0 || s.unknownTools > 0 || s.successfulTools > 0 <==> completed != [])
      && (completed == [] ==> forall status, classified :: !Some(completed, status, classified))
  {
    hide Fold, Tools;
    NoToolsMeansNone(completed, (r: Record) => r.status == Failure && r.actions == []);
    NoToolsMeansNone(completed, (r: Record) => r.status == Unknown && r.actions == []);
    NoToolsMeansNone(completed, (r: Record) => r.status == Success && r.actions != []);
    NoToolsMeansNone(completed, (r: Record) => HasStatus(r, Failure));
    NoToolsMeansNone(completed, (r: Record) => HasStatus(r, Unknown));
    NoToolsMeansNone(completed, (r: Record) => HasStatus(r, Success));
    if completed != [] {
      assert completed[0] in completed;
    }
  }

  /** The reason given for each claim is the one the history gives. */
  lemma {:induction false} ReasonIsWhy(completed: seq<Record>, pending: seq<Record>, order: seq<Action>, claim: Claim)
    ensures ClaimReason(Summarized(completed, pending), order, claim) == Why(completed, pending, order, claim)
  {
    hide Fold, Tools, FirstFlaw, FirstUnsupported, IsStatusOf, Some, HasDecisive;
    if pending == [] {
      assert completed + AsPending(pending) == completed;
      match claim
      case Specific(action) => StatusIs(completed, action);
      case Complete =>
        CountersMean(completed);
        FirstFlawIs(completed, order);
        forall action: Action
          ensures IsStatusOf(completed, action, Success) <==> action in Fold(completed) && Fold(completed)[action].latest == Success
        {
          StatusIs(completed, action);
        }
        if action :| action in Fold(completed) && action != Verify && Fold(completed)[action].latest == Success {
          assert IsStatusOf(completed, action, Success);
        }
    }
  }

  /** The claims that the history does not support, in the order in which they were made. */
  function Refuted(claims: seq<Claim>, completed: seq<Record>, pending: seq<Record>, order: seq<Action>): seq<Claim> {
    if claims == [] then []
    else
      var front, last := claims[..|claims| - 1], claims[|claims| - 1];
      Refuted(front, completed, pending, order) + (if Why(completed, pending, order, last) != Supported then [last] else [])
  }

  lemma {:induction false} UnsupportedAreRefuted(claims: seq<Claim>, completed: seq<Record>, pending: seq<Record>, order: seq<Action>)
    ensures Unsupported(claims, Summarized(completed, pending), order) == Refuted(claims, completed, pending, order)
    ensures forall claim :: claim in Refuted(claims, completed, pending, order)
                       <==> claim in claims && Why(completed, pending, order, claim) != Supported
    decreases |claims|
  {
    hide ClaimReason, Why, Summarized;
    if claims != [] {
      var front, last := claims[..|claims| - 1], claims[|claims| - 1];
      assert claims == front + [last];
      UnsupportedAreRefuted(front, completed, pending, order);
      ReasonIsWhy(completed, pending, order, last);
    }
  }

  function Gravity(reason: Reason): nat {
    match reason
    case PendingEvidence => 3
    case FailedEvidence => 2
    case UnknownEvidence => 1
    case _ => 0
  }

  lemma {:induction false} WhyIsEvidence(completed: seq<Record>, pending: seq<Record>, order: seq<Action>, claim: Claim)
    ensures Why(completed, pending, order, claim) != NoCompletionClaim
  {
    hide IsStatusOf, Some, HasDecisive;
    FirstIsEvidence(completed, order);
  }

  lemma {:induction false} FirstIsEvidence(completed: seq<Record>, order: seq<Action>)
    ensures FirstUnsupported(completed, order) != NoCompletionClaim
    decreases |order|
  {
    hide IsStatusOf;
    if order != [] {
      FirstIsEvidence(completed, order[1..]);
    }
  }

  /**
   The whole verdict from the history: without a claim, or with every claim supported, the answer passes; otherwise
   the refuted claims are listed, the gravest of their reasons is given, and the turn is ended for pending or failed
   evidence and toned down for unknown or missing evidence.
   */
  lemma {:induction false} VerdictIsExact(claims: seq<Claim>, completed: seq<Record>, pending: seq<Record>, order: seq<Action>)
    ensures var d := Evaluated(claims, Summarized(completed, pending), order);
      && d.unsupported == Refuted(claims, completed, pending, order)
      && (claims == [] ==> d.allowed && d.disposition == Allow && d.reason == NoCompletionClaim)
      && (claims != [] && d.unsupported == [] ==> d.allowed && d.disposition == Allow && d.reason == Supported)
      && (d.unsupported != [] ==>
            && !d.allowed && d.disposition == (if Gravity(d.reason) >= 2 then Terminate else Downgrade)
            && (exists claim :: claim in claims && Why(completed, pending, order, claim) == d.reason != Supported)
            && (forall claim :: claim in d.unsupported ==> Gravity(Why(completed, pending, order, claim)) <= Gravity(d.reason)))
  {
    hide ClaimReason, Why, Summarized, Unsupported, Refuted;
    var summary := Summarized(completed, pending);
    UnsupportedAreRefuted(claims, completed, pending, order);
    var refuted := Refuted(claims, completed, pending, order);
    forall claim: Claim
      ensures ClaimReason(summary, order, claim) == Why(completed, pending, order, claim) != NoCompletionClaim
    {
      ReasonIsWhy(completed, pending, order, claim);
      WhyIsEvidence(completed, pending, order, claim);
    }
    if claims == [] {
      NoClaims(summary, order);
    }
    if refuted != [] {
      assert refuted[0] in refuted;
    }
  }
}
