/** Terminal delivery gets done (src/openai.ts:6840-6940): without a failure the client receives response.completed. */
module DeliveryProgress {
  import opened TerminalDelivery

  /** A step that is no failure: nobody cancels, the publication RPC is answered, every send succeeds. */
  predicate IsSmooth(e: Step) {
    match e
    case Cancel => false
    case PublishSettles(ok) => ok
    case InnerOwned(ok) => ok
    case InnerSends(ok) => ok
    case BridgeSends(ok) => ok
    case _ => true
  }

  predicate Smooth(run: seq<Step>) {
    forall e :: e in run ==> IsSmooth(e)
  }

  /** The steps of the two deliverers, and the answer they may wait for. */
  predicate IsDelivery(e: Step) {
    || e.PublishSettles? || e.InnerOwned? || e.InnerPublished? || e.InnerSends? || e.InnerSignalled?
    || e.BridgeStarts? || e.BridgePublished? || e.BridgeSends?
  }

  // ---- what holds while nothing fails --------------------------------------------------------

  predicate Unharmed(s: Delivery) {
    && !s.cancelled && !s.owner.Cancelled? && !s.publishing.Rejected?
    && !s.inner.Threw? && !s.bridge.Threw?
    && (s.bridge.Returned? ==> s.delivered)
    && !s.bridge.AwaitOwner? && !s.bridge.AwaitSignal?
    && (s.innerSent <==> s.inner.AwaitSignal? || (s.inner.Returned? && s.owner.Bridge?))
    && (!s.inner.Idle? ==> s.staged)
    && (s.inner.AwaitSignal? ==> s.owner.Bridge?)
    && (s.inner.Returned? && s.owner.Bridge? ==> s.bridge.Returned?)
    && (s.delivered ==> s.inner.Returned? || s.bridge.Returned?)
  }

  lemma {:induction false} StepIsUnharmed(s: Delivery, e: Step)
    requires Inv(s) && Unharmed(s) && Enabled(s, e) && IsSmooth(e)
    ensures Unharmed(Apply(s, e))
  {
  }

  lemma {:induction false} RunIsUnharmed(s: Delivery, run: seq<Step>)
    requires Inv(s) && Unharmed(s) && Legal(s, run) && Smooth(run)
    ensures Inv(Exec(s, run)) && Unharmed(Exec(s, run))
    decreases |run|
  {
    hide Inv, Unharmed, Apply, Enabled, IsSmooth;
    if run != [] {
      assert run[0] in run && forall e :: e in run[1..] ==> e in run;
      StepKeepsInv(s, run[0]);
      StepIsUnharmed(s, run[0]);
      RunIsUnharmed(Apply(s, run[0]), run[1..]);
    }
  }

  // ---- main results -----------------------------------------------------------------------------

  /** Neither side throws unless somebody cancelled, the publication was rejected or a send failed. */
  lemma {:induction false} ThrowsOnlyOnFailure(commits: bool, run: seq<Step>)
    requires Legal(Initial(commits), run)
    ensures var s := Exec(Initial(commits), run); s.inner.Threw? || s.bridge.Threw? ==> !Smooth(run)
  {
    if Smooth(run) {
      RunIsUnharmed(Initial(commits), run);
    }
  }

  /** Nothing is left for either deliverer to do. */
  ghost predicate Quiet(s: Delivery) {
    forall e :: IsDelivery(e) && IsSmooth(e) ==> !Enabled(s, e)
  }

  /**
   A run without a failure gets stuck only when it is done: once an owner has claimed and the inner delivery has
   started, if no step of either deliverer is left, then the client has received the event exactly once, after one
   publication, and both sides have returned.
   */
  lemma {:induction false} QuietMeansDelivered(commits: bool, run: seq<Step>)
    requires Legal(Initial(commits), run) && Smooth(run)
    requires var s := Exec(Initial(commits), run); !s.owner.Unclaimed? && !s.inner.Idle? && Quiet(s)
    ensures var s := Exec(Initial(commits), run);
      && s.received == 1 && s.inner.Returned? && (s.owner.Bridge? ==> s.bridge.Returned?)
      && s.publishing.Fulfilled? && s.rpcs == [PublishCall]
  {
    hide Legal, Exec, Smooth, Inv;
    assert Inv(Initial(commits)) && Unharmed(Initial(commits)) by { StartIsUnharmed(commits); }
    RunIsUnharmed(Initial(commits), run);
    StuckIsDone(Exec(Initial(commits), run));
  }

  lemma {:induction false} StartIsUnharmed(commits: bool)
    ensures Inv(Initial(commits)) && Unharmed(Initial(commits))
  {
  }

  lemma {:induction false} StuckIsDone(s: Delivery)
    requires Inv(s) && Unharmed(s) && !s.owner.Unclaimed? && !s.inner.Idle? && Quiet(s)
    ensures s.received == 1 && s.inner.Returned? && (s.owner.Bridge? ==> s.bridge.Returned?)
    ensures s.publishing.Fulfilled? && s.rpcs == [PublishCall]
  {
    assert !Enabled(s, PublishSettles(true)) && !Enabled(s, InnerOwned(true)) && !Enabled(s, InnerPublished);
    assert !Enabled(s, InnerSends(true)) && !Enabled(s, InnerSignalled);
    assert !Enabled(s, BridgeStarts) && !Enabled(s, BridgePublished) && !Enabled(s, BridgeSends(true));
  }

  /** How many steps the two deliverers have left at most. */
  function Left(s: Delivery): nat {
    LeftOf(s.inner) + LeftOf(s.bridge) + (if s.publishing.NotStarted? || s.publishing.Pending? then 1 else 0)
  }

  function LeftOf(pc: Pc): nat {
    match pc
    case Idle => 5
    case AwaitOwner => 4
    case AwaitPublish => 3
    case ReadyToSend => 2
    case AwaitSignal => 1
    case _ => 0
  }

  /** And it does not go on for ever: each of their steps leaves fewer, and no other step leaves more. */
  lemma {:induction false} DeliveryAdvances(s: Delivery, e: Step)
    requires Inv(s) && Enabled(s, e)
    ensures Left(Apply(s, e)) <= Left(s)
    ensures IsDelivery(e) ==> Left(Apply(s, e)) < Left(s)
  {
  }

  /** The direct path, step by step: with the alias staged, the owner's turn asks for publication. */
  lemma {:induction false} DirectAsksForPublication(s: Delivery, sendOk: bool)
    requires Inv(s) && Enabled(s, InnerOwned(sendOk)) && s.owner.Direct? && s.staged && !s.cancelled
    ensures var t := Apply(s, InnerOwned(sendOk));
      t.inner.AwaitPublish? && PublishCall in t.rpcs && t.received == s.received && !t.cancelled
  {
  }

  // ---- what each step changes ------------------------------------------------------------------

  /** A send that fails, whichever side makes it. */
  predicate FailsToSend(s: Delivery, e: Step) {
    || (e == InnerOwned(false) && s.owner.Bridge?)
    || e == InnerSends(false) || e == BridgeSends(false)
  }

  predicate Sends(e: Step) {
    e == InnerSends(true) || e == BridgeSends(true)
  }

  predicate FlagOutcome(s: Delivery, e: Step, t: Delivery) {
    && t.owner == (if !s.owner.Unclaimed? then s.owner
                   else if e.Claim? then e.claimant else if e.Cancel? && !s.delivered then Cancelled else Unclaimed)
    && t.staged == (s.staged || e.Stage?)
    && t.committed == (s.committed || e.MarkCommitted?)
    && t.cancelled == (s.cancelled || (e.Cancel? && !s.delivered) || FailsToSend(s, e))
    && t.delivered == (s.delivered || Sends(e))
    && t.received == s.received + (if Sends(e) then 1 else 0)
  }

  predicate InnerThrows(s: Delivery, e: Step) {
    || (e.InnerOwned? && (s.owner.Cancelled? || (s.owner.Direct? && Refused(s)) || (s.owner.Bridge? && !e.sendOk)))
    || (e.InnerPublished? && (s.publishing.Rejected? || (s.cancelled && !s.committed)))
    || e == InnerSends(false)
    || (e.InnerSignalled? && !(s.signal.Resolved? && s.signal.delivered))
  }

  predicate BridgeThrows(s: Delivery, e: Step) {
    || (e.BridgeStarts? && Refused(s))
    || (e.BridgePublished? && (s.publishing.Rejected? || (s.cancelled && !s.committed)))
    || e == BridgeSends(false)
  }

  /** publish() would throw: nothing staged, or cancelled without a commit. */
  predicate Refused(s: Delivery) {
    !s.staged || (s.cancelled && !s.committed)
  }

  predicate Outcome(s: Delivery, e: Step, t: Delivery) {
    && FlagOutcome(s, e, t)
    && (t.inner.Threw? <==> s.inner.Threw? || InnerThrows(s, e))
    && (t.bridge.Threw? <==> s.bridge.Threw? || BridgeThrows(s, e))
  }

  lemma {:induction false} CallerOutcome(s: Delivery, e: Step)
    requires Enabled(s, e)
    requires e.Claim? || e.MarkCommitted? || e.PublishSettles? || e.RevokeSettles? || e.InnerStarts? || e.InnerSignalled?
    ensures Outcome(s, e, Apply(s, e))
  {
    hide Publish, Revoke;
  }

  lemma {:induction false} StagedOutcome(s: Delivery, e: Step)
    requires Enabled(s, e) && (e.Stage? || e.Cancel?)
    ensures Outcome(s, e, Apply(s, e))
  {
    hide Publish, Revoke;
  }

  lemma {:induction false} OwnedOutcome(s: Delivery, sendOk: bool)
    requires Enabled(s, InnerOwned(sendOk))
    ensures Outcome(s, InnerOwned(sendOk), Apply(s, InnerOwned(sendOk)))
  {
    hide Publish, Revoke, FailDelivery;
    var t := Apply(s, InnerOwned(sendOk));
    if s.owner.Direct? {
      assert t == if Refused(s) then s.(inner := Threw) else Publish(s).(inner := AwaitPublish);
    } else if s.owner.Bridge? {
      assert t == if sendOk then s.(inner := AwaitSignal, innerSent := true) else FailDelivery(s).(inner := Threw);
    } else {
      assert t == s.(inner := Threw);
    }
  }

  lemma {:induction false} PublishedOutcome(s: Delivery, e: Step)
    requires Enabled(s, e) && (e.InnerPublished? || e.BridgeStarts? || e.BridgePublished?)
    ensures Outcome(s, e, Apply(s, e))
  {
    hide Publish, Revoke, FailDelivery;
  }

  lemma {:induction false} SentOutcome(s: Delivery, e: Step)
    requires Enabled(s, e) && (e.InnerSends? || e.BridgeSends?)
    ensures Outcome(s, e, Apply(s, e))
  {
    hide Publish, Revoke, FailDelivery, Refused, Delivered;
    DeliveredMeans(s);
    if e.InnerSends? {
      assert Apply(s, e) == if e.sendOk then Delivered(s).(inner := Returned) else FailDelivery(s).(inner := Threw);
    } else {
      assert Apply(s, e) == if e.sendOk then Delivered(s).(bridge := Returned) else FailDelivery(s).(bridge := Threw);
    }
  }

  lemma {:induction false} DeliveredMeans(s: Delivery)
    ensures var t := Delivered(s); t == s.(delivered := true, received := s.received + 1, signal := t.signal)
  {
  }

  /**
   Owner, staging, commit, cancellation and delivery are written, and either side throws, at exactly these steps.
   */
  lemma {:induction false} StepsAreExact(s: Delivery, e: Step)
    requires Enabled(s, e)
    ensures Outcome(s, e, Apply(s, e))
  {
    hide Outcome, Apply, Enabled;
    match e
    case BridgeStarts => PublishedOutcome(s, e);
    case BridgePublished => PublishedOutcome(s, e);
    case InnerPublished => PublishedOutcome(s, e);
    case BridgeSends(_) => SentOutcome(s, e);
    case InnerSends(_) => SentOutcome(s, e);
    case InnerOwned(ok) => OwnedOutcome(s, ok);
    case Stage => StagedOutcome(s, e);
    case Cancel => StagedOutcome(s, e);
    case _ => CallerOutcome(s, e);
  }

  /** An alias that is staged when the delivery fails or is cancelled is published if it was committed, and else revoked. */
  lemma {:induction false} CancellationSettlesAlias(s: Delivery, e: Step)
    requires Inv(s) && Enabled(s, e)
    ensures var t := Apply(s, e);
      t.cancelled && t.staged ==> if t.committed then PublishCall in t.rpcs && RevokeCall !in t.rpcs else RevokeCall in t.rpcs
  {
    StepKeepsInv(s, e);
  }
}
