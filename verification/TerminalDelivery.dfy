/**
 createResponsesTerminalDelivery (src/openai.ts): who may tell the client
 response.completed, and what becomes of the staged alias.  The closure's
 variables are the fields of `Delivery`; each transition is one stretch of
 code that runs without an await, so a run is any interleaving of the pump,
 the bridge and any number of cancellations.
 */
module TerminalDelivery {

  datatype Owner = Unclaimed | Direct | Bridge | Cancelled

  /** A memoised promise: not created, pending, fulfilled or rejected. */
  datatype Deferred = NotStarted | Pending | Fulfilled | Rejected

  /** deliveredPromise: the first resolution wins. */
  datatype Signal = Unresolved | Resolved(delivered: bool)

  datatype Rpc = PublishCall | RevokeCall

  /** Where a deliverInner or deliverBridge call stands. */
  datatype Pc = Idle | AwaitOwner | AwaitPublish | ReadyToSend | AwaitSignal | Returned | Threw

  datatype Delivery = Delivery(
    commits: bool,        // the caller commits before it stages (responsesStream), or never commits
    owner: Owner,
    staged: bool,
    cancelled: bool,
    delivered: bool,
    committed: bool,
    signal: Signal,
    publishing: Deferred,
    revoking: Deferred,
    rpcs: seq<Rpc>,       // the alias RPCs issued, in order
    inner: Pc,
    innerSent: bool,      // response.completed is in the inner stream, for the bridge to forward
    bridge: Pc,
    received: nat)        // response.completed events the client received

  function Initial(commits: bool): Delivery {
    Delivery(commits, Unclaimed, false, false, false, false, Unresolved, NotStarted, NotStarted, [], Idle, false, Idle, 0)
  }

  // ---- the shared helpers of the closure ---------------------------------------------

  /** resolveDelivered */
  function Settle(s: Delivery, ok: bool): Delivery {
    if s.signal.Unresolved? then s.(signal := Resolved(ok)) else s
  }

  /** revoke() up to its await */
  function Revoke(s: Delivery): (t: Delivery)
    ensures t == s.(revoking := t.revoking, rpcs := t.rpcs)
  {
    if s.delivered || !s.staged || !s.revoking.NotStarted? then s
    else s.(revoking := Pending, rpcs := s.rpcs + [RevokeCall])
  }

  /** publish() throws before it asks for anything. */
  predicate PublishRefused(s: Delivery) {
    !s.staged || (s.cancelled && !s.committed)
  }

  /** publish() up to its await */
  function Publish(s: Delivery): (t: Delivery)
    ensures t == s.(publishing := t.publishing, rpcs := t.rpcs)
  {
    if PublishRefused(s) || !s.publishing.NotStarted? then s
    else s.(publishing := Pending, rpcs := s.rpcs + [PublishCall])
  }

  /** failDelivery() up to its await */
  function FailDelivery(s: Delivery): (t: Delivery)
    ensures t == s.(cancelled := true, signal := t.signal, publishing := t.publishing, revoking := t.revoking, rpcs := t.rpcs)
  {
    var t := Settle(s.(cancelled := true), false);
    if t.committed then (if t.staged then Publish(t) else t) else Revoke(t)
  }

  function Delivered(s: Delivery): Delivery {
    Settle(s.(delivered := true, received := s.received + 1), true)
  }

  function Marked(s: Delivery): Delivery {
    var t := s.(committed := true);
    if t.cancelled && t.staged then Publish(t) else t
  }

  // ---- the steps ------------------------------------------------------------------------

  datatype Step =
    | Claim(claimant: Owner)
    | MarkCommitted
    | Stage
    | Cancel
    | PublishSettles(ok: bool)
    | RevokeSettles(ok: bool)
    | InnerStarts
    | InnerOwned(sendOk: bool)
    | InnerPublished
    | InnerSends(sendOk: bool)
    | InnerSignalled
    | BridgeStarts
    | BridgePublished
    | BridgeSends(sendOk: bool)

  /**
   What callers do: one owner claims, the commit comes before the staging, each
   delivery runs once, the bridge forwards what the inner stream sent, and a
   stream is closed before its delivery is cancelled, so no later send succeeds.
   */
  predicate Enabled(s: Delivery, e: Step) {
    match e
    case Claim(claimant) => claimant.Direct? || claimant.Bridge?
    case MarkCommitted => s.commits && !s.staged
    case Stage => !s.staged && (s.commits ==> s.committed)
    case Cancel => true
    case PublishSettles(_) => s.publishing.Pending?
    case RevokeSettles(_) => s.revoking.Pending?
    case InnerStarts => s.staged && s.inner.Idle?
    case InnerOwned(ok) => s.inner.AwaitOwner? && !s.owner.Unclaimed? && (ok ==> !s.cancelled)
    case InnerPublished => s.inner.AwaitPublish? && (s.publishing.Fulfilled? || s.publishing.Rejected?)
    case InnerSends(ok) => s.inner.ReadyToSend? && (ok ==> !s.cancelled)
    case InnerSignalled => s.inner.AwaitSignal? && s.signal.Resolved?
    case BridgeStarts => s.owner.Bridge? && s.innerSent && s.bridge.Idle?
    case BridgePublished => s.bridge.AwaitPublish? && (s.publishing.Fulfilled? || s.publishing.Rejected?)
    case BridgeSends(ok) => s.bridge.ReadyToSend? && (ok ==> !s.cancelled)
  }

  /** publish() as a deliverer starts it: it waits, or throws at once. */
  function StartPublish(s: Delivery): (r: (Delivery, Pc)) {
    if PublishRefused(s) then (s, Threw) else (Publish(s), AwaitPublish)
  }

  /** publish() after its await: a rejected RPC or a late cancellation throws. */
  function AfterPublish(s: Delivery): (r: (Delivery, Pc)) {
    if s.publishing.Rejected? then (s, Threw)
    else if s.cancelled && !s.committed then (Revoke(s), Threw)
    else (s, ReadyToSend)
  }

  function Apply(s: Delivery, e: Step): Delivery
    requires Enabled(s, e)
  {
    match e
    case Claim(claimant) => if s.owner.Unclaimed? then s.(owner := claimant) else s
    case MarkCommitted => Marked(s)
    case Stage =>
      var t := s.(staged := true);
      if !t.cancelled then t else if t.committed then Publish(t) else Revoke(t)
    case Cancel =>
      if s.delivered then s
      else
        var t := s.(cancelled := true, owner := if s.owner.Unclaimed? then Cancelled else s.owner);
        var u := Settle(t, false);
        if u.committed then (if u.staged then Publish(u) else u) else Revoke(u)
    case PublishSettles(ok) => s.(publishing := if ok then Fulfilled else Rejected)
    case RevokeSettles(ok) => s.(revoking := if ok then Fulfilled else Rejected)
    case InnerStarts => s.(inner := AwaitOwner)
    case InnerOwned(ok) =>
      if s.owner.Cancelled? then s.(inner := Threw)
      else if s.owner.Direct? then
        var (t, pc) := StartPublish(s);
        t.(inner := pc)
      else if ok then s.(inner := AwaitSignal, innerSent := true)
      else FailDelivery(s).(inner := Threw)
    case InnerPublished =>
      var (t, pc) := AfterPublish(s);
      t.(inner := pc)
    case InnerSends(ok) => if ok then Delivered(s).(inner := Returned) else FailDelivery(s).(inner := Threw)
    case InnerSignalled => s.(inner := if s.signal.delivered then Returned else Threw)
    case BridgeStarts =>
      var (t, pc) := StartPublish(s);
      t.(bridge := pc)
    case BridgePublished =>
      var (t, pc) := AfterPublish(s);
      t.(bridge := pc)
    case BridgeSends(ok) => if ok then Delivered(s).(bridge := Returned) else FailDelivery(s).(bridge := Threw)
  }

  ghost predicate Legal(s: Delivery, run: seq<Step>)
    decreases |run|
  {
    run == [] || (Enabled(s, run[0]) && Legal(Apply(s, run[0]), run[1..]))
  }

  ghost function Exec(s: Delivery, run: seq<Step>): Delivery
    requires Legal(s, run)
    decreases |run|
  {
    if run == [] then s else Exec(Apply(s, run[0]), run[1..])
  }

  // ---- the invariant -----------------------------------------------------------------------

  /** Each RPC is issued at most once, and publishing is never asked for after revoking. */
  predicate RpcsOnce(s: Delivery) {
    && s.rpcs == (if s.publishing.NotStarted? then [] else [PublishCall])
               + (if s.revoking.NotStarted? then [] else [RevokeCall])
    && (s.rpcs != [] ==> s.staged)
  }

  predicate Inv(s: Delivery) {
    && RpcsOnce(s)
    && (s.committed ==> s.commits) && (s.commits && s.staged ==> s.committed)
    && (!s.revoking.NotStarted? ==> !s.committed && s.cancelled)
    && (s.cancelled && s.staged ==> if s.committed then !s.publishing.NotStarted? else !s.revoking.NotStarted?)
    && (s.delivered <==> s.signal == Resolved(true)) && (s.cancelled <==> s.signal == Resolved(false))
    && s.received == (if s.delivered then 1 else 0)
    && (s.delivered || s.inner.ReadyToSend? || s.bridge.ReadyToSend? ==> s.publishing.Fulfilled?)
    && (s.inner.AwaitPublish? || s.bridge.AwaitPublish? ==> !s.publishing.NotStarted?)
    && (s.inner.Returned? ==> s.delivered)
    && OneDeliverer(s)
  }

  /** Only the owner's side can deliver, and it has not done so before its send. */
  predicate OneDeliverer(s: Delivery) {
    && (s.inner.AwaitPublish? || s.inner.ReadyToSend? ==> s.owner.Direct? && !s.delivered)
    && (s.inner.Idle? || s.inner.AwaitOwner? ==> !s.innerSent && !s.delivered)
    && (!s.bridge.Idle? ==> s.innerSent) && (s.innerSent ==> s.owner.Bridge?)
    && (s.owner.Bridge? && (s.bridge.Idle? || s.bridge.AwaitPublish? || s.bridge.ReadyToSend?) ==> !s.delivered)
    && (s.delivered ==> s.owner.Direct? || s.owner.Bridge?)
  }

  lemma {:induction false} FailKeepsInv(s: Delivery)
    requires Inv(s) && !s.delivered
    ensures var t := FailDelivery(s);
      Inv(t) && t == s.(cancelled := true, signal := t.signal, publishing := t.publishing, revoking := t.revoking, rpcs := t.rpcs)
  {
  }

  lemma {:induction false} InnerKeepsInv(s: Delivery, e: Step)
    requires Inv(s) && Enabled(s, e)
    requires e.InnerStarts? || e.InnerPublished? || e.InnerSends? || e.InnerSignalled?
    ensures Inv(Apply(s, e)) && Apply(s, e).commits == s.commits
  {
  }

  lemma {:induction false} OwnedKeepsInv(s: Delivery, sendOk: bool)
    requires Inv(s) && Enabled(s, InnerOwned(sendOk))
    ensures Inv(Apply(s, InnerOwned(sendOk))) && Apply(s, InnerOwned(sendOk)).commits == s.commits
  {
    hide FailDelivery;
    FailKeepsInv(s);
  }

  lemma {:induction false} BridgeKeepsInv(s: Delivery, e: Step)
    requires Inv(s) && Enabled(s, e) && (e.BridgeStarts? || e.BridgePublished? || e.BridgeSends?)
    ensures Inv(Apply(s, e)) && Apply(s, e).commits == s.commits
  {
  }

  lemma {:induction false} CallerKeepsInv(s: Delivery, e: Step)
    requires Inv(s) && Enabled(s, e)
    requires e.Claim? || e.MarkCommitted? || e.Stage? || e.Cancel? || e.PublishSettles? || e.RevokeSettles?
    ensures Inv(Apply(s, e)) && Apply(s, e).commits == s.commits
  {
  }

  lemma {:induction false} StepKeepsInv(s: Delivery, e: Step)
    requires Inv(s) && Enabled(s, e)
    ensures Inv(Apply(s, e)) && Apply(s, e).commits == s.commits
  {
    hide Inv, Apply, Enabled;
    match e
    case InnerOwned(ok) => OwnedKeepsInv(s, ok);
    case BridgeStarts => BridgeKeepsInv(s, e);
    case BridgePublished => BridgeKeepsInv(s, e);
    case BridgeSends(_) => BridgeKeepsInv(s, e);
    case Claim(_) => CallerKeepsInv(s, e);
    case MarkCommitted => CallerKeepsInv(s, e);
    case Stage => CallerKeepsInv(s, e);
    case Cancel => CallerKeepsInv(s, e);
    case PublishSettles(_) => CallerKeepsInv(s, e);
    case RevokeSettles(_) => CallerKeepsInv(s, e);
    case _ => InnerKeepsInv(s, e);
  }

  lemma {:induction false} RunKeepsInv(s: Delivery, run: seq<Step>)
    requires Inv(s) && Legal(s, run)
    ensures Inv(Exec(s, run)) && Exec(s, run).commits == s.commits
    decreases |run|
  {
    hide Inv, Apply, Enabled;
    if run != [] {
      StepKeepsInv(s, run[0]);
      RunKeepsInv(Apply(s, run[0]), run[1..]);
    }
  }

  // ---- main results ----------------------------------------------------------------------------

  /**
   Over every interleaving: the client receives response.completed at most
   once and only after the alias was published; publish and revoke are each
   asked for at most once, publish never after revoke; an alias the client was
   told about is never revoked; and deliverInner returns only if the client
   received the event.
   */
  lemma {:induction false} CompletionFollowsPublication(commits: bool, run: seq<Step>)
    requires Legal(Initial(commits), run)
    ensures var s := Exec(Initial(commits), run);
      && s.received <= 1
      && (s.received == 1 ==> s.publishing.Fulfilled? && s.rpcs == [PublishCall])
      && (s.rpcs == [] || s.rpcs == [PublishCall] || s.rpcs == [RevokeCall] || s.rpcs == [PublishCall, RevokeCall])
      && (s.inner.Returned? ==> s.received == 1)
  {
    RunKeepsInv(Initial(commits), run);
  }

  /** With the commit-then-stage order a committed alias is never revoked, and cancelling still publishes it. */
  lemma {:induction false} CommittedAliasSurvives(run: seq<Step>)
    requires Legal(Initial(true), run)
    ensures var s := Exec(Initial(true), run);
      && RevokeCall !in s.rpcs
      && (s.staged ==> s.committed)
      && (s.staged && s.cancelled ==> s.rpcs == [PublishCall])
  {
    RunKeepsInv(Initial(true), run);
  }

  /** Without a commit, a cancellation that comes first leaves the staged alias revoked and the client untold. */
  lemma {:induction false} UncommittedAliasIsRevoked(run: seq<Step>)
    requires Legal(Initial(false), run)
    ensures var s := Exec(Initial(false), run);
      s.staged && s.cancelled ==> RevokeCall in s.rpcs && s.received == 0
  {
    RunKeepsInv(Initial(false), run);
  }

  /** A cancellation that finds the event undelivered keeps it undelivered for good. */
  lemma {:induction false} CancelledStaysUndelivered(s: Delivery, run: seq<Step>)
    requires Inv(s) && s.cancelled && Legal(s, run)
    ensures Exec(s, run).received == 0 && Exec(s, run).cancelled
    decreases |run|
  {
    if run != [] {
      StepKeepsInv(s, run[0]);
      CancelledStaysUndelivered(Apply(s, run[0]), run[1..]);
    }
  }

  // ---- the closure object itself -----------------------------------------------------------------

  class ResponsesTerminalDelivery {
    var ownerValue: Owner
    var hasAlias: bool
    var cancelled: bool
    var delivered: bool
    var committed: bool
    var deliveredPromise: Signal
    var publishPromise: Deferred
    var revokePromise: Deferred

    ghost var commits: bool
    ghost var rpcs: seq<Rpc>
    ghost var inner: Pc
    ghost var innerSent: bool
    ghost var bridge: Pc
    ghost var received: nat

    ghost function Now(): Delivery
      reads this
    {
      Delivery(commits, ownerValue, hasAlias, cancelled, delivered, committed, deliveredPromise, publishPromise,
               revokePromise, rpcs, inner, innerSent, bridge, received)
    }

    constructor (ghost commits: bool)
      ensures Now() == Initial(commits)
    {
      ownerValue, hasAlias, cancelled, delivered, committed := Unclaimed, false, false, false, false;
      deliveredPromise, publishPromise, revokePromise := Unresolved, NotStarted, NotStarted;
      this.commits, rpcs, inner, innerSent, bridge, received := commits, [], Idle, false, Idle, 0;
    }

    /** One owner wins; asking again for the same owner is answered alike. */
    method Claim(owner: Owner) returns (ok: bool)
      requires Inv(Now()) && Enabled(Now(), Step.Claim(owner))
      modifies this`ownerValue
      ensures Now() == Apply(old(Now()), Step.Claim(owner)) && Inv(Now())
      ensures ok <==> ownerValue == owner
    {
      StepKeepsInv(Now(), Step.Claim(owner));
      if !ownerValue.Unclaimed? {
        return ownerValue == owner;
      }
      ownerValue := owner;
      ok := true;
    }

    method ResolveDelivered(ok: bool)
      modifies this`deliveredPromise
      ensures Now() == Settle(old(Now()), ok)
    {
      if deliveredPromise.Unresolved? {
        deliveredPromise := Resolved(ok);
      }
    }

    method StartRevoke()
      modifies this`revokePromise, this`rpcs
      ensures Now() == Revoke(old(Now()))
    {
      if delivered || !hasAlias {
        return;
      }
      if revokePromise.NotStarted? {
        revokePromise := Pending;
        rpcs := rpcs + [RevokeCall];
      }
    }

    /** False when publish() throws instead of waiting. */
    method BeginPublish() returns (waits: bool)
      modifies this`publishPromise, this`rpcs
      ensures waits <==> !PublishRefused(old(Now()))
      ensures Now() == Publish(old(Now()))
    {
      if !hasAlias || (cancelled && !committed) {
        return false;
      }
      if publishPromise.NotStarted? {
        publishPromise := Pending;
        rpcs := rpcs + [PublishCall];
      }
      waits := true;
    }

    method FailDeliveryNow()
      modifies this`cancelled, this`deliveredPromise, this`publishPromise, this`revokePromise, this`rpcs
      ensures Now() == FailDelivery(old(Now()))
    {
      cancelled := true;
      ResolveDelivered(false);
      if committed {
        if hasAlias {
          var _ := BeginPublish();
        }
      } else {
        StartRevoke();
      }
    }

    method MarkCommitted()
      modifies this`committed, this`publishPromise, this`rpcs
      ensures Now() == Marked(old(Now()))
      ensures old(Inv(Now()) && Enabled(Now(), Step.MarkCommitted)) ==> Inv(Now())
    {
      if Inv(Now()) && Enabled(Now(), Step.MarkCommitted) {
        StepKeepsInv(Now(), Step.MarkCommitted);
      }
      committed := true;
      if cancelled && hasAlias {
        var _ := BeginPublish();
      }
    }

    method Stage()
      requires Inv(Now()) && Enabled(Now(), Step.Stage)
      modifies this`hasAlias, this`publishPromise, this`revokePromise, this`rpcs
      ensures Now() == Apply(old(Now()), Step.Stage) && Inv(Now())
    {
      StepKeepsInv(Now(), Step.Stage);
      hasAlias := true;
      if cancelled {
        if committed {
          var _ := BeginPublish();
        } else {
          StartRevoke();
        }
      }
    }

    method Cancel()
      requires Inv(Now())
      modifies this`cancelled, this`ownerValue, this`deliveredPromise, this`publishPromise, this`revokePromise, this`rpcs
      ensures Now() == Apply(old(Now()), Step.Cancel) && Inv(Now())
    {
      StepKeepsInv(Now(), Step.Cancel);
      if delivered {
        return;
      }
      cancelled := true;
      if ownerValue.Unclaimed? {
        ownerValue := Cancelled;
      }
      ResolveDelivered(false);
      if committed {
        if hasAlias {
          var _ := BeginPublish();
        }
      } else {
        StartRevoke();
      }
    }

    /** deliverInner once it knows its owner; `sendOk` is what the inner stream's send() answers. */
    method DeliverInner(sendOk: bool)
      requires Inv(Now()) && Enabled(Now(), InnerOwned(sendOk))
      modifies this
      ensures Now() == Apply(old(Now()), InnerOwned(sendOk)) && Inv(Now())
      ensures old(ownerValue.Direct? && hasAlias && !cancelled) ==> inner.AwaitPublish? && PublishCall in rpcs
      ensures old(ownerValue.Bridge?) && sendOk ==> inner.AwaitSignal? && innerSent
    {
      StepKeepsInv(Now(), InnerOwned(sendOk));
      if ownerValue.Cancelled? {
        inner := Threw;
      } else if ownerValue.Direct? {
        var waits := BeginPublish();
        inner := if waits then AwaitPublish else Threw;
      } else if sendOk {
        inner, innerSent := AwaitSignal, true;
      } else {
        FailDeliveryNow();
        inner := Threw;
      }
    }

    /** The send that follows a publish(): the client has the event, or the delivery failed. */
    method SendCompleted(sendOk: bool)
      modifies this
      ensures Now() == if sendOk then Delivered(old(Now())) else FailDelivery(old(Now()))
    {
      if sendOk {
        delivered := true;
        received := received + 1;
        ResolveDelivered(true);
      } else {
        FailDeliveryNow();
      }
    }

    /** deliverInner for a direct owner, once the alias is published. */
    method FinishInner(sendOk: bool)
      requires Inv(Now()) && Enabled(Now(), InnerSends(sendOk))
      modifies this
      ensures Now() == Apply(old(Now()), InnerSends(sendOk)) && Inv(Now())
    {
      StepKeepsInv(Now(), InnerSends(sendOk));
      SendCompleted(sendOk);
      inner := if sendOk then Returned else Threw;
    }

    /** deliverBridge, once the alias is published. */
    method FinishBridge(sendOk: bool)
      requires Inv(Now()) && Enabled(Now(), BridgeSends(sendOk))
      modifies this
      ensures Now() == Apply(old(Now()), BridgeSends(sendOk)) && Inv(Now())
    {
      StepKeepsInv(Now(), BridgeSends(sendOk));
      SendCompleted(sendOk);
      bridge := if sendOk then Returned else Threw;
    }
  }
}
