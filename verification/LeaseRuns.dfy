/** Every run of calls on one ChatSession object: stale leases are inert, and only committed coordinates are reused. */
module LeaseRuns {
  import opened Utf16
  import opened Utf8
  import opened PortableTurns
  import opened LeaseRow

  /** One call, with the clock it reads. Calls interleave only where supersedeActive waits for the runner. */
  datatype Step =
    | AcquireCall(now: nat)
    | BranchCall(now: nat, snapshot: Checkpoint, anchors: Text)
    | DiscardCall(lease: Lease)
    | SupersedeCall(now: nat, allowRunning: bool)
    | RunnerAnswers(probe: nat, running: bool)
    | MarkCall(now: nat, lease: Lease, account: Account, gate: nat, run: nat)
    | ClearCall(now: nat, lease: Lease, run: nat)
    | BindCall(now: nat, lease: Lease, account: Account)
    | SwitchCall(now: nat, lease: Lease, account: Account, next: Account)
    | RebindCall(now: nat, lease: Lease, account: Account, next: Account)
    | MergeCall(now: nat, lease: Lease, anchors: Text)
    | LockCall(now: nat, lease: Lease, account: Account)
    | CompleteCall(now: nat, lease: Lease, account: Account, pair: Pair, final: bool, update: Maybe, tail: Maybe, ledger: Maybe)
    | CheckpointCall(now: nat, lease: Lease, account: Account, anchors: Text, newTail: Text, newLedger: Text)
    | PromoteCall(now: nat, lease: Lease, account: Account, pair: Pair, newTail: Text)
    | ReleaseCall(now: nat, lease: Lease)
    | AbandonCall(now: nat, lease: Lease, mode: Mode, restore: Restore)
    | SeedCall(now: nat, expires: nat, pair: Pair, account: Account, snapshot: Checkpoint, anchors: Text)
    | Alarm(now: nat)
    | Deploy

  function Apply(s: State, w: World, step: Step): Result {
    match step
    case AcquireCall(now) => Acquire(s, w, now)
    case BranchCall(now, snapshot, anchors) => StartResponseBranch(s, w, now, snapshot, anchors)
    case DiscardCall(lease) => DiscardResponseBranch(s, lease)
    case SupersedeCall(now, allow) => SupersedeActive(s, w, now, allow)
    case RunnerAnswers(i, running) =>
      if running || i >= |s.probes| then Result(s, Quiet) else Superseded(s, w, s.probes[i])
    case MarkCall(now, lease, account, gate, run) => MarkUpstreamRun(s, now, lease, account, gate, run)
    case ClearCall(now, lease, run) => ClearUpstreamRun(s, now, lease, run)
    case BindCall(now, lease, account) => BindAccount(s, w, now, lease, account)
    case SwitchCall(now, lease, account, next) => SwitchUncommittedAccount(s, w, now, lease, account, next)
    case RebindCall(now, lease, account, next) => RebindCommittedAccount(s, w, now, lease, account, next)
    case MergeCall(now, lease, anchors) => MergeTaskAnchors(s, w, now, lease, anchors)
    case LockCall(now, lease, account) => MarkAccountLocked(s, now, lease, account)
    case CompleteCall(now, lease, account, pair, final, update, tail, ledger) =>
      Complete(s, w, now, lease, account, pair, final, update, tail, ledger)
    case CheckpointCall(now, lease, account, anchors, tail, ledger) => CompleteCheckpoint(s, w, now, lease, account, anchors, tail, ledger)
    case PromoteCall(now, lease, account, pair, tail) => ReplaceCompletedTail(s, w, now, lease, account, pair, tail)
    case ReleaseCall(now, lease) => Release(s, now, lease)
    case AbandonCall(now, lease, mode, restore) => AbandonTurn(s, w, now, lease, mode, restore)
    case SeedCall(now, expires, pair, account, snapshot, anchors) => SeedAlias(s, w, now, expires, pair, account, snapshot, anchors)
    case Alarm(now) => ExpireIfIdle(s, now)
    case Deploy => Result(Deployed(s), Quiet)
  }

  /** The lease id a call presents; 0 if it presents none. */
  function Presented(step: Step): Lease {
    match step
    case AcquireCall(_) => 0
    case BranchCall(_, _, _) => 0
    case SupersedeCall(_, _) => 0
    case RunnerAnswers(_, _) => 0
    case SeedCall(_, _, _, _, _, _) => 0
    case Alarm(_) => 0
    case Deploy => 0
    case _ => step.lease
  }

  predicate PresentsLease(step: Step) {
    && !step.AcquireCall? && !step.BranchCall? && !step.SupersedeCall? && !step.RunnerAnswers?
    && !step.SeedCall? && !step.Alarm? && !step.Deploy?
  }

  predicate IdBelow(id: Id, minted: nat) {
    id.Minted? ==> id.n < minted
  }

  predicate PairBelow(pair: Pair, minted: nat) {
    IdBelow(pair.conversation, minted) && IdBelow(pair.session, minted)
  }

  /** The empty column is no lease to present, and nobody names a random id before it is drawn. */
  predicate Enabled(s: State, step: Step) {
    && (PresentsLease(step) ==> Presented(step) != 0)
    && (step.CompleteCall? ==> PairBelow(step.pair, s.minted))
    && (step.SeedCall? ==> PairBelow(step.pair, s.minted))
  }

  predicate Legal(s: State, w: World, steps: seq<Step>)
    decreases |steps|
  {
    steps == [] || (Enabled(s, steps[0]) && Legal(Apply(s, w, steps[0]).state, w, steps[1..]))
  }

  function Exec(s: State, w: World, steps: seq<Step>): State
    decreases |steps|
  {
    if steps == [] then s else Exec(Apply(s, w, steps[0]).state, w, steps[1..])
  }

  const START := State(Empty, 0, 0, [], [])

  // ---- the invariant ----------------------------------------------------------------------

  datatype Last = Nothing | LastCommit(pair: Pair, account: Account)

  /** The last commit, unless something has detached the conversation since. */
  function LastOf(events: seq<Event>): Last {
    if events == [] then Nothing
    else
      match events[|events| - 1]
      case Leased(_, _, _, _) => LastOf(events[..|events| - 1])
      case Committed(pair, account) => LastCommit(pair, account)
      case Detached => Nothing
  }

  predicate Ids(s: State) {
    s.slot.Full? ==>
      && (s.slot.row.lease == 0 || s.slot.row.lease == s.issued)
      && (s.slot.row.completed == 0 || s.slot.row.completed == s.issued)
      && (s.slot.row.kind == Alias ==> s.slot.row.lease == 0 && s.slot.row.completed == 0)
  }

  predicate Reusable(s: State) {
    s.slot.Full? && s.slot.row.kind != Alias && s.slot.row.committed ==>
      s.slot.row.account != 0 && LastOf(s.events) == LastCommit(s.slot.row.pair, s.slot.row.account)
  }

  predicate Mentions(event: Event, pair: Pair) {
    (event.Leased? || event.Committed?) && event.pair == pair
  }

  /** A started lease names the last commit; any other names a pair never seen before. */
  predicate HonestLease(events: seq<Event>, k: nat)
    requires k < |events|
  {
    events[k].Leased? ==>
      if events[k].started then LastOf(events[..k]) == LastCommit(events[k].pair, events[k].account)
      else forall i :: 0 <= i < k ==> !Mentions(events[i], events[k].pair)
  }

  predicate Honest(events: seq<Event>) {
    forall k :: 0 <= k < |events| ==> HonestLease(events, k)
  }

  predicate EventBelow(event: Event, minted: nat) {
    event.Leased? || event.Committed? ==> PairBelow(event.pair, minted)
  }

  predicate Known(s: State) {
    && (s.slot.Full? ==> PairBelow(s.slot.row.pair, s.minted))
    && (forall k :: 0 <= k < |s.events| ==> EventBelow(s.events[k], s.minted))
  }

  /** The anchor codec settles after one pass, and the column default is already settled. */
  ghost predicate Settles(w: World) {
    && (forall a :: w.normalAnchors(w.normalAnchors(a)) == w.normalAnchors(a))
    && w.normalAnchors(Ascii("[]")) == Ascii("[]")
  }

  ghost predicate InBudget(s: State, w: World) {
    s.slot.Full? ==> WithinBudget(s.slot.row.portable) && w.normalAnchors(s.slot.row.portable.anchors) == s.slot.row.portable.anchors
  }

  ghost predicate Inv(s: State, w: World) {
    Ids(s) && Reusable(s) && Honest(s.events) && Known(s) && InBudget(s, w)
  }

  // ---- events -----------------------------------------------------------------------------

  lemma {:induction false} LastAfter(events: seq<Event>, event: Event)
    ensures LastOf(events + [event])
         == match event
            case Leased(_, _, _, _) => LastOf(events)
            case Committed(pair, account) => LastCommit(pair, account)
            case Detached => Nothing
  {
    assert (events + [event])[..|events|] == events;
  }

  lemma {:induction false} HonestAfter(events: seq<Event>, event: Event)
    requires Honest(events)
    requires event.Leased? && event.started ==> LastOf(events) == LastCommit(event.pair, event.account)
    requires event.Leased? && !event.started ==> forall i :: 0 <= i < |events| ==> !Mentions(events[i], event.pair)
    ensures Honest(events + [event])
  {
    hide LastOf;
    var more := events + [event];
    forall k | 0 <= k < |more|
      ensures HonestLease(more, k)
    {
      if k < |events| {
        assert HonestLease(events, k);
        assert more[..k] == events[..k];
      } else {
        assert more[..k] == events;
      }
    }
  }

  lemma {:induction false} NewPairIsNew(s: State, event: Event)
    requires Known(s) && event in s.events
    ensures !Mentions(event, NewPair(s))
  {
  }

  lemma {:induction false} BoundKeeps(w: World, pair: Pair, account: Account, pending: Pending, anchors: Text, tail: Text)
    requires Settles(w) && Bound(w, pair, account, pending, anchors, tail).Kept?
    ensures var p := Bound(w, pair, account, pending, anchors, tail).portable;
            WithinBudget(p) && w.normalAnchors(p.anchors) == p.anchors && p.anchors == w.normalAnchors(anchors)
  {
    hide WithinBudget, BoundPortable, Utf8Bytes;
    PortableIsBounded(w.fields(pair, account, pending).n, w.normalAnchors(anchors), tail, w.grammar);
  }

  lemma {:induction false} DefaultsInBudget(w: World)
    requires Settles(w)
    ensures WithinBudget(EmptyPortable()) && w.normalAnchors(EmptyPortable().anchors) == EmptyPortable().anchors
  {
    hide Utf8Bytes;
    AsciiBytes(Ascii("[]"));
    PortableTail.NoBytes();
  }

  /** Dropping the tail, or replacing it by one bounded beside the same anchors, stays in budget. */
  lemma {:induction false} TailDropped(p: Portable)
    requires WithinBudget(p)
    ensures WithinBudget(Portable.Portable(p.anchors, []))
  {
    hide Utf8Bytes;
    PortableTail.NoBytes();
  }

  // ---- kinds of change ----------------------------------------------------------------------

  /** A change of one row that touches neither its coordinates nor what they are worth. */
  predicate IsMinor(before: Row, after: Row) {
    && after.pair == before.pair && after.committed == before.committed && after.kind == before.kind
    && (before.committed ==> after.account == before.account)
    && (after.lease == 0 || after.lease == before.lease) && after.completed == before.completed
  }

  ghost predicate RowInBudget(row: Row, w: World) {
    WithinBudget(row.portable) && w.normalAnchors(row.portable.anchors) == row.portable.anchors
  }

  lemma {:induction false} MinorKeeps(s: State, w: World, after: Row)
    requires Inv(s, w) && s.slot.Full? && IsMinor(s.slot.row, after) && RowInBudget(after, w)
    ensures Inv(Stored(s, after), w)
  {
    hide LastOf, Honest, WithinBudget;
  }

  lemma {:induction false} EmptyKeeps(s: State, w: World)
    requires Inv(s, w)
    ensures Inv(s.(slot := Empty), w)
  {
    hide LastOf, Honest, WithinBudget;
  }

  /** Losing the coordinates, with or without a row left; two ids may have been drawn. */
  lemma {:induction false} DetachKeeps(s: State, w: World, minted: nat, slot: Slot)
    requires Inv(s, w) && s.minted <= minted
    requires slot.Full? ==> s.slot.Full? && !slot.row.committed && slot.row.kind == s.slot.row.kind && RowInBudget(slot.row, w)
    requires slot.Full? ==> PairBelow(slot.row.pair, minted)
    requires slot.Full? ==> slot.row.lease in {0, s.slot.row.lease} && slot.row.completed in {0, s.slot.row.lease, s.slot.row.completed}
    ensures Inv(s.(minted := minted, slot := slot, events := s.events + [Detached]), w)
  {
    hide LastOf, WithinBudget, Honest, PairBelow;
    HonestAfter(s.events, Detached);
    PairsStayBelow(s, minted);
  }

  lemma {:induction false} PairsStayBelow(s: State, minted: nat)
    requires Known(s) && s.minted <= minted
    ensures Known(s.(minted := minted))
  {
  }

  lemma {:induction false} LeaseKeeps(s: State, w: World, row: Row)
    requires Inv(s, w) && RowInBudget(row, w)
    requires row.lease == s.issued + 1 && row.completed == 0 && row.kind != Alias
    requires row.committed ==> s.slot.Full? && s.slot.row.committed && s.slot.row.kind != Alias
    requires row.committed ==> row.pair == s.slot.row.pair && row.account == s.slot.row.account
    requires !row.committed ==> row.pair == NewPair(s)
    ensures Inv(Noted(Stored(s.(minted := s.minted + 2, issued := row.lease), row),
                      Leased(row.lease, row.pair, row.account, row.committed)), w)
  {
    hide LastOf, WithinBudget, Honest;
    var event := Leased(row.lease, row.pair, row.account, row.committed);
    if !row.committed {
      forall i | 0 <= i < |s.events|
        ensures !Mentions(s.events[i], row.pair)
      {
        NewPairIsNew(s, s.events[i]);
      }
    }
    HonestAfter(s.events, event);
    LastAfter(s.events, event);
    PairsStayBelow(s, s.minted + 2);
  }

  lemma {:induction false} CommitKeeps(s: State, w: World, row: Row)
    requires Inv(s, w) && s.slot.Full? && RowInBudget(row, w)
    requires s.slot.row.lease != 0 && row.lease == 0 && row.completed == s.slot.row.lease && row.kind == s.slot.row.kind
    requires row.account != 0 && PairBelow(row.pair, s.minted)
    ensures Inv(Noted(Stored(s, row), Committed(row.pair, row.account)), w)
  {
    hide LastOf, WithinBudget, Honest, PairBelow;
    HonestAfter(s.events, Committed(row.pair, row.account));
    LastAfter(s.events, Committed(row.pair, row.account));
  }

  // ---- the calls ----------------------------------------------------------------------------

  lemma {:induction false} PreparedKeeps(s: State, w: World, now: nat)
    requires Inv(s, w)
    ensures Inv(Prepared(s, now), w)
    ensures Prepared(s, now).slot.Full? ==> s.slot.Full? && Prepared(s, now).slot.row.kind == s.slot.row.kind
  {
    hide LastOf, WithinBudget, Honest, Inv, Expiry;
    if s.slot.Full? {
      if Expiry(s.slot.row) <= now {
        EmptyKeeps(s, w);
      } else if !s.slot.row.current {
        assert RowInBudget(s.slot.row, w) by { RowOf(s, w); }
        DetachKeeps(s, w, s.minted + 2, Prepared(s, now).slot);
      }
    }
  }

  lemma {:induction false} RowOf(s: State, w: World)
    requires Inv(s, w) && s.slot.Full?
    ensures RowInBudget(s.slot.row, w) && PairBelow(s.slot.row.pair, s.minted)
    ensures s.slot.row.lease in {0, s.issued} && s.slot.row.completed in {0, s.issued}
    ensures s.slot.row.kind == Alias ==> s.slot.row.lease == 0 && s.slot.row.completed == 0
    ensures s.slot.row.committed && s.slot.row.kind != Alias ==> s.slot.row.account != 0
  {
    hide LastOf, WithinBudget, Honest;
  }

  lemma {:induction false} LeasingKeeps(s: State, w: World, now: nat)
    requires Settles(w) && Inv(s, w) && (s.slot.Full? ==> s.slot.row.kind != Alias)
    ensures Inv(Leasing(s, w, now).state, w)
  {
    hide LastOf, WithinBudget, Honest, Inv, Bound, EmptyPortable;
    DefaultsInBudget(w);
    if s.slot.Full? {
      var row := s.slot.row;
      if Bound(w, row.pair, row.account, row.pending, row.portable.anchors, row.portable.tail).Kept? {
        BoundKeeps(w, row.pair, row.account, row.pending, row.portable.anchors, row.portable.tail);
      }
    }
    var after := Leasing(s, w, now).state;
    if Leasing(s, w, now).reply.Granted? {
      LeaseKeeps(s, w, after.slot.row);
    }
  }

  lemma {:induction false} AcquireKeeps(s: State, w: World, now: nat)
    requires Settles(w) && Inv(s, w)
    ensures Inv(Acquire(s, w, now).state, w)
  {
    hide Inv, Prepared, Leasing;
    PreparedKeeps(s, w, now);
    if !(s.slot.Full? && s.slot.row.kind == Alias) {
      LeasingKeeps(Prepared(s, now), w, now);
    }
  }

  lemma {:induction false} BranchKeeps(s: State, w: World, now: nat, snapshot: Checkpoint, anchors: Text)
    requires Settles(w) && Inv(s, w)
    ensures Inv(StartResponseBranch(s, w, now, snapshot, anchors).state, w)
  {
    hide LastOf, WithinBudget, Honest, Inv, Bound, Expiry;
    var cleared := s.(slot := Empty);
    EmptyKeeps(s, w);
    var result := StartResponseBranch(s, w, now, snapshot, anchors);
    if result.reply.Granted? {
      BoundKeeps(w, NewPair(s), 0, snapshot.pending, anchors, snapshot.tail);
      LeaseKeeps(cleared, w, result.state.slot.row);
    }
  }

  lemma {:induction false} SupersededKeeps(s: State, w: World, probe: Probe)
    requires Settles(w) && Inv(s, w) && probe.row.lease != 0
    ensures Inv(Superseded(s, w, probe).state, w)
  {
    hide LastOf, WithinBudget, Honest, Inv, Bound;
    var result := Superseded(s, w, probe);
    if result.reply.Granted? {
      RowOf(s, w);
      var row := result.state.slot.row;
      var detached := s.(events := s.events + [Detached], slot := Full(s.slot.row.(committed := false)));
      DetachKeeps(s, w, s.minted, detached.slot);
      LeaseKeeps(detached, w, row);
    }
  }

  lemma {:induction false} BindKeeps(s: State, w: World, now: nat, lease: Lease, account: Account)
    requires Settles(w) && Inv(s, w) && lease != 0
    ensures Inv(BindAccount(s, w, now, lease, account).state, w)
  {
    hide LastOf, WithinBudget, Honest, Inv, Bound;
    var result := BindAccount(s, w, now, lease, account);
    if result.reply.Granted? {
      var row := s.slot.row;
      RowOf(s, w);
      BoundKeeps(w, row.pair, account, row.pending, row.portable.anchors, row.portable.tail);
      MinorKeeps(s, w, result.state.slot.row);
    }
  }

  lemma {:induction false} SwitchKeeps(s: State, w: World, now: nat, lease: Lease, account: Account, next: Account)
    requires Settles(w) && Inv(s, w)
    ensures Inv(SwitchUncommittedAccount(s, w, now, lease, account, next).state, w)
  {
    hide LastOf, WithinBudget, Honest, Bound, RowInBudget;
    var result := SwitchUncommittedAccount(s, w, now, lease, account, next);
    if result.reply.Granted? {
      var row := s.slot.row;
      BoundKeeps(w, NewPair(s), next, row.pending, row.portable.anchors, row.portable.tail);
      PairsStayBelow(s, s.minted + 2);
    }
  }

  lemma {:induction false} RebindKeeps(s: State, w: World, now: nat, lease: Lease, account: Account, next: Account)
    requires Settles(w) && Inv(s, w)
    ensures Inv(RebindCommittedAccount(s, w, now, lease, account, next).state, w)
  {
    hide LastOf, WithinBudget, Honest, Inv, Bound;
    var result := RebindCommittedAccount(s, w, now, lease, account, next);
    if result.reply.Granted? {
      var row := s.slot.row;
      BoundKeeps(w, NewPair(s), next, row.pending, row.portable.anchors, row.portable.tail);
      DetachKeeps(s, w, s.minted + 2, result.state.slot);
    }
  }

  lemma {:induction false} MergeKeeps(s: State, w: World, now: nat, lease: Lease, anchors: Text)
    requires Settles(w) && Inv(s, w)
    ensures Inv(MergeTaskAnchors(s, w, now, lease, anchors).state, w)
  {
    hide LastOf, WithinBudget, Honest, Inv, Bound;
    var result := MergeTaskAnchors(s, w, now, lease, anchors);
    if result.reply.Done? {
      var row := s.slot.row;
      BoundKeeps(w, row.pair, row.account, row.pending, w.mergedAnchors(row.portable.anchors, anchors), row.portable.tail);
      MinorKeeps(s, w, result.state.slot.row);
    }
  }

  lemma {:induction false} CompleteKeeps(
      s: State, w: World, now: nat, lease: Lease, account: Account, pair: Pair, final: bool, update: Maybe, tail: Maybe, ledger: Maybe)
    requires Settles(w) && Inv(s, w) && lease != 0 && PairBelow(pair, s.minted)
    ensures Inv(Complete(s, w, now, lease, account, pair, final, update, tail, ledger).state, w)
  {
    hide LastOf, WithinBudget, Honest, Inv, Bound, PairBelow;
    var result := Complete(s, w, now, lease, account, pair, final, update, tail, ledger);
    if result.reply.Done? {
      var row := s.slot.row;
      var pending := EmptyPending().(ledger := if final && ledger.Present? then ledger.text else row.pending.ledger);
      var merged := if update.Absent? then row.portable.anchors else w.mergedAnchors(row.portable.anchors, update.text);
      BoundKeeps(w, pair, row.account, pending, merged, if final then tail.text else row.portable.tail);
      CommitKeeps(s, w, result.state.slot.row);
    }
  }

  lemma {:induction false} CheckpointKeeps(
      s: State, w: World, now: nat, lease: Lease, account: Account, anchors: Text, tail: Text, ledger: Text)
    requires Settles(w) && Inv(s, w)
    ensures Inv(CompleteCheckpoint(s, w, now, lease, account, anchors, tail, ledger).state, w)
  {
    hide LastOf, WithinBudget, Honest, Inv, Bound;
    var result := CompleteCheckpoint(s, w, now, lease, account, anchors, tail, ledger);
    if result.reply.Done? {
      var row := s.slot.row;
      BoundKeeps(w, NewPair(s), row.account, EmptyPending().(ledger := ledger), w.mergedAnchors(row.portable.anchors, anchors), tail);
      DetachKeeps(s, w, s.minted + 2, result.state.slot);
    }
  }

  lemma {:induction false} PromoteKeeps(s: State, w: World, now: nat, lease: Lease, account: Account, pair: Pair, tail: Text)
    requires Settles(w) && Inv(s, w)
    ensures Inv(ReplaceCompletedTail(s, w, now, lease, account, pair, tail).state, w)
  {
    hide LastOf, WithinBudget, Honest, Inv, Bound;
    var result := ReplaceCompletedTail(s, w, now, lease, account, pair, tail);
    if result.reply.Done? {
      var row := s.slot.row;
      RowOf(s, w);
      BoundKeeps(w, row.pair, row.account, row.pending, row.portable.anchors, tail);
      MinorKeeps(s, w, result.state.slot.row);
    }
  }

  lemma {:induction false} AbandonKeeps(s: State, w: World, now: nat, lease: Lease, mode: Mode, restore: Restore)
    requires Settles(w) && Inv(s, w)
    ensures Inv(AbandonTurn(s, w, now, lease, mode, restore).state, w)
  {
    hide LastOf, WithinBudget, Honest, Inv, Bound;
    var result := AbandonTurn(s, w, now, lease, mode, restore);
    if result.reply.Done? {
      var row := s.slot.row;
      RowOf(s, w);
      TailDropped(row.portable);
      if restore.From? {
        BoundKeeps(w, if mode == Tombstone then NewPair(s) else row.pair, row.account, restore.checkpoint.pending,
                   row.portable.anchors, restore.checkpoint.tail);
      }
      DetachKeeps(s, w, s.minted + 2, result.state.slot);
    }
  }

  lemma {:induction false} SeedKeeps(
      s: State, w: World, now: nat, expires: nat, pair: Pair, account: Account, snapshot: Checkpoint, anchors: Text)
    requires Settles(w) && Inv(s, w) && PairBelow(pair, s.minted)
    ensures Inv(SeedAlias(s, w, now, expires, pair, account, snapshot, anchors).state, w)
  {
    hide LastOf, WithinBudget, Honest, Bound, PairBelow;
    if SeedAlias(s, w, now, expires, pair, account, snapshot, anchors).reply.Done? {
      BoundKeeps(w, pair, account, snapshot.pending, anchors, snapshot.tail);
    }
  }

  lemma {:induction false} SmallCallsKeep(s: State, w: World, step: Step)
    requires Inv(s, w)
    requires step.MarkCall? || step.ClearCall? || step.LockCall? || step.ReleaseCall? || step.DiscardCall? || step.Alarm?
    ensures Inv(Apply(s, w, step).state, w)
  {
    hide LastOf, WithinBudget, Honest, Inv, Expiry;
    if s.slot.Full? {
      RowOf(s, w);
      EmptyKeeps(s, w);
      var after := Apply(s, w, step).state;
      if after.slot.Full? {
        MinorKeeps(s, w, after.slot.row);
      }
    }
  }

  lemma {:induction false} DeployKeeps(s: State, w: World)
    requires Inv(s, w)
    ensures Inv(Deployed(s), w)
  {
    hide LastOf, Honest, WithinBudget;
  }

  // ---- every run ----------------------------------------------------------------------------

  predicate ProbesHeld(s: State) {
    forall p :: p in s.probes ==> p.row.lease != 0
  }

  ghost predicate Safe(s: State, w: World) {
    Inv(s, w) && ProbesHeld(s)
  }

  lemma {:induction false} ProbesKept(s: State, w: World, step: Step)
    requires ProbesHeld(s)
    ensures ProbesHeld(Apply(s, w, step).state)
  {
    hide Bound, Expiry, EmptyPending, EmptyPortable;
    if !step.SupersedeCall? && !step.Deploy? {
      assert Apply(s, w, step).state.probes == s.probes;
    }
  }

  lemma {:induction false} SupersedeKeeps(s: State, w: World, step: Step)
    requires Settles(w) && Safe(s, w) && (step.SupersedeCall? || step.RunnerAnswers?)
    ensures Inv(Apply(s, w, step).state, w)
  {
    hide Inv, Superseded;
    match step
    case SupersedeCall(now, allow) =>
      if s.slot.Full? && s.slot.row.lease != 0 {
        SupersededKeeps(s, w, Probe(s.slot.row, now));
        assert Inv(s.(probes := s.probes + [Probe(s.slot.row, now)]), w) by { InvIgnoresProbes(s, w, now); }
      }
    case RunnerAnswers(i, running) =>
      if !running && i < |s.probes| {
        SupersededKeeps(s, w, s.probes[i]);
      }
  }

  lemma {:induction false} InvIgnoresProbes(s: State, w: World, now: nat)
    requires Inv(s, w) && s.slot.Full?
    ensures Inv(s.(probes := s.probes + [Probe(s.slot.row, now)]), w)
  {
    hide LastOf, WithinBudget, Honest;
  }

  lemma {:induction false} StepKeepsInv(s: State, w: World, step: Step)
    requires Settles(w) && Safe(s, w) && Enabled(s, step)
    ensures Safe(Apply(s, w, step).state, w)
  {
    hide Inv, ProbesHeld, PairBelow, Settles;
    ProbesKept(s, w, step);
    match step
    case AcquireCall(now) => AcquireKeeps(s, w, now);
    case BranchCall(now, snapshot, anchors) => BranchKeeps(s, w, now, snapshot, anchors);
    case SupersedeCall(_, _) => SupersedeKeeps(s, w, step);
    case RunnerAnswers(_, _) => SupersedeKeeps(s, w, step);
    case BindCall(now, lease, account) => BindKeeps(s, w, now, lease, account);
    case SwitchCall(now, lease, account, next) => SwitchKeeps(s, w, now, lease, account, next);
    case RebindCall(now, lease, account, next) => RebindKeeps(s, w, now, lease, account, next);
    case MergeCall(now, lease, anchors) => MergeKeeps(s, w, now, lease, anchors);
    case CompleteCall(now, lease, account, pair, final, update, tail, ledger) =>
      CompleteKeeps(s, w, now, lease, account, pair, final, update, tail, ledger);
    case CheckpointCall(now, lease, account, anchors, tail, ledger) =>
      CheckpointKeeps(s, w, now, lease, account, anchors, tail, ledger);
    case PromoteCall(now, lease, account, pair, tail) => PromoteKeeps(s, w, now, lease, account, pair, tail);
    case AbandonCall(now, lease, mode, restore) => AbandonKeeps(s, w, now, lease, mode, restore);
    case SeedCall(now, expires, pair, account, snapshot, anchors) => SeedKeeps(s, w, now, expires, pair, account, snapshot, anchors);
    case Deploy => DeployKeeps(s, w);
    case _ => SmallCallsKeep(s, w, step);
  }

  lemma {:induction false} RunKeepsInv(s: State, w: World, steps: seq<Step>)
    requires Settles(w) && Safe(s, w) && Legal(s, w, steps)
    ensures Safe(Exec(s, w, steps), w)
    decreases |steps|
  {
    hide Safe, Enabled, Apply, Settles;
    if steps != [] {
      StepKeepsInv(s, w, steps[0]);
      RunKeepsInv(Apply(s, w, steps[0]).state, w, steps[1..]);
    }
  }

  lemma {:induction false} StartIsSafe(w: World)
    ensures Safe(START, w)
  {
  }

  // ---- stale leases ---------------------------------------------------------------------------

  /** Once a newer lease has been issued, no call that presents an older one changes anything. */
  lemma {:induction false} StaleLeaseIsInert(s: State, w: World, step: Step)
    requires Ids(s) && PresentsLease(step) && 0 < Presented(step) < s.issued
    ensures Apply(s, w, step).state == s && !Apply(s, w, step).reply.Granted? && !Apply(s, w, step).reply.Done?
  {
    hide Bound, Expiry, EmptyPending, EmptyPortable, NewPair;
  }

  lemma {:induction false} StaleLeasesAreInert(w: World, steps: seq<Step>, step: Step)
    requires Settles(w) && Legal(START, w, steps) && PresentsLease(step)
    requires 0 < Presented(step) < Exec(START, w, steps).issued
    ensures Apply(Exec(START, w, steps), w, step).state == Exec(START, w, steps)
  {
    hide Apply, Legal, Exec, Settles;
    StartIsSafe(w);
    RunKeepsInv(START, w, steps);
    StaleLeaseIsInert(Exec(START, w, steps), w, step);
  }

  // ---- late cancellation ------------------------------------------------------------------------

  /** No call brings back a lease that the row no longer holds. */
  lemma {:induction false} NotHeldStep(s: State, w: World, step: Step, lease: Lease)
    requires 0 < lease <= s.issued && !IsHeldBy(s, lease)
    ensures lease <= Apply(s, w, step).state.issued && !IsHeldBy(Apply(s, w, step).state, lease)
  {
    hide Bound, Expiry, EmptyPending, EmptyPortable, NewPair;
  }

  lemma {:induction false} NotHeldRun(s: State, w: World, steps: seq<Step>, lease: Lease)
    requires 0 < lease <= s.issued && !IsHeldBy(s, lease)
    ensures !IsHeldBy(Exec(s, w, steps), lease)
    decreases |steps|
  {
    hide Apply, IsHeldBy;
    if steps != [] {
      NotHeldStep(s, w, steps[0], lease);
      NotHeldRun(Apply(s, w, steps[0]).state, w, steps[1..], lease);
    }
  }

  /** After a final or checkpoint commit, abandonIfActive for that lease is without effect for ever. */
  lemma {:induction false} LateCancelKeepsResult(s: State, w: World, commit: Step, later: seq<Step>, now: nat, restore: Restore)
    requires (commit.CompleteCall? || commit.CheckpointCall?) && Apply(s, w, commit).reply.Done?
    requires 0 < commit.lease <= s.issued
    ensures var reached := Exec(Apply(s, w, commit).state, w, later);
            AbandonTurn(reached, w, now, commit.lease, ActiveOnly, restore) == Result(reached, Quiet)
  {
    hide Exec, Bound, EmptyPending, NewPair;
    NotHeldRun(Apply(s, w, commit).state, w, later, commit.lease);
  }

  // ---- reuse of upstream coordinates --------------------------------------------------------------

  /** The last commit of a history: a commit that only leases have followed. */
  lemma {:induction false} LastCommitMeans(events: seq<Event>, pair: Pair, account: Account)
    ensures LastOf(events) == LastCommit(pair, account)
       <==> exists i :: 0 <= i < |events| && events[i] == Committed(pair, account)
                     && forall j :: i < j < |events| ==> events[j].Leased?
    decreases |events|
  {
    if events != [] && events[|events| - 1].Leased? {
      var front := events[..|events| - 1];
      LastCommitMeans(front, pair, account);
      if LastOf(front) == LastCommit(pair, account) {
        var i :| 0 <= i < |front| && front[i] == Committed(pair, account) && forall j :: i < j < |front| ==> front[j].Leased?;
        assert events[i] == Committed(pair, account) && forall j :: i < j < |events| ==> events[j].Leased?;
      }
      if i :| 0 <= i < |events| && events[i] == Committed(pair, account) && forall j :: i < j < |events| ==> events[j].Leased? {
        assert front[i] == Committed(pair, account) && forall j :: i < j < |front| ==> front[j].Leased?;
      }
    }
  }

  /**
   In every run, a lease on used coordinates names exactly the pair and account
   of an earlier commit that nothing but leases has followed; every other lease
   comes with a pair that was never committed or leased before.
   */
  lemma {:induction false} OnlyCommittedCoordinatesAreReused(w: World, steps: seq<Step>, k: nat)
    requires Settles(w) && Legal(START, w, steps)
    requires k < |Exec(START, w, steps).events| && Exec(START, w, steps).events[k].Leased?
    ensures var events := Exec(START, w, steps).events;
            var (pair, account) := (events[k].pair, events[k].account);
            if events[k].started then
              exists i :: 0 <= i < k && events[i] == Committed(pair, account) && forall j :: i < j < k ==> events[j].Leased?
            else
              forall i :: 0 <= i < k ==> !Mentions(events[i], pair)
  {
    hide Apply, Legal, Exec, Settles, LastOf;
    StartIsSafe(w);
    RunKeepsInv(START, w, steps);
    var events := Exec(START, w, steps).events;
    assert HonestLease(events, k);
    var front := events[..k];
    if events[k].started {
      LastCommitMeans(front, events[k].pair, events[k].account);
      var i :| 0 <= i < |front| && front[i] == Committed(events[k].pair, events[k].account)
            && forall j :: i < j < |front| ==> front[j].Leased?;
      assert events[i] == front[i] && forall j :: i < j < k ==> events[j] == front[j];
    }
  }

  /** The persisted anchors and tail of every reachable row stay within 64 KiB. */
  lemma {:induction false} PersistedPortableIsBounded(w: World, steps: seq<Step>)
    requires Settles(w) && Legal(START, w, steps) && Exec(START, w, steps).slot.Full?
    ensures WithinBudget(Exec(START, w, steps).slot.row.portable)
  {
    hide Apply, Legal, Exec, Settles, WithinBudget;
    StartIsSafe(w);
    RunKeepsInv(START, w, steps);
  }

  /** What fitted once fits again, unchanged. */
  lemma {:induction false} BoundTwice(w: World, pair: Pair, account: Account, pending: Pending, anchors: Text, tail: Text)
    requires Settles(w) && Bound(w, pair, account, pending, anchors, tail).Kept?
    ensures var p := Bound(w, pair, account, pending, anchors, tail).portable;
            Bound(w, pair, account, pending, p.anchors, p.tail) == Kept(p)
  {
    hide Utf8Bytes, BoundedSuffix;
    var budget := PortableBudget(w.fields(pair, account, pending).n) - Utf8Bytes(w.normalAnchors(anchors));
    SuffixSettles(tail, budget, w.grammar);
  }

  lemma {:induction false} SuffixSettles(value: Text, maxBytes: int, g: Grammar)
    ensures BoundedSuffix(BoundedSuffix(value, maxBytes, g), maxBytes, g) == BoundedSuffix(value, maxBytes, g)
  {
    hide Utf8Bytes, Framed, CompleteTurns, Split, PortableTail.Utf8Suffix;
    SuffixFits(value, maxBytes, g);
  }

  /** The other direction: the next acquire after a commit continues exactly the committed pair on its account. */
  lemma {:induction false} CommitIsContinued(s: State, w: World, commit: Step, now: nat)
    requires Settles(w) && commit.CompleteCall? && Apply(s, w, commit).reply.Done?
    requires s.slot.row.kind != Alias && s.slot.row.current && Expiry(Apply(s, w, commit).state.slot.row) > now
    ensures var after := Apply(s, w, commit).state;
            Acquire(after, w, now).reply
            == Granted(s.issued + 1, commit.pair, commit.account, true, true, after.slot.row.pending, after.slot.row.portable)
  {
    hide Bound, Expiry, EmptyPending, EmptyPortable, Settles;
    var row := s.slot.row;
    var pending := EmptyPending().(ledger := if commit.final && commit.ledger.Present? then commit.ledger.text else row.pending.ledger);
    var merged := if commit.update.Absent? then row.portable.anchors else w.mergedAnchors(row.portable.anchors, commit.update.text);
    BoundTwice(w, commit.pair, row.account, pending, merged, if commit.final then commit.tail.text else row.portable.tail);
  }

  // ---- protocol rollover --------------------------------------------------------------------

  /** A deployment ends reuse: the next lease is on coordinates never seen before, whatever was committed. */
  lemma {:induction false} DeploymentEndsReuse(s: State, w: World, now: nat)
    requires Inv(s, w) && Acquire(Deployed(s), w, now).reply.Granted?
    ensures var reply := Acquire(Deployed(s), w, now).reply;
            !reply.started && forall e :: e in s.events ==> !Mentions(e, reply.pair)
  {
    hide Bound, Expiry, EmptyPending, EmptyPortable, Honest, LastOf, InBudget;
    var reply := Acquire(Deployed(s), w, now).reply;
    forall e | e in s.events
      ensures !Mentions(e, reply.pair)
    {
      var k :| 0 <= k < |s.events| && s.events[k] == e;
      assert EventBelow(s.events[k], s.minted);
    }
  }

  lemma {:induction false} EmptyPortableFits(w: World, pair: Pair, account: Account, pending: Pending)
    requires w.fields(pair, account, pending) == Bytes(0) && w.normalAnchors(Ascii("[]")) == Ascii("[]")
    ensures Bound(w, pair, account, pending, Ascii("[]"), []) == Kept(EmptyPortable())
  {
    hide Utf8Bytes;
    AsciiBytes(Ascii("[]"));
  }

  /** A session commits a pair, new code goes live, and the session is acquired again. */
  function RolloverRun(pair: Pair): seq<Step> {
    [AcquireCall(0), BindCall(0, 1, 7), CompleteCall(0, 1, 7, pair, false, Absent, Absent, Absent), Deploy, AcquireCall(1)]
  }

  /** The rollover does happen: a legal run commits a pair, and the lease after the deployment is on another one, on the same account. */
  lemma {:induction false} RolloverHappens(w: World)
    requires Settles(w) && forall p: Pair, a: Account, q: Pending :: w.fields(p, a, q) == Bytes(0)
    ensures var pair := Pair.Pair(Given(1), Given(2));
            var fresher := Pair.Pair(Minted(4), Minted(5));
            && Legal(START, w, RolloverRun(pair))
            && Exec(START, w, RolloverRun(pair)).events
               == [Leased(1, NewPair(START), 0, false), Committed(pair, 7), Detached, Leased(2, fresher, 7, false)]
  {
    hide Bound, Legal, Exec;
    var pair := Pair.Pair(Given(1), Given(2));
    var run := RolloverRun(pair);
    var pending := EmptyPending();
    var s1 := Apply(START, w, run[0]).state;
    EmptyPortableFits(w, NewPair(START), 7, pending);
    var s2 := Apply(s1, w, run[1]).state;
    EmptyPortableFits(w, pair, 7, pending);
    var s3 := Apply(s2, w, run[2]).state;
    var s4 := Apply(s3, w, run[3]).state;
    EmptyPortableFits(w, NewPair(s4), 7, pending);
    var s5 := Apply(s4, w, run[4]).state;
    hide Apply;
    ExecFive(START, w, run, s1, s2, s3, s4, s5);
  }

  lemma {:induction false} ExecFive(s: State, w: World, run: seq<Step>, s1: State, s2: State, s3: State, s4: State, s5: State)
    requires |run| == 5 && Enabled(s, run[0]) && Enabled(s1, run[1]) && Enabled(s2, run[2]) && Enabled(s3, run[3]) && Enabled(s4, run[4])
    requires s1 == Apply(s, w, run[0]).state && s2 == Apply(s1, w, run[1]).state && s3 == Apply(s2, w, run[2]).state
    requires s4 == Apply(s3, w, run[3]).state && s5 == Apply(s4, w, run[4]).state
    ensures Legal(s, w, run) && Exec(s, w, run) == s5
  {
    hide Apply, Enabled;
    var r1, r2, r3, r4, r5 := run[1..], run[1..][1..], run[1..][1..][1..], run[1..][1..][1..][1..], run[1..][1..][1..][1..][1..];
    assert r5 == [];
    assert Legal(s5, w, r5) && Exec(s5, w, r5) == s5;
    assert Legal(s4, w, r4) && Exec(s4, w, r4) == s5;
    assert Legal(s3, w, r3) && Exec(s3, w, r3) == s5;
    assert Legal(s2, w, r2) && Exec(s2, w, r2) == s5;
    assert Legal(s1, w, r1) && Exec(s1, w, r1) == s5;
  }

  /** While a lease runs, no other turn gets in: acquire and a new branch are refused and change nothing. */
  lemma {:induction false} RunningLeaseExcludes(s: State, w: World, step: Step)
    requires (step.AcquireCall? || step.BranchCall?) && s.slot.Full? && s.slot.row.until > step.now
    ensures Apply(s, w, step) == Result(s, Refused)
  {
    hide Bound, Expiry, Prepared, Leasing;
  }

  /** A lease that is handed out by acquire, a branch or a supersession is the newest, and its caller holds the row. */
  lemma {:induction false} NewLeaseHoldsRow(s: State, w: World, step: Step)
    requires !PresentsLease(step) && Apply(s, w, step).reply.Granted?
    ensures var after := Apply(s, w, step).state;
            && Apply(s, w, step).reply.lease == after.issued == s.issued + 1
            && IsHeldBy(after, after.issued)
            && after.slot.row.until > 0
            && after.slot.row.pair == Apply(s, w, step).reply.pair && after.slot.row.account == Apply(s, w, step).reply.account
  {
    hide Bound, Expiry, EmptyPending, EmptyPortable, NewPair, Prepared;
    if step.AcquireCall? {
      PreparedIssuesNone(s, step.now);
    }
  }

  lemma {:induction false} PreparedIssuesNone(s: State, now: nat)
    ensures Prepared(s, now).issued == s.issued
  {
  }

  // ---- what single calls promise ------------------------------------------------------------------

  /** Calls of the lease holder; discarding, promoting and buffered abandonment speak of a completed lease as well. */
  predicate NeedsHolder(step: Step) {
    PresentsLease(step) && !step.DiscardCall? && !step.PromoteCall? && (step.AbandonCall? ==> step.mode == ActiveOnly)
  }

  /** A call whose lease does not hold the row changes nothing and hands out nothing. */
  lemma {:induction false} OnlyHolderActs(s: State, w: World, step: Step)
    requires NeedsHolder(step) && !IsHeldBy(s, Presented(step))
    ensures Apply(s, w, step).state == s && !Apply(s, w, step).reply.Granted? && !Apply(s, w, step).reply.Done?
  {
    hide Bound, Expiry, EmptyPending, EmptyPortable, NewPair;
  }

  /** A granted lease is the newest, holds the row, and names the last commit if it continues and an unseen pair if not. */
  predicate IsHonestGrant(before: State, after: State, reply: Reply) {
    reply.Granted? ==>
      && reply.lease == after.issued == before.issued + 1 && IsHeldBy(after, reply.lease)
      && (reply.started ==> LastOf(before.events) == LastCommit(reply.pair, reply.account))
      && (!reply.started ==> forall e :: e in before.events ==> !Mentions(e, reply.pair))
  }

  lemma {:induction false} NewPairIsUnseen(s: State)
    requires Known(s)
    ensures forall e :: e in s.events ==> !Mentions(e, NewPair(s))
  {
    forall e | e in s.events
      ensures !Mentions(e, NewPair(s))
    {
      NewPairIsNew(s, e);
    }
  }

  lemma {:induction false} LeasingIsHonest(s: State, w: World, now: nat)
    requires Inv(s, w) && (s.slot.Full? ==> s.slot.row.kind != Alias)
    ensures IsHonestGrant(s, Leasing(s, w, now).state, Leasing(s, w, now).reply)
  {
    hide LastOf, Honest, InBudget, Bound, EmptyPortable, EmptyPending, NewPair, Mentions;
    NewPairIsUnseen(s);
  }

  lemma {:induction false} AcquireIsHonest(s: State, w: World, now: nat)
    requires Safe(s, w)
    ensures IsHonestGrant(s, Acquire(s, w, now).state, Acquire(s, w, now).reply)
  {
    hide Inv, Leasing, Mentions, LastOf;
    PreparedKeeps(s, w, now);
    if !(s.slot.Full? && s.slot.row.kind == Alias) {
      var ready := Prepared(s, now);
      LeasingIsHonest(ready, w, now);
      PreparedIssuesNone(s, now);
      if ready.events != s.events {
        assert ready.events == s.events + [Detached];
        LastAfter(s.events, Detached);
      }
    }
  }

  lemma {:induction false} BranchIsHonest(s: State, w: World, now: nat, snapshot: Checkpoint, anchors: Text)
    requires Safe(s, w)
    ensures var r := StartResponseBranch(s, w, now, snapshot, anchors); IsHonestGrant(s, r.state, r.reply)
  {
    hide LastOf, Honest, InBudget, Bound, Expiry, NewPair, Mentions;
    NewPairIsUnseen(s);
  }

  lemma {:induction false} SupersedeIsHonest(s: State, w: World, probe: Probe)
    requires Inv(s, w)
    ensures var r := Superseded(s, w, probe); IsHonestGrant(s, r.state, r.reply)
  {
    hide LastOf, Honest, InBudget, Bound, NewPair, Mentions;
    NewPairIsUnseen(s);
  }

  /** Calls that take the upstream coordinates away from the conversation. */
  predicate Detaches(step: Step) {
    step.CheckpointCall? || step.RebindCall? || step.AbandonCall?
  }

  ghost predicate Succeeds(s: State, w: World, step: Step) {
    Apply(s, w, step).reply.Done? || Apply(s, w, step).reply.Granted?
  }

  /** After a commit the history's last commit is this one and the lease is over; after a detaching call there is none. */
  lemma {:induction false} EndingsAreNoted(s: State, w: World, step: Step)
    requires Succeeds(s, w, step)
    ensures step.CompleteCall? ==> LastOf(Apply(s, w, step).state.events) == LastCommit(step.pair, step.account)
    ensures Detaches(step) ==> LastOf(Apply(s, w, step).state.events) == Nothing
    ensures (step.CompleteCall? || step.CheckpointCall? || step.AbandonCall? || step.ReleaseCall?) && step.lease != 0 ==>
              !IsHeldBy(Apply(s, w, step).state, step.lease)
  {
    hide LastOf, Bound, Expiry, EmptyPending, EmptyPortable, NewPair;
    LastAfter(s.events, Detached);
    if step.CompleteCall? {
      LastAfter(s.events, Committed(step.pair, step.account));
    }
  }

  // ---- inside a call --------------------------------------------------------------------------------

  lemma {:induction false} DeletionIsSafe(s: State, w: World)
    requires Safe(s, w)
    ensures Safe(s.(slot := Empty), w)
  {
    hide Inv;
    EmptyKeeps(s, w);
  }

  lemma {:induction false} PreparationIsSafe(s: State, w: World, now: nat)
    requires Safe(s, w)
    ensures Safe(Prepared(s, now), w)
  {
    hide Inv, Expiry;
    PreparedKeeps(s, w, now);
  }

  lemma {:induction false} LeasingIsSafe(s: State, w: World, now: nat)
    requires Settles(w) && Safe(s, w) && (s.slot.Full? ==> s.slot.row.kind != Alias)
    ensures var r := Leasing(s, w, now); Safe(r.state, w) && IsHonestGrant(s, r.state, r.reply)
  {
    hide Inv, Settles, Bound, EmptyPortable, EmptyPending, IsHonestGrant;
    LeasingKeeps(s, w, now);
    LeasingIsHonest(s, w, now);
  }

  lemma {:induction false} SupersessionIsSafe(s: State, w: World, probe: Probe)
    requires Settles(w) && Safe(s, w) && probe.row.lease != 0
    ensures var r := Superseded(s, w, probe); Safe(r.state, w) && IsHonestGrant(s, r.state, r.reply)
  {
    hide Inv, Settles, Bound, IsHonestGrant;
    SupersededKeeps(s, w, probe);
    SupersedeIsHonest(s, w, probe);
  }
}
