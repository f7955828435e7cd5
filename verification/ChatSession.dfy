/** class ChatSession (src/chat-session.ts): its methods on the singleton row of the state table, each keeping the lease invariant. */
module ChatSessionObject {
  import opened Utf16
  import opened PortableTurns
  import opened LeaseRow
  import opened LeaseRuns
  import opened LeaseOutcomes

  class ChatSession {
    const world: World
    /** The state table: empty, or its one row. */
    var slot: Slot
    /** crypto.randomUUID draws: coordinates and leases are numbered apart. */
    var minted: nat
    var issued: nat
    /** supersedeActive calls that wait for a runner. */
    var probes: seq<Probe>
    ghost var events: seq<Event>

    ghost function Now(): State
      reads this
    {
      State(slot, minted, issued, probes, events)
    }

    /** What holds after every run of calls holds of this object: leases, reuse of coordinates, row budget. */
    ghost predicate Valid()
      reads this
    {
      Settles(world) && Safe(Now(), world)
    }

    constructor (world: World)
      requires Settles(world)
      ensures Valid() && Now() == START && this.world == world
    {
      this.world := world;
      slot, minted, issued, probes, events := Empty, 0, 0, [], [];
      new;
      StartIsSafe(world);
    }

    /** The object comes up over a row that an earlier one has left behind. */
    constructor Over(world: World, stored: State)
      requires Settles(world) && Safe(stored, world)
      ensures Valid() && Now() == stored && this.world == world
    {
      this.world := world;
      slot, minted, issued, probes, events := stored.slot, stored.minted, stored.issued, stored.probes, stored.events;
    }

    /** SELECT ... WHERE lease_id=? */
    predicate IsLeasedTo(lease: Lease)
      reads this
    {
      slot.Full? && slot.row.lease == lease
    }

    method MintPair() returns (pair: Pair)
      modifies this`minted
      ensures pair == NewPair(old(Now())) && minted == old(minted) + 2
    {
      pair := Pair.Pair(Minted(minted), Minted(minted + 1));
      minted := minted + 2;
    }

    method MintLease() returns (lease: Lease)
      modifies this`issued
      ensures lease == issued == old(issued) + 1
    {
      issued := issued + 1;
      lease := issued;
    }

    /** acquireInternal: after a deletion or a rollover it starts over. */
    method AcquireLease(now: nat) returns (reply: Reply)
      requires Valid()
      modifies this
      ensures Valid()
      ensures Result(Now(), reply) == Acquire(old(Now()), world, now)
      ensures IsHonestGrant(old(Now()), Now(), reply)
      decreases if slot.Empty? then 0 else if slot.row.current then 1 else 2
    {
      hide Bound, EmptyPending, EmptyPortable, Leasing, Safe, Settles, LastOf, Mentions, PairBelow;
      StepKeepsInv(Now(), world, AcquireCall(now));
      AcquireIsHonest(Now(), world, now);
      if slot.Full? && slot.row.until > now {
        return Refused;
      }
      if slot.Full? && slot.row.kind == Alias {
        return Refused;
      }
      if slot.Full? && Expiry(slot.row) <= now {
        DeletionIsSafe(Now(), world);
        slot := Empty;
        reply := AcquireLease(now);
        return;
      }
      PreparationIsSafe(Now(), world, now);
      if slot.Full? && !slot.row.current {
        var pair := MintPair();
        slot := Full(slot.row.(pair := pair, committed := false, completed := 0, lease := 0, until := 0, run := NoRun,
                               current := true, updated := now));
        events := events + [Detached];
        reply := AcquireLease(now);
        return;
      }
      reply := GrantLease(now);
    }

    /** The row is fit for leasing: it continues its committed coordinates, or starts on fresh ones. */
    method GrantLease(now: nat) returns (reply: Reply)
      requires Valid() && (slot.Full? ==> slot.row.kind != Alias)
      modifies this
      ensures Valid()
      ensures Result(Now(), reply) == Leasing(old(Now()), world, now)
      ensures IsHonestGrant(old(Now()), Now(), reply)
      ensures reply.Granted? ==> reply.started == old(slot.Full? && slot.row.committed)
    {
      hide Bound, EmptyPending, EmptyPortable, Safe, Settles, LastOf, Mentions;
      LeasingIsSafe(Now(), world, now);
      var bounded := Kept(EmptyPortable());
      if slot.Full? {
        bounded := Bound(world, slot.row.pair, slot.row.account, slot.row.pending, slot.row.portable.anchors, slot.row.portable.tail);
      }
      if bounded.StateTooLarge? {
        return Refused;
      }
      var continueCommitted := slot.Full? && slot.row.committed;
      var fresher := MintPair();
      var row := if slot.Full? then slot.row else BlankRow(fresher);
      var pair := if continueCommitted then row.pair else fresher;
      var account := if continueCommitted || row.locked then row.account else 0;
      var lease := MintLease();
      slot := Full(row.(pair := pair, account := account, lease := lease, until := now + CHAT_LEASE_MS, completed := 0,
                        run := NoRun, updated := now, portable := bounded.portable));
      events := events + [Leased(lease, pair, account, continueCommitted)];
      reply := Granted(lease, pair, account, row.locked, continueCommitted, row.pending, bounded.portable);
    }

    method StartBranch(now: nat, snapshot: Checkpoint, anchors: Text) returns (reply: Reply)
      requires Valid()
      modifies this
      ensures Valid()
      ensures Result(Now(), reply) == StartResponseBranch(old(Now()), world, now, snapshot, anchors)
      ensures IsHonestGrant(old(Now()), Now(), reply)
    {
      hide Bound, Expiry, Safe, Settles, LastOf, Mentions, PairBelow;
      StepKeepsInv(Now(), world, BranchCall(now, snapshot, anchors));
      BranchIsHonest(Now(), world, now, snapshot, anchors);
      if slot.Full? {
        if slot.row.until > now || Expiry(slot.row) > now {
          return Refused;
        }
        slot := Empty;
      }
      var bounded := Bound(world, Pair.Pair(Minted(minted), Minted(minted + 1)), 0, snapshot.pending, anchors, snapshot.tail);
      if bounded.StateTooLarge? {
        return Refused;
      }
      var pair := MintPair();
      var lease := MintLease();
      slot := Full(Row(pair, 0, false, lease, now + CHAT_LEASE_MS, false, 0, Work, 0, true, NoRun, now, snapshot.pending, bounded.portable));
      events := events + [Leased(lease, pair, 0, false)];
      reply := Granted(lease, pair, 0, false, false, snapshot.pending, bounded.portable);
    }

    method DiscardBranch(completed: Lease) returns (reply: Reply)
      requires Valid()
      requires completed != 0
      modifies this`slot
      ensures Valid()
      ensures Result(Now(), reply) == DiscardResponseBranch(old(Now()), completed)
      ensures reply.Done? ==> slot.Empty? && old(slot.Full? && slot.row.kind == Work && slot.row.completed == completed)
      ensures !reply.Done? ==> Now() == old(Now())
    {
      hide Bound, Safe, Settles, LastOf, Mentions, PairBelow;
      StepKeepsInv(Now(), world, DiscardCall(completed));
      if slot.Full? && slot.row.kind == Work && slot.row.lease == 0 && slot.row.completed == completed {
        slot := Empty;
        return Done;
      }
      return Refused;
    }

    method Supersede(now: nat, allowRunning: bool) returns (reply: Reply)
      requires Valid()
      modifies this
      ensures Valid()
      ensures Result(Now(), reply) == SupersedeActive(old(Now()), world, now, allowRunning)
      ensures IsHonestGrant(old(Now()), Now(), reply)
    {
      hide Superseded, Bound, Safe, Settles, LastOf, Mentions, PairBelow;
      StepKeepsInv(Now(), world, SupersedeCall(now, allowRunning));
      if !(slot.Full? && slot.row.lease != 0 && slot.row.until > now) {
        return Quiet;
      }
      if slot.row.run.Running? && !allowRunning {
        probes := probes + [Probe(slot.row, now)];
        return Quiet;
      }
      reply := FinishSupersede(Probe(slot.row, now));
    }

    /** The conditional UPDATE: the row must still be under the lease that was read. */
    method FinishSupersede(probe: Probe) returns (reply: Reply)
      requires Valid() && probe.row.lease != 0
      modifies this
      ensures Valid()
      ensures Result(Now(), reply) == Superseded(old(Now()), world, probe)
      ensures IsHonestGrant(old(Now()), Now(), reply)
      ensures reply.Granted? ==> !reply.started && old(IsLeasedTo(probe.row.lease))
    {
      hide Bound, Safe, Settles, LastOf, Mentions;
      SupersessionIsSafe(Now(), world, probe);
      var seen := probe.row;
      var account := if seen.locked then seen.account else 0;
      var bounded := Bound(world, Pair.Pair(Minted(minted), Minted(minted + 1)), account, seen.pending, seen.portable.anchors, seen.portable.tail);
      if bounded.StateTooLarge? {
        return Refused;
      }
      if !IsLeasedTo(seen.lease) || slot.row.until <= probe.at {
        return Quiet;
      }
      var pair := MintPair();
      var lease := MintLease();
      slot := Full(slot.row.(pair := pair, account := account, lease := lease, until := probe.at + CHAT_LEASE_MS, completed := 0,
                             committed := false, run := NoRun, current := true, updated := probe.at));
      events := events + [Detached] + [Leased(lease, pair, account, false)];
      reply := Granted(lease, pair, account, seen.locked, false, seen.pending, bounded.portable);
    }

    method MarkRun(now: nat, lease: Lease, account: Account, gate: nat, id: nat) returns (reply: Reply)
      requires Valid()
      requires lease != 0
      modifies this`slot
      ensures Valid()
      ensures Result(Now(), reply) == MarkUpstreamRun(old(Now()), now, lease, account, gate, id)
      ensures !old(IsLeasedTo(lease)) ==> Now() == old(Now())
      ensures reply.Done? ==> IsLeasedTo(lease) && slot.row.account == account && slot.row.run == Running(account, gate, id)
    {
      hide Bound, Safe, Settles, LastOf, Mentions, PairBelow;
      ghost var call := MarkCall(now, lease, account, gate, id);
      StepKeepsInv(Now(), world, call);
      if !IsLeasedTo(lease) {
        OnlyHolderActs(Now(), world, call);
      }
      if !IsLeasedTo(lease) || slot.row.account != account {
        return Refused;
      }
      slot := Full(slot.row.(run := Running(account, gate, id), updated := now));
      return Done;
    }

    method ClearRun(now: nat, lease: Lease, id: nat) returns (reply: Reply)
      requires Valid()
      requires lease != 0
      modifies this`slot
      ensures Valid()
      ensures Result(Now(), reply) == ClearUpstreamRun(old(Now()), now, lease, id)
      ensures !old(IsLeasedTo(lease)) ==> Now() == old(Now())
      ensures reply.Done? ==> IsLeasedTo(lease) && slot.row.run.NoRun?
    {
      hide Bound, Safe, Settles, LastOf, Mentions, PairBelow;
      ghost var call := ClearCall(now, lease, id);
      StepKeepsInv(Now(), world, call);
      if !IsLeasedTo(lease) {
        OnlyHolderActs(Now(), world, call);
      }
      if !IsLeasedTo(lease) || slot.row.run.NoRun? || slot.row.run.run != id {
        return Quiet;
      }
      slot := Full(slot.row.(run := NoRun, updated := now));
      return Done;
    }

    method Bind(now: nat, lease: Lease, id: Account) returns (reply: Reply)
      requires Valid()
      requires lease != 0
      modifies this`slot
      ensures Valid()
      ensures Result(Now(), reply) == BindAccount(old(Now()), world, now, lease, id)
      ensures !old(IsLeasedTo(lease)) ==> Now() == old(Now())
      ensures reply.Granted? ==> old(IsLeasedTo(lease)) && IsLeasedTo(lease) && slot.row.account == id && slot.row.pair == old(slot.row.pair)
    {
      hide Bound, Safe, Settles, LastOf, Mentions, PairBelow;
      ghost var call := BindCall(now, lease, id);
      StepKeepsInv(Now(), world, call);
      if !IsLeasedTo(lease) {
        OnlyHolderActs(Now(), world, call);
      }
      if id == 0 || !IsLeasedTo(lease) || (slot.row.account != 0 && slot.row.account != id) {
        return Refused;
      }
      var row := slot.row;
      var bounded := Bound(world, row.pair, id, row.pending, row.portable.anchors, row.portable.tail);
      if bounded.StateTooLarge? {
        return Refused;
      }
      slot := Full(row.(account := id, portable := bounded.portable, updated := now));
      return Granted(lease, row.pair, id, row.locked, row.committed, row.pending, bounded.portable);
    }

    method SwitchAccount(now: nat, lease: Lease, expected: Account, next: Account) returns (reply: Reply)
      requires Valid()
      requires lease != 0
      modifies this
      ensures Valid()
      ensures Result(Now(), reply) == SwitchUncommittedAccount(old(Now()), world, now, lease, expected, next)
      ensures !old(IsLeasedTo(lease)) ==> Now() == old(Now())
      ensures reply.Granted? ==> old(IsLeasedTo(lease) && !slot.row.committed && !slot.row.locked) && slot.Full? && slot.row.account == next
    {
      hide Bound, Safe, Settles, LastOf, Mentions, PairBelow;
      ghost var call := SwitchCall(now, lease, expected, next);
      StepKeepsInv(Now(), world, call);
      if !IsLeasedTo(lease) {
        OnlyHolderActs(Now(), world, call);
      }
      if next == 0 || !IsLeasedTo(lease) || slot.row.account != expected || slot.row.committed || slot.row.locked {
        return Refused;
      }
      var row := slot.row;
      var bounded := Bound(world, Pair.Pair(Minted(minted), Minted(minted + 1)), next, row.pending, row.portable.anchors, row.portable.tail);
      if bounded.StateTooLarge? {
        return Refused;
      }
      var pair := MintPair();
      slot := Full(row.(pair := pair, account := next, portable := bounded.portable, updated := now));
      return Granted(lease, pair, next, false, false, row.pending, bounded.portable);
    }

    method RebindAccount(now: nat, lease: Lease, expected: Account, next: Account) returns (reply: Reply)
      requires Valid()
      requires lease != 0
      modifies this
      ensures Valid()
      ensures Result(Now(), reply) == RebindCommittedAccount(old(Now()), world, now, lease, expected, next)
      ensures !old(IsLeasedTo(lease)) ==> Now() == old(Now())
      ensures reply.Granted? ==> LastOf(events) == Nothing
      ensures reply.Granted? ==> old(IsLeasedTo(lease) && slot.row.locked) && slot.Full? && slot.row.account == next && !slot.row.committed
    {
      hide Bound, Safe, Settles, LastOf, Mentions, PairBelow;
      ghost var call := RebindCall(now, lease, expected, next);
      StepKeepsInv(Now(), world, call);
      if !IsLeasedTo(lease) {
        OnlyHolderActs(Now(), world, call);
      }
      if Succeeds(Now(), world, call) {
        EndingsAreNoted(Now(), world, call);
      }
      if expected == 0 || next == 0 || expected == next {
        return Refused;
      }
      if !IsLeasedTo(lease) || slot.row.account != expected || !slot.row.locked || slot.row.portable.tail == [] {
        return Refused;
      }
      var row := slot.row;
      var bounded := Bound(world, Pair.Pair(Minted(minted), Minted(minted + 1)), next, row.pending, row.portable.anchors, row.portable.tail);
      if bounded.StateTooLarge? {
        return Refused;
      }
      var pair := MintPair();
      slot := Full(row.(pair := pair, account := next, committed := false, locked := false, completed := 0,
                        portable := bounded.portable, updated := now));
      events := events + [Detached];
      return Granted(lease, pair, next, false, false, row.pending, bounded.portable);
    }

    method MergeAnchors(now: nat, lease: Lease, anchors: Text) returns (reply: Reply)
      requires Valid()
      requires lease != 0
      modifies this`slot
      ensures Valid()
      ensures Result(Now(), reply) == MergeTaskAnchors(old(Now()), world, now, lease, anchors)
      ensures !old(IsLeasedTo(lease)) ==> Now() == old(Now())
      ensures reply.Done? ==> old(IsLeasedTo(lease)) && IsLeasedTo(lease) && slot.row.pair == old(slot.row.pair) && events == old(events)
      ensures reply.Done? ==>
        && slot.row.pending == old(slot.row.pending)
        && RowKeeps(world, slot.row, world.mergedAnchors(old(slot.row.portable.anchors), anchors), old(slot.row.portable.tail))
    {
      hide Bound, Safe, Settles, LastOf, Mentions, PairBelow, Keeps;
      ghost var call := MergeCall(now, lease, anchors);
      StepKeepsInv(Now(), world, call);
      if Succeeds(Now(), world, call) {
        EndingStores(Now(), world, call);
      }
      if !IsLeasedTo(lease) {
        OnlyHolderActs(Now(), world, call);
      }
      if !IsLeasedTo(lease) {
        return Refused;
      }
      var row := slot.row;
      var bounded := Bound(world, row.pair, row.account, row.pending, world.mergedAnchors(row.portable.anchors, anchors), row.portable.tail);
      if bounded.StateTooLarge? {
        return Refused;
      }
      slot := Full(row.(portable := bounded.portable, updated := now));
      return Done;
    }

    method LockAccount(now: nat, lease: Lease, account: Account) returns (reply: Reply)
      requires Valid()
      requires lease != 0
      modifies this`slot
      ensures Valid()
      ensures Result(Now(), reply) == MarkAccountLocked(old(Now()), now, lease, account)
      ensures !old(IsLeasedTo(lease)) ==> Now() == old(Now())
      ensures reply.Done? ==> IsLeasedTo(lease) && slot.row.account == account && slot.row.locked
    {
      hide Bound, Safe, Settles, LastOf, Mentions, PairBelow;
      ghost var call := LockCall(now, lease, account);
      StepKeepsInv(Now(), world, call);
      if !IsLeasedTo(lease) {
        OnlyHolderActs(Now(), world, call);
      }
      if !IsLeasedTo(lease) || slot.row.account != account {
        return Refused;
      }
      slot := Full(slot.row.(locked := true, updated := now));
      return Done;
    }

    method CommitCompleted(
        now: nat, lease: Lease, account: Account, upstream: Pair, persistFinalTail: bool, anchors: Maybe, tail: Maybe, ledger: Maybe)
      returns (reply: Reply)
      requires Valid()
      requires lease != 0
      requires PairBelow(upstream, minted)
      modifies this
      ensures Valid()
      ensures Result(Now(), reply) == Complete(old(Now()), world, now, lease, account, upstream, persistFinalTail, anchors, tail, ledger)
      ensures !old(IsLeasedTo(lease)) ==> Now() == old(Now())
      ensures reply.Done? ==> LastOf(events) == LastCommit(upstream, account) && !IsLeasedTo(lease)
      ensures reply.Done? ==>
        && (persistFinalTail ==> tail.Present?)
        && old(slot.Full?) && slot.Full?
        && slot.row.pending == Pending([], [], [], if persistFinalTail && ledger.Present? then ledger.text else old(slot.row.pending.ledger))
        && RowKeeps(world, slot.row,
                    if anchors.Present? then world.mergedAnchors(old(slot.row.portable.anchors), anchors.text) else old(slot.row.portable.anchors),
                    if persistFinalTail then tail.text else old(slot.row.portable.tail))
    {
      hide Bound, Safe, Settles, LastOf, Mentions, PairBelow, Keeps;
      ghost var call := CompleteCall(now, lease, account, upstream, persistFinalTail, anchors, tail, ledger);
      StepKeepsInv(Now(), world, call);
      if !IsLeasedTo(lease) {
        OnlyHolderActs(Now(), world, call);
      }
      if Succeeds(Now(), world, call) {
        EndingsAreNoted(Now(), world, call);
        CommitStores(Now(), world, call);
      }
      if !IsLeasedTo(lease) || account == 0 || slot.row.account != account || (persistFinalTail && tail.Absent?) {
        return Refused;
      }
      var row := slot.row;
      var merged := if anchors.Absent? then row.portable.anchors else world.mergedAnchors(row.portable.anchors, anchors.text);
      var pending := EmptyPending().(ledger := if persistFinalTail && ledger.Present? then ledger.text else row.pending.ledger);
      var bounded := Bound(world, upstream, row.account, pending, merged, if persistFinalTail then tail.text else row.portable.tail);
      if bounded.StateTooLarge? {
        return Refused;
      }
      slot := Full(row.(pair := upstream, lease := 0, until := 0, completed := lease, pending := pending, run := NoRun,
                        portable := bounded.portable, committed := true, locked := true, updated := now));
      events := events + [Committed(upstream, account)];
      return Done;
    }

    method CommitCheckpoint(now: nat, lease: Lease, account: Account, anchors: Text, tail: Text, ledger: Text)
      returns (reply: Reply)
      requires Valid()
      requires lease != 0
      modifies this
      ensures Valid()
      ensures Result(Now(), reply) == CompleteCheckpoint(old(Now()), world, now, lease, account, anchors, tail, ledger)
      ensures !old(IsLeasedTo(lease)) ==> Now() == old(Now())
      ensures reply.Done? ==> LastOf(events) == Nothing && !IsLeasedTo(lease)
      ensures reply.Done? ==>
        && old(slot.Full?) && slot.Full? && slot.row.pending == Pending([], [], [], ledger)
        && RowKeeps(world, slot.row, world.mergedAnchors(old(slot.row.portable.anchors), anchors), tail)
    {
      hide Bound, Safe, Settles, LastOf, Mentions, PairBelow, Keeps;
      ghost var call := CheckpointCall(now, lease, account, anchors, tail, ledger);
      StepKeepsInv(Now(), world, call);
      if !IsLeasedTo(lease) {
        OnlyHolderActs(Now(), world, call);
      }
      if Succeeds(Now(), world, call) {
        EndingsAreNoted(Now(), world, call);
        CommitStores(Now(), world, call);
      }
      if !IsLeasedTo(lease) || account == 0 || slot.row.account != account {
        return Refused;
      }
      var row := slot.row;
      var pending := EmptyPending().(ledger := ledger);
      var bounded :=
        Bound(world, Pair.Pair(Minted(minted), Minted(minted + 1)), row.account, pending, world.mergedAnchors(row.portable.anchors, anchors), tail);
      if bounded.StateTooLarge? {
        return Refused;
      }
      var pair := MintPair();
      slot := Full(row.(pair := pair, lease := 0, until := 0, completed := lease, pending := pending, run := NoRun,
                        portable := bounded.portable, committed := false, locked := true, updated := now));
      events := events + [Detached];
      return Done;
    }

    method PromoteTail(now: nat, completed: Lease, account: Account, pair: Pair, tail: Text) returns (reply: Reply)
      requires Valid()
      requires completed != 0
      modifies this`slot
      ensures Valid()
      ensures Result(Now(), reply) == ReplaceCompletedTail(old(Now()), world, now, completed, account, pair, tail)
      ensures events == old(events) && issued == old(issued)
      ensures reply.Done? ==> old(slot.Full? && slot.row.committed && slot.row.pair == pair && slot.row.account == account)
      ensures reply.Done? ==>
        && slot.Full? && slot.row.pending == old(slot.row.pending) && slot.row.portable.anchors == old(slot.row.portable.anchors)
        && Keeps(world, pair, account, slot.row.pending,
                 slot.row.portable.(anchors := world.normalAnchors(slot.row.portable.anchors)), slot.row.portable.anchors, tail)
    {
      hide Bound, Safe, Settles, LastOf, Mentions, PairBelow, Keeps;
      ghost var call := PromoteCall(now, completed, account, pair, tail);
      StepKeepsInv(Now(), world, call);
      if Succeeds(Now(), world, call) {
        EndingStores(Now(), world, call);
      }
      if !IsLeasedTo(0) || slot.row.completed != completed || slot.row.account != account || slot.row.pair != pair || !slot.row.committed {
        return Refused;
      }
      var row := slot.row;
      var bounded := Bound(world, row.pair, row.account, row.pending, row.portable.anchors, tail);
      if bounded.StateTooLarge? {
        return Refused;
      }
      slot := Full(row.(portable := row.portable.(tail := bounded.portable.tail), updated := now));
      return Done;
    }

    method ReleaseLease(now: nat, lease: Lease) returns (reply: Reply)
      requires Valid()
      requires lease != 0
      modifies this`slot
      ensures Valid()
      ensures Result(Now(), reply) == Release(old(Now()), now, lease)
      ensures !old(IsLeasedTo(lease)) ==> Now() == old(Now())
      ensures !IsLeasedTo(lease) && events == old(events)
    {
      hide Bound, Safe, Settles, LastOf, Mentions, PairBelow;
      ghost var call := ReleaseCall(now, lease);
      StepKeepsInv(Now(), world, call);
      if !IsLeasedTo(lease) {
        OnlyHolderActs(Now(), world, call);
      }
      if Succeeds(Now(), world, call) {
        EndingsAreNoted(Now(), world, call);
      }
      if !IsLeasedTo(lease) {
        return Quiet;
      }
      slot := Full(slot.row.(lease := 0, until := 0, run := NoRun, updated := now));
      if slot.row.kind == Work {
        slot := Empty;
      }
      return Done;
    }

    method Abandon(now: nat, lease: Lease, mode: Mode, restore: Restore) returns (reply: Reply)
      requires Valid()
      requires lease != 0
      modifies this
      ensures Valid()
      ensures Result(Now(), reply) == AbandonTurn(old(Now()), world, now, lease, mode, restore)
      ensures mode == ActiveOnly && !old(IsLeasedTo(lease)) ==> Now() == old(Now())
      ensures reply.Done? ==> LastOf(events) == Nothing && !IsLeasedTo(lease)
      ensures reply.Done? && slot.Full? ==>
        && old(slot.Full?) && slot.row.account == old(slot.row.account)
        && slot.row.locked == (mode == Tombstone || old(slot.row.locked))
        && (if mode == Tombstone then IsDrawn(slot.row.pair, old(Now())) else slot.row.pair == old(slot.row.pair))
        && (if restore.From?
            then
              && slot.row.pending == restore.checkpoint.pending
              && RowKeeps(world, slot.row, old(slot.row.portable.anchors), restore.checkpoint.tail)
            else
              && slot.row.pending == Pending([], [], [], Ascii("[]"))
              && slot.row.portable == Portable.Portable(old(slot.row.portable.anchors), []))
    {
      hide Bound, Safe, Settles, LastOf, Mentions, PairBelow, Keeps;
      ghost var call := AbandonCall(now, lease, mode, restore);
      StepKeepsInv(Now(), world, call);
      if !IsLeasedTo(lease) && mode == ActiveOnly {
        OnlyHolderActs(Now(), world, call);
      }
      if Succeeds(Now(), world, call) {
        EndingsAreNoted(Now(), world, call);
        if Survives(Now(), world, call) {
          EndingStores(Now(), world, call);
        }
      }
      if !IsLeasedTo(lease) && (mode == ActiveOnly || !IsLeasedTo(0) || slot.row.completed != lease) {
        return Quiet;
      }
      var row := slot.row;
      var pair := if mode == Tombstone then Pair.Pair(Minted(minted), Minted(minted + 1)) else row.pair;
      var pending, portable := EmptyPending(), row.portable.(tail := []);
      if restore.From? {
        pending := restore.checkpoint.pending;
        var bounded := Bound(world, pair, row.account, pending, row.portable.anchors, restore.checkpoint.tail);
        if bounded.StateTooLarge? {
          return Refused;
        }
        portable := bounded.portable;
      }
      minted := minted + 2;
      slot := Full(row.(pair := pair, locked := mode == Tombstone || row.locked, lease := 0, until := 0, completed := 0,
                        committed := false, run := NoRun, pending := pending, portable := portable, updated := now));
      if row.kind == Work {
        slot := Empty;
      }
      events := events + [Detached];
      return Done;
    }

    method ExpireWhenIdle(now: nat) returns (reply: Reply)
      requires Valid()
      modifies this`slot
      ensures Valid()
      ensures Result(Now(), reply) == ExpireIfIdle(old(Now()), now)
      ensures slot.Empty? || slot == old(slot)
      ensures slot != old(slot) ==> old(slot.row.until <= now && Expiry(slot.row) <= now)
    {
      hide Bound, Safe, Settles, LastOf, Mentions, PairBelow;
      StepKeepsInv(Now(), world, Alarm(now));
      if slot.Full? && slot.row.until <= now && Expiry(slot.row) <= now {
        slot := Empty;
        return Done;
      }
      return Quiet;
    }
  }
}
