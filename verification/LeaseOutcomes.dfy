/**
 What each call on a ChatSession leaves in the row (src/chat-session.ts:1006-1975), column by column: exactly which
 calls write it, and what they write. A row that a call deletes or creates anew is told apart from one that survives.
 */
module LeaseOutcomes {
  import opened Utf16
  import opened Utf8
  import opened PortableTail
  import opened PortableTurns
  import opened LeaseRow
  import opened LeaseRuns

  /** The call inserts a new row, on an empty slot or over an expired one. */
  predicate Inserts(s: State, step: Step) {
    || step.BranchCall? || step.SeedCall?
    || (step.AcquireCall? && (s.slot.Empty? || Expiry(s.slot.row) <= step.now))
  }

  /** acquire meets a row of a retired protocol generation that it may lease. */
  predicate RollsOver(s: State, step: Step) {
    && step.AcquireCall? && s.slot.Full? && !s.slot.row.current && s.slot.row.until <= step.now && s.slot.row.kind != Alias
    && Expiry(s.slot.row) > step.now
  }

  /** The row before the call is the row after it, with some columns written. */
  predicate Survives(s: State, w: World, step: Step) {
    s.slot.Full? && Apply(s, w, step).state.slot.Full? && !Inserts(s, step)
  }

  /** A lease handed out on the surviving row. */
  predicate Grants(s: State, w: World, step: Step) {
    (step.AcquireCall? || step.SupersedeCall? || step.RunnerAnswers?) && Apply(s, w, step).reply.Granted?
  }

  predicate Succeeded(s: State, w: World, step: Step) {
    Apply(s, w, step).reply.Done? || Apply(s, w, step).reply.Granted?
  }

  function After(s: State, w: World, step: Step): Row
    requires Survives(s, w, step)
  {
    Apply(s, w, step).state.slot.row
  }

  // ---- account and lock ---------------------------------------------------------------------------

  /** A commit, a checkpoint, a tombstone or an explicit lock binds the session to its account; a rebind undoes it. */
  predicate Locks(s: State, w: World, step: Step) {
    && Succeeded(s, w, step)
    && (step.LockCall? || step.CompleteCall? || step.CheckpointCall? || (step.AbandonCall? && step.mode == Tombstone))
  }

  lemma {:induction false} LocksExactly(s: State, w: World, step: Step)
    requires Survives(s, w, step)
    ensures var unlocks := step.RebindCall? && Succeeded(s, w, step);
      After(s, w, step).locked == (Locks(s, w, step) || (s.slot.row.locked && !unlocks))
  {
    hide Bound, Expiry, EmptyPending, EmptyPortable;
  }

  /** The row that a lease is granted on is the one the probe saw, for a supersession; its account may be another. */
  function SeenBy(s: State, step: Step): Row
    requires s.slot.Full?
  {
    if step.RunnerAnswers? && step.probe < |s.probes| then s.probes[step.probe].row else s.slot.row
  }

  lemma {:induction false} AccountsChangeExactly(s: State, w: World, step: Step)
    requires Survives(s, w, step)
    ensures var before, after := s.slot.row, After(s, w, step);
      after.account == if step.BindCall? && Succeeded(s, w, step) then step.account
                       else if (step.SwitchCall? || step.RebindCall?) && Succeeded(s, w, step) then step.next
                       else if !Grants(s, w, step) then before.account
                       else if step.AcquireCall? && before.committed && before.current then before.account
                       else if SeenBy(s, step).locked then SeenBy(s, step).account else 0
  {
    hide Bound, Expiry, EmptyPending, EmptyPortable;
  }

  // ---- commitment and coordinates -----------------------------------------------------------------

  /** Only a commit makes a row committed; a superseding lease and these endings undo it. */
  lemma {:induction false} CommitmentsChangeExactly(s: State, w: World, step: Step)
    requires Survives(s, w, step)
    ensures var ok := Succeeded(s, w, step);
      After(s, w, step).committed ==
        if step.CompleteCall? && ok then true
        else if (step.CheckpointCall? || step.RebindCall? || step.AbandonCall?) && ok then false
        else if (step.SupersedeCall? || step.RunnerAnswers?) && ok then false
        else s.slot.row.committed && !RollsOver(s, step)
  {
    hide Bound, EmptyPending, EmptyPortable;
  }

  /** Two ids drawn by this call. */
  predicate IsDrawn(pair: Pair, s: State) {
    && pair.conversation.Minted? && pair.session.Minted?
    && pair.conversation.n >= s.minted && pair.session.n >= s.minted && pair.conversation != pair.session
  }

  /** A commit stores the caller's coordinates; these calls draw new ones; every other call leaves them. */
  predicate Redraws(s: State, w: World, step: Step)
    requires s.slot.Full?
  {
    || RollsOver(s, step)
    || (Succeeded(s, w, step)
        && (step.SwitchCall? || step.RebindCall? || step.CheckpointCall? || step.SupersedeCall? || step.RunnerAnswers?
            || (step.AbandonCall? && step.mode == Tombstone) || (step.AcquireCall? && !s.slot.row.committed)))
  }

  lemma {:induction false} CoordinatesChangeExactly(s: State, w: World, step: Step)
    requires Survives(s, w, step)
    ensures var before, after := s.slot.row, After(s, w, step);
      if step.CompleteCall? && Succeeded(s, w, step) then after.pair == step.pair
      else if Redraws(s, w, step) then IsDrawn(after.pair, s)
      else after.pair == before.pair
  {
    hide Bound, EmptyPending, EmptyPortable;
  }

  // ---- lease, run and lifetime ----------------------------------------------------------------------

  predicate EndsLease(s: State, w: World, step: Step) {
    (step.CompleteCall? || step.CheckpointCall? || step.ReleaseCall? || step.AbandonCall?) && Succeeded(s, w, step)
  }

  /** A lease lasts fifteen minutes from its grant; it ends with these calls; and nothing else touches it. */
  lemma {:induction false} LeasesChangeExactly(s: State, w: World, step: Step)
    requires Survives(s, w, step)
    ensures var before, after, r := s.slot.row, After(s, w, step), Apply(s, w, step);
      && (Grants(s, w, step) ==> after.lease == r.reply.lease == s.issued + 1 && after.until == after.updated + CHAT_LEASE_MS)
      && (EndsLease(s, w, step) || (RollsOver(s, step) && !Grants(s, w, step)) ==> after.lease == 0 && after.until == 0)
      && (!Grants(s, w, step) && !EndsLease(s, w, step) && !RollsOver(s, step) ==> after.lease == before.lease && after.until == before.until)
  {
    hide Bound, Expiry, EmptyPending, EmptyPortable;
  }

  /** A commit and a checkpoint remember the lease they ended, for the calls that still speak of it; the next turn forgets it. */
  lemma {:induction false} CompletedLeasesChangeExactly(s: State, w: World, step: Step)
    requires Survives(s, w, step)
    ensures var ok := Succeeded(s, w, step);
      After(s, w, step).completed ==
        if (step.CompleteCall? || step.CheckpointCall?) && ok then step.lease
        else if ((step.RebindCall? || step.AbandonCall?) && ok) || Grants(s, w, step) || RollsOver(s, step) then 0
        else s.slot.row.completed
  {
    hide Bound, EmptyPending, EmptyPortable;
  }

  lemma {:induction false} RunsChangeExactly(s: State, w: World, step: Step)
    requires Survives(s, w, step)
    ensures After(s, w, step).run ==
        if step.MarkCall? && Succeeded(s, w, step) then Running(step.account, step.gate, step.run)
        else if (step.ClearCall? && Succeeded(s, w, step)) || EndsLease(s, w, step) || Grants(s, w, step) || RollsOver(s, step) then NoRun
        else s.slot.row.run
  {
    hide Bound, EmptyPending, EmptyPortable;
  }

  /** The clock a call reads, for calls that write the row with it. */
  function ClockOf(s: State, step: Step): nat
    requires s.slot.Full?
  {
    match step
    case AcquireCall(now) => now
    case SupersedeCall(now, _) => now
    case MarkCall(now, _, _, _, _) => now
    case ClearCall(now, _, _) => now
    case BindCall(now, _, _) => now
    case SwitchCall(now, _, _, _) => now
    case RebindCall(now, _, _, _) => now
    case MergeCall(now, _, _) => now
    case LockCall(now, _, _) => now
    case CompleteCall(now, _, _, _, _, _, _, _) => now
    case CheckpointCall(now, _, _, _, _, _) => now
    case PromoteCall(now, _, _, _, _) => now
    case ReleaseCall(now, _) => now
    case AbandonCall(now, _, _, _) => now
    case RunnerAnswers(probe, _) => if probe < |s.probes| then s.probes[probe].at else s.slot.row.updated
    case _ => s.slot.row.updated
  }

  /** Every call that writes the row stamps it with its own clock, a late supersession with that of its probe. */
  lemma {:induction false} ClocksChangeExactly(s: State, w: World, step: Step)
    requires Survives(s, w, step)
    ensures After(s, w, step).updated == if Succeeded(s, w, step) || RollsOver(s, step) then ClockOf(s, step) else s.slot.row.updated
  {
    hide Bound, EmptyPending, EmptyPortable;
  }

  /** Kind and expiry never change; only code of another protocol generation makes a row old, and a new lease renews it. */
  lemma {:induction false} KindStays(s: State, w: World, step: Step)
    requires Survives(s, w, step)
    ensures var before, after := s.slot.row, After(s, w, step);
      && after.kind == before.kind && after.expires == before.expires
      && after.current == if step.Deploy? then false else before.current || Grants(s, w, step) || RollsOver(s, step)
  {
    hide Bound, Expiry, EmptyPending, EmptyPortable;
  }

  // ---- content: pending call, ledger, anchors and history tail ----------------------------------------

  /**
   Beside these columns, kept are these anchors as the codec writes them, and of this tail the suffix that the row
   budget leaves room for.
   */
  predicate Keeps(w: World, pair: Pair, account: Account, pending: Pending, kept: Portable, anchors: Text, tail: Text) {
    && w.fields(pair, account, pending).Bytes?
    && kept.anchors == w.normalAnchors(anchors)
    && var room := PortableBudget(w.fields(pair, account, pending).n) - Utf8Bytes(kept.anchors);
       room >= 0 && kept.tail == BoundedSuffix(tail, room, w.grammar)
  }

  predicate RowKeeps(w: World, row: Row, anchors: Text, tail: Text) {
    Keeps(w, row.pair, row.account, row.pending, row.portable, anchors, tail)
  }

  /** A tail that fits is kept as it is. */
  lemma {:induction false} FittingTailIsKept(w: World, row: Row, anchors: Text, tail: Text)
    requires RowKeeps(w, row, anchors, tail)
    ensures var room := PortableBudget(w.fields(row.pair, row.account, row.pending).n) - Utf8Bytes(w.normalAnchors(anchors));
      Utf8Bytes(tail) <= room ==> row.portable.tail == tail
  {
    hide CompleteTurns, Split;
    if tail != [] {
      TextTakesBytes(tail);
    }
  }

  lemma {:induction false} TextTakesBytes(t: Text)
    requires t != []
    ensures Utf8Bytes(t) > 0
  {
    assert Scalars(t) != [];
  }

  /** Pending call and ledger: written by these endings, and by no other call. */
  lemma {:induction false} PendingChangesExactly(s: State, w: World, step: Step)
    requires Survives(s, w, step)
    ensures var before, after, ok := s.slot.row, After(s, w, step), Succeeded(s, w, step);
      after.pending ==
        if step.CompleteCall? && ok then
          Pending([], [], [], if step.final && step.ledger.Present? then step.ledger.text else before.pending.ledger)
        else if step.CheckpointCall? && ok then Pending([], [], [], step.newLedger)
        else if step.AbandonCall? && ok then
          (if step.restore.From? then step.restore.checkpoint.pending else Pending([], [], [], Ascii("[]")))
        else before.pending
  {
    hide Bound, Expiry, Ascii;
  }

  /** Calls that fit what is already there into the row budget once more. */
  predicate Refits(s: State, w: World, step: Step) {
    Succeeded(s, w, step) && (step.AcquireCall? || step.BindCall? || step.SwitchCall? || step.RebindCall?)
  }

  predicate WritesHistory(s: State, w: World, step: Step) {
    && Succeeded(s, w, step)
    && (step.CompleteCall? || step.CheckpointCall? || step.PromoteCall? || step.MergeCall? || step.AbandonCall?)
  }

  ghost predicate HistoryOutcome(s: State, w: World, step: Step)
    requires Survives(s, w, step)
  {
    var before, after := s.slot.row, After(s, w, step);
    var was := before.portable;
    if WritesHistory(s, w, step) then
      match step
      case CompleteCall(_, _, _, _, final, update, tail, _) =>
        && (final ==> tail.Present?)
        && RowKeeps(w, after, if update.Present? then w.mergedAnchors(was.anchors, update.text) else was.anchors,
                    if final then tail.text else was.tail)
      case CheckpointCall(_, _, _, anchors, newTail, _) => RowKeeps(w, after, w.mergedAnchors(was.anchors, anchors), newTail)
      case PromoteCall(_, _, _, _, newTail) =>
        && after.portable.anchors == was.anchors
        && Keeps(w, after.pair, after.account, after.pending, after.portable.(anchors := w.normalAnchors(was.anchors)), was.anchors, newTail)
      case MergeCall(_, _, anchors) => RowKeeps(w, after, w.mergedAnchors(was.anchors, anchors), was.tail)
      case AbandonCall(_, _, _, restore) =>
        if restore.From? then RowKeeps(w, after, was.anchors, restore.checkpoint.tail)
        else after.portable == Portable.Portable(was.anchors, [])
      case _ => false
    else if Refits(s, w, step) then
      var pair := if step.AcquireCall? then (if RollsOver(s, step) then NewPair(s) else before.pair) else after.pair;
      var account := if step.AcquireCall? then before.account else after.account;
      Keeps(w, pair, account, before.pending, after.portable, was.anchors, was.tail)
    else after.portable == was
  }

  lemma {:induction false} BoundKeeps(w: World, pair: Pair, account: Account, pending: Pending, anchors: Text, tail: Text)
    ensures var b := Bound(w, pair, account, pending, anchors, tail);
      b.Kept? ==> Keeps(w, pair, account, pending, b.portable, anchors, tail)
  {
    hide Utf8Bytes, BoundedSuffix, PortableBudget;
  }

  lemma {:induction false} CommitHistory(s: State, w: World, step: Step)
    requires Survives(s, w, step) && (step.CompleteCall? || step.CheckpointCall?)
    ensures HistoryOutcome(s, w, step)
  {
    hide Bound, Keeps, Expiry, Ascii;
    var after := After(s, w, step);
    var was := s.slot.row.portable;
    if step.CompleteCall? {
      BoundKeeps(w, after.pair, after.account, after.pending,
                 if step.update.Present? then w.mergedAnchors(was.anchors, step.update.text) else was.anchors,
                 if step.final && step.tail.Present? then step.tail.text else was.tail);
    } else {
      BoundKeeps(w, after.pair, after.account, after.pending, w.mergedAnchors(was.anchors, step.anchors), step.newTail);
    }
  }

  lemma {:induction false} EndingHistory(s: State, w: World, step: Step)
    requires Survives(s, w, step) && (step.MergeCall? || step.AbandonCall?)
    ensures HistoryOutcome(s, w, step)
  {
    hide Bound, Keeps, Expiry, Ascii;
    var after := After(s, w, step);
    var was := s.slot.row.portable;
    match step
    case MergeCall(_, _, anchors) => BoundKeeps(w, after.pair, after.account, after.pending, w.mergedAnchors(was.anchors, anchors), was.tail);
    case AbandonCall(_, _, _, restore) =>
      if restore.From? {
        BoundKeeps(w, after.pair, after.account, after.pending, was.anchors, restore.checkpoint.tail);
      }
  }

  lemma {:induction false} PromotedHistory(s: State, w: World, step: Step)
    requires Survives(s, w, step) && step.PromoteCall?
    ensures HistoryOutcome(s, w, step)
  {
    hide Bound, Expiry, Ascii, Utf8Bytes, BoundedSuffix, PortableBudget;
    var after := After(s, w, step);
    BoundKeeps(w, after.pair, after.account, after.pending, s.slot.row.portable.anchors, step.newTail);
  }

  lemma {:induction false} RefittedHistory(s: State, w: World, step: Step)
    requires Survives(s, w, step) && (step.AcquireCall? || step.BindCall? || step.SwitchCall? || step.RebindCall?)
    ensures HistoryOutcome(s, w, step)
  {
    hide Bound, Keeps, EmptyPending, EmptyPortable;
    var before, after := s.slot.row, After(s, w, step);
    var was := before.portable;
    if step.AcquireCall? {
      BoundKeeps(w, if RollsOver(s, step) then NewPair(s) else before.pair, before.account, before.pending, was.anchors, was.tail);
    } else {
      BoundKeeps(w, after.pair, after.account, after.pending, was.anchors, was.tail);
    }
  }

  lemma {:induction false} UntouchedHistory(s: State, w: World, step: Step)
    requires Survives(s, w, step) && !WritesHistory(s, w, step) && !Refits(s, w, step)
    ensures HistoryOutcome(s, w, step)
  {
    hide Bound, Keeps, Expiry, EmptyPending, EmptyPortable;
  }

  /**
   Anchors and tail. A final commit and a checkpoint store the caller's tail, a split-phase commit keeps the row's own,
   a promotion replaces the tail alone, a merge the anchors alone; an abandonment goes back to its checkpoint, or drops
   the tail. Every other call leaves both as they are or as they fit.
   */
  lemma {:induction false} HistoryChangesExactly(s: State, w: World, step: Step)
    requires Survives(s, w, step)
    ensures HistoryOutcome(s, w, step)
  {
    hide HistoryOutcome, Apply;
    if !WritesHistory(s, w, step) && !Refits(s, w, step) {
      UntouchedHistory(s, w, step);
    } else if Refits(s, w, step) {
      RefittedHistory(s, w, step);
    } else if step.CompleteCall? || step.CheckpointCall? {
      CommitHistory(s, w, step);
    } else if step.PromoteCall? {
      PromotedHistory(s, w, step);
    } else {
      EndingHistory(s, w, step);
    }
  }

  // ---- rows that are inserted, and leases as they are handed out ---------------------------------------------

  lemma {:induction false} InsertedRowsAre(s: State, w: World, step: Step)
    requires Inserts(s, step) && Succeeded(s, w, step) && Apply(s, w, step).state.slot.Full?
    ensures var row := Apply(s, w, step).state.slot.row;
      && row.current && row.run.NoRun? && row.completed == 0 && row.updated == step.now
      && match step
         case AcquireCall(_) =>
           && row.kind == Stable && row.account == 0 && !row.locked && !row.committed && IsDrawn(row.pair, s)
           && row.pending == Pending([], [], [], Ascii("[]")) && row.portable == Portable.Portable(Ascii("[]"), [])
         case BranchCall(_, snapshot, anchors) =>
           && row.kind == Work && row.account == 0 && !row.locked && !row.committed && IsDrawn(row.pair, s)
           && row.pending == snapshot.pending && RowKeeps(w, row, anchors, snapshot.tail)
         case SeedCall(_, expires, pair, account, snapshot, anchors) =>
           && row.kind == Alias && row.expires == expires && row.lease == 0 && row.pair == pair && row.account == account
           && row.locked && row.committed && row.pending == snapshot.pending && RowKeeps(w, row, anchors, snapshot.tail)
         case _ => false
  {
    hide Utf8Bytes, BoundedSuffix, PortableBudget, Ascii;
  }

  /** A lease carries what its row holds; a superseding one carries the content that its probe saw. */
  lemma {:induction false} LeasesCarryTheirRow(s: State, w: World, step: Step)
    requires Apply(s, w, step).reply.Granted?
    ensures var r := Apply(s, w, step);
      && r.state.slot.Full? && var row := r.state.slot.row;
      && r.reply.lease == row.lease && r.reply.pair == row.pair && r.reply.account == row.account && r.reply.started == row.committed
      && if step.SupersedeCall? || step.RunnerAnswers? then
           && s.slot.Full?
           && var seen := SeenBy(s, step);
           && r.reply.locked == seen.locked && r.reply.pending == seen.pending
           && Keeps(w, row.pair, row.account, seen.pending, r.reply.portable, seen.portable.anchors, seen.portable.tail)
         else r.reply.locked == row.locked && r.reply.pending == row.pending && r.reply.portable == row.portable
  {
    hide Utf8Bytes, BoundedSuffix, PortableBudget, Expiry, EmptyPending, EmptyPortable;
  }

  // ---- which rows end, and which calls succeed ------------------------------------------------------------------

  lemma {:induction false} RowsEndExactly(s: State, w: World, step: Step)
    requires s.slot.Full?
    ensures Apply(s, w, step).state.slot.Empty? <==>
      var row := s.slot.row;
      || (step.DiscardCall? && row.kind == Work && row.lease == 0 && row.completed == step.lease)
      || (step.ReleaseCall? && row.kind == Work && row.lease == step.lease)
      || (step.AbandonCall? && row.kind == Work && Succeeded(s, w, step))
      || (step.Alarm? && row.until <= step.now && Expiry(row) <= step.now)
      || (step.BranchCall? && row.until <= step.now && Expiry(row) <= step.now && !Succeeded(s, w, step))
  {
    hide EmptyPending, EmptyPortable;
    if step.AcquireCall? {
      assert Leasing(s.(slot := Empty), w, step.now).reply.Granted?;
    }
  }

  /** The row budget has room for these columns and anchors. */
  predicate Affords(w: World, pair: Pair, account: Account, pending: Pending, anchors: Text) {
    && w.fields(pair, account, pending).Bytes?
    && Utf8Bytes(w.normalAnchors(anchors)) <= PortableBudget(w.fields(pair, account, pending).n)
  }

  /** The endings of a turn succeed exactly under the lease that holds the row, on its account, within the budget. */
  lemma {:induction false} CommitsSucceedExactly(s: State, w: World, step: Step)
    requires step.CompleteCall? || step.CheckpointCall?
    ensures Succeeded(s, w, step) <==>
      && IsHeldBy(s, step.lease) && step.account != 0 && s.slot.row.account == step.account
      && var row := s.slot.row;
         if step.CompleteCall? then
           && (step.final ==> step.tail.Present?)
           && Affords(w, step.pair, row.account,
                      Pending([], [], [], if step.final && step.ledger.Present? then step.ledger.text else row.pending.ledger),
                      if step.update.Present? then w.mergedAnchors(row.portable.anchors, step.update.text) else row.portable.anchors)
         else Affords(w, NewPair(s), row.account, Pending([], [], [], step.newLedger), w.mergedAnchors(row.portable.anchors, step.anchors))
  {
    hide Utf8Bytes, BoundedSuffix, PortableBudget, Ascii;
  }

  /** When every other call that presents a lease succeeds; `held` and `owned` are the lease fence and the account fence. */
  lemma {:induction false} CallsSucceedExactly(s: State, w: World, step: Step)
    requires PresentsLease(step) && !step.CompleteCall? && !step.CheckpointCall?
    ensures var held := IsHeldBy(s, step.lease);
      var owned := held && (step.MarkCall? || step.SwitchCall? || step.RebindCall? || step.LockCall?) && s.slot.row.account == step.account;
      Succeeded(s, w, step) <==>
        match step
        case DiscardCall(lease) => s.slot.Full? && s.slot.row.kind == Work && s.slot.row.lease == 0 && s.slot.row.completed == lease
        case MarkCall(_, _, _, _, _) => owned
        case ClearCall(_, _, run) => held && s.slot.row.run.Running? && s.slot.row.run.run == run
        case BindCall(_, _, account) =>
          && held && account != 0 && (s.slot.row.account == 0 || s.slot.row.account == account)
          && Affords(w, s.slot.row.pair, account, s.slot.row.pending, s.slot.row.portable.anchors)
        case SwitchCall(_, _, _, next) =>
          && owned && next != 0 && !s.slot.row.committed && !s.slot.row.locked
          && Affords(w, NewPair(s), next, s.slot.row.pending, s.slot.row.portable.anchors)
        case RebindCall(_, _, account, next) =>
          && owned && account != 0 && next != 0 && account != next && s.slot.row.locked && s.slot.row.portable.tail != []
          && Affords(w, NewPair(s), next, s.slot.row.pending, s.slot.row.portable.anchors)
        case MergeCall(_, _, anchors) =>
          && held
          && Affords(w, s.slot.row.pair, s.slot.row.account, s.slot.row.pending, w.mergedAnchors(s.slot.row.portable.anchors, anchors))
        case LockCall(_, _, _) => owned
        case PromoteCall(_, completed, account, pair, _) =>
          && s.slot.Full? && s.slot.row.lease == 0 && s.slot.row.completed == completed && s.slot.row.account == account
          && s.slot.row.pair == pair && s.slot.row.committed
          && Affords(w, pair, account, s.slot.row.pending, s.slot.row.portable.anchors)
        case ReleaseCall(_, _) => held
        case AbandonCall(_, lease, mode, restore) =>
          && (held || (mode != ActiveOnly && s.slot.Full? && s.slot.row.lease == 0 && s.slot.row.completed == lease))
          && (restore.From? ==>
                Affords(w, if mode == Tombstone then NewPair(s) else s.slot.row.pair, s.slot.row.account,
                        restore.checkpoint.pending, s.slot.row.portable.anchors))
        case _ => false
  {
    hide Utf8Bytes, BoundedSuffix, PortableBudget, EmptyPending, EmptyPortable;
  }

  /** When a lease is handed out. */
  lemma {:induction false} GrantsExactly(s: State, w: World, step: Step)
    requires step.AcquireCall? || step.BranchCall? || step.SupersedeCall? || step.RunnerAnswers?
    ensures Apply(s, w, step).reply.Granted? <==>
      match step
      case AcquireCall(now) =>
        s.slot.Full? ==>
          && s.slot.row.until <= now && s.slot.row.kind != Alias
          && (Expiry(s.slot.row) > now ==>
                var row := s.slot.row;
                Affords(w, if row.current then row.pair else NewPair(s), row.account, row.pending, row.portable.anchors))
      case BranchCall(now, snapshot, anchors) =>
        && (s.slot.Full? ==> s.slot.row.until <= now && Expiry(s.slot.row) <= now)
        && Affords(w, NewPair(s), 0, snapshot.pending, anchors)
      case SupersedeCall(now, allowRunning) =>
        && s.slot.Full? && s.slot.row.lease != 0 && s.slot.row.until > now && (s.slot.row.run.Running? ==> allowRunning)
        && Affords(w, NewPair(s), if s.slot.row.locked then s.slot.row.account else 0, s.slot.row.pending, s.slot.row.portable.anchors)
      case RunnerAnswers(probe, running) =>
        && !running && probe < |s.probes|
        && var seen := s.probes[probe].row;
        && s.slot.Full? && s.slot.row.lease == seen.lease && s.slot.row.until > s.probes[probe].at
        && Affords(w, NewPair(s), if seen.locked then seen.account else 0, seen.pending, seen.portable.anchors)
      case _ => false
  {
    hide Utf8Bytes, BoundedSuffix, PortableBudget, EmptyPending, EmptyPortable;
  }

  // ---- from a commit to the next turn --------------------------------------------------------------------------

  /**
   What the next turn starts from: after a final commit the next lease carries the caller's ledger, the merged anchors
   and the caller's tail, whole if it fits and else its bounded suffix; no call is pending.
   */
  lemma {:induction false} FinalTailIsReplayed(s: State, w: World, commit: Step, now: nat)
    requires Settles(w) && commit.CompleteCall? && commit.final && Apply(s, w, commit).reply.Done?
    requires s.slot.row.kind != Alias && s.slot.row.current && Expiry(Apply(s, w, commit).state.slot.row) > now
    ensures commit.tail.Present?
    ensures var was := s.slot.row;
      var reply := Acquire(Apply(s, w, commit).state, w, now).reply;
      && reply.Granted? && reply.pair == commit.pair && reply.account == commit.account && reply.started && reply.locked
      && reply.pending == Pending([], [], [], if commit.ledger.Present? then commit.ledger.text else was.pending.ledger)
      && Keeps(w, commit.pair, commit.account, reply.pending, reply.portable,
               if commit.update.Present? then w.mergedAnchors(was.portable.anchors, commit.update.text) else was.portable.anchors,
               commit.tail.text)
  {
    hide Bound, Keeps, Settles, Expiry, HistoryOutcome, Acquire;
    CommitIsContinued(s, w, commit, now);
    CommitStores(s, w, commit);
  }

  /** What a successful commit or checkpoint stores. */
  lemma {:induction false} CommitStores(s: State, w: World, commit: Step)
    requires (commit.CompleteCall? || commit.CheckpointCall?) && Succeeded(s, w, commit)
    ensures Survives(s, w, commit)
    ensures var was, row := s.slot.row, After(s, w, commit);
      && row.account == commit.account
      && if commit.CompleteCall? then
           && (commit.final ==> commit.tail.Present?)
           && row.pair == commit.pair
           && row.pending == Pending([], [], [], if commit.final && commit.ledger.Present? then commit.ledger.text else was.pending.ledger)
           && RowKeeps(w, row,
                       if commit.update.Present? then w.mergedAnchors(was.portable.anchors, commit.update.text) else was.portable.anchors,
                       if commit.final then commit.tail.text else was.portable.tail)
         else
           && row.pending == Pending([], [], [], commit.newLedger)
           && RowKeeps(w, row, w.mergedAnchors(was.portable.anchors, commit.anchors), commit.newTail)
  {
    hide Bound, Keeps, Expiry, Ascii;
    CommitHistory(s, w, commit);
  }

  /** What a promotion, a merge and an abandonment store in a row that they leave. */
  lemma {:induction false} EndingStores(s: State, w: World, step: Step)
    requires (step.PromoteCall? || step.MergeCall? || step.AbandonCall?) && Succeeded(s, w, step) && Survives(s, w, step)
    ensures var was, row := s.slot.row, After(s, w, step);
      match step
      case PromoteCall(_, _, _, _, newTail) =>
        && row.pending == was.pending && row.portable.anchors == was.portable.anchors
        && Keeps(w, row.pair, row.account, row.pending, row.portable.(anchors := w.normalAnchors(was.portable.anchors)),
                 was.portable.anchors, newTail)
      case MergeCall(_, _, anchors) =>
        row.pending == was.pending && RowKeeps(w, row, w.mergedAnchors(was.portable.anchors, anchors), was.portable.tail)
      case AbandonCall(_, _, mode, restore) =>
        && row.locked == (mode == Tombstone || was.locked) && row.account == was.account
        && (if mode == Tombstone then IsDrawn(row.pair, s) else row.pair == was.pair)
        && (if restore.From?
            then row.pending == restore.checkpoint.pending && RowKeeps(w, row, was.portable.anchors, restore.checkpoint.tail)
            else row.pending == Pending([], [], [], Ascii("[]")) && row.portable == Portable.Portable(was.portable.anchors, []))
      case _ => false
  {
    hide Bound, Keeps, Expiry, Ascii;
    if step.PromoteCall? {
      PromotedHistory(s, w, step);
    } else {
      EndingHistory(s, w, step);
    }
  }
}
