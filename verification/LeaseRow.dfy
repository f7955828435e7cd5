/** The one-row state of a ChatSession object and its lease transitions (src/chat-session.ts). */
module LeaseRow {
  import opened Utf16
  import opened Utf8
  import opened PortableTurns

  const SESSION_TTL_MS := 30 * 24 * 60 * 60_000
  const RESPONSE_BRANCH_TTL_MS := 60 * 60_000
  const CHAT_LEASE_MS := 15 * 60_000

  /** A random UUID made here, numbered in the order of making, or an identifier the upstream service returned. */
  datatype Id = Minted(n: nat) | Given(n: nat)
  datatype Pair = Pair(conversation: Id, session: Id)

  /** Lease ids are numbered in the order of issue; 0 stands for the empty column. So does account 0. */
  type Lease = nat
  type Account = nat

  datatype Kind = Stable | Work | Alias

  /** active_upstream_*: the three columns are set and cleared together. */
  datatype Run = NoRun | Running(account: Account, gate: nat, run: nat)

  /** The pending call and the tool ledger. */
  datatype Pending = Pending(callId: Text, toolName: Text, arguments: Text, ledger: Text)

  datatype Row = Row(
    pair: Pair, account: Account, locked: bool, lease: Lease, until: nat, committed: bool, completed: Lease,
    kind: Kind, expires: nat, current: bool, run: Run, updated: nat, pending: Pending, portable: Portable)

  datatype Slot = Empty | Full(row: Row)

  datatype Checkpoint = Checkpoint(pending: Pending, tail: Text)

  /** What the outside can learn about upstream coordinates, in order. */
  datatype Event =
    | Leased(lease: Lease, pair: Pair, account: Account, started: bool)
    | Committed(pair: Pair, account: Account)
    | Detached

  /** A supersedeActive call that read this row at this time and now waits for the runner's answer. */
  datatype Probe = Probe(row: Row, at: nat)

  datatype State = State(slot: Slot, minted: nat, issued: nat, probes: seq<Probe>, events: seq<Event>)

  datatype Reply =
    | Refused | Quiet | Done
    | Granted(lease: Lease, pair: Pair, account: Account, locked: bool, started: bool, pending: Pending, portable: Portable)

  datatype Result = Result(state: State, reply: Reply)

  datatype FieldCheck = Invalid | Bytes(n: nat)

  /**
   What the row logic does not look into: the patterns of portable turns, the
   UTF-8 size of the other columns if they are valid, and the anchor codec.
   */
  datatype World = World(
    grammar: Grammar, fields: (Pair, Account, Pending) -> FieldCheck, normalAnchors: Text -> Text, mergedAnchors: (Text, Text) -> Text)

  function EmptyPending(): Pending {
    Pending([], [], [], Ascii("[]"))
  }

  function EmptyPortable(): Portable {
    Portable.Portable(Ascii("[]"), [])
  }

  /** boundPortableForPersistedFields; StateTooLarge stands for any of its errors. */
  function Bound(w: World, pair: Pair, account: Account, pending: Pending, anchors: Text, tail: Text): Outcome {
    match w.fields(pair, account, pending)
    case Invalid => StateTooLarge
    case Bytes(n) => BoundPortable(n, w.normalAnchors(anchors), tail, w.grammar)
  }

  function NewPair(s: State): Pair {
    Pair.Pair(Minted(s.minted), Minted(s.minted + 1))
  }

  /** stateExpiry */
  function Expiry(row: Row): nat {
    if row.kind == Alias && row.expires > 0 then row.expires
    else if row.kind == Work then row.updated + RESPONSE_BRANCH_TTL_MS
    else row.updated + SESSION_TTL_MS
  }

  predicate IsHeldBy(s: State, lease: Lease) {
    s.slot.Full? && s.slot.row.lease == lease
  }

  function Stored(s: State, row: Row): State {
    s.(slot := Full(row))
  }

  function Noted(s: State, event: Event): State {
    s.(events := s.events + [event])
  }

  // ---- acquire --------------------------------------------------------------------------

  /** The row as acquire finds it fit for leasing: expired rows deleted, rows of a retired protocol rolled over. */
  function Prepared(s: State, now: nat): State {
    if s.slot.Empty? then s
    else if Expiry(s.slot.row) <= now then s.(slot := Empty)
    else if s.slot.row.current then s
    else
      Noted(
        Stored(
          s.(minted := s.minted + 2),
          s.slot.row.(pair := NewPair(s), committed := false, completed := 0, lease := 0, until := 0, run := NoRun,
                      current := true, updated := now)),
        Detached)
  }

  function Leasing(s: State, w: World, now: nat): Result {
    var bounded :=
      match s.slot
      case Empty => Kept(EmptyPortable())
      case Full(row) => Bound(w, row.pair, row.account, row.pending, row.portable.anchors, row.portable.tail);
    if bounded.StateTooLarge? then Result(s, Refused)
    else
      var row := if s.slot.Full? then s.slot.row else BlankRow(NewPair(s));
      var lease := s.issued + 1;
      var pair := if row.committed then row.pair else NewPair(s);
      var account := if row.committed || row.locked then row.account else 0;
      var leased := row.(pair := pair, account := account, lease := lease, until := now + CHAT_LEASE_MS, completed := 0,
                         run := NoRun, updated := now, portable := bounded.portable);
      Result(
        Noted(Stored(s.(minted := s.minted + 2, issued := lease), leased), Leased(lease, pair, account, row.committed)),
        Granted(lease, pair, account, row.locked, row.committed, row.pending, bounded.portable))
  }

  /** The column defaults of an inserted row. */
  function BlankRow(pair: Pair): Row {
    Row(pair, 0, false, 0, 0, false, 0, Stable, 0, true, NoRun, 0, EmptyPending(), EmptyPortable())
  }

  function Acquire(s: State, w: World, now: nat): Result {
    if s.slot.Full? && s.slot.row.until > now then Result(s, Refused)
    else if s.slot.Full? && s.slot.row.kind == Alias then Result(s, Refused)
    else Leasing(Prepared(s, now), w, now)
  }

  // ---- response branches ------------------------------------------------------------------

  function StartResponseBranch(s: State, w: World, now: nat, snapshot: Checkpoint, anchors: Text): Result {
    if s.slot.Full? && (s.slot.row.until > now || Expiry(s.slot.row) > now) then Result(s, Refused)
    else
      var cleared := s.(slot := Empty);
      var pair, lease := NewPair(s), s.issued + 1;
      match Bound(w, pair, 0, snapshot.pending, anchors, snapshot.tail)
      case StateTooLarge => Result(cleared, Refused)
      case Kept(portable) =>
        var row := Row(pair, 0, false, lease, now + CHAT_LEASE_MS, false, 0, Work, 0, true, NoRun, now, snapshot.pending, portable);
        Result(
          Noted(Stored(s.(minted := s.minted + 2, issued := lease), row), Leased(lease, pair, 0, false)),
          Granted(lease, pair, 0, false, false, snapshot.pending, portable))
  }

  function DiscardResponseBranch(s: State, completed: Lease): Result {
    if s.slot.Full? && s.slot.row.kind == Work && s.slot.row.lease == 0 && s.slot.row.completed == completed
    then Result(s.(slot := Empty), Done) else Result(s, Refused)
  }

  // ---- supersede --------------------------------------------------------------------------

  /** The first half: without a runner to ask it goes straight on to the second. */
  function SupersedeActive(s: State, w: World, now: nat, allowRunning: bool): Result {
    if !(s.slot.Full? && s.slot.row.lease != 0 && s.slot.row.until > now) then Result(s, Quiet)
    else if s.slot.row.run.Running? && !allowRunning then Result(s.(probes := s.probes + [Probe(s.slot.row, now)]), Quiet)
    else Superseded(s, w, Probe(s.slot.row, now))
  }

  /** The second half, after the runner said that the run is over. */
  function Superseded(s: State, w: World, probe: Probe): Result {
    var seen := probe.row;
    var account := if seen.locked then seen.account else 0;
    match Bound(w, NewPair(s), account, seen.pending, seen.portable.anchors, seen.portable.tail)
    case StateTooLarge => Result(s, Refused)
    case Kept(portable) =>
      if !(s.slot.Full? && s.slot.row.lease == seen.lease && s.slot.row.until > probe.at) then Result(s, Quiet)
      else
        var lease := s.issued + 1;
        var row := s.slot.row.(pair := NewPair(s), account := account, lease := lease, until := probe.at + CHAT_LEASE_MS,
                               completed := 0, committed := false, run := NoRun, current := true, updated := probe.at);
        var fresher := s.(minted := s.minted + 2, issued := lease, events := s.events + [Detached]);
        Result(
          Noted(Stored(fresher, row), Leased(lease, NewPair(s), account, false)),
          Granted(lease, NewPair(s), account, seen.locked, false, seen.pending, portable))
  }

  // ---- calls that present a lease -----------------------------------------------------------

  function MarkUpstreamRun(s: State, now: nat, lease: Lease, account: Account, gate: nat, run: nat): Result {
    if IsHeldBy(s, lease) && s.slot.row.account == account
    then Result(Stored(s, s.slot.row.(run := Running(account, gate, run), updated := now)), Done)
    else Result(s, Refused)
  }

  function ClearUpstreamRun(s: State, now: nat, lease: Lease, run: nat): Result {
    if IsHeldBy(s, lease) && s.slot.row.run.Running? && s.slot.row.run.run == run
    then Result(Stored(s, s.slot.row.(run := NoRun, updated := now)), Done)
    else Result(s, Quiet)
  }

  function BindAccount(s: State, w: World, now: nat, lease: Lease, account: Account): Result {
    if account == 0 || !IsHeldBy(s, lease) || (s.slot.row.account != 0 && s.slot.row.account != account) then Result(s, Refused)
    else
      var row := s.slot.row;
      match Bound(w, row.pair, account, row.pending, row.portable.anchors, row.portable.tail)
      case StateTooLarge => Result(s, Refused)
      case Kept(portable) =>
        Result(Stored(s, row.(account := account, portable := portable, updated := now)),
               Granted(lease, row.pair, account, row.locked, row.committed, row.pending, portable))
  }

  function SwitchUncommittedAccount(s: State, w: World, now: nat, lease: Lease, expected: Account, next: Account): Result {
    if next == 0 || !IsHeldBy(s, lease) || s.slot.row.account != expected || s.slot.row.committed || s.slot.row.locked
    then Result(s, Refused)
    else
      var row := s.slot.row;
      match Bound(w, NewPair(s), next, row.pending, row.portable.anchors, row.portable.tail)
      case StateTooLarge => Result(s, Refused)
      case Kept(portable) =>
        Result(Stored(s.(minted := s.minted + 2), row.(pair := NewPair(s), account := next, portable := portable, updated := now)),
               Granted(lease, NewPair(s), next, false, false, row.pending, portable))
  }

  function RebindCommittedAccount(s: State, w: World, now: nat, lease: Lease, expected: Account, next: Account): Result {
    if expected == 0 || next == 0 || expected == next || !IsHeldBy(s, lease) || s.slot.row.account != expected
       || !s.slot.row.locked || s.slot.row.portable.tail == []
    then Result(s, Refused)
    else
      var row := s.slot.row;
      match Bound(w, NewPair(s), next, row.pending, row.portable.anchors, row.portable.tail)
      case StateTooLarge => Result(s, Refused)
      case Kept(portable) =>
        var moved := row.(pair := NewPair(s), account := next, committed := false, locked := false, completed := 0,
                          portable := portable, updated := now);
        Result(Noted(Stored(s.(minted := s.minted + 2), moved), Detached), Granted(lease, NewPair(s), next, false, false, row.pending, portable))
  }

  function MergeTaskAnchors(s: State, w: World, now: nat, lease: Lease, anchors: Text): Result {
    if !IsHeldBy(s, lease) then Result(s, Refused)
    else
      var row := s.slot.row;
      match Bound(w, row.pair, row.account, row.pending, w.mergedAnchors(row.portable.anchors, anchors), row.portable.tail)
      case StateTooLarge => Result(s, Refused)
      case Kept(portable) => Result(Stored(s, row.(portable := portable, updated := now)), Done)
  }

  function MarkAccountLocked(s: State, now: nat, lease: Lease, account: Account): Result {
    if IsHeldBy(s, lease) && s.slot.row.account == account
    then Result(Stored(s, s.slot.row.(locked := true, updated := now)), Done)
    else Result(s, Refused)
  }

  // ---- commits ------------------------------------------------------------------------------

  datatype Maybe = Absent | Present(text: Text)

  /** commitCompleted: `final` chooses whether the caller's tail and ledger are stored. */
  function Complete(
      s: State, w: World, now: nat, lease: Lease, account: Account, pair: Pair, final: bool, anchors: Maybe, tail: Maybe, ledger: Maybe)
      : Result
  {
    if !IsHeldBy(s, lease) || account == 0 || s.slot.row.account != account || (final && tail.Absent?) then Result(s, Refused)
    else
      var row := s.slot.row;
      var pending := EmptyPending().(ledger := if final && ledger.Present? then ledger.text else row.pending.ledger);
      var merged := if anchors.Absent? then row.portable.anchors else w.mergedAnchors(row.portable.anchors, anchors.text);
      match Bound(w, pair, row.account, pending, merged, if final then tail.text else row.portable.tail)
      case StateTooLarge => Result(s, Refused)
      case Kept(portable) =>
        var done := row.(pair := pair, lease := 0, until := 0, completed := lease, pending := pending, run := NoRun,
                         portable := portable, committed := true, locked := true, updated := now);
        Result(Noted(Stored(s, done), Committed(pair, account)), Done)
  }

  function CompleteCheckpoint(
      s: State, w: World, now: nat, lease: Lease, account: Account, anchors: Text, tail: Text, ledger: Text)
      : Result
  {
    if !IsHeldBy(s, lease) || account == 0 || s.slot.row.account != account then Result(s, Refused)
    else
      var row := s.slot.row;
      var pending := EmptyPending().(ledger := ledger);
      match Bound(w, NewPair(s), row.account, pending, w.mergedAnchors(row.portable.anchors, anchors), tail)
      case StateTooLarge => Result(s, Refused)
      case Kept(portable) =>
        var done := row.(pair := NewPair(s), lease := 0, until := 0, completed := lease, pending := pending, run := NoRun,
                         portable := portable, committed := false, locked := true, updated := now);
        Result(Noted(Stored(s.(minted := s.minted + 2), done), Detached), Done)
  }

  function ReplaceCompletedTail(s: State, w: World, now: nat, completed: Lease, account: Account, pair: Pair, tail: Text): Result {
    if !(s.slot.Full? && s.slot.row.completed == completed && s.slot.row.account == account && s.slot.row.pair == pair
         && s.slot.row.committed && s.slot.row.lease == 0)
    then Result(s, Refused)
    else
      var row := s.slot.row;
      match Bound(w, row.pair, row.account, row.pending, row.portable.anchors, tail)
      case StateTooLarge => Result(s, Refused)
      case Kept(portable) =>
        Result(Stored(s, row.(portable := row.portable.(tail := portable.tail), updated := now)), Done)
  }

  // ---- endings without a result -----------------------------------------------------------------

  function Release(s: State, now: nat, lease: Lease): Result {
    if !IsHeldBy(s, lease) then Result(s, Quiet)
    else if s.slot.row.kind == Work then Result(s.(slot := Empty), Done)
    else Result(Stored(s, s.slot.row.(lease := 0, until := 0, run := NoRun, updated := now)), Done)
  }

  /** abandon, abandonFailedUpstream (tombstone) and abandonIfActive (activeOnly) */
  datatype Mode = Buffered | Tombstone | ActiveOnly

  datatype Restore = Cleared | From(checkpoint: Checkpoint)

  predicate Abandons(s: State, lease: Lease, mode: Mode) {
    && s.slot.Full?
    && (s.slot.row.lease == lease || (mode != ActiveOnly && s.slot.row.lease == 0 && s.slot.row.completed == lease))
  }

  function AbandonTurn(s: State, w: World, now: nat, lease: Lease, mode: Mode, restore: Restore): Result {
    if !Abandons(s, lease, mode) then Result(s, Quiet)
    else
      var row := s.slot.row;
      var pair := if mode == Tombstone then NewPair(s) else row.pair;
      var bounded :=
        match restore
        case Cleared => Kept(Portable.Portable(row.portable.anchors, []))
        case From(c) => Bound(w, pair, row.account, c.pending, row.portable.anchors, c.tail);
      if bounded.StateTooLarge? then Result(s, Refused)
      else
        var pending := if restore.From? then restore.checkpoint.pending else EmptyPending();
        var back := row.(pair := pair, locked := mode == Tombstone || row.locked, lease := 0, until := 0, completed := 0,
                         committed := false, run := NoRun, pending := pending, portable := bounded.portable, updated := now);
        var after := s.(minted := s.minted + 2, slot := if row.kind == Work then Empty else Full(back));
        Result(Noted(after, Detached), Done)
  }

  // ---- aliases and expiry --------------------------------------------------------------------------

  /** Another use of the same class: an alias object's seed writes a row that never holds a lease. */
  function SeedAlias(s: State, w: World, now: nat, expires: nat, pair: Pair, account: Account, snapshot: Checkpoint, anchors: Text): Result {
    if s.slot.Full? then Result(s, Refused)
    else
      match Bound(w, pair, account, snapshot.pending, anchors, snapshot.tail)
      case StateTooLarge => Result(s, Refused)
      case Kept(portable) =>
        Result(Stored(s, Row(pair, account, true, 0, 0, true, 0, Alias, expires, true, NoRun, now, snapshot.pending, portable)), Done)
  }

  /**
   Code with a new upstream protocol generation goes live: the row that is there
   was written under the old one, and calls that were waiting are gone.
   */
  function Deployed(s: State): State {
    s.(slot := if s.slot.Full? then Full(s.slot.row.(current := false)) else Empty, probes := [])
  }

  function ExpireIfIdle(s: State, now: nat): Result {
    if s.slot.Full? && s.slot.row.until <= now && Expiry(s.slot.row) <= now then Result(s.(slot := Empty), Done)
    else Result(s, Quiet)
  }
}
