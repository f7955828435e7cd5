/**
 The response-alias admission protocol as a state machine (src/chat-session.ts).

 Many alias objects each own one row; one registry object owns the table of
 registrations.  They talk by RPC, and at every await another object may move.
 A `Step` is one stretch of source code between two awaits, so a sequence of
 steps is one interleaving of the deployed system.
 */
module AliasProtocol {
  import opened AliasVictims

  /** RESPONSE_ALIAS_TTL_MS and RESPONSE_ALIAS_PENDING_TTL_MS */
  const ALIAS_TTL: Time := 7 * 24 * 60 * 60_000
  const PENDING_TTL: Time := 15 * 60_000

  /** The alias columns of one object's singleton state row. */
  datatype Alias = Alias(generation: Generation, group: Group, expiresAt: Time, admitted: bool)

  /** The registration one seed() call sends; `sawAdmitted` is what that call read before sending. */
  datatype Request = Request(generation: Generation, group: Group, expiresAt: Time,
                             isNew: bool, sawAdmitted: bool, deferred: bool)

  /** Where an in-flight seed() call stands. */
  datatype Call = Waiting(req: Request) | Accepted(req: Request) | Refused(req: Request)

  /** What seed() hands to its caller: the right to publish or revoke one generation. */
  datatype Ticket = Ticket(generation: Generation, expiresAt: Time)

  /**
   blockConcurrencyWhile: while a registration or a sweep runs, the registry takes
   no other request.  `todo` are victims still to be evicted, `gone` those whose
   object has answered but whose row is still in the table. The gate is memory: a
   registry object that resets loses it, and keeps its table.
   */
  datatype Gate =
    | Open
    | Registering(who: AliasId, group: Group, base: Table, victims: set<AliasId>, todo: set<AliasId>, gone: set<AliasId>,
                  awaited: bool)
    | Sweeping(todo: set<AliasId>, gone: set<AliasId>)

  /**
   `torn` counts the registrations that a reset of the registry cut short, for each group and for all, since a
   registration last came to its end there; no step reads it.
   */
  datatype State = State(
    clock: Time,
    rows: map<AliasId, Alias>,
    registry: Table,
    lastSequence: nat,
    nextGeneration: Generation,
    gate: Gate,
    calls: map<AliasId, Call>,
    notices: set<(AliasId, Generation)>,
    tickets: map<AliasId, Ticket>,
    torn: Slack)

  /** Moves of one alias object's seed() call. */
  datatype SeedMove =
    | Start(group: Group, deferred: bool)
    | Again(deferred: bool)
    | Throws
    | Crashes
    | OnAccept(heard: bool)
    | OnRefusal

  /** Moves of one alias object outside seed(). */
  datatype RowMove = Publish | Revoke | Expire

  /** Moves of the registry object, and of the alias objects it calls. */
  datatype RegistryMove =
    | DeliverNotice(a: AliasId, g: Generation)
    | Register(a: AliasId)
    | EvictTarget(a: AliasId, heard: bool)
    | DropVictim(a: AliasId)
    | FinishRegister
    | WithdrawRegister
    | BeginSweep
    | SkipVictim(a: AliasId)
    | FinishSweep
    | Reset

  datatype Step =
    | Tick(elapsed: Time)
    | Seed(a: AliasId, seed: SeedMove)
    | Row(a: AliasId, row: RowMove)
    | Registry(move: RegistryMove)

  // ---- what one object does to its own row ------------------------------------

  /** evictResponseAlias: a generation-fenced delete. */
  function Evict(rows: map<AliasId, Alias>, a: AliasId, g: Generation): map<AliasId, Alias> {
    if a in rows && rows[a].generation == g then rows - {a} else rows
  }

  /** The admitting UPDATE shared by seed() and publishResponseAlias(). */
  predicate CanAdmit(rows: map<AliasId, Alias>, a: AliasId, g: Generation) {
    a in rows && rows[a].generation == g && !rows[a].admitted
  }

  function Admit(rows: map<AliasId, Alias>, a: AliasId, expiresAt: Time): map<AliasId, Alias>
    requires a in rows
  {
    rows[a := rows[a].(admitted := true, expiresAt := expiresAt)]
  }

  /** unregisterRegistryRow: a generation-fenced delete of a table row. */
  function Unregister(table: Table, a: AliasId, g: Generation): Table {
    if a in table && table[a].generation == g then table - {a} else table
  }

  // ---- seed() -----------------------------------------------------------------------

  /** A call that goes away leaves the registration it asked for without a listener. */
  function Unheard(gate: Gate, a: AliasId): Gate {
    if gate.Registering? && gate.who == a then gate.(awaited := false) else gate
  }

  /** A caller that received its ticket does not seed that key again. */
  predicate SeedEnabled(s: State, a: AliasId, m: SeedMove) {
    match m
    case Start(_, _) => a !in s.calls && a !in s.rows && a !in s.tickets
    case Again(_) => a !in s.calls && a in s.rows && s.rows[a].expiresAt > s.clock && a !in s.tickets
    case Throws => a in s.calls && s.calls[a].Waiting?
    case Crashes => a in s.calls
    case OnAccept(_) => a in s.calls && s.calls[a].Accepted?
    case OnRefusal => a in s.calls && s.calls[a].Refused?
  }

  function SeedStarted(s: State, a: AliasId, group: Group, deferred: bool): State {
    s.(rows := s.rows[a := Alias(s.nextGeneration, group, s.clock + PENDING_TTL, false)],
       nextGeneration := s.nextGeneration + 1,
       calls := s.calls[a := Waiting(Request(s.nextGeneration, group, s.clock + ALIAS_TTL, true, false, deferred))])
  }

  function SeedRepeated(s: State, a: AliasId, deferred: bool): State
    requires a in s.rows
  {
    var row := s.rows[a];
    var expiresAt := if row.admitted then row.expiresAt else s.clock + ALIAS_TTL;
    s.(calls := s.calls[a := Waiting(Request(row.generation, row.group, expiresAt, false, row.admitted, deferred))])
  }

  /** The rest of seed() after the registry accepted the registration. */
  function SeedAccepted(s: State, a: AliasId, heard: bool): State
    requires a in s.calls
  {
    var req := s.calls[a].req;
    var t := s.(calls := s.calls - {a});
    if req.deferred then
      if heard then t.(tickets := t.tickets[a := Ticket(req.generation, req.expiresAt)]) else t
    else if req.sawAdmitted then t
    else if CanAdmit(t.rows, a, req.generation) then t.(rows := Admit(t.rows, a, req.expiresAt))
    else if req.isNew then t
    else t.(rows := Evict(t.rows, a, req.generation), notices := t.notices + {(a, req.generation)})
  }

  /** seed() gives up: `evicts` says whether this path deletes the row it wrote. */
  function SeedAbandoned(s: State, a: AliasId, evicts: bool): State
    requires a in s.calls
  {
    s.(calls := s.calls - {a}, gate := Unheard(s.gate, a),
       rows := if evicts then Evict(s.rows, a, s.calls[a].req.generation) else s.rows)
  }

  function SeedNext(s: State, a: AliasId, m: SeedMove): State
    requires SeedEnabled(s, a, m)
  {
    match m
    case Start(group, deferred) => SeedStarted(s, a, group, deferred)
    case Again(deferred) => SeedRepeated(s, a, deferred)
    case Throws => SeedAbandoned(s, a, s.calls[a].req.isNew)
    case Crashes => SeedAbandoned(s, a, false)
    case OnAccept(heard) => SeedAccepted(s, a, heard)
    case OnRefusal => SeedAbandoned(s, a, !s.calls[a].req.sawAdmitted)
  }

  // ---- publish, revoke, expire --------------------------------------------------------

  predicate RowEnabled(s: State, a: AliasId, m: RowMove) {
    match m
    case Publish => a in s.tickets && s.clock < s.tickets[a].expiresAt && CanAdmit(s.rows, a, s.tickets[a].generation)
    case Revoke => a in s.tickets
    case Expire => a in s.rows && s.rows[a].expiresAt <= s.clock
  }

  function RowNext(s: State, a: AliasId, m: RowMove): State
    requires RowEnabled(s, a, m)
  {
    match m
    case Publish => s.(rows := Admit(s.rows, a, s.tickets[a].expiresAt))
    case Revoke => RowGone(s, a, s.tickets[a].generation)
    case Expire => RowGone(s, a, s.rows[a].generation)
  }

  /** The row is deleted and the registry is told. */
  function RowGone(s: State, a: AliasId, g: Generation): State {
    s.(rows := Evict(s.rows, a, g), notices := s.notices + {(a, g)})
  }

  // ---- the registry ---------------------------------------------------------------------

  function Todo(gate: Gate): set<AliasId> {
    if gate.Open? then {} else gate.todo
  }

  function Gone(gate: Gate): set<AliasId> {
    if gate.Open? then {} else gate.gone
  }

  predicate RegistryEnabled(s: State, m: RegistryMove) {
    match m
    case DeliverNotice(a, g) => s.gate.Open? && (a, g) in s.notices
    case Register(a) => s.gate.Open? && a in s.calls && s.calls[a].Waiting?
    case EvictTarget(a, _) => a in Todo(s.gate) && a in s.registry
    case DropVictim(a) => a in Gone(s.gate)
    case FinishRegister => s.gate.Registering? && s.gate.todo == {} && s.gate.gone == {}
    case WithdrawRegister => s.gate.Registering? && s.gate.todo != {} && s.gate.gone == {}
    case BeginSweep => s.gate.Open?
    case SkipVictim(a) => s.gate.Sweeping? && a in s.gate.todo
    case FinishSweep => s.gate.Sweeping? && s.gate.todo == {} && s.gate.gone == {}
    case Reset => !s.gate.Open?
  }

  /** A repeated seed of a visible alias reaches the registry before the registration it repeats has expired. */
  predicate Timely(s: State, m: RegistryMove) {
    m.Register? && m.a in s.calls && s.calls[m.a].req.sawAdmitted
    && m.a in s.registry && s.registry[m.a].generation == s.calls[m.a].req.generation
    ==> s.registry[m.a].expiresAt > s.clock
  }

  function Answered(calls: map<AliasId, Call>, a: AliasId, ok: bool): map<AliasId, Call> {
    if a in calls && calls[a].Waiting? then
      calls[a := if ok then Accepted(calls[a].req) else Refused(calls[a].req)]
    else calls
  }

  /** What the registry answers at once, without touching its table; None when it must insert. */
  datatype Verdict = Accept | Refuse | Insert

  function Judge(s: State, a: AliasId, req: Request): Verdict {
    if req.expiresAt <= s.clock then Refuse
    else if a in s.registry && s.registry[a].expiresAt > s.clock then
      if s.registry[a].generation == req.generation && s.registry[a].group == req.group then Accept else Refuse
    else Insert
  }

  /** registerResponseAliasLocked up to its first await. */
  function BeginRegister(s: State, a: AliasId): State
    requires a in s.calls
  {
    var req := s.calls[a].req;
    match Judge(s, a, req)
    case Accept => s.(calls := Answered(s.calls, a, true))
    case Refuse => s.(calls := Answered(s.calls, a, false))
    case Insert =>
      var base := s.registry[a := Entry(req.generation, req.group, s.lastSequence + 1, req.expiresAt)];
      var victims := Selected(base, s.clock, req.group);
      s.(registry := base, lastSequence := s.lastSequence + 1,
         gate := Registering(a, req.group, base, victims, victims, {}, true))
  }

  function TargetEvicted(s: State, a: AliasId, heard: bool): State
    requires a in s.registry && !s.gate.Open?
  {
    s.(rows := Evict(s.rows, a, s.registry[a].generation),
       gate := if heard then s.gate.(todo := s.gate.todo - {a}, gone := s.gate.gone + {a}) else s.gate)
  }

  function VictimDropped(s: State, a: AliasId): State
    requires !s.gate.Open?
  {
    s.(registry := s.registry - {a}, gate := s.gate.(gone := s.gate.gone - {a}))
  }

  function Relieved(torn: Slack, group: Group): Slack {
    Slack(torn.ofGroup - {group}, 0)
  }

  function Strained(torn: Slack, group: Group): Slack {
    Slack(torn.ofGroup[group := SlackOf(torn, group) + 1], torn.ofAll + 1)
  }

  /** The registration under way ends; a refused one takes its own row back. */
  function RegisterEnded(s: State, ok: bool): State
    requires s.gate.Registering?
  {
    s.(gate := Open,
       torn := if ok then Relieved(s.torn, s.gate.group) else s.torn,
       registry := if ok then s.registry else s.registry - {s.gate.who},
       calls := if s.gate.awaited then Answered(s.calls, s.gate.who, ok) else s.calls)
  }

  /** The registry object loses its memory at an await; a caller that waits gets no answer to that request. */
  function GateLost(s: State): State {
    s.(gate := Open, torn := if s.gate.Registering? then Strained(s.torn, s.gate.group) else s.torn)
  }

  function RegistryNext(s: State, m: RegistryMove): State
    requires RegistryEnabled(s, m)
  {
    match m
    case DeliverNotice(a, g) => s.(registry := Unregister(s.registry, a, g), notices := s.notices - {(a, g)})
    case Register(a) => BeginRegister(s, a)
    case EvictTarget(a, heard) => TargetEvicted(s, a, heard)
    case DropVictim(a) => VictimDropped(s, a)
    case FinishRegister => RegisterEnded(s, true)
    case WithdrawRegister => RegisterEnded(s, false)
    case BeginSweep => s.(gate := Sweeping(set a | a in s.registry && s.registry[a].expiresAt <= s.clock, {}))
    case SkipVictim(a) => s.(gate := s.gate.(todo := s.gate.todo - {a}))
    case FinishSweep => s.(gate := Open)
    case Reset => GateLost(s)
  }

  // ---- runs ---------------------------------------------------------------------------------

  predicate Enabled(s: State, e: Step) {
    match e
    case Tick(_) => true
    case Seed(a, m) => SeedEnabled(s, a, m)
    case Row(a, m) => RowEnabled(s, a, m)
    case Registry(m) => RegistryEnabled(s, m)
  }

  function Apply(s: State, e: Step): State
    requires Enabled(s, e)
  {
    match e
    case Tick(d) => s.(clock := s.clock + d)
    case Seed(a, m) => SeedNext(s, a, m)
    case Row(a, m) => RowNext(s, a, m)
    case Registry(m) => RegistryNext(s, m)
  }

  function Initial(): State {
    State(0, map[], map[], 0, 0, Open, map[], {}, map[], NO_SLACK)
  }

  /** A sequence of steps, each possible where it happens. */
  ghost predicate Possible(s: State, run: seq<Step>)
    decreases |run|
  {
    run == [] || (Enabled(s, run[0]) && Possible(Apply(s, run[0]), run[1..]))
  }

  ghost function Exec(s: State, run: seq<Step>): State
    requires Possible(s, run)
    decreases |run|
  {
    if run == [] then s else Exec(Apply(s, run[0]), run[1..])
  }

  /** A run of the deployed system: its callers repeat themselves in time. */
  ghost predicate Legal(s: State, run: seq<Step>)
    ensures Legal(s, run) ==> Possible(s, run)
    decreases |run|
  {
    run == [] || (Enabled(s, run[0]) && (run[0].Registry? ==> Timely(s, run[0].move)) && Legal(Apply(s, run[0]), run[1..]))
  }

  // ---- the invariant --------------------------------------------------------------

  /** Generation g of alias a is gone for good: fresh generations never repeat. */
  ghost predicate Dead(s: State, a: AliasId, g: Generation) {
    g < s.nextGeneration && !(a in s.rows && s.rows[a].generation == g)
  }

  /** The row is visible, or some caller or call may still make it visible. */
  ghost predicate Ready(s: State, a: AliasId) {
    && a in s.rows
    && (|| s.rows[a].admitted
        || (a in s.tickets && s.tickets[a].generation == s.rows[a].generation)
        || (a in s.calls && s.calls[a].Accepted?))
  }

  /** The registry holds this row's own generation, and it is not the row being admitted now. */
  ghost predicate Registered(s: State, a: AliasId)
    requires a in s.rows
  {
    && a in s.registry
    && s.registry[a].generation == s.rows[a].generation
    && s.registry[a].group == s.rows[a].group
    && !(s.gate.Registering? && s.gate.who == a)
  }

  ghost predicate ReadyIsRegistered(s: State) {
    forall a :: Ready(s, a) ==> Registered(s, a)
  }

  ghost predicate CallsTrackRows(s: State) {
    forall a :: a in s.calls ==>
      && s.calls[a].req.generation < s.nextGeneration
      && a !in s.tickets
      && (s.calls[a].req.isNew ==> !s.calls[a].req.sawAdmitted)
      && (a in s.rows ==>
            && s.rows[a].generation == s.calls[a].req.generation
            && s.rows[a].group == s.calls[a].req.group
            && (!s.calls[a].req.sawAdmitted ==> !s.rows[a].admitted))
  }

  ghost predicate GenerationsMinted(s: State) {
    && (forall a :: a in s.rows ==> s.rows[a].generation < s.nextGeneration)
    && (forall a :: a in s.registry ==> s.registry[a].generation < s.nextGeneration)
    && (forall a :: a in s.tickets ==> s.tickets[a].generation < s.nextGeneration)
    && (forall n :: n in s.notices ==> Dead(s, n.0, n.1))
  }

  ghost predicate TableOrdered(s: State) {
    && DistinctSequences(s.registry)
    && forall a :: a in s.registry ==> s.registry[a].sequence <= s.lastSequence
  }

  /** Who is being admitted, which victims are already gone, and whom the answer goes to. */
  ghost predicate GateTracks(s: State) {
    && (forall a :: a in Gone(s.gate) && a in s.registry ==> Dead(s, a, s.registry[a].generation))
    && (s.gate.Registering? ==>
          var base := s.gate.base;
          && s.gate.who in base && s.gate.who !in s.gate.victims && base[s.gate.who].group == s.gate.group
          && s.gate.todo !! s.gate.gone && s.gate.todo + s.gate.gone <= s.gate.victims <= base.Keys
          && s.registry == base - (s.gate.victims - s.gate.todo - s.gate.gone)
          && (forall v :: v in s.gate.victims && v !in s.gate.todo ==> Dead(s, v, base[v].generation))
          && !(s.gate.who in s.calls && s.calls[s.gate.who].Accepted?)
          && (s.gate.awaited ==>
                && s.gate.who in s.calls && s.calls[s.gate.who].Waiting?
                && s.calls[s.gate.who].req.generation == base[s.gate.who].generation
                && s.calls[s.gate.who].req.group == base[s.gate.who].group))
  }

  /**
   The table exceeds its bounds by no more than the torn registrations, and will do so however the registration
   under way ends; if it comes to its end, its own group and the whole are within bounds again.
   */
  ghost predicate GateBounds(s: State) {
    match s.gate
    case Registering(who, group, base, victims, _, _, _) =>
      Within(base - victims, Relieved(s.torn, group)) && Within(base - {who}, s.torn)
    case _ => Within(s.registry, s.torn)
  }

  ghost predicate Inv(s: State) {
    && GenerationsMinted(s)
    && TableOrdered(s)
    && CallsTrackRows(s)
    && GateTracks(s)
    && GateBounds(s)
    && ReadyIsRegistered(s)
  }

  // ---- seed() moves keep the invariant ---------------------------------------------------

  lemma {:induction false} SeedKeepsGenerations(s: State, a: AliasId, m: SeedMove)
    requires SeedEnabled(s, a, m) && GenerationsMinted(s) && CallsTrackRows(s)
    ensures GenerationsMinted(SeedNext(s, a, m))
  {
  }

  lemma {:induction false} SeedKeepsCalls(s: State, a: AliasId, m: SeedMove)
    requires SeedEnabled(s, a, m) && CallsTrackRows(s) && GenerationsMinted(s)
    ensures CallsTrackRows(SeedNext(s, a, m))
  {
  }

  lemma {:induction false} SeedKeepsDead(s: State, a: AliasId, m: SeedMove)
    requires SeedEnabled(s, a, m)
    ensures forall b, g :: Dead(s, b, g) ==> Dead(SeedNext(s, a, m), b, g)
  {
  }

  lemma {:induction false} SeedKeepsTracks(s: State, a: AliasId, m: SeedMove)
    requires SeedEnabled(s, a, m) && GateTracks(s) && GenerationsMinted(s)
    ensures GateTracks(SeedNext(s, a, m))
  {
    SeedKeepsDead(s, a, m);
    hide Dead;
  }

  lemma {:induction false} SeedKeepsReady(s: State, a: AliasId, m: SeedMove)
    requires SeedEnabled(s, a, m)
    requires GenerationsMinted(s) && CallsTrackRows(s) && ReadyIsRegistered(s)
    ensures ReadyIsRegistered(SeedNext(s, a, m))
  {
    var t := SeedNext(s, a, m);
    forall b | Ready(t, b) ensures Registered(t, b) {
      assert Ready(s, b);
    }
  }

  lemma {:induction false} SeedLeavesTable(s: State, a: AliasId, m: SeedMove)
    requires SeedEnabled(s, a, m) && TableOrdered(s) && GateBounds(s)
    ensures TableOrdered(SeedNext(s, a, m)) && GateBounds(SeedNext(s, a, m))
  {
    hide Within;
  }

  lemma {:induction false} SeedKeepsInv(s: State, a: AliasId, m: SeedMove)
    requires Inv(s) && SeedEnabled(s, a, m)
    ensures Inv(SeedNext(s, a, m))
  {
    hide GenerationsMinted, TableOrdered, CallsTrackRows, GateTracks, ReadyIsRegistered, Within;
    assert TableOrdered(SeedNext(s, a, m)) && GateBounds(SeedNext(s, a, m)) by { SeedLeavesTable(s, a, m); }
    SeedKeepsGenerations(s, a, m);
    SeedKeepsCalls(s, a, m);
    SeedKeepsTracks(s, a, m);
    SeedKeepsReady(s, a, m);
  }

  // ---- row moves keep the invariant -----------------------------------------------------

  lemma {:induction false} RowKeepsTracks(s: State, a: AliasId, m: RowMove)
    requires RowEnabled(s, a, m) && GateTracks(s)
    ensures GateTracks(RowNext(s, a, m))
  {
    var t := RowNext(s, a, m);
    assert forall b, g :: Dead(s, b, g) ==> Dead(t, b, g);
  }

  lemma {:induction false} RowKeepsReady(s: State, a: AliasId, m: RowMove)
    requires RowEnabled(s, a, m) && ReadyIsRegistered(s)
    ensures ReadyIsRegistered(RowNext(s, a, m))
  {
    var t := RowNext(s, a, m);
    forall b | Ready(t, b) ensures Registered(t, b) {
      assert Ready(s, b);
    }
  }

  lemma {:induction false} RowKeepsInv(s: State, a: AliasId, m: RowMove)
    requires Inv(s) && RowEnabled(s, a, m)
    ensures Inv(RowNext(s, a, m))
  {
    hide GateTracks, ReadyIsRegistered, Within;
    RowKeepsTracks(s, a, m);
    RowKeepsReady(s, a, m);
  }

  // ---- registry moves keep the invariant --------------------------------------------------

  lemma {:induction false} RegistryKeepsGenerations(s: State, m: RegistryMove)
    requires RegistryEnabled(s, m) && GenerationsMinted(s) && CallsTrackRows(s)
    ensures GenerationsMinted(RegistryNext(s, m))
  {
    hide Selected;
  }

  /** Fewer rows, and the same requests under other answers. */
  predicate SameRequests(s: State, t: State) {
    && t.nextGeneration == s.nextGeneration && t.tickets == s.tickets
    && (forall a :: a in t.rows ==> a in s.rows && t.rows[a] == s.rows[a])
    && (forall a :: a in t.calls ==> a in s.calls && t.calls[a].req == s.calls[a].req)
  }

  lemma {:induction false} RequestsStay(s: State, m: RegistryMove)
    requires RegistryEnabled(s, m)
    ensures SameRequests(s, RegistryNext(s, m))
  {
    hide Selected, Unregister, Relieved, Strained;
  }

  lemma {:induction false} RegistryKeepsCalls(s: State, m: RegistryMove)
    requires RegistryEnabled(s, m) && CallsTrackRows(s)
    ensures CallsTrackRows(RegistryNext(s, m))
  {
    hide RegistryNext;
    RequestsStay(s, m);
  }

  lemma {:induction false} RegistryKeepsOrder(s: State, m: RegistryMove)
    requires RegistryEnabled(s, m) && TableOrdered(s)
    ensures TableOrdered(RegistryNext(s, m))
  {
    hide Selected;
  }

  lemma {:induction false} RegisterKeepsTracks(s: State, a: AliasId)
    requires RegistryEnabled(s, Register(a)) && GateTracks(s) && TableOrdered(s)
    ensures GateTracks(BeginRegister(s, a))
  {
    var t := BeginRegister(s, a);
    if t.gate.Registering? {
      NewestIsNoVictim(t.registry, s.clock, a);
      assert t.registry == t.registry - (t.gate.victims - t.gate.todo - t.gate.gone);
    }
  }

  lemma {:induction false} EvictKeepsTracks(s: State, a: AliasId, heard: bool)
    requires RegistryEnabled(s, EvictTarget(a, heard)) && GateTracks(s) && GenerationsMinted(s)
    ensures GateTracks(TargetEvicted(s, a, heard))
  {
    var t := TargetEvicted(s, a, heard);
    assert Dead(t, a, s.registry[a].generation);
    assert forall b, g :: Dead(s, b, g) ==> Dead(t, b, g);
    if s.gate.Registering? {
      assert s.gate.victims - t.gate.todo - t.gate.gone == s.gate.victims - s.gate.todo - s.gate.gone;
    }
  }

  lemma {:induction false} DropKeepsTracks(s: State, a: AliasId)
    requires RegistryEnabled(s, DropVictim(a)) && GateTracks(s)
    ensures GateTracks(VictimDropped(s, a))
  {
    var t := VictimDropped(s, a);
    if s.gate.Registering? {
      assert t.gate.victims - t.gate.todo - t.gate.gone == s.gate.victims - s.gate.todo - s.gate.gone + {a};
    }
  }

  lemma {:induction false} RegistryKeepsTracks(s: State, m: RegistryMove)
    requires RegistryEnabled(s, m) && GateTracks(s) && GenerationsMinted(s) && TableOrdered(s)
    ensures GateTracks(RegistryNext(s, m))
  {
    match m
    case Register(a) => hide BeginRegister; RegisterKeepsTracks(s, a);
    case EvictTarget(a, heard) => hide TargetEvicted; EvictKeepsTracks(s, a, heard);
    case DropVictim(a) => hide VictimDropped; DropKeepsTracks(s, a);
    case _ =>
  }

  /** A new row counts in its own group only. */
  lemma {:induction false} OthersOfGroup(table: Table, a: AliasId)
    requires a in table
    ensures forall g :: g != table[a].group ==> InGroup(table, g) == InGroup(table - {a}, g)
    ensures |InGroup(table, table[a].group)| == |InGroup(table - {a}, table[a].group)| + 1
    ensures |table| == |table - {a}| + 1
  {
    var group := InGroup(table, table[a].group);
    assert group == InGroup(table - {a}, table[a].group) + {a};
    assert table.Keys == (table - {a}).Keys + {a};
  }

  lemma {:induction false} InsertedWithin(before: Table, a: AliasId, entry: Entry, now: Time, torn: Slack)
    requires Within(before, torn) && DistinctSequences(before[a := entry])
    ensures var table := before[a := entry];
      Within(table - {a}, torn) && Within(table - Selected(table, now, entry.group), Relieved(torn, entry.group))
  {
    hide Selected, InGroup, DistinctSequences;
    var table := before[a := entry];
    SubtableWithin(table - {a}, before, torn);
    OthersOfGroup(table, a);
    SelectionRestores(table, now, entry.group);
  }

  /** The registration that opens will end within bounds, whichever way it ends. */
  lemma {:induction false} RegisterKeepsBounds(s: State, a: AliasId)
    requires RegistryEnabled(s, Register(a)) && GateBounds(s) && TableOrdered(s)
    ensures GateBounds(BeginRegister(s, a))
  {
    hide Selected, Within;
    var t := BeginRegister(s, a);
    if t.gate.Registering? {
      InsertedWithin(s.registry, a, t.registry[a], s.clock, s.torn);
    }
  }

  lemma {:induction false} EndKeepsBounds(s: State, ok: bool)
    requires GateBounds(s) && GateTracks(s) && s.gate.Registering?
    requires ok ==> s.gate.todo == {} && s.gate.gone == {}
    ensures GateBounds(RegisterEnded(s, ok))
  {
    hide Within;
    if ok {
      assert s.registry == s.gate.base - s.gate.victims;
    } else {
      SubtableWithin(s.registry - {s.gate.who}, s.gate.base - {s.gate.who}, s.torn);
    }
  }

  /** A registration cut short leaves at most its own row too many. */
  lemma {:induction false} ResetKeepsBounds(s: State)
    requires GateBounds(s) && GateTracks(s) && !s.gate.Open?
    ensures GateBounds(GateLost(s))
  {
    hide InGroup;
    if s.gate.Registering? {
      OthersOfGroup(s.gate.base, s.gate.who);
      assert Within(s.gate.base, Strained(s.torn, s.gate.group));
      SubtableWithin(s.registry, s.gate.base, Strained(s.torn, s.gate.group));
    }
  }

  lemma {:induction false} FewerRowsWithin(table: Table, gone: set<AliasId>, slack: Slack)
    requires Within(table, slack)
    ensures Within(table - gone, slack)
  {
    SubtableWithin(table - gone, table, slack);
  }

  lemma {:induction false} NoticeKeepsBounds(s: State, a: AliasId, g: Generation)
    requires RegistryEnabled(s, DeliverNotice(a, g)) && GateBounds(s)
    ensures GateBounds(RegistryNext(s, DeliverNotice(a, g)))
  {
    hide Within;
    FewerRowsWithin(s.registry, {a}, s.torn);
  }

  lemma {:induction false} DropKeepsBounds(s: State, a: AliasId)
    requires RegistryEnabled(s, DropVictim(a)) && GateBounds(s)
    ensures GateBounds(VictimDropped(s, a))
  {
    hide Within;
    if s.gate.Sweeping? {
      FewerRowsWithin(s.registry, {a}, s.torn);
    }
  }

  lemma {:induction false} RegistryKeepsBounds(s: State, m: RegistryMove)
    requires RegistryEnabled(s, m) && GateBounds(s) && GateTracks(s) && TableOrdered(s)
    ensures GateBounds(RegistryNext(s, m))
  {
    hide Within, BeginRegister, RegisterEnded, VictimDropped, GateLost, GateTracks, TableOrdered;
    match m
    case Register(a) => RegisterKeepsBounds(s, a);
    case FinishRegister => EndKeepsBounds(s, true);
    case WithdrawRegister => EndKeepsBounds(s, false);
    case Reset => ResetKeepsBounds(s);
    case DeliverNotice(a, g) => NoticeKeepsBounds(s, a, g);
    case DropVictim(a) => DropKeepsBounds(s, a);
    case _ =>
  }

  /** Only dead generations, and rows nobody can see yet, leave the table. */
  lemma {:induction false} RegistryKeepsReady(s: State, m: RegistryMove)
    requires RegistryEnabled(s, m) && Timely(s, m)
    requires GenerationsMinted(s) && CallsTrackRows(s) && GateTracks(s) && ReadyIsRegistered(s)
    ensures ReadyIsRegistered(RegistryNext(s, m))
  {
    hide Selected;
    var t := RegistryNext(s, m);
    forall a | Ready(t, a) ensures Registered(t, a) {
      if !Ready(s, a) {
        assert a in t.calls && t.calls[a].Accepted?;
      }
    }
  }

  lemma {:induction false} RegistryKeepsInv(s: State, m: RegistryMove)
    requires Inv(s) && RegistryEnabled(s, m) && Timely(s, m)
    ensures Inv(RegistryNext(s, m))
  {
    hide GenerationsMinted, TableOrdered, CallsTrackRows, GateTracks, GateBounds, ReadyIsRegistered;
    hide RegistryNext, RegistryEnabled, Timely;
    RegistryKeepsGenerations(s, m);
    RegistryKeepsCalls(s, m);
    RegistryKeepsOrder(s, m);
    RegistryKeepsTracks(s, m);
    RegistryKeepsBounds(s, m);
    RegistryKeepsReady(s, m);
  }

  lemma {:induction false} TickKeepsInv(s: State, d: Time)
    requires Inv(s)
    ensures Inv(s.(clock := s.clock + d))
  {
    hide Within;
    var t := s.(clock := s.clock + d);
    forall a | Ready(t, a) ensures Registered(t, a) {
      assert Ready(s, a);
    }
  }

  lemma {:induction false} StepKeepsInv(s: State, e: Step)
    requires Inv(s) && Enabled(s, e) && (e.Registry? ==> Timely(s, e.move))
    ensures Inv(Apply(s, e))
  {
    hide Inv, Timely, SeedNext, RowNext, RegistryNext, SeedEnabled, RowEnabled, RegistryEnabled;
    match e
    case Tick(d) => TickKeepsInv(s, d);
    case Seed(a, m) => SeedKeepsInv(s, a, m);
    case Row(a, m) => RowKeepsInv(s, a, m);
    case Registry(m) => RegistryKeepsInv(s, m);
  }

  lemma {:induction false} RunKeepsInv(s: State, run: seq<Step>)
    requires Inv(s) && Legal(s, run)
    ensures Inv(Exec(s, run))
    decreases |run|
  {
    hide Inv, Apply, Enabled, Timely;
    if run != [] {
      StepKeepsInv(s, run[0]);
      RunKeepsInv(Apply(s, run[0]), run[1..]);
    }
  }

  lemma {:induction false} ReachableInv(run: seq<Step>)
    requires Legal(Initial(), run)
    ensures Inv(Exec(Initial(), run))
  {
    RunKeepsInv(Initial(), run);
  }

  // ---- main results -------------------------------------------------------------------

  ghost function Published(s: State): set<AliasId> {
    set a | a in s.rows && s.rows[a].admitted
  }

  ghost function PublishedInGroup(s: State, group: Group): set<AliasId> {
    set a | a in s.rows && s.rows[a].admitted && s.rows[a].group == group
  }

  /** The rows that can back published aliases: all but the one being admitted. */
  ghost function Backing(s: State): Table {
    if s.gate.Registering? then s.registry - {s.gate.who} else s.registry
  }

  lemma {:induction false} BackingIsBounded(s: State)
    requires GateTracks(s) && GateBounds(s)
    ensures Within(Backing(s), s.torn)
  {
    hide Within;
    if s.gate.Registering? {
      SubtableWithin(Backing(s), s.gate.base - {s.gate.who}, s.torn);
    }
  }

  lemma {:induction false} PublishedHaveBacking(s: State)
    requires ReadyIsRegistered(s)
    ensures forall a :: a in Published(s) ==>
      && a in Backing(s) && Backing(s)[a].generation == s.rows[a].generation
      && Backing(s)[a].group == s.rows[a].group
  {
    forall a | a in Published(s) ensures Registered(s, a) {
      assert Ready(s, a);
    }
  }

  /**
   In every reachable state a published alias is backed by a registry row of its own generation and group; at
   most 64 share a group and at most 512 exist, and one more for each registration that a reset has torn since
   a registration last came to its end in that group, or in any.
   */
  lemma {:induction false} PublishedAliasesAreBounded(run: seq<Step>, s: State)
    requires Legal(Initial(), run) && s == Exec(Initial(), run)
    ensures forall a :: a in Published(s) ==>
      && a in s.registry && s.registry[a].generation == s.rows[a].generation
      && s.registry[a].group == s.rows[a].group
    ensures forall g :: |PublishedInGroup(s, g)| <= MAX_PER_GROUP + SlackOf(s.torn, g)
    ensures |Published(s)| <= MAX_TOTAL + s.torn.ofAll
  {
    ReachableInv(run);
    PublishedHaveBacking(s);
    BackingIsBounded(s);
    SubsetSize(Published(s), Backing(s).Keys);
    forall g ensures |PublishedInGroup(s, g)| <= MAX_PER_GROUP + SlackOf(s.torn, g) {
      SubsetSize(PublishedInGroup(s, g), InGroup(Backing(s), g));
    }
  }

  ghost predicate FailClosed(s: State, t: State)
    requires s.gate.Registering?
  {
    || (t.registry == s.gate.base - s.gate.victims && s.gate.who in t.registry
        && forall v :: v in s.gate.victims && v in s.gate.base ==> Dead(t, v, s.gate.base[v].generation))
    || (s.gate.who !in t.registry && !(s.gate.who in t.calls && t.calls[s.gate.who].Accepted?))
  }

  lemma {:induction false} EndIsFailClosed(s: State, ok: bool)
    requires GateTracks(s) && s.gate.Registering?
    requires ok ==> s.gate.todo == {} && s.gate.gone == {}
    ensures FailClosed(s, RegisterEnded(s, ok))
  {
    if ok {
      assert s.registry == s.gate.base - s.gate.victims;
    }
  }

  /**
   Admission is fail-closed: when a registration ends, either every victim is
   gone and the table is exactly the rows that were not victims, the new row
   among them, or the new row is withdrawn and its caller is not accepted. A
   registration that a reset tears has not ended.
   */
  lemma {:induction false} RegistrationIsFailClosed(run: seq<Step>, s: State, e: Step)
    requires Legal(Initial(), run) && s == Exec(Initial(), run) && Enabled(s, e)
    requires s.gate.Registering? && Apply(s, e).gate.Open? && e != Registry(Reset)
    ensures FailClosed(s, Apply(s, e))
  {
    hide GenerationsMinted, TableOrdered, CallsTrackRows, GateBounds, ReadyIsRegistered, GateTracks, FailClosed;
    ReachableInv(run);
    assert e == Registry(FinishRegister) || e == Registry(WithdrawRegister);
    EndIsFailClosed(s, e == Registry(FinishRegister));
  }

  // ---- repeated seeds ---------------------------------------------------------------------

  /** Seeding a visible alias again changes nothing in the registry; the answer depends on the alias's own expiry alone. */
  lemma {:induction false} RepeatIsNoOp(s: State, a: AliasId)
    requires Inv(s) && RegistryEnabled(s, Register(a)) && Timely(s, Register(a)) && s.calls[a].req.sawAdmitted
    requires a in s.rows && s.rows[a].admitted
    ensures Judge(s, a, s.calls[a].req) == if s.calls[a].req.expiresAt <= s.clock then Refuse else Accept
    ensures BeginRegister(s, a).registry == s.registry && BeginRegister(s, a).gate == s.gate && BeginRegister(s, a).rows == s.rows
  {
    hide GenerationsMinted, TableOrdered, GateTracks, GateBounds;
    assert Ready(s, a);
  }
}
