/** What each move of the alias protocol does, seen from outside: rows, registrations and answers (src/chat-session.ts). */
module AliasOutcomes {
  import opened AliasVictims
  import opened AliasProtocol
  import opened AliasRuns

  ghost predicate Occurs(s: State, e: Step) {
    Inv(s) && Enabled(s, e) && (e.Registry? ==> Timely(s, e.move))
  }

  // ---- rows -----------------------------------------------------------------------------------

  /** seed() inserts the row, invisible and short-lived. */
  predicate Inserts(e: Step, a: AliasId) {
    e.Seed? && e.a == a && e.seed.Start?
  }

  /** A publisher with its ticket, or a seed() whose visibility is not deferred and whose registration was accepted. */
  predicate Shows(s: State, e: Step, a: AliasId)
    requires Enabled(s, e)
  {
    || e == Row(a, Publish)
    || (e.Seed? && e.a == a && e.seed.OnAccept?
        && !s.calls[a].req.deferred && !s.calls[a].req.sawAdmitted
        && a in s.rows && s.rows[a].generation == s.calls[a].req.generation)
  }

  /** Revoked under its own generation, expired, evicted by the registry, or taken back by the seed() that wrote it. */
  predicate Deletes(s: State, e: Step, a: AliasId)
    requires Enabled(s, e)
  {
    && a in s.rows
    && (|| e == Row(a, Expire)
        || (e == Row(a, Revoke) && s.tickets[a].generation == s.rows[a].generation)
        || (e.Registry? && e.move.EvictTarget? && e.move.a == a && s.registry[a].generation == s.rows[a].generation)
        || (e == Seed(a, Throws) && s.calls[a].req.isNew)
        || (e == Seed(a, OnRefusal) && !s.calls[a].req.sawAdmitted))
  }

  function ShownUntil(s: State, e: Step, a: AliasId): Time
    requires Enabled(s, e) && Shows(s, e, a)
  {
    if e.Row? then s.tickets[a].expiresAt else s.calls[a].req.expiresAt
  }

  /** What becomes of every row in one move, whatever the move. */
  ghost predicate RowOutcome(s: State, e: Step, t: State, a: AliasId)
    requires Enabled(s, e)
  {
    && (Inserts(e, a) ==> a !in s.rows && a in t.rows && t.rows[a] == Alias(s.nextGeneration, e.seed.group, s.clock + PENDING_TTL, false))
    && (Shows(s, e, a) ==>
          && a in s.rows && !s.rows[a].admitted && a in t.rows
          && t.rows[a] == Alias(s.rows[a].generation, s.rows[a].group, ShownUntil(s, e, a), true))
    && (Deletes(s, e, a) ==> a !in t.rows)
    && (!Inserts(e, a) && !Shows(s, e, a) && !Deletes(s, e, a) ==>
          (a in t.rows <==> a in s.rows) && (a in t.rows ==> t.rows[a] == s.rows[a]))
  }

  lemma {:induction false} SeedOutcome(s: State, b: AliasId, m: SeedMove, a: AliasId)
    requires CallsTrackRows(s) && SeedEnabled(s, b, m)
    ensures RowOutcome(s, Seed(b, m), SeedNext(s, b, m), a)
  {
  }

  lemma {:induction false} MoveOutcome(s: State, b: AliasId, m: RowMove, a: AliasId)
    requires RowEnabled(s, b, m)
    ensures RowOutcome(s, Row(b, m), RowNext(s, b, m), a)
  {
  }

  lemma {:induction false} RegistryOutcome(s: State, m: RegistryMove, a: AliasId)
    requires RegistryEnabled(s, m)
    ensures RowOutcome(s, Registry(m), RegistryNext(s, m), a)
  {
    hide Selected;
  }

  /** Rows are inserted, made visible and deleted by exactly these moves; a visible row is never changed. */
  lemma {:induction false} RowsChangeExactly(s: State, e: Step, a: AliasId)
    requires Occurs(s, e)
    ensures RowOutcome(s, e, Apply(s, e), a)
    ensures a in Published(Apply(s, e)) <==> Shows(s, e, a) || (a in Published(s) && !Deletes(s, e, a))
  {
    hide GenerationsMinted, TableOrdered, GateTracks, GateBounds, ReadyIsRegistered, SeedNext, RowNext, RegistryNext;
    hide SeedEnabled, RowEnabled, RegistryEnabled, Timely;
    match e
    case Tick(_) =>
    case Seed(b, m) => SeedOutcome(s, b, m, a);
    case Row(b, m) => MoveOutcome(s, b, m, a);
    case Registry(m) => RegistryOutcome(s, m, a);
  }

  // ---- registrations and answers --------------------------------------------------------------

  /** Registrations enter by an insertion only, with the next sequence number, and leave by these three moves. */
  predicate Enters(s: State, e: Step, a: AliasId)
    requires Enabled(s, e)
  {
    e == Registry(Register(a)) && Judge(s, a, s.calls[a].req).Insert?
  }

  predicate Leaves(s: State, e: Step, a: AliasId)
    requires Enabled(s, e)
  {
    && a in s.registry && e.Registry?
    && (|| e.move == DeliverNotice(a, s.registry[a].generation)
        || e.move == DropVictim(a)
        || (e.move.WithdrawRegister? && s.gate.who == a))
  }

  lemma {:induction false} RegistrationsChangeExactly(s: State, e: Step, a: AliasId)
    requires Enabled(s, e)
    ensures var t := Apply(s, e);
      && (Enters(s, e, a) ==>
            var req := s.calls[a].req;
            a in t.registry && t.registry[a] == Entry(req.generation, req.group, s.lastSequence + 1, req.expiresAt)
            && t.lastSequence == s.lastSequence + 1)
      && (Leaves(s, e, a) ==> a !in t.registry)
      && (!Enters(s, e, a) && !Leaves(s, e, a) ==>
            (a in t.registry <==> a in s.registry) && (a in t.registry ==> t.registry[a] == s.registry[a]))
  {
    hide Selected, SeedNext, Evict, Answered;
    match e
    case Tick(_) =>
    case Seed(b, m) => SeedSparesRegistry(s, b, m);
    case Row(b, m) =>
    case Registry(m) =>
  }

  lemma {:induction false} SeedSparesRegistry(s: State, b: AliasId, m: SeedMove)
    requires SeedEnabled(s, b, m)
    ensures SeedNext(s, b, m).registry == s.registry && SeedNext(s, b, m).lastSequence == s.lastSequence
  {
  }

  /** A request is refused when it has expired or names another generation, accepted when its own registration stands. */
  predicate StandsFor(s: State, a: AliasId, req: Request) {
    a in s.registry && s.registry[a].expiresAt > s.clock && s.registry[a].generation == req.generation && s.registry[a].group == req.group
  }

  predicate Conflicts(s: State, a: AliasId, req: Request) {
    a in s.registry && s.registry[a].expiresAt > s.clock && !(s.registry[a].generation == req.generation && s.registry[a].group == req.group)
  }

  predicate HearsYes(s: State, e: Step, a: AliasId, req: Request) {
    || (e == Registry(Register(a)) && req.expiresAt > s.clock && StandsFor(s, a, req))
    || (e == Registry(FinishRegister) && s.gate.Registering? && s.gate.who == a && s.gate.awaited)
  }

  predicate HearsNo(s: State, e: Step, a: AliasId, req: Request) {
    || (e == Registry(Register(a)) && (req.expiresAt <= s.clock || Conflicts(s, a, req)))
    || (e == Registry(WithdrawRegister) && s.gate.Registering? && s.gate.who == a && s.gate.awaited)
  }

  /** What becomes of a waiting call. */
  predicate CallOutcome(s: State, e: Step, t: State, a: AliasId)
    requires a in s.calls
  {
    var req := s.calls[a].req;
    if e == Seed(a, Throws) || e == Seed(a, Crashes) then a !in t.calls
    else a in t.calls && t.calls[a] == if HearsYes(s, e, a, req) then Accepted(req) else if HearsNo(s, e, a, req) then Refused(req) else Waiting(req)
  }

  lemma {:induction false} SeedAnswers(s: State, b: AliasId, m: SeedMove, a: AliasId)
    requires SeedEnabled(s, b, m) && a in s.calls && s.calls[a].Waiting?
    ensures CallOutcome(s, Seed(b, m), SeedNext(s, b, m), a)
  {
    hide Evict, Unheard, CanAdmit;
  }

  lemma {:induction false} RegistryAnswers(s: State, m: RegistryMove, a: AliasId)
    requires RegistryEnabled(s, m) && a in s.calls && s.calls[a].Waiting?
    ensures CallOutcome(s, Registry(m), RegistryNext(s, m), a)
  {
    hide Selected, Evict;
  }

  /** A waiting seed() hears yes when its registration stands or comes to its end, no when it cannot be made or is withdrawn. */
  lemma {:induction false} AnswersExactly(s: State, e: Step, a: AliasId)
    requires Enabled(s, e) && a in s.calls && s.calls[a].Waiting?
    ensures CallOutcome(s, e, Apply(s, e), a)
  {
    hide SeedNext, RegistryNext, SeedEnabled, RegistryEnabled;
    match e
    case Tick(_) =>
    case Seed(b, m) => SeedAnswers(s, b, m, a);
    case Row(b, m) =>
    case Registry(m) => RegistryAnswers(s, m, a);
  }

  /** A seed() asks for its own row's generation and group: for a week, or as long as the visible row has left. */
  lemma {:induction false} RequestsAreExact(s: State, a: AliasId, m: SeedMove)
    requires SeedEnabled(s, a, m) && a !in s.calls
    ensures var t := SeedNext(s, a, m);
      && a in t.calls && t.calls[a].Waiting? && a in t.rows
      && var req := t.calls[a].req;
      && req.generation == t.rows[a].generation && req.group == t.rows[a].group
      && req.sawAdmitted == t.rows[a].admitted && req.isNew == (a !in s.rows)
      && req.deferred == (if m.Start? then m.deferred else m.Again? && m.deferred)
      && req.expiresAt == if t.rows[a].admitted then t.rows[a].expiresAt else s.clock + ALIAS_TTL
  {
  }

  /** A ticket is handed over exactly when a deferred seed() was accepted and its caller hears it. */
  lemma {:induction false} TicketsChangeExactly(s: State, e: Step, a: AliasId)
    requires Enabled(s, e)
    ensures var t := Apply(s, e);
      if e == Seed(a, OnAccept(true)) && s.calls[a].req.deferred
      then a in t.tickets && t.tickets[a] == Ticket(s.calls[a].req.generation, s.calls[a].req.expiresAt)
      else (a in t.tickets <==> a in s.tickets) && (a in t.tickets ==> t.tickets[a] == s.tickets[a])
  {
    hide Selected, Evict, CanAdmit, Unheard, Answered;
  }

  /** Which rows a registration and a sweep set out to evict, and how a victim's answer moves it on. */
  lemma {:induction false} EvictionsAreExact(s: State, m: RegistryMove)
    requires RegistryEnabled(s, m)
    ensures var t := RegistryNext(s, m);
      && (m.Register? && t.gate.Registering? ==>
            && t.gate.base == t.registry && t.gate.victims == t.gate.todo == Selected(t.registry, s.clock, s.calls[m.a].req.group)
            && t.gate.gone == {} && t.gate.awaited && t.gate.who == m.a)
      && (m.BeginSweep? ==>
            && t.gate.Sweeping? && t.gate.gone == {}
            && (forall a :: a in t.gate.todo <==> a in s.registry && s.registry[a].expiresAt <= s.clock))
      && (m.EvictTarget? ==>
            && Todo(t.gate) == (if m.heard then Todo(s.gate) - {m.a} else Todo(s.gate))
            && Gone(t.gate) == (if m.heard then Gone(s.gate) + {m.a} else Gone(s.gate)))
      && (m.DropVictim? ==> Todo(t.gate) == Todo(s.gate) && Gone(t.gate) == Gone(s.gate) - {m.a})
  {
    hide Selected, Answered, Evict;
  }

  // ---- tickets: publish and revoke --------------------------------------------------------------

  /**
   A valid ticket for a row that is still its own and not visible: publishing is possible, makes exactly this alias
   visible until the time on the ticket, and its registration is there already.
   */
  lemma {:induction false} PublishShows(run: seq<Step>, s: State, a: AliasId)
    requires Legal(Initial(), run) && s == Exec(Initial(), run)
    requires a in s.tickets && s.clock < s.tickets[a].expiresAt
    requires a in s.rows && s.rows[a].generation == s.tickets[a].generation && !s.rows[a].admitted
    ensures Enabled(s, Row(a, Publish))
    ensures var t := Apply(s, Row(a, Publish)); var ticket := s.tickets[a];
      && a in Published(t) && t.rows[a] == Alias(ticket.generation, s.rows[a].group, ticket.expiresAt, true)
      && t == s.(rows := t.rows) && t.rows - {a} == s.rows - {a}
      && a in t.registry && t.registry[a].generation == ticket.generation && t.registry[a].group == s.rows[a].group
  {
    hide GenerationsMinted, TableOrdered, CallsTrackRows, GateTracks, GateBounds;
    ReachableInv(run);
    assert Ready(s, a);
  }

  /** Afterwards the ticket's generation is in no row; a row of another generation, and every other row, is as it was. */
  lemma {:induction false} RevokeHides(s: State, a: AliasId)
    requires a in s.tickets
    ensures Enabled(s, Row(a, Revoke))
    ensures var t := Apply(s, Row(a, Revoke)); var g := s.tickets[a].generation;
      && !(a in t.rows && t.rows[a].generation == g)
      && (a in s.rows && s.rows[a].generation != g ==> a in t.rows && t.rows[a] == s.rows[a])
      && t.rows - {a} == s.rows - {a} && t.registry == s.registry && (a, g) in t.notices
  {
  }

  /** A generation that is gone never comes back, whatever happens after it. */
  lemma {:induction false} GoneForGood(s: State, run: seq<Step>, a: AliasId, g: Generation)
    requires Possible(s, run) && Dead(s, a, g)
    ensures Dead(Exec(s, run), a, g)
    decreases |run|
  {
    hide Enabled, Apply, Dead;
    if run != [] {
      StepKeepsDead(s, run[0], a, g);
      GoneForGood(Apply(s, run[0]), run[1..], a, g);
    }
  }

  lemma {:induction false} StepKeepsDead(s: State, e: Step, a: AliasId, g: Generation)
    requires Enabled(s, e) && Dead(s, a, g)
    ensures Dead(Apply(s, e), a, g)
  {
    hide Selected;
    if e.Seed? {
      SeedKeepsDead(s, e.a, e.seed);
    }
  }

  /** An alias that was revoked under its ticket is never visible again under that generation. */
  lemma {:induction false} RevokedStaysHidden(run: seq<Step>, s: State, a: AliasId, later: seq<Step>)
    requires Legal(Initial(), run) && s == Exec(Initial(), run) && a in s.tickets
    requires Enabled(s, Row(a, Revoke)) && Possible(Apply(s, Row(a, Revoke)), later)
    ensures var u := Exec(Apply(s, Row(a, Revoke)), later); a in Published(u) ==> u.rows[a].generation != s.tickets[a].generation
  {
    hide Legal, Possible, Exec, TableOrdered, CallsTrackRows, GateTracks, GateBounds, ReadyIsRegistered;
    ReachableInv(run);
    var t := Apply(s, Row(a, Revoke));
    assert Dead(t, a, s.tickets[a].generation);
    GoneForGood(t, later, a, s.tickets[a].generation);
  }

  const TICKET_RUN := [Seed(0, Start(0, true)), Registry(Register(0)), Registry(FinishRegister), Seed(0, OnAccept(true)), Row(0, Publish)]

  /** Registered, not visible, and its caller holds the ticket. */
  function Held(): State {
    State(0, map[0 := Alias(0, 0, PENDING_TTL, false)], map[0 := Entry(0, 0, 1, ALIAS_TTL)],
          1, 1, Open, map[], {}, map[0 := Ticket(0, ALIAS_TTL)], NO_SLACK)
  }

  /** The registration of alias 0 has come to its end, and its call is accepted. */
  function Answered0(): State {
    Held().(tickets := map[], calls := map[0 := Accepted(Request(0, 0, ALIAS_TTL, true, false, true))])
  }

  lemma {:induction false} AnswerIsReached() returns (run: seq<Step>)
    ensures run == TICKET_RUN[..3] && Reaches(run, Answered0())
  {
    hide Selected;
    var s := Initial();
    run := Onward([], s, Seed(0, Start(0, true)));
    var started := SeedStarted(s, 0, 0, true);
    run := Onward(run, started, Registry(Register(0)));
    var asked := BeginRegister(started, 0);
    Nobody(asked.registry, 0, 0);
    run := Onward(run, asked, Registry(FinishRegister));
    assert NO_SLACK.ofGroup - {0} == map[];
    assert RegisterEnded(asked, true) == Answered0();
  }

  /** An alias whose visibility was deferred is registered, handed over as a ticket, and published with it. */
  lemma {:induction false} TicketIsPublished()
    ensures Legal(Initial(), TICKET_RUN)
    ensures var s := Exec(Initial(), TICKET_RUN);
      && s.rows == map[0 := Alias(0, 0, ALIAS_TTL, true)] && s.registry == map[0 := Entry(0, 0, 1, ALIAS_TTL)]
      && s.tickets == map[0 := Ticket(0, ALIAS_TTL)]
  {
    hide Legal, Exec;
    var run := AnswerIsReached();
    run := Onward(run, Answered0(), Seed(0, OnAccept(true)));
    assert Answered0().calls - {0} == map[];
    assert SeedAccepted(Answered0(), 0, true) == Held();
    run := Onward(run, Held(), Row(0, Publish));
    assert run == TICKET_RUN;
  }
}
