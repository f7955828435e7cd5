/**
 Runs of the alias protocol that reach what its invariant leaves open (src/chat-session.ts:667-770, 2033-2073): how
 far torn registrations carry a table over its bounds, and why repeats must come in time.
 */
module AliasRuns {
  import opened AliasVictims
  import opened AliasProtocol

  lemma {:induction false} PossibleSnoc(s: State, run: seq<Step>, e: Step)
    requires Possible(s, run) && Enabled(Exec(s, run), e)
    ensures Possible(s, run + [e]) && Exec(s, run + [e]) == Apply(Exec(s, run), e)
    decreases |run|
  {
    hide Enabled, Apply;
    if run == [] {
      assert [e][1..] == [] && run + [e] == [e];
    } else {
      assert (run + [e])[1..] == run[1..] + [e];
      PossibleSnoc(Apply(s, run[0]), run[1..], e);
    }
  }

  lemma {:induction false} LegalSnoc(s: State, run: seq<Step>, e: Step)
    requires Legal(s, run) && Enabled(Exec(s, run), e) && (e.Registry? ==> Timely(Exec(s, run), e.move))
    ensures Legal(s, run + [e]) && Exec(s, run + [e]) == Apply(Exec(s, run), e)
    decreases |run|
  {
    hide Enabled, Apply, Timely;
    if run == [] {
      assert [e][1..] == [] && run + [e] == [e];
    } else {
      assert (run + [e])[1..] == run[1..] + [e];
      LegalSnoc(Apply(s, run[0]), run[1..], e);
    }
  }

  ghost predicate Reaches(run: seq<Step>, s: State) {
    Legal(Initial(), run) && Exec(Initial(), run) == s
  }

  lemma {:induction false} Onward(run: seq<Step>, s: State, e: Step) returns (longer: seq<Step>)
    requires Reaches(run, s) && Enabled(s, e) && (e.Registry? ==> Timely(s, e.move))
    ensures longer == run + [e] && Reaches(longer, Apply(s, e))
  {
    hide Enabled, Apply, Timely;
    LegalSnoc(Initial(), run, e);
    longer := run + [e];
  }

  // ---- seed() from one stretch to the next -----------------------------------------------------

  predicate Unknown(s: State, a: AliasId) {
    s.gate.Open? && a !in s.rows && a !in s.registry && a !in s.calls && a !in s.tickets
  }

  function Asking(s: State, group: Group): Request {
    Request(s.nextGeneration, group, s.clock + ALIAS_TTL, true, false, false)
  }

  function Inserted(s: State, a: AliasId, group: Group): Table {
    s.registry[a := Entry(s.nextGeneration, group, s.lastSequence + 1, s.clock + ALIAS_TTL)]
  }

  /** A new alias has its row and its registration, and nobody waits for it. */
  function Pending(s: State, a: AliasId, group: Group): State {
    s.(rows := s.rows[a := Alias(s.nextGeneration, group, s.clock + PENDING_TTL, false)],
       nextGeneration := s.nextGeneration + 1, registry := Inserted(s, a, group), lastSequence := s.lastSequence + 1)
  }

  function Admitting(s: State, a: AliasId, group: Group): State {
    var victims := Selected(Inserted(s, a, group), s.clock, group);
    Pending(s, a, group).(calls := s.calls[a := Waiting(Asking(s, group))],
                          gate := Registering(a, group, Inserted(s, a, group), victims, victims, {}, true))
  }

  function Answering(s: State, a: AliasId, group: Group): State {
    Pending(s, a, group).(calls := s.calls[a := Accepted(Asking(s, group))], torn := Relieved(s.torn, group))
  }

  lemma {:induction false} Begun(run: seq<Step>, s: State, a: AliasId, group: Group) returns (longer: seq<Step>)
    requires Reaches(run, s) && Unknown(s, a)
    ensures Reaches(longer, Admitting(s, a, group))
  {
    hide Selected, Reaches;
    var started := SeedStarted(s, a, group, false);
    longer := Onward(run, s, Seed(a, Start(group, false)));
    longer := Onward(longer, started, Registry(Register(a)));
    assert BeginRegister(started, a) == Admitting(s, a, group);
  }

  lemma {:induction false} Finished(run: seq<Step>, s: State, a: AliasId, group: Group) returns (longer: seq<Step>)
    requires Reaches(run, s) && Unknown(s, a) && Selected(Inserted(s, a, group), s.clock, group) == {}
    ensures Reaches(longer, Answering(s, a, group))
  {
    hide Selected, Reaches;
    longer := Begun(run, s, a, group);
    longer := Onward(longer, Admitting(s, a, group), Registry(FinishRegister));
    assert RegisterEnded(Admitting(s, a, group), true) == Answering(s, a, group);
  }

  /** The registry resets behind the INSERT, and the seeding call dies too. */
  lemma {:induction false} Torn(run: seq<Step>, s: State, a: AliasId, group: Group) returns (longer: seq<Step>)
    requires Reaches(run, s) && Unknown(s, a)
    ensures Reaches(longer, Pending(s, a, group).(torn := Strained(s.torn, group)))
  {
    hide Selected, Reaches;
    longer := Begun(run, s, a, group);
    var asked := Admitting(s, a, group);
    longer := Onward(longer, asked, Registry(Reset));
    longer := Onward(longer, GateLost(asked), Seed(a, Crashes));
    assert asked.calls - {a} == s.calls;
    assert SeedAbandoned(GateLost(asked), a, false) == Pending(s, a, group).(torn := Strained(s.torn, group));
  }

  /** A pending row whose registration stands. */
  predicate Standing(s: State, a: AliasId) {
    && s.gate.Open? && a in s.rows && a !in s.calls && a !in s.tickets
    && s.rows[a].expiresAt > s.clock && !s.rows[a].admitted
    && a in s.registry && s.registry[a].expiresAt > s.clock
    && s.registry[a].generation == s.rows[a].generation && s.registry[a].group == s.rows[a].group
  }

  function Shown(s: State, a: AliasId, expiresAt: Time): State
    requires a in s.rows
  {
    s.(rows := Admit(s.rows, a, expiresAt))
  }

  /** Seeding again finds the registration, and the row admits itself. */
  lemma {:induction false} Repeated(run: seq<Step>, s: State, a: AliasId) returns (longer: seq<Step>)
    requires Reaches(run, s) && Standing(s, a)
    ensures Reaches(longer, Shown(s, a, s.clock + ALIAS_TTL))
  {
    hide Selected, Reaches;
    longer := Onward(run, s, Seed(a, Again(false)));
    var again := SeedRepeated(s, a, false);
    longer := Onward(longer, again, Registry(Register(a)));
    var accepted := BeginRegister(again, a);
    longer := Onward(longer, accepted, Seed(a, OnAccept(true)));
    assert accepted.calls - {a} == s.calls;
    assert SeedAccepted(accepted, a, true) == Shown(s, a, s.clock + ALIAS_TTL);
  }

  /** seed() from start to end. */
  lemma {:induction false} Seeded(run: seq<Step>, s: State, a: AliasId, group: Group) returns (longer: seq<Step>)
    requires Reaches(run, s) && Unknown(s, a) && Selected(Inserted(s, a, group), s.clock, group) == {}
    ensures Reaches(longer, Shown(Pending(s, a, group), a, s.clock + ALIAS_TTL).(torn := Relieved(s.torn, group)))
  {
    hide Selected, Reaches;
    longer := Finished(run, s, a, group);
    var t := Answering(s, a, group);
    longer := Onward(longer, t, Seed(a, OnAccept(true)));
    assert t.calls - {a} == s.calls;
    assert SeedAccepted(t, a, true) == Shown(Pending(s, a, group), a, s.clock + ALIAS_TTL).(torn := Relieved(s.torn, group));
  }

  // ---- full tables ------------------------------------------------------------------------

  /** All aliases in one group, or 64 to a group. */
  function GroupOf(a: AliasId, spread: bool): Group {
    if spread then a / MAX_PER_GROUP else 0
  }

  function Limit(spread: bool): nat {
    if spread then MAX_TOTAL else MAX_PER_GROUP
  }

  function FullTable(n: nat, spread: bool): Table {
    map a: AliasId | a < n :: Entry(a, GroupOf(a, spread), a + 1, ALIAS_TTL)
  }

  /** Aliases 0 to n - 1 registered in this order at time 0, and all of them published. */
  function Full(n: nat, spread: bool, torn: Slack): State {
    State(0, map a: AliasId | a < n :: Alias(a, GroupOf(a, spread), ALIAS_TTL, true), FullTable(n, spread),
          n, n, Open, map[], {}, map[], torn)
  }

  function Interval(lo: nat, hi: nat): (s: set<AliasId>)
    ensures forall a :: a in s <==> lo <= a < hi
  {
    if hi <= lo then {} else Interval(lo, hi - 1) + {hi - 1}
  }

  lemma {:induction false} IntervalSize(lo: nat, hi: nat)
    requires lo <= hi
    ensures |Interval(lo, hi)| == hi - lo
    decreases hi - lo
  {
    if lo < hi {
      IntervalSize(lo, hi - 1);
    }
  }

  lemma {:induction false} RowStays(n: nat, spread: bool, a: AliasId)
    requires a < n <= Limit(spread)
    ensures var table := FullTable(n, spread);
      && |NewerThan(table, table.Keys, a)| < MAX_TOTAL
      && |NewerThan(table, InGroup(table, table[a].group), a)| < MAX_PER_GROUP
  {
    hide Interval;
    var table := FullTable(n, spread);
    IntervalSize(0, n);
    SubsetSize(NewerThan(table, table.Keys, a), Interval(0, n) - {a});
    var lo := if spread then MAX_PER_GROUP * (a / MAX_PER_GROUP) else 0;
    IntervalSize(lo, lo + MAX_PER_GROUP);
    SubsetSize(NewerThan(table, InGroup(table, table[a].group), a), Interval(lo, lo + MAX_PER_GROUP) - {a});
  }

  /** The first registrations evict nobody. */
  lemma {:induction false} NoVictimsYet(n: nat, spread: bool)
    requires n <= Limit(spread)
    ensures forall g :: Selected(FullTable(n, spread), 0, g) == {}
  {
    hide NewerThan;
    forall a | a in FullTable(n, spread)
      ensures var table := FullTable(n, spread);
        && |NewerThan(table, table.Keys, a)| < MAX_TOTAL
        && |NewerThan(table, InGroup(table, table[a].group), a)| < MAX_PER_GROUP
    {
      RowStays(n, spread, a);
    }
  }

  lemma {:induction false} OneMore(n: nat, spread: bool, torn: Slack)
    ensures var s := Full(n, spread, torn); var g := GroupOf(n, spread);
      && Unknown(s, n) && Inserted(s, n, g) == FullTable(n + 1, spread)
      && forall more: Slack ::
           Shown(Pending(s, n, g), n, ALIAS_TTL).(torn := more) == Full(n + 1, spread, more)
  {
    var s, g := Full(n, spread, torn), GroupOf(n, spread);
    assert Inserted(s, n, g) == FullTable(n + 1, spread);
    assert Shown(Pending(s, n, g), n, ALIAS_TTL).rows == Full(n + 1, spread, torn).rows;
  }

  lemma {:induction false} Admitted(run: seq<Step>, n: nat, spread: bool) returns (longer: seq<Step>)
    requires n < Limit(spread) && Reaches(run, Full(n, spread, NO_SLACK))
    ensures Reaches(longer, Full(n + 1, spread, NO_SLACK))
  {
    hide Selected, FullTable, GroupOf, Reaches, Pending, Shown, Unknown;
    OneMore(n, spread, NO_SLACK);
    NoVictimsYet(n + 1, spread);
    longer := Seeded(run, Full(n, spread, NO_SLACK), n, GroupOf(n, spread));
    assert Relieved(NO_SLACK, GroupOf(n, spread)) == NO_SLACK;
  }

  /** A torn registration, and a repeated seed that finds its row: one alias more, and nobody evicted. */
  lemma {:induction false} TornAdmission(run: seq<Step>, n: nat, spread: bool, torn: Slack) returns (longer: seq<Step>)
    requires Reaches(run, Full(n, spread, torn))
    ensures Reaches(longer, Full(n + 1, spread, Strained(torn, GroupOf(n, spread))))
  {
    hide Selected, GroupOf, Reaches;
    var s, g := Full(n, spread, torn), GroupOf(n, spread);
    OneMore(n, spread, torn);
    longer := Torn(run, s, n, g);
    var t := Pending(s, n, g);
    longer := Repeated(longer, t.(torn := Strained(torn, g)), n);
    assert Shown(t.(torn := Strained(torn, g)), n, ALIAS_TTL) == Shown(t, n, ALIAS_TTL).(torn := Strained(torn, g));
  }

  lemma {:induction false} FilledUp(n: nat, spread: bool) returns (run: seq<Step>)
    requires n <= Limit(spread)
    ensures Reaches(run, Full(n, spread, NO_SLACK))
  {
    if n == 0 {
      run := [];
      assert Full(0, spread, NO_SLACK) == Initial();
    } else {
      run := FilledUp(n - 1, spread);
      run := Admitted(run, n - 1, spread);
    }
  }

  lemma {:induction false} Overfilled(t: nat, spread: bool) returns (run: seq<Step>, torn: Slack)
    ensures Reaches(run, Full(Limit(spread) + t, spread, torn))
    ensures torn.ofAll == t && (!spread ==> SlackOf(torn, 0) == t)
  {
    hide Full;
    if t == 0 {
      torn := NO_SLACK;
      run := FilledUp(Limit(spread), spread);
    } else {
      run, torn := Overfilled(t - 1, spread);
      run := TornAdmission(run, Limit(spread) + t - 1, spread, torn);
      torn := Strained(torn, GroupOf(Limit(spread) + t - 1, spread));
    }
  }

  lemma {:induction false} PublishedOfFull(n: nat, spread: bool, torn: Slack)
    ensures |Published(Full(n, spread, torn))| == n
    ensures !spread ==> |PublishedInGroup(Full(n, spread, torn), 0)| == n
  {
    hide Interval;
    IntervalSize(0, n);
    assert Published(Full(n, spread, torn)) == Interval(0, n);
    if !spread {
      assert PublishedInGroup(Full(n, spread, torn), 0) == Interval(0, n);
    }
  }

  /** The bounds on published aliases are met exactly: t torn registrations can publish t too many, in one group or in all. */
  lemma {:induction false} TornBoundsAreReached(t: nat) returns (inGroup: seq<Step>, inAll: seq<Step>)
    ensures Legal(Initial(), inGroup) && Legal(Initial(), inAll)
    ensures var s := Exec(Initial(), inGroup);
      SlackOf(s.torn, 0) == t && |PublishedInGroup(s, 0)| == MAX_PER_GROUP + t
    ensures var s := Exec(Initial(), inAll); s.torn.ofAll == t && |Published(s)| == MAX_TOTAL + t
  {
    hide Legal, Exec, Published, PublishedInGroup, FullTable;
    var torn: Slack;
    inGroup, torn := Overfilled(t, false);
    PublishedOfFull(MAX_PER_GROUP + t, false, torn);
    inAll, torn := Overfilled(t, true);
    PublishedOfFull(MAX_TOTAL + t, true, torn);
  }

  // ---- a repeat that comes too late --------------------------------------------------------

  lemma {:induction false} Nobody(table: Table, now: Time, group: Group)
    requires |table| <= 2 && forall a :: a in table ==> table[a].expiresAt > now
    ensures Selected(table, now, group) == {}
  {
    forall a | a in table ensures |NewerThan(table, table.Keys, a)| <= 2 && |NewerThan(table, InGroup(table, table[a].group), a)| <= 2 {
      SubsetSize(NewerThan(table, table.Keys, a), table.Keys);
      SubsetSize(NewerThan(table, InGroup(table, table[a].group), a), table.Keys);
    }
  }

  /** Two aliases whose registrations have just expired; the first is visible one millisecond longer. */
  function Eve(): State {
    State(ALIAS_TTL, map[0 := Alias(0, 0, ALIAS_TTL + 1, true), 1 := Alias(1, 0, ALIAS_TTL, true)],
          map[0 := Entry(0, 0, 1, ALIAS_TTL), 1 := Entry(1, 0, 2, ALIAS_TTL)], 2, 2, Open, map[], {}, map[], NO_SLACK)
  }

  /** At time 1 the first alias, whose seeding call died behind its registration, still waits to be seeded again. */
  function Morning(): State {
    State(1, map[0 := Alias(0, 0, PENDING_TTL, false), 1 := Alias(1, 0, ALIAS_TTL, true)],
          map[0 := Entry(0, 0, 1, ALIAS_TTL), 1 := Entry(1, 0, 2, ALIAS_TTL)], 2, 2, Open, map[], {}, map[], NO_SLACK)
  }

  function Night(): State {
    State(0, map[0 := Alias(0, 0, PENDING_TTL, false)], map[0 := Entry(0, 0, 1, ALIAS_TTL)],
          1, 1, Open, map[], {}, map[], NO_SLACK)
  }

  lemma {:induction false} NightIsReached() returns (run: seq<Step>)
    ensures Reaches(run, Night())
  {
    hide Selected;
    var s := Initial();
    Nobody(Inserted(s, 0, 0), 0, 0);
    run := Finished([], s, 0, 0);
    var t := Answering(s, 0, 0);
    run := Onward(run, t, Seed(0, Crashes));
    assert t.calls - {0} == map[] && NO_SLACK.ofGroup - {0} == map[];
    assert SeedAbandoned(t, 0, false) == Night();
  }

  lemma {:induction false} MorningIsReached() returns (run: seq<Step>)
    ensures Reaches(run, Morning())
  {
    hide Selected, Reaches;
    run := NightIsReached();
    var s := Night();
    Nobody(Inserted(s, 1, 0), 0, 0);
    run := Seeded(run, s, 1, 0);
    var t := Shown(Pending(s, 1, 0), 1, ALIAS_TTL);
    assert NO_SLACK.ofGroup - {0} == map[];
    assert t.(torn := Relieved(s.torn, 0)) == t;
    run := Onward(run, t, Tick(1));
    assert t.(clock := 1) == Morning();
  }

  lemma {:induction false} EveIsReached() returns (run: seq<Step>)
    ensures Reaches(run, Eve())
  {
    hide Selected, Reaches;
    run := MorningIsReached();
    var s := Morning();
    run := Repeated(run, s, 0);
    var t := Shown(s, 0, 1 + ALIAS_TTL);
    run := Onward(run, t, Tick(ALIAS_TTL - 1));
    assert t.(clock := ALIAS_TTL) == Eve();
  }

  /**
   Why the repeat must come in time: registered afresh while visible, and refused because a victim is busy, the
   alias stays visible without a registration. Only the last registration of this run is not Timely.
   */
  lemma {:induction false} LateRepeatUnregisters() returns (run: seq<Step>, late: seq<Step>)
    ensures Legal(Initial(), run) && Possible(Initial(), late)
    ensures late == run + [Registry(Register(0)), Registry(WithdrawRegister)]
    ensures var s := Exec(Initial(), late); 0 in Published(s) && s.clock < s.rows[0].expiresAt && 0 !in s.registry
  {
    hide Possible, Exec;
    run := EveIsReached();
    var s := Eve();
    run := Onward(run, s, Seed(0, Again(false)));
    var again := SeedRepeated(s, 0, false);
    PossibleSnoc(Initial(), run, Registry(Register(0)));
    var asked := BeginRegister(again, 0);
    assert asked.gate.Registering? && 1 in asked.gate.todo;
    PossibleSnoc(Initial(), run + [Registry(Register(0))], Registry(WithdrawRegister));
    late := run + [Registry(Register(0))] + [Registry(WithdrawRegister)];
  }
}
