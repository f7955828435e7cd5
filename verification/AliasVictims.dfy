/** The registry's eviction rule: which rows of a registration table are victims. */
module AliasVictims {

  /** MAX_RESPONSE_ALIASES_PER_UPSTREAM */
  const MAX_PER_GROUP: nat := 64

  /** MAX_RESPONSE_ALIASES_TOTAL */
  const MAX_TOTAL: nat := 512

  type AliasId = nat
  type Generation = nat
  type Group = nat
  type Time = nat

  /** One row of alias_registry; the table is keyed by alias_id. */
  datatype Entry = Entry(generation: Generation, group: Group, sequence: nat, expiresAt: Time)
  type Table = map<AliasId, Entry>

  function InGroup(table: Table, group: Group): set<AliasId> {
    set a | a in table && table[a].group == group
  }

  /** The rows an `ORDER BY sequence DESC` over `among` lists before `a`. */
  function NewerThan(table: Table, among: set<AliasId>, a: AliasId): set<AliasId>
    requires a in table && among <= table.Keys
  {
    set b | b in among && table[b].sequence > table[a].sequence
  }

  /** A row is evicted when it has expired, or lies past the newest rows of its group or of the table. */
  predicate IsVictim(table: Table, now: Time, a: AliasId)
    requires a in table
  {
    || table[a].expiresAt <= now
    || |NewerThan(table, InGroup(table, table[a].group), a)| >= MAX_PER_GROUP
    || |NewerThan(table, table.Keys, a)| >= MAX_TOTAL
  }

  function Victims(table: Table, now: Time): set<AliasId> {
    set a | a in table && IsVictim(table, now, a)
  }

  /** The rows the three queries of a registration in `group` select: overflow is looked for in that group alone. */
  function Selected(table: Table, now: Time, group: Group): set<AliasId> {
    set a | a in table &&
            (|| table[a].expiresAt <= now
             || (table[a].group == group && |NewerThan(table, InGroup(table, group), a)| >= MAX_PER_GROUP)
             || |NewerThan(table, table.Keys, a)| >= MAX_TOTAL)
  }

  ghost predicate DistinctSequences(table: Table) {
    forall a, b :: a in table && b in table && table[a].sequence == table[b].sequence ==> a == b
  }

  /** How far a table may lie over its bounds, for each group and for the whole. */
  datatype Slack = Slack(ofGroup: map<Group, nat>, ofAll: nat)

  function SlackOf(slack: Slack, group: Group): nat {
    if group in slack.ofGroup then slack.ofGroup[group] else 0
  }

  ghost predicate Within(table: Table, slack: Slack) {
    && |table| <= MAX_TOTAL + slack.ofAll
    && forall g :: |InGroup(table, g)| <= MAX_PER_GROUP + SlackOf(slack, g)
  }

  const NO_SLACK := Slack(map[], 0)

  ghost predicate Bounded(table: Table) {
    Within(table, NO_SLACK)
  }

  lemma {:induction false} SubsetSize<T>(a: set<T>, b: set<T>)
    requires a <= b
    ensures |a| <= |b|
  {
    assert b == a + (b - a);
  }

  lemma {:induction false} OldestExists(table: Table, s: set<AliasId>) returns (oldest: AliasId)
    requires s != {} && s <= table.Keys
    ensures oldest in s && forall b :: b in s ==> table[oldest].sequence <= table[b].sequence
    decreases s
  {
    var x :| x in s;
    if s == {x} {
      oldest := x;
    } else {
      var y := OldestExists(table, s - {x});
      oldest := if table[x].sequence <= table[y].sequence then x else y;
    }
  }

  /** Rows that have fewer than `cap` newer rows among `among` number at most `cap`. */
  lemma {:induction false} NewestAreFew(table: Table, among: set<AliasId>, kept: set<AliasId>, cap: nat)
    requires DistinctSequences(table) && kept <= among <= table.Keys
    requires forall a :: a in kept ==> |NewerThan(table, among, a)| < cap
    ensures |kept| <= cap
  {
    if kept != {} {
      var oldest := OldestExists(table, kept);
      SubsetSize(kept - {oldest}, NewerThan(table, among, oldest));
      assert |NewerThan(table, among, oldest)| < cap;
    }
  }

  /** Removing every victim leaves the table within both bounds, whatever it held before. */
  lemma {:induction false} EvictionRestoresBounds(table: Table, now: Time)
    requires DistinctSequences(table)
    ensures Bounded(table - Victims(table, now))
  {
    var left := table - Victims(table, now);
    NewestAreFew(table, table.Keys, left.Keys, MAX_TOTAL);
    forall g ensures |InGroup(left, g)| <= MAX_PER_GROUP {
      NewestAreFew(table, InGroup(table, g), InGroup(left, g), MAX_PER_GROUP);
    }
  }

  /** A registration brings its own group and the whole table within bounds, and leaves the other groups as they were. */
  lemma {:induction false} SelectionRestores(table: Table, now: Time, group: Group)
    requires DistinctSequences(table)
    ensures var left := table - Selected(table, now, group);
      && |left| <= MAX_TOTAL && |InGroup(left, group)| <= MAX_PER_GROUP
      && forall g :: |InGroup(left, g)| <= |InGroup(table, g)|
  {
    var left := table - Selected(table, now, group);
    NewestAreFew(table, table.Keys, left.Keys, MAX_TOTAL);
    NewestAreFew(table, InGroup(table, group), InGroup(left, group), MAX_PER_GROUP);
    forall g ensures |InGroup(left, g)| <= |InGroup(table, g)| {
      SubsetSize(InGroup(left, g), InGroup(table, g));
    }
  }

  /** One group is enough: in a table that was bounded before the insertion no other group can overflow. */
  lemma {:induction false} SelectedAreVictims(before: Table, a: AliasId, entry: Entry, now: Time)
    requires Bounded(before)
    ensures var table := before[a := entry]; Selected(table, now, entry.group) == Victims(table, now)
  {
    var table := before[a := entry];
    forall b | b in table && table[b].group != entry.group
      ensures |NewerThan(table, InGroup(table, table[b].group), b)| < MAX_PER_GROUP
    {
      var group := InGroup(table, table[b].group);
      SubsetSize(group, InGroup(before, table[b].group));
      SubsetSize(NewerThan(table, group, b), group - {b});
    }
  }

  lemma {:induction false} SubtableWithin(small: Table, big: Table, slack: Slack)
    requires Within(big, slack)
    requires small.Keys <= big.Keys && forall a :: a in small ==> small[a].group == big[a].group
    ensures Within(small, slack)
  {
    SubsetSize(small.Keys, big.Keys);
    forall g ensures |InGroup(small, g)| <= MAX_PER_GROUP + SlackOf(slack, g) {
      SubsetSize(InGroup(small, g), InGroup(big, g));
    }
  }

  /** The newest unexpired row is never a victim: a registration cannot evict itself. */
  lemma {:induction false} NewestIsNoVictim(table: Table, now: Time, a: AliasId)
    requires a in table && table[a].expiresAt > now
    requires forall b :: b in table ==> table[b].sequence <= table[a].sequence
    ensures a !in Victims(table, now) && a !in Selected(table, now, table[a].group)
  {
    assert NewerThan(table, InGroup(table, table[a].group), a) == {};
    assert NewerThan(table, table.Keys, a) == {};
  }

  /**
   A survivor is newer than every unexpired victim of its own group that fell
   to the group bound, so each registration keeps the newest rows.
   */
  lemma {:induction false} SurvivorsAreNewest(table: Table, now: Time, kept: AliasId, victim: AliasId)
    requires DistinctSequences(table) && kept in table && victim in table
    requires kept !in Victims(table, now) && victim in Victims(table, now)
    requires table[victim].expiresAt > now && table[kept].group == table[victim].group
    ensures table[kept].sequence > table[victim].sequence
  {
    if table[kept].sequence < table[victim].sequence {
      var group := InGroup(table, table[kept].group);
      SubsetSize(NewerThan(table, group, victim), NewerThan(table, group, kept));
      SubsetSize(NewerThan(table, table.Keys, victim), NewerThan(table, table.Keys, kept));
      assert false;
    }
  }

  /** Likewise across groups: a survivor is newer than every row that falls to the bound on the whole table. */
  lemma {:induction false} SurvivorsAreNewestOfAll(table: Table, now: Time, kept: AliasId, victim: AliasId)
    requires DistinctSequences(table) && kept in table && victim in table && kept !in Victims(table, now)
    requires |NewerThan(table, table.Keys, victim)| >= MAX_TOTAL
    ensures table[kept].sequence > table[victim].sequence
  {
    if table[kept].sequence <= table[victim].sequence {
      SubsetSize(NewerThan(table, table.Keys, victim), NewerThan(table, table.Keys, kept));
    }
  }
}
