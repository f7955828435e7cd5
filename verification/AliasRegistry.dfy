/** registerResponseAliasLocked (src/chat-session.ts:688-770): one admission, start to end, on the registry's own table. */
module AliasRegistryObject {
  import opened AliasVictims

  /** evictResponseAlias answers, or the call is lost. */
  datatype Answer = Evicted | Absent | GenerationMismatch | Busy | Lost

  predicate Gone(answer: Answer) {
    answer != Busy && answer != Lost
  }

  /** No sequence repeats and none is above the last one drawn. */
  ghost predicate Ordered(table: Table, last: nat) {
    DistinctSequences(table) && forall a :: a in table ==> table[a].sequence <= last
  }

  lemma {:induction false} InsertionIsOrdered(before: Table, last: nat, a: AliasId, entry: Entry)
    requires Ordered(before, last) && entry.sequence == last + 1
    ensures Ordered(before[a := entry], last + 1)
  {
  }

  lemma {:induction false} PartIsOrdered(part: Table, table: Table, last: nat)
    requires Ordered(table, last) && part.Keys <= table.Keys && forall a :: a in part ==> part[a] == table[a]
    ensures Ordered(part, last)
  {
    assert forall a :: a in part ==> a in table;
  }

  lemma {:induction false} NewestSurvives(table: Table, now: Time, a: AliasId, last: nat)
    requires Ordered(table, last) && a in table && table[a].sequence == last && table[a].expiresAt > now
    ensures var s := Selected(table, now, table[a].group); a !in s && s <= table.Keys
  {
    NewestIsNoVictim(table, now, a);
  }

  /** After an admission the group and the whole are within bounds; in a bounded table nothing else can overflow. */
  lemma {:induction false} BoundsRestored(before: Table, a: AliasId, entry: Entry, now: Time, last: nat)
    requires Ordered(before[a := entry], last)
    ensures var table := before[a := entry]; var left := table - Selected(table, now, entry.group);
      && |left| <= MAX_TOTAL && |InGroup(left, entry.group)| <= MAX_PER_GROUP
      && (Bounded(before) ==> Bounded(left))
  {
    hide Selected, Victims, InGroup;
    SelectionRestores(before[a := entry], now, entry.group);
    if Bounded(before) {
      SelectedAreVictims(before, a, entry, now);
      EvictionRestoresBounds(before[a := entry], now);
    }
  }

  class AliasRegistry {
    var table: Table
    var nextSequence: nat

    /** A table may start out over its bounds: an earlier registration may not have come to its end. */
    ghost predicate Valid()
      reads this
    {
      Ordered(table, nextSequence)
    }

    constructor ()
      ensures Valid() && table == map[] && nextSequence == 0
    {
      table, nextSequence := map[], 0;
    }

    /**
     True when the alias is admitted. An admission leaves its group and the whole table within bounds, and no
     answer of the victims' objects takes a bounded table out of them.
     */
    method RegisterLocked(a: AliasId, generation: Generation, group: Group, expiresAt: Time, now: Time, answers: AliasId -> Answer)
      returns (accepted: bool)
      requires Valid()
      modifies this
      ensures Valid() && (Bounded(old(table)) ==> Bounded(table))
      ensures expiresAt <= now ==> !accepted && table == old(table)
      ensures expiresAt > now && a in old(table) && old(table)[a].expiresAt > now ==>
                table == old(table) && accepted == (table[a].generation == generation && table[a].group == group)
      ensures expiresAt > now && !(a in old(table) && old(table)[a].expiresAt > now) ==>
                var base := old(table)[a := Entry(generation, group, old(nextSequence) + 1, expiresAt)];
                var victims := Selected(base, now, group);
                && (accepted <==> forall v :: v in victims ==> Gone(answers(v)))
                && (accepted ==> table == base - victims && a in table
                                 && |table| <= MAX_TOTAL && |InGroup(table, group)| <= MAX_PER_GROUP)
                && (!accepted ==> a !in table && table.Keys <= base.Keys && base.Keys - victims - {a} <= table.Keys)
                && (forall b :: b in table ==> table[b] == base[b])
    {
      if expiresAt <= now {
        return false;
      }
      if a in table && table[a].expiresAt > now {
        return table[a].generation == generation && table[a].group == group;
      }
      hide Bounded, Ordered, Selected, DistinctSequences, InGroup;
      var entry := Entry(generation, group, nextSequence + 1, expiresAt);
      ghost var before := table;
      nextSequence := nextSequence + 1;
      table := table[a := entry];
      ghost var base := table;
      var victims := Selected(table, now, group);
      InsertionIsOrdered(before, nextSequence - 1, a, entry);
      NewestSurvives(base, now, a, nextSequence);
      accepted := EvictAll(victims, answers);
      if !accepted {
        table := table - {a};
        if Bounded(before) {
          SubtableWithin(table, before, NO_SLACK);
        }
      } else {
        BoundsRestored(before, a, entry, now, nextSequence);
      }
      PartIsOrdered(table, base, nextSequence);
    }

    /** The eviction loop: it stops at the first victim that cannot be evicted. */
    method EvictAll(victims: set<AliasId>, answers: AliasId -> Answer) returns (all: bool)
      requires victims <= table.Keys
      modifies this`table
      ensures all <==> forall v :: v in victims ==> Gone(answers(v))
      ensures all ==> table == old(table) - victims
      ensures old(table).Keys - victims <= table.Keys <= old(table).Keys && forall b :: b in table ==> table[b] == old(table)[b]
    {
      var todo := victims;
      while todo != {}
        invariant todo <= victims
        invariant table == old(table) - (victims - todo)
        invariant forall v :: v in victims - todo ==> Gone(answers(v))
        decreases todo
      {
        var victim :| victim in todo;
        if !Gone(answers(victim)) {
          return false;
        }
        table := table - {victim};
        todo := todo - {victim};
      }
      return true;
    }
  }
}
