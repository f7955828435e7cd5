/** decodeAZHEXValue (src/chathub.ts:456-489): the codec lifted to JSON values, under a depth and a node budget. */
module AzHexValue {
  import opened Utf16
  import opened AzHex

  const MAX_DEPTH := 32
  const MAX_NODES := 50_000

  datatype Json =
    | Null | Number(n: int) | Boolean(b: bool) | Str(text: Text)
    | List(items: Items) | Object(entries: Entries)
  datatype Items = NoItems | Item(head: Json, tail: Items)
  /** Object entries in the order of Object.entries. */
  datatype Entries = NoEntries | Entry(key: Text, value: Json, rest: Entries)

  /** The decoded value with the number of values visited so far. */
  datatype Outcome<T> = Rejected | Accepted(result: T, visited: nat)

  // ---- declarative side -----------------------------------------------------------------------

  function Max(a: nat, b: nat): nat {
    if a < b then b else a
  }

  function Height(v: Json): nat {
    match v
    case List(items) => ItemsHeight(items)
    case Object(entries) => EntriesHeight(entries)
    case _ => 0
  }

  function ItemsHeight(items: Items): nat {
    match items
    case NoItems => 0
    case Item(head, tail) => Max(1 + Height(head), ItemsHeight(tail))
  }

  function EntriesHeight(entries: Entries): nat {
    match entries
    case NoEntries => 0
    case Entry(_, value, rest) => Max(1 + Height(value), EntriesHeight(rest))
  }

  function Nodes(v: Json): nat {
    match v
    case List(items) => 1 + ItemsNodes(items)
    case Object(entries) => 1 + EntriesNodes(entries)
    case _ => 1
  }

  function ItemsNodes(items: Items): nat {
    match items
    case NoItems => 0
    case Item(head, tail) => Nodes(head) + ItemsNodes(tail)
  }

  function EntriesNodes(entries: Entries): nat {
    match entries
    case NoEntries => 0
    case Entry(_, value, rest) => Nodes(value) + EntriesNodes(rest)
  }

  /** Every string and key decoded; none if one is malformed or two keys of an object decode alike. */
  function Translate(v: Json): Option<Json> {
    match v
    case Str(text) => (match Decode(text) case None => None case Some(t) => Some(Str(t)))
    case List(items) => (match TranslateItems(items) case None => None case Some(l) => Some(List(l)))
    case Object(entries) => (match TranslateEntries(entries, {}) case None => None case Some(e) => Some(Object(e)))
    case _ => Some(v)
  }

  function TranslateItems(items: Items): Option<Items> {
    match items
    case NoItems => Some(NoItems)
    case Item(head, tail) =>
      match (Translate(head), TranslateItems(tail))
      case (Some(h), Some(t)) => Some(Item(h, t))
      case _ => None
  }

  function TranslateEntries(entries: Entries, taken: set<Text>): Option<Entries> {
    match entries
    case NoEntries => Some(NoEntries)
    case Entry(key, value, rest) =>
      match Decode(key)
      case None => None
      case Some(k) =>
        if k in taken then None
        else
          match (Translate(value), TranslateEntries(rest, taken + {k}))
          case (Some(v), Some(r)) => Some(Entry(k, v, r))
          case _ => None
  }

  // ---- the traversal --------------------------------------------------------------------------

  function DecodeValue(v: Json, depth: nat, visited: nat): Outcome<Json>
    decreases v
  {
    var now := visited + 1;
    if depth > MAX_DEPTH || now > MAX_NODES then Rejected
    else
      match v
      case Str(text) => (match Decode(text) case None => Rejected case Some(t) => Accepted(Str(t), now))
      case List(items) =>
        (match DecodeItems(items, depth + 1, now) case Rejected => Rejected case Accepted(l, n) => Accepted(List(l), n))
      case Object(entries) =>
        (match DecodeEntries(entries, depth + 1, now, {}) case Rejected => Rejected case Accepted(e, n) => Accepted(Object(e), n))
      case _ => Accepted(v, now)
  }

  function DecodeItems(items: Items, depth: nat, visited: nat): Outcome<Items>
    decreases items
  {
    match items
    case NoItems => Accepted(NoItems, visited)
    case Item(head, tail) =>
      match DecodeValue(head, depth, visited)
      case Rejected => Rejected
      case Accepted(h, now) =>
        match DecodeItems(tail, depth, now)
        case Rejected => Rejected
        case Accepted(t, n) => Accepted(Item(h, t), n)
  }

  function DecodeEntries(entries: Entries, depth: nat, visited: nat, taken: set<Text>): Outcome<Entries>
    decreases entries
  {
    match entries
    case NoEntries => Accepted(NoEntries, visited)
    case Entry(key, value, rest) =>
      match Decode(key)
      case None => Rejected
      case Some(k) =>
        if k in taken then Rejected
        else
          match DecodeValue(value, depth, visited)
          case Rejected => Rejected
          case Accepted(v, now) =>
            match DecodeEntries(rest, depth, now, taken + {k})
            case Rejected => Rejected
            case Accepted(r, n) => Accepted(Entry(k, v, r), n)
  }

  /** What the traversal comes to, given the room it had. */
  function Verdict<T>(room: bool, translated: Option<T>, visited: nat): Outcome<T> {
    if room && translated.Some? && visited <= MAX_NODES then Accepted(translated.value, visited) else Rejected
  }

  /** A value is accepted exactly when it is no deeper than 32, no larger than 50,000 values, and every part translates. */
  lemma {:induction false} AcceptsExactly(v: Json, depth: nat, visited: nat)
    requires visited <= MAX_NODES
    ensures DecodeValue(v, depth, visited) == Verdict(depth + Height(v) <= MAX_DEPTH, Translate(v), visited + Nodes(v))
    decreases v
  {
    hide Decode;
    match v
    case List(items) =>
      if depth <= MAX_DEPTH && visited < MAX_NODES {
        AcceptsItemsExactly(items, depth, visited + 1);
      }
    case Object(entries) =>
      if depth <= MAX_DEPTH && visited < MAX_NODES {
        AcceptsEntriesExactly(entries, depth, visited + 1, {});
      }
    case _ =>
  }

  lemma {:induction false} AcceptsItemsExactly(items: Items, depth: nat, visited: nat)
    requires visited <= MAX_NODES && depth <= MAX_DEPTH
    ensures DecodeItems(items, depth + 1, visited)
         == Verdict(depth + ItemsHeight(items) <= MAX_DEPTH, TranslateItems(items), visited + ItemsNodes(items))
    decreases items
  {
    hide Decode;
    match items
    case NoItems =>
    case Item(head, tail) =>
      AcceptsExactly(head, depth + 1, visited);
      if DecodeValue(head, depth + 1, visited).Accepted? {
        AcceptsItemsExactly(tail, depth, visited + Nodes(head));
      }
  }

  lemma {:induction false} AcceptsEntriesExactly(entries: Entries, depth: nat, visited: nat, taken: set<Text>)
    requires visited <= MAX_NODES && depth <= MAX_DEPTH
    ensures DecodeEntries(entries, depth + 1, visited, taken)
         == Verdict(depth + EntriesHeight(entries) <= MAX_DEPTH, TranslateEntries(entries, taken), visited + EntriesNodes(entries))
    decreases entries
  {
    hide Decode;
    match entries
    case NoEntries =>
    case Entry(key, value, rest) =>
      AcceptsExactly(value, depth + 1, visited);
      if Decode(key).Some? && DecodeValue(value, depth + 1, visited).Accepted? {
        AcceptsEntriesExactly(rest, depth, visited + Nodes(value), taken + {Decode(key).value});
      }
  }

  // ---- round trip on trees ----------------------------------------------------------------------

  function EncodeTree(v: Json, escaped: nat -> bool): Json {
    match v
    case Str(text) => Str(Encode(text, escaped))
    case List(items) => List(EncodeItems(items, escaped))
    case Object(entries) => Object(EncodeEntries(entries, escaped))
    case _ => v
  }

  function EncodeItems(items: Items, escaped: nat -> bool): Items {
    match items
    case NoItems => NoItems
    case Item(head, tail) => Item(EncodeTree(head, escaped), EncodeItems(tail, escaped))
  }

  function EncodeEntries(entries: Entries, escaped: nat -> bool): Entries {
    match entries
    case NoEntries => NoEntries
    case Entry(key, value, rest) => Entry(Encode(key, escaped), EncodeTree(value, escaped), EncodeEntries(rest, escaped))
  }

  /** No object repeats a key. */
  predicate Distinct(v: Json) {
    match v
    case List(items) => DistinctItems(items)
    case Object(entries) => DistinctEntries(entries, {})
    case _ => true
  }

  predicate DistinctItems(items: Items) {
    match items
    case NoItems => true
    case Item(head, tail) => Distinct(head) && DistinctItems(tail)
  }

  predicate DistinctEntries(entries: Entries, taken: set<Text>) {
    match entries
    case NoEntries => true
    case Entry(key, value, rest) => key !in taken && Distinct(value) && DistinctEntries(rest, taken + {key})
  }

  lemma {:induction false} TranslateInverts(v: Json, escaped: nat -> bool)
    ensures Translate(EncodeTree(v, escaped)) == if Distinct(v) then Some(v) else None
    ensures Height(EncodeTree(v, escaped)) == Height(v) && Nodes(EncodeTree(v, escaped)) == Nodes(v)
    decreases v
  {
    hide Decode, Encode;
    match v
    case Str(text) => RoundTrip(text, escaped);
    case List(items) => TranslateInvertsItems(items, escaped);
    case Object(entries) => TranslateInvertsEntries(entries, escaped, {});
    case _ =>
  }

  lemma {:induction false} TranslateInvertsItems(items: Items, escaped: nat -> bool)
    ensures TranslateItems(EncodeItems(items, escaped)) == if DistinctItems(items) then Some(items) else None
    ensures ItemsHeight(EncodeItems(items, escaped)) == ItemsHeight(items)
    ensures ItemsNodes(EncodeItems(items, escaped)) == ItemsNodes(items)
    decreases items
  {
    hide Decode, Encode;
    match items
    case NoItems =>
    case Item(head, tail) =>
      TranslateInverts(head, escaped);
      TranslateInvertsItems(tail, escaped);
  }

  lemma {:induction false} TranslateInvertsEntries(entries: Entries, escaped: nat -> bool, taken: set<Text>)
    ensures TranslateEntries(EncodeEntries(entries, escaped), taken) == if DistinctEntries(entries, taken) then Some(entries) else None
    ensures EntriesHeight(EncodeEntries(entries, escaped)) == EntriesHeight(entries)
    ensures EntriesNodes(EncodeEntries(entries, escaped)) == EntriesNodes(entries)
    decreases entries
  {
    hide Decode, Encode;
    match entries
    case NoEntries =>
    case Entry(key, value, rest) =>
      RoundTrip(key, escaped);
      TranslateInverts(value, escaped);
      TranslateInvertsEntries(rest, escaped, taken + {key});
  }

  /** An encoded tree comes back unchanged, if it is within the limits and repeats no key; otherwise it is rejected. */
  lemma {:induction false} TreesRoundTrip(v: Json, escaped: nat -> bool)
    ensures DecodeValue(EncodeTree(v, escaped), 0, 0)
         == if Height(v) <= MAX_DEPTH && Nodes(v) <= MAX_NODES && Distinct(v) then Accepted(v, Nodes(v)) else Rejected
  {
    hide Translate, DecodeValue, EncodeTree, Height, Nodes, Distinct;
    AcceptsExactly(EncodeTree(v, escaped), 0, 0);
    TranslateInverts(v, escaped);
  }

  // ---- the program ----------------------------------------------------------------------------------

  class Budget {
    var visited: nat

    constructor ()
      ensures visited == 0
    {
      visited := 0;
    }
  }

  function AppendItem(items: Items, item: Json): Items {
    match items
    case NoItems => Item(item, NoItems)
    case Item(head, tail) => Item(head, AppendItem(tail, item))
  }

  function JoinItems(a: Items, b: Items): Items {
    match a
    case NoItems => b
    case Item(head, tail) => Item(head, JoinItems(tail, b))
  }

  lemma {:induction false} JoinAppended(a: Items, item: Json, b: Items)
    ensures JoinItems(AppendItem(a, item), b) == JoinItems(a, Item(item, b))
  {
    match a
    case NoItems =>
    case Item(_, tail) => JoinAppended(tail, item, b);
  }

  lemma {:induction false} JoinNone(a: Items)
    ensures JoinItems(a, NoItems) == a
  {
    match a
    case NoItems =>
    case Item(_, tail) => JoinNone(tail);
  }

  function AppendEntry(entries: Entries, key: Text, value: Json): Entries {
    match entries
    case NoEntries => Entry(key, value, NoEntries)
    case Entry(k, v, rest) => Entry(k, v, AppendEntry(rest, key, value))
  }

  function JoinEntries(a: Entries, b: Entries): Entries {
    match a
    case NoEntries => b
    case Entry(k, v, rest) => Entry(k, v, JoinEntries(rest, b))
  }

  lemma {:induction false} JoinEntryAppended(a: Entries, key: Text, value: Json, b: Entries)
    ensures JoinEntries(AppendEntry(a, key, value), b) == JoinEntries(a, Entry(key, value, b))
  {
    match a
    case NoEntries =>
    case Entry(_, _, rest) => JoinEntryAppended(rest, key, value, b);
  }

  lemma {:induction false} JoinNoEntries(a: Entries)
    ensures JoinEntries(a, NoEntries) == a
  {
    match a
    case NoEntries =>
    case Entry(_, _, rest) => JoinNoEntries(rest);
  }

  /** What is left to do after `output`, seen from the start of the list. */
  function AfterItems(output: Items, rest: Outcome<Items>): Outcome<Items> {
    match rest
    case Rejected => Rejected
    case Accepted(l, n) => Accepted(JoinItems(output, l), n)
  }

  function AfterEntries(output: Entries, rest: Outcome<Entries>): Outcome<Entries> {
    match rest
    case Rejected => Rejected
    case Accepted(e, n) => Accepted(JoinEntries(output, e), n)
  }

  /** decodeAZHEXValue: the budget is shared by the whole traversal. */
  method DecodeAZHEXValue(value: Json, depth: nat, budget: Budget) returns (decoded: Option<Json>)
    modifies budget
    ensures var outcome := DecodeValue(value, depth, old(budget.visited));
            && (outcome.Rejected? <==> decoded.None?)
            && (decoded.Some? ==> outcome == Accepted(decoded.value, budget.visited))
    decreases value
  {
    hide Decode, DecodeItems, DecodeEntries;
    budget.visited := budget.visited + 1;
    if depth > MAX_DEPTH || budget.visited > MAX_NODES {
      return None;
    }
    match value
    case Str(text) =>
      var t := DecodeAZHEXString(text);
      return if t.None? then None else Some(Str(t.value));
    case List(items) =>
      var output := DecodeArray(items, depth + 1, budget);
      return if output.None? then None else Some(List(output.value));
    case Object(entries) =>
      var output := DecodeObject(entries, depth + 1, budget);
      return if output.None? then None else Some(Object(output.value));
    case _ =>
      return Some(value);
  }

  /** The loop over an array's items. */
  method DecodeArray(items: Items, depth: nat, budget: Budget) returns (decoded: Option<Items>)
    modifies budget
    ensures var outcome := DecodeItems(items, depth, old(budget.visited));
            && (outcome.Rejected? <==> decoded.None?)
            && (decoded.Some? ==> outcome == Accepted(decoded.value, budget.visited))
    decreases items
  {
    hide DecodeValue;
    ghost var start := budget.visited;
    var output := NoItems;
    var rest := items;
    while rest.Item?
      invariant rest == items || rest < items
      invariant DecodeItems(items, depth, start) == AfterItems(output, DecodeItems(rest, depth, budget.visited))
      decreases rest
    {
      var item := DecodeAZHEXValue(rest.head, depth, budget);
      if item.None? {
        return None;
      }
      ghost var further := DecodeItems(rest.tail, depth, budget.visited);
      if further.Accepted? {
        JoinAppended(output, item.value, further.result);
      }
      output := AppendItem(output, item.value);
      rest := rest.tail;
    }
    JoinNone(output);
    return Some(output);
  }

  /** The loop over an object's entries: a key is checked before its value is looked at. */
  method DecodeObject(entries: Entries, depth: nat, budget: Budget) returns (decoded: Option<Entries>)
    modifies budget
    ensures var outcome := DecodeEntries(entries, depth, old(budget.visited), {});
            && (outcome.Rejected? <==> decoded.None?)
            && (decoded.Some? ==> outcome == Accepted(decoded.value, budget.visited))
    decreases entries
  {
    hide DecodeValue, Decode;
    ghost var start := budget.visited;
    var output := NoEntries;
    var keys: set<Text> := {};
    var rest := entries;
    while rest.Entry?
      invariant rest == entries || rest < entries
      invariant DecodeEntries(entries, depth, start, {}) == AfterEntries(output, DecodeEntries(rest, depth, budget.visited, keys))
      decreases rest
    {
      var decodedKey := DecodeAZHEXString(rest.key);
      if decodedKey.None? || decodedKey.value in keys {
        return None;
      }
      var item := DecodeAZHEXValue(rest.value, depth, budget);
      if item.None? {
        return None;
      }
      keys := keys + {decodedKey.value};
      ghost var further := DecodeEntries(rest.rest, depth, budget.visited, keys);
      if further.Accepted? {
        JoinEntryAppended(output, decodedKey.value, item.value, further.result);
      }
      output := AppendEntry(output, decodedKey.value, item.value);
      rest := rest.rest;
    }
    JoinNoEntries(output);
    return Some(output);
  }
}
