/**
 Context assembly: the block given to the model, and the items logged as delivered.

 The rules, the memories and the turns come from three bounded queries; the vector store only gives
 an order. A line is kept as what it says, not as formatted text.
 */
module Context {
  import opened Wrappers

  type Id = string

  datatype Rule = Rule(id: Id, text: string, decidedBy: Option<string>)

  datatype Memory = Memory(id: Id, content: string)

  datatype Turn = Turn(session: Id, number: nat, role: string, content: string, producedUnder: seq<string>)

  datatype Item =
    | RuleItem(rule: Rule)
    | MemoryItem(memory: Memory)
    | TurnItem(turn: Turn, rolesNow: seq<string>, included: bool, outlived: bool, content: Option<string>)

  datatype Line =
    | Preamble
    | Heading(name: string)
    | OrderingUnavailable
    | Says(labelled: bool, content: string)
    | Omits(number: nat, lost: set<string>)

  const REVALIDATED_ROLES: set<string> := {"tool", "assistant"}

  // ---------------------------------------------------------------------------------------------
  // Ordering by relevance
  // ---------------------------------------------------------------------------------------------

  /** The vector store's answer, or an outage. */
  datatype Relevance = NotConfigured | Outage | Candidates(ids: seq<Id>)

  /** `{id: i for i, id in enumerate(ids)}`: a repeated id keeps its last place. */
  function RankOf(ids: seq<Id>, id: Id): Option<nat> {
    if |ids| == 0 then None
    else if ids[|ids| - 1] == id then Some(|ids| - 1)
    else RankOf(ids[..|ids| - 1], id)
  }

  /** Memories the store did not name come after everything it did name. */
  function KeyOf(ids: seq<Id>, m: Memory): nat {
    match RankOf(ids, m.id)
    case Some(rank) => rank
    case None => |set id | id in ids|
  }

  function Insert(ids: seq<Id>, m: Memory, sorted: seq<Memory>): seq<Memory> {
    if |sorted| == 0 || KeyOf(ids, sorted[|sorted| - 1]) <= KeyOf(ids, m) then sorted + [m]
    else Insert(ids, m, sorted[..|sorted| - 1]) + [sorted[|sorted| - 1]]
  }

  /** `sorted(memories, key=…)`, which is stable. */
  function StableSort(ids: seq<Id>, memories: seq<Memory>): seq<Memory> {
    if |memories| == 0 then []
    else Insert(ids, memories[|memories| - 1], StableSort(ids, memories[..|memories| - 1]))
  }

  function Ordered(relevance: Relevance, memories: seq<Memory>): seq<Memory> {
    if relevance.Candidates? then StableSort(relevance.ids, memories) else memories
  }

  predicate SortedBy(ids: seq<Id>, memories: seq<Memory>) {
    forall i, j :: 0 <= i < j < |memories| ==> KeyOf(ids, memories[i]) <= KeyOf(ids, memories[j])
  }

  /** The memories of one key, in the order they stand. */
  function WithKey(ids: seq<Id>, memories: seq<Memory>, key: nat): seq<Memory> {
    if |memories| == 0 then []
    else WithKey(ids, memories[..|memories| - 1], key)
         + if KeyOf(ids, memories[|memories| - 1]) == key then [memories[|memories| - 1]] else []
  }

  lemma {:induction false} InsertKeepsAll(ids: seq<Id>, m: Memory, sorted: seq<Memory>)
    ensures multiset(Insert(ids, m, sorted)) == multiset(sorted) + multiset{m}
  {
    if |sorted| != 0 && KeyOf(ids, sorted[|sorted| - 1]) > KeyOf(ids, m) {
      var front, last := sorted[..|sorted| - 1], sorted[|sorted| - 1];
      assert sorted == front + [last];
      InsertKeepsAll(ids, m, front);
    }
  }

  lemma {:induction false} InsertSorts(ids: seq<Id>, m: Memory, sorted: seq<Memory>)
    requires SortedBy(ids, sorted)
    ensures SortedBy(ids, Insert(ids, m, sorted))
  {
    if |sorted| != 0 && KeyOf(ids, sorted[|sorted| - 1]) > KeyOf(ids, m) {
      var front, last := sorted[..|sorted| - 1], sorted[|sorted| - 1];
      InsertSorts(ids, m, front);
      var inner := Insert(ids, m, front);
      forall i | 0 <= i < |inner| ensures KeyOf(ids, inner[i]) <= KeyOf(ids, last) {
        InsertedFrom(ids, m, front, inner[i]);
      }
    }
  }

  lemma InsertedFrom(ids: seq<Id>, m: Memory, sorted: seq<Memory>, x: Memory)
    requires x in Insert(ids, m, sorted)
    ensures x == m || x in sorted
  {
    InsertKeepsAll(ids, m, sorted);
    assert x in multiset(Insert(ids, m, sorted));
  }

  lemma {:induction false} InsertIsStable(ids: seq<Id>, m: Memory, sorted: seq<Memory>, key: nat)
    ensures WithKey(ids, Insert(ids, m, sorted), key) == WithKey(ids, sorted, key) + if KeyOf(ids, m) == key then [m] else []
  {
    if |sorted| == 0 || KeyOf(ids, sorted[|sorted| - 1]) <= KeyOf(ids, m) {
      assert (sorted + [m])[..|sorted|] == sorted;
    } else {
      var front, last := sorted[..|sorted| - 1], sorted[|sorted| - 1];
      InsertIsStable(ids, m, front, key);
      var inner := Insert(ids, m, front);
      assert (inner + [last])[..|inner|] == inner;
    }
  }

  lemma {:induction false} SortKeepsAll(ids: seq<Id>, memories: seq<Memory>)
    ensures multiset(StableSort(ids, memories)) == multiset(memories)
  {
    if |memories| > 0 {
      var front, last := memories[..|memories| - 1], memories[|memories| - 1];
      assert memories == front + [last];
      SortKeepsAll(ids, front);
      InsertKeepsAll(ids, last, StableSort(ids, front));
    }
  }

  lemma {:induction false} SortSorts(ids: seq<Id>, memories: seq<Memory>)
    ensures SortedBy(ids, StableSort(ids, memories))
  {
    if |memories| > 0 {
      SortSorts(ids, memories[..|memories| - 1]);
      InsertSorts(ids, memories[|memories| - 1], StableSort(ids, memories[..|memories| - 1]));
    }
  }

  lemma {:induction false} SortIsStable(ids: seq<Id>, memories: seq<Memory>, key: nat)
    ensures WithKey(ids, StableSort(ids, memories), key) == WithKey(ids, memories, key)
  {
    if |memories| > 0 {
      SortIsStable(ids, memories[..|memories| - 1], key);
      InsertIsStable(ids, memories[|memories| - 1], StableSort(ids, memories[..|memories| - 1]), key);
    }
  }

  /** The order is by rank; ties, such as memories the store did not name, stay most recent first. */
  lemma OrderIsStable(ids: seq<Id>, memories: seq<Memory>)
    ensures multiset(StableSort(ids, memories)) == multiset(memories)
    ensures SortedBy(ids, StableSort(ids, memories))
    ensures forall key: nat :: WithKey(ids, StableSort(ids, memories), key) == WithKey(ids, memories, key)
  {
    SortKeepsAll(ids, memories);
    SortSorts(ids, memories);
    forall key: nat { SortIsStable(ids, memories, key); }
  }

  // ---------------------------------------------------------------------------------------------
  // What goes in
  // ---------------------------------------------------------------------------------------------

  function Lost(t: Turn, rolesNow: seq<string>): set<string> {
    set r | r in t.producedUnder && r !in rolesNow
  }

  predicate Permitted(t: Turn, rolesNow: seq<string>) {
    t.role !in REVALIDATED_ROLES || Lost(t, rolesNow) == {}
  }

  function ItemOf(t: Turn, rolesNow: seq<string>, revalidate: bool): Item {
    var included := Permitted(t, rolesNow) || !revalidate;
    TurnItem(t, rolesNow, included, included && !Permitted(t, rolesNow), if included then Some(t.content) else None)
  }

  function LineOf(t: Turn, rolesNow: seq<string>, revalidate: bool, provenance: bool): Line {
    if Permitted(t, rolesNow) || !revalidate then Says(provenance, t.content) else Omits(t.number, Lost(t, rolesNow))
  }

  function RuleItems(rules: seq<Rule>): seq<Item> {
    seq(|rules|, i requires 0 <= i < |rules| => RuleItem(rules[i]))
  }

  function MemoryItems(memories: seq<Memory>): seq<Item> {
    seq(|memories|, i requires 0 <= i < |memories| => MemoryItem(memories[i]))
  }

  function TurnItems(turns: seq<Turn>, rolesNow: seq<string>, revalidate: bool): seq<Item> {
    seq(|turns|, i requires 0 <= i < |turns| => ItemOf(turns[i], rolesNow, revalidate))
  }

  function TurnLines(turns: seq<Turn>, rolesNow: seq<string>, revalidate: bool, provenance: bool): seq<Line> {
    seq(|turns|, i requires 0 <= i < |turns| => LineOf(turns[i], rolesNow, revalidate, provenance))
  }

  function RuleLines(rules: seq<Rule>, provenance: bool): seq<Line> {
    seq(|rules|, i requires 0 <= i < |rules| => Says(provenance, rules[i].text))
  }

  function MemoryLines(memories: seq<Memory>, provenance: bool): seq<Line> {
    seq(|memories|, i requires 0 <= i < |memories| => Says(provenance, memories[i].content))
  }

  predicate Included(item: Item) {
    item.TurnItem? ==> item.included
  }

  function CountIncluded(items: seq<Item>): (n: nat)
    ensures n <= |items|
  {
    if |items| == 0 then 0
    else CountIncluded(items[..|items| - 1]) + if Included(items[|items| - 1]) then 1 else 0
  }

  datatype Inputs = Inputs(rules: seq<Rule>, memories: seq<Memory>, turns: seq<Turn>, rolesNow: seq<string>,
                           provenance: bool, revalidate: bool)

  datatype Block = Block(lines: seq<Line>, items: seq<Item>, included: nat, omitted: nat)

  function ItemsOf(given: Inputs, relevance: Relevance): seq<Item> {
    RuleItems(given.rules) + MemoryItems(Ordered(relevance, given.memories))
    + TurnItems(given.turns, given.rolesNow, given.revalidate)
  }

  function Opening(given: Inputs): seq<Line> {
    (if given.provenance then [Preamble] else []) + [Heading("[rules]")]
  }

  function MemoryHeading(given: Inputs, relevance: Relevance): seq<Line> {
    [Heading("[memories]")] + if relevance.Outage? && given.memories != [] then [OrderingUnavailable] else []
  }

  function LinesOf(given: Inputs, relevance: Relevance): seq<Line> {
    Opening(given) + RuleLines(given.rules, given.provenance)
    + MemoryHeading(given, relevance) + MemoryLines(Ordered(relevance, given.memories), given.provenance)
    + [Heading("[history]")] + TurnLines(given.turns, given.rolesNow, given.revalidate, given.provenance)
  }

  /** `assemble`, after its queries. */
  method Assemble(given: Inputs, relevance: Relevance) returns (block: Block)
    ensures block.lines == LinesOf(given, relevance)
    ensures block.items == ItemsOf(given, relevance)
    ensures block.included == CountIncluded(block.items)
    ensures block.included + block.omitted == |block.items|
  {
    var memories := Ordered(relevance, given.memories);
    var ruleLines, ruleItems := RulePart(given.rules, given.provenance);
    var memoryLines, memoryItems := MemoryPart(memories, given.provenance);
    AllIncluded(ruleItems + memoryItems);
    var turnLines, turnItems, omitted := TurnPart(given, ruleItems + memoryItems);
    var lines := Opening(given) + ruleLines + MemoryHeading(given, relevance) + memoryLines + [Heading("[history]")] + turnLines;
    var items := ruleItems + memoryItems + turnItems;
    var included := Count(items);
    block := Block(lines, items, included, omitted);
  }

  /** `sum(1 for i in items if i["included"])` */
  method Count(items: seq<Item>) returns (included: nat)
    ensures included == CountIncluded(items)
  {
    included := 0;
    var i := 0;
    while i < |items|
      invariant i <= |items| && included == CountIncluded(items[..i])
    {
      assert items[..i + 1][..i] == items[..i];
      included := included + if Included(items[i]) then 1 else 0;
      i := i + 1;
    }
    assert items[..i] == items;
  }

  method RulePart(rules: seq<Rule>, provenance: bool) returns (lines: seq<Line>, items: seq<Item>)
    ensures lines == RuleLines(rules, provenance) && items == RuleItems(rules)
  {
    lines, items := [], [];
    for i := 0 to |rules|
      invariant lines == RuleLines(rules[..i], provenance) && items == RuleItems(rules[..i])
    {
      lines, items := lines + [Says(provenance, rules[i].text)], items + [RuleItem(rules[i])];
    }
    assert rules[..|rules|] == rules;
  }

  method MemoryPart(memories: seq<Memory>, provenance: bool) returns (lines: seq<Line>, items: seq<Item>)
    ensures lines == MemoryLines(memories, provenance) && items == MemoryItems(memories)
  {
    lines, items := [], [];
    for i := 0 to |memories|
      invariant lines == MemoryLines(memories[..i], provenance) && items == MemoryItems(memories[..i])
    {
      lines, items := lines + [Says(provenance, memories[i].content)], items + [MemoryItem(memories[i])];
    }
    assert memories[..|memories|] == memories;
  }

  lemma {:induction false} AllIncluded(items: seq<Item>)
    ensures (forall i :: 0 <= i < |items| ==> Included(items[i])) ==> CountIncluded(items) == |items|
  {
    if |items| > 0 {
      AllIncluded(items[..|items| - 1]);
    }
  }

  /** The history loop, which counts what it leaves out. */
  method TurnPart(given: Inputs, before: seq<Item>) returns (lines: seq<Line>, items: seq<Item>, omitted: nat)
    requires CountIncluded(before) == |before|
    ensures lines == TurnLines(given.turns, given.rolesNow, given.revalidate, given.provenance)
    ensures items == TurnItems(given.turns, given.rolesNow, given.revalidate)
    ensures CountIncluded(before + items) + omitted == |before + items|
  {
    lines, items, omitted := [], [], 0;
    assert before + [] == before;
    var i := 0;
    while i < |given.turns|
      invariant i <= |given.turns|
      invariant lines == TurnLines(given.turns[..i], given.rolesNow, given.revalidate, given.provenance)
      invariant items == TurnItems(given.turns[..i], given.rolesNow, given.revalidate)
      invariant CountIncluded(before + items) + omitted == |before + items|
    {
      var turn := given.turns[i];
      var item := ItemOf(turn, given.rolesNow, given.revalidate);
      assert before + (items + [item]) == (before + items) + [item];
      assert ((before + items) + [item])[..|before + items|] == before + items;
      lines := lines + [LineOf(turn, given.rolesNow, given.revalidate, given.provenance)];
      items := items + [item];
      if !item.included {
        omitted := omitted + 1;
      }
      i := i + 1;
    }
    assert given.turns[..i] == given.turns;
  }

  // ---------------------------------------------------------------------------------------------
  // The main results
  // ---------------------------------------------------------------------------------------------

  lemma {:induction false} ItemCount(memories: seq<Memory>, item: Item)
    ensures multiset(MemoryItems(memories))[item] == if item.MemoryItem? then multiset(memories)[item.memory] else 0
  {
    if |memories| > 0 {
      var front, last := memories[..|memories| - 1], memories[|memories| - 1];
      ItemCount(front, item);
      assert memories == front + [last];
      assert MemoryItems(memories) == MemoryItems(front) + [MemoryItem(last)];
    }
  }

  lemma ItemsOfMultiset(a: seq<Memory>, b: seq<Memory>)
    requires multiset(a) == multiset(b)
    ensures multiset(MemoryItems(a)) == multiset(MemoryItems(b))
  {
    forall item ensures multiset(MemoryItems(a))[item] == multiset(MemoryItems(b))[item] {
      ItemCount(a, item);
      ItemCount(b, item);
    }
  }

  /** Whatever the vector store answers, or if it is down, the same items go in; only memories change order. */
  lemma StoreOnlyOrders(given: Inputs, one: Relevance, other: Relevance)
    ensures multiset(MemoryItems(Ordered(one, given.memories))) == multiset(MemoryItems(Ordered(other, given.memories)))
    ensures multiset(ItemsOf(given, one)) == multiset(ItemsOf(given, other))
  {
    if one.Candidates? { SortKeepsAll(one.ids, given.memories); }
    if other.Candidates? { SortKeepsAll(other.ids, given.memories); }
    ItemsOfMultiset(Ordered(one, given.memories), Ordered(other, given.memories));
  }

  /**
   With re-authorisation on, every tool or assistant turn in the block was produced under roles the
   caller still holds. The outlived flag marks exactly the turns that are in although they were not.
   */
  lemma HistoryIsReauthorised(given: Inputs, relevance: Relevance, item: Item)
    requires item in ItemsOf(given, relevance) && item.TurnItem?
    ensures item.turn in given.turns && item.rolesNow == given.rolesNow
    ensures given.revalidate && item.included && item.turn.role in {"tool", "assistant"} ==>
              forall r :: r in item.turn.producedUnder ==> r in given.rolesNow
    ensures item.outlived <==>
              && item.included
              && item.turn.role in {"tool", "assistant"}
              && exists r :: r in item.turn.producedUnder && r !in given.rolesNow
    ensures item.content == if item.included then Some(item.turn.content) else None
    ensures !item.included ==> given.revalidate && exists r :: r in item.turn.producedUnder && r !in given.rolesNow
  {
    var items := TurnItems(given.turns, given.rolesNow, given.revalidate);
    assert item in items by {
      var i :| 0 <= i < |ItemsOf(given, relevance)| && ItemsOf(given, relevance)[i] == item;
      var skipped := |given.rules| + |Ordered(relevance, given.memories)|;
      assert i >= skipped && items[i - skipped] == item;
    }
    var k :| 0 <= k < |items| && items[k] == item;
    assert item == ItemOf(given.turns[k], given.rolesNow, given.revalidate);
    if Lost(item.turn, given.rolesNow) == {} {
      forall r | r in item.turn.producedUnder ensures r in given.rolesNow {
        assert r !in Lost(item.turn, given.rolesNow);
      }
    } else {
      var r :| r in Lost(item.turn, given.rolesNow);
    }
  }

  // --- the order, as the store's answer gives it ---

  predicate NoRepeats(ids: seq<Id>) {
    forall i, j :: 0 <= i < j < |ids| ==> ids[i] != ids[j]
  }

  lemma {:induction false} RankIsPosition(ids: seq<Id>, id: Id, at: nat)
    requires NoRepeats(ids)
    ensures RankOf(ids, id) == Some(at) <==> at < |ids| && ids[at] == id
    ensures RankOf(ids, id).None? <==> id !in ids
  {
    if |ids| > 0 && ids[|ids| - 1] != id {
      RankIsPosition(ids[..|ids| - 1], id, at);
      assert id in ids <==> id in ids[..|ids| - 1];
    }
  }

  lemma {:induction false} AsManyAsListed(ids: seq<Id>)
    requires NoRepeats(ids)
    ensures |set id | id in ids| == |ids|
  {
    if |ids| > 0 {
      var front, last := ids[..|ids| - 1], ids[|ids| - 1];
      AsManyAsListed(front);
      assert (set id | id in ids) == (set id | id in front) + {last};
    }
  }

  /**
   An answer of the store that repeats no id decides the order of what it names: earlier in the answer
   is earlier in the block, and what it does not name comes after everything it does.
   */
  lemma StoreDecidesOrder(ids: seq<Id>, memories: seq<Memory>, i: nat, j: nat)
    requires NoRepeats(ids) && i < j < |Ordered(Candidates(ids), memories)|
    ensures var order := Ordered(Candidates(ids), memories);
      var first, second := order[i].id, order[j].id;
      second in ids ==> exists p, q :: 0 <= p <= q < |ids| && ids[p] == first && ids[q] == second
  {
    OrderIsStable(ids, memories);
    AsManyAsListed(ids);
    var first, second := StableSort(ids, memories)[i], StableSort(ids, memories)[j];
    if second.id in ids {
      var q :| 0 <= q < |ids| && ids[q] == second.id;
      RankIsPosition(ids, second.id, q);
      RankIsPosition(ids, first.id, 0);
      var p := KeyOf(ids, first);
      assert p <= q;
      RankIsPosition(ids, first.id, p);
    }
  }

  /** Lines that only say contents, labelled as the setting says, or that stand in for an omitted turn. */
  predicate Plain(lines: seq<Line>, labelled: bool) {
    forall i :: 0 <= i < |lines| ==> lines[i].Omits? || (lines[i].Says? && lines[i].labelled == labelled)
  }

  lemma PartsArePlain(given: Inputs, memories: seq<Memory>)
    ensures Plain(RuleLines(given.rules, given.provenance), given.provenance)
    ensures Plain(MemoryLines(memories, given.provenance), given.provenance)
    ensures Plain(TurnLines(given.turns, given.rolesNow, given.revalidate, given.provenance), given.provenance)
  {
  }

  /**
   The block warns what it is exactly while provenance is shown, which is also when each content is
   labelled, and says that the order could not be had exactly in an outage with something to order.
   */
  lemma BlockIsLabelledExactly(given: Inputs, relevance: Relevance)
    ensures var lines := LinesOf(given, relevance);
      && (Preamble in lines <==> given.provenance)
      && (OrderingUnavailable in lines <==> relevance.Outage? && given.memories != [])
      && (forall line :: line in lines && line.Says? ==> line.labelled == given.provenance)
  {
    var memories := Ordered(relevance, given.memories);
    PartsArePlain(given, memories);
    var r, m := RuleLines(given.rules, given.provenance), MemoryLines(memories, given.provenance);
    var t := TurnLines(given.turns, given.rolesNow, given.revalidate, given.provenance);
    var lines := LinesOf(given, relevance);
    assert lines == Opening(given) + r + MemoryHeading(given, relevance) + m + [Heading("[history]")] + t;
    forall line
      ensures line in lines <==> || line in Opening(given) || line in r || line in MemoryHeading(given, relevance)
                                 || line in m || line == Heading("[history]") || line in t
    {
    }
  }

  // --- the block and the log say the same ---

  /** A content, or the notice that stands in for a turn and names the roles its author has lost. */
  datatype Shown = Content(text: string) | Notice(number: nat, lost: set<string>)

  function ShownBy(line: Line): seq<Shown> {
    match line
    case Says(_, content) => [Content(content)]
    case Omits(number, lost) => [Notice(number, lost)]
    case _ => []
  }

  /** What a block shows, in order. */
  function Said(lines: seq<Line>): seq<Shown> {
    if |lines| == 0 then [] else Said(lines[..|lines| - 1]) + ShownBy(lines[|lines| - 1])
  }

  function ShownFor(item: Item): seq<Shown> {
    match item
    case RuleItem(rule) => [Content(rule.text)]
    case MemoryItem(memory) => [Content(memory.content)]
    case TurnItem(turn, rolesNow, included, _, _) =>
      [if included then Content(turn.content) else Notice(turn.number, Lost(turn, rolesNow))]
  }

  /** What the logged items deliver, in order. */
  function Delivered(items: seq<Item>): seq<Shown> {
    if |items| == 0 then [] else Delivered(items[..|items| - 1]) + ShownFor(items[|items| - 1])
  }

  lemma {:induction false} SaidOfConcat(a: seq<Line>, b: seq<Line>)
    ensures Said(a + b) == Said(a) + Said(b)
  {
    if |b| == 0 {
      assert a + b == a;
    } else {
      var front, last := b[..|b| - 1], ShownBy(b[|b| - 1]);
      assert (a + b)[..|a + b| - 1] == a + front;
      SaidOfConcat(a, front);
      assert Said(a + b) == Said(a + front) + last;
      assert Said(b) == Said(front) + last;
    }
  }

  lemma {:induction false} DeliveredOfConcat(a: seq<Item>, b: seq<Item>)
    ensures Delivered(a + b) == Delivered(a) + Delivered(b)
  {
    if |b| == 0 {
      assert a + b == a;
    } else {
      assert (a + b)[..|a + b| - 1] == a + b[..|b| - 1];
      DeliveredOfConcat(a, b[..|b| - 1]);
    }
  }

  /** Line by line, a part of the block says what its items deliver. */
  lemma {:induction false} PartSays(lines: seq<Line>, items: seq<Item>)
    requires |lines| == |items|
    requires forall i :: 0 <= i < |lines| ==> ShownBy(lines[i]) == ShownFor(items[i])
    ensures Said(lines) == Delivered(items)
  {
    if |lines| > 0 {
      PartSays(lines[..|lines| - 1], items[..|items| - 1]);
    }
  }

  lemma QuietLine(line: Line)
    requires !line.Says? && !line.Omits?
    ensures Said([line]) == []
  {
    assert [line][..0] == [];
  }

  lemma SaidAfterQuiet(before: seq<Line>, quiet: seq<Line>, part: seq<Line>)
    requires Said(quiet) == []
    ensures Said(before + quiet + part) == Said(before) + Said(part)
  {
    SaidOfConcat(before + quiet, part);
    SaidOfConcat(before, quiet);
  }

  lemma SaidAtFirst(quiet: seq<Line>, part: seq<Line>)
    requires Said(quiet) == []
    ensures Said(quiet + part) == Said(part)
  {
    SaidOfConcat(quiet, part);
    assert [] + Said(part) == Said(part);
  }

  lemma DeliveredOfParts(r: seq<Item>, m: seq<Item>, t: seq<Item>)
    ensures Delivered(r + m + t) == Delivered(r) + Delivered(m) + Delivered(t)
  {
    DeliveredOfConcat(r + m, t);
    DeliveredOfConcat(r, m);
  }

  /**
   The block shows exactly the contents of the items logged as included, each once and in their
   order, and in place of each turn logged as omitted the roles that were lost: nothing of an omitted
   turn is shown, and nothing shown is missing from the log.
   */
  lemma BlockSaysWhatIsLogged(given: Inputs, relevance: Relevance)
    ensures Said(LinesOf(given, relevance)) == Delivered(ItemsOf(given, relevance))
  {
    var ordered := Ordered(relevance, given.memories);
    var r, m := RuleLines(given.rules, given.provenance), MemoryLines(ordered, given.provenance);
    var t := TurnLines(given.turns, given.rolesNow, given.revalidate, given.provenance);
    var ri, mi := RuleItems(given.rules), MemoryItems(ordered);
    var ti := TurnItems(given.turns, given.rolesNow, given.revalidate);
    PartSays(r, ri);
    PartSays(m, mi);
    PartSays(t, ti);
    QuietParts(given, relevance);
    SaidAtFirst(Opening(given), r);
    SaidAfterQuiet(Opening(given) + r, MemoryHeading(given, relevance), m);
    SaidAfterQuiet(Opening(given) + r + MemoryHeading(given, relevance) + m, [Heading("[history]")], t);
    DeliveredOfParts(ri, mi, ti);
  }

  lemma QuietParts(given: Inputs, relevance: Relevance)
    ensures Said(Opening(given)) == [] && Said(MemoryHeading(given, relevance)) == [] && Said([Heading("[history]")]) == []
  {
    QuietLine(Preamble);
    QuietLine(Heading("[rules]"));
    QuietLine(Heading("[memories]"));
    QuietLine(Heading("[history]"));
    QuietLine(OrderingUnavailable);
    SaidOfConcat(if given.provenance then [Preamble] else [], [Heading("[rules]")]);
    SaidOfConcat([Heading("[memories]")], if relevance.Outage? && given.memories != [] then [OrderingUnavailable] else []);
  }
}
