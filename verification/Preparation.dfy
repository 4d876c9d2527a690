/** The preparation queue: readiness gaps, sorted by size, given a clamped priority and
    sorted again. */
module Preparation {
  import opened StableSort

  datatype Gap = Gap(competency: int, name: string, demonstratedLevel: int, requiredLevel: int, score: real, gap: int)

  /** A recommendation; its reason text spells out the levels of `gap`. */
  datatype Item = Item(gap: Gap, priority: int, minutes: int, improvement: real)

  function Min(a: int, b: int): int {
    if a <= b then a else b
  }

  function MinReal(a: real, b: real): real {
    if a <= b then a else b
  }

  function Priority(g: Gap, weak: set<int>, recent: set<int>): int {
    Min(100, 50 * g.gap + (if g.competency in weak then 30 else 0) + if g.competency !in recent then 20 else 0)
  }

  function ItemOf(g: Gap, weak: set<int>, recent: set<int>): Item {
    Item(g, Priority(g, weak, recent), if g.gap >= 2 then 25 else 15, MinReal(1.0, 0.1 * g.gap as real + 0.05))
  }

  function ByGap(gaps: seq<Gap>): (keyed: seq<Keyed<Gap>>)
    ensures |keyed| == |gaps| && forall i :: 0 <= i < |gaps| ==> keyed[i] == Keyed(gaps[i], gaps[i].gap as real)
  {
    seq(|gaps|, i requires 0 <= i < |gaps| => Keyed(gaps[i], gaps[i].gap as real))
  }

  /** Of two competencies one level short a weak one comes first; of two that are weak, or
      two that are not, one that was not practised lately. */
  predicate NoLessUrgent(c: int, d: int, weak: set<int>, recent: set<int>) {
    || (c in weak && d !in weak)
    || ((c in weak <==> d in weak) && (c !in recent || d in recent))
  }

  method PlanPreparation(gaps: seq<Gap>, weak: set<int>, recent: set<int>) returns (queue: seq<Keyed<Item>>)
    ensures multiset(GapsOf(queue)) == multiset(gaps)
    ensures forall i, j :: 0 <= i < j < |queue| ==> queue[i].item.gap.gap >= queue[j].item.gap.gap
    ensures forall i, j :: 0 <= i < j < |queue| ==> queue[i].item.priority >= queue[j].item.priority
    ensures forall i :: 0 <= i < |queue| ==> queue[i].item == ItemOf(queue[i].item.gap, weak, recent)
    ensures forall i :: 0 <= i < |queue| && queue[i].item.gap.gap >= 2 ==> queue[i].item.priority == 100
    ensures forall i, j :: 0 <= i < j < |queue| && queue[i].item.gap.gap == queue[j].item.gap.gap == 1
              ==> NoLessUrgent(queue[i].item.gap.competency, queue[j].item.gap.competency, weak, recent)
  {
    var sorted := SortedDown(ByGap(gaps));
    SortedFacts(ByGap(gaps));
    var items: seq<Keyed<Item>> := [];
    for n := 0 to |sorted|
      invariant |items| == n
      invariant forall i :: 0 <= i < n ==> Listed(items[i], sorted[i], weak, recent)
    {
      var g := sorted[n].item;
      var priority := 50 * g.gap;
      if g.competency in weak {
        priority := priority + 30;
      }
      if g.competency !in recent {
        priority := priority + 20;
      }
      var item := Item(g, Min(100, priority), if g.gap >= 2 then 25 else 15, MinReal(1.0, 0.1 * g.gap as real + 0.05));
      KeyIsGap(gaps, sorted, n);
      items := items + [Keyed(item, item.priority as real)];
    }
    queue := SortedDown(items);
    QueueIsPlan(gaps, sorted, items, weak, recent);
    QueueUrgency(queue, weak, recent);
  }

  ghost predicate Listed(x: Keyed<Item>, g: Keyed<Gap>, weak: set<int>, recent: set<int>) {
    x.item == ItemOf(g.item, weak, recent) && x.key == x.item.priority as real && g.key == g.item.gap as real
  }

  function GapsOf(queue: seq<Keyed<Item>>): (gaps: seq<Gap>)
    ensures |gaps| == |queue| && forall i :: 0 <= i < |queue| ==> gaps[i] == queue[i].item.gap
  {
    seq(|queue|, i requires 0 <= i < |queue| => queue[i].item.gap)
  }

  function Items(keyed: seq<Keyed<Gap>>): (items: seq<Gap>)
    ensures |items| == |keyed| && forall i :: 0 <= i < |keyed| ==> items[i] == keyed[i].item
  {
    seq(|keyed|, i requires 0 <= i < |keyed| => keyed[i].item)
  }

  lemma KeyIsGap(gaps: seq<Gap>, sorted: seq<Keyed<Gap>>, n: nat)
    requires sorted == SortedDown(ByGap(gaps)) && n < |sorted|
    ensures sorted[n].key == sorted[n].item.gap as real
  {
    SortedFacts(ByGap(gaps));
    assert sorted[n] in multiset(sorted);
    assert sorted[n] in multiset(ByGap(gaps));
  }

  /** What an item says: a gap of two levels or more has top priority, and a gap of one
      level has it only for a weak competency that was not practised lately. */
  lemma ItemSays(g: Gap, weak: set<int>, recent: set<int>)
    requires g.gap >= 1
    ensures var item := ItemOf(g, weak, recent);
            && (g.gap >= 2 ==> item.priority == 100 && item.minutes == 25)
            && (g.gap == 1 ==> 50 <= item.priority <= 100 && item.minutes == 15 && item.improvement == 0.15)
            && (2 <= g.gap <= 4 ==> item.improvement == [0.25, 0.35, 0.45][g.gap - 2])
            && (g.gap == 1 ==> (item.priority == 100 <==> g.competency in weak && g.competency !in recent))
            && (g.gap == 1 ==> (item.priority == 50 <==> g.competency !in weak && g.competency in recent))
  {
  }

  // -- the two sorts agree --------------------------------------------------------

  /** A larger gap never has a lower priority, clamp or not. */
  lemma LargerGapNotLower(g: Gap, h: Gap, weak: set<int>, recent: set<int>)
    requires g.gap > h.gap
    ensures Priority(g, weak, recent) >= Priority(h, weak, recent)
  {
  }

  ghost predicate GapsFall(queue: seq<Keyed<Item>>) {
    forall i, j :: 0 <= i < j < |queue| ==> queue[i].item.gap.gap >= queue[j].item.gap.gap
  }

  ghost predicate Honest(x: Keyed<Item>, weak: set<int>, recent: set<int>) {
    x.item == ItemOf(x.item.gap, weak, recent) && x.key == x.item.priority as real
  }

  lemma {:induction false} InsertKeepsGaps(r: Keyed<Item>, sorted: seq<Keyed<Item>>, weak: set<int>, recent: set<int>)
    requires Descending(sorted) && GapsFall(sorted) && Honest(r, weak, recent)
    requires forall x :: x in sorted ==> Honest(x, weak, recent) && x.item.gap.gap <= r.item.gap.gap
    ensures GapsFall(Insert(r, sorted))
  {
    if sorted != [] && r.key < sorted[0].key {
      var first, rest := sorted[0], sorted[1..];
      if first.item.gap.gap < r.item.gap.gap {
        LargerGapNotLower(r.item.gap, first.item.gap, weak, recent);
      }
      assert forall x :: x in rest ==> x in sorted;
      InsertKeepsGaps(r, rest, weak, recent);
      InsertFacts(r, rest);
      GapsFallCons(first, Insert(r, rest));
    } else {
      GapsFallCons(r, sorted);
    }
  }

  lemma GapsFallCons(first: Keyed<Item>, rest: seq<Keyed<Item>>)
    requires GapsFall(rest) && forall x :: x in rest ==> first.item.gap.gap >= x.item.gap.gap
    ensures GapsFall([first] + rest)
  {
  }

  /** Sorting by priority a list that already falls by gap leaves it falling by gap. */
  lemma {:induction false} ResortKeepsGaps(items: seq<Keyed<Item>>, weak: set<int>, recent: set<int>)
    requires GapsFall(items) && forall x :: x in items ==> Honest(x, weak, recent)
    ensures GapsFall(SortedDown(items))
  {
    if items != [] {
      var rest := items[1..];
      assert forall i :: 0 <= i < |rest| ==> rest[i] == items[i + 1];
      ResortKeepsGaps(rest, weak, recent);
      SortedFacts(rest);
      forall x | x in SortedDown(rest)
        ensures Honest(x, weak, recent) && x.item.gap.gap <= items[0].item.gap.gap
      {
        assert x in multiset(SortedDown(rest));
        assert x in multiset(rest);
        var i :| 0 <= i < |rest| && rest[i] == x;
      }
      InsertKeepsGaps(items[0], SortedDown(rest), weak, recent);
    }
  }

  lemma {:induction false} InsertGaps(r: Keyed<Item>, sorted: seq<Keyed<Item>>)
    ensures multiset(GapsOf(Insert(r, sorted))) == multiset(GapsOf(sorted)) + multiset{r.item.gap}
  {
    if sorted != [] && r.key < sorted[0].key {
      InsertGaps(r, sorted[1..]);
      assert GapsOf(sorted) == [sorted[0].item.gap] + GapsOf(sorted[1..]);
      assert GapsOf(Insert(r, sorted)) == [sorted[0].item.gap] + GapsOf(Insert(r, sorted[1..]));
    } else {
      assert GapsOf([r] + sorted) == [r.item.gap] + GapsOf(sorted);
    }
  }

  lemma {:induction false} SortedGaps(rs: seq<Keyed<Item>>)
    ensures multiset(GapsOf(SortedDown(rs))) == multiset(GapsOf(rs))
  {
    if rs != [] {
      SortedGaps(rs[1..]);
      InsertGaps(rs[0], SortedDown(rs[1..]));
      assert GapsOf(rs) == [rs[0].item.gap] + GapsOf(rs[1..]);
    }
  }

  lemma ItemsCons(r: Keyed<Gap>, rest: seq<Keyed<Gap>>)
    ensures Items([r] + rest) == [r.item] + Items(rest)
    ensures multiset(Items([r] + rest)) == multiset{r.item} + multiset(Items(rest))
  {
  }

  lemma {:induction false} InsertItems(r: Keyed<Gap>, sorted: seq<Keyed<Gap>>)
    ensures multiset(Items(Insert(r, sorted))) == multiset(Items(sorted)) + multiset{r.item}
  {
    if sorted != [] && r.key < sorted[0].key {
      var first, rest := sorted[0], sorted[1..];
      InsertItems(r, rest);
      ItemsCons(first, rest);
      ItemsCons(first, Insert(r, rest));
      assert sorted == [first] + rest;
    } else {
      ItemsCons(r, sorted);
    }
  }

  lemma {:induction false} SortedItems(rs: seq<Keyed<Gap>>)
    ensures multiset(Items(SortedDown(rs))) == multiset(Items(rs))
  {
    if rs != [] {
      SortedItems(rs[1..]);
      InsertItems(rs[0], SortedDown(rs[1..]));
      assert Items(rs) == [rs[0].item] + Items(rs[1..]);
    }
  }

  lemma QueueIsPlan(gaps: seq<Gap>, sorted: seq<Keyed<Gap>>, items: seq<Keyed<Item>>, weak: set<int>, recent: set<int>)
    requires sorted == SortedDown(ByGap(gaps)) && |items| == |sorted|
    requires forall i :: 0 <= i < |sorted| ==> Listed(items[i], sorted[i], weak, recent)
    ensures var queue := SortedDown(items);
            && multiset(GapsOf(queue)) == multiset(gaps) && GapsFall(queue)
            && (forall i, j :: 0 <= i < j < |queue| ==> queue[i].item.priority >= queue[j].item.priority)
            && (forall i :: 0 <= i < |queue| ==> queue[i].item == ItemOf(queue[i].item.gap, weak, recent))
  {
    var queue := SortedDown(items);
    SortedFacts(ByGap(gaps));
    SortedFacts(items);
    ResortKeepsGaps(items, weak, recent);
    SortedGaps(items);
    assert GapsOf(items) == Items(sorted);
    SortedItems(ByGap(gaps));
    assert Items(ByGap(gaps)) == gaps;
    forall i | 0 <= i < |queue|
      ensures Honest(queue[i], weak, recent)
    {
      assert queue[i] in multiset(queue);
      assert queue[i] in multiset(items);
    }
  }

  lemma QueueUrgency(queue: seq<Keyed<Item>>, weak: set<int>, recent: set<int>)
    requires forall i, j :: 0 <= i < j < |queue| ==> queue[i].item.priority >= queue[j].item.priority
    requires forall i :: 0 <= i < |queue| ==> queue[i].item == ItemOf(queue[i].item.gap, weak, recent)
    ensures forall i :: 0 <= i < |queue| && queue[i].item.gap.gap >= 2 ==> queue[i].item.priority == 100
    ensures forall i, j :: 0 <= i < j < |queue| && queue[i].item.gap.gap == queue[j].item.gap.gap == 1
              ==> NoLessUrgent(queue[i].item.gap.competency, queue[j].item.gap.competency, weak, recent)
  {
    forall i, j | 0 <= i < j < |queue| && queue[i].item.gap.gap == queue[j].item.gap.gap == 1
      ensures NoLessUrgent(queue[i].item.gap.competency, queue[j].item.gap.competency, weak, recent)
    {
      Urgency(queue[i].item.gap, queue[j].item.gap, weak, recent);
    }
  }

  lemma Urgency(g: Gap, h: Gap, weak: set<int>, recent: set<int>)
    requires g.gap == h.gap == 1 && Priority(g, weak, recent) >= Priority(h, weak, recent)
    ensures NoLessUrgent(g.competency, h.competency, weak, recent)
  {
  }
}
