/** The rollups of every reachable warehouse: an exact materialised view of the facts
    under every schedule and clock, conserving totals and never losing a count. */
module Views {
  import opened Base
  import opened Rollups
  import opened Warehouse
  import opened Batches
  import opened Protocol
  import opened Guarantees

  ghost predicate ViewsKept(p: Plan, s: Sys) {
    && WellFormed(s.db) && RollupsExact(s.db)
    && match s.phase
       case Loading(feed, next, written, work) =>
         && next <= |p.topics| && WholeFeed(feed)
         && LoadTo(p.env, feed, p.topics, next, Work(s.db, [], [])) == Some(work)
       case _ => true
  }

  lemma StepKeepsViews(p: Plan, s: Sys, step: Step)
    requires ValidPlan(p) && WholePlan(p) && ViewsKept(p, s)
    ensures ViewsKept(p, Apply(p, s, step))
    ensures step.Commit? && s.phase.Loading? && s.phase.next == |p.topics| ==> Finish(s.phase.work).Some?
  {
    hide TopicWork, Finish;
    match step
    case Begin(clock, now) =>
      if CanBegin(p, s, clock, now) {
        FeedIsWhole(p, p.batches[s.done], clock, s.now, now);
      }
    case Commit =>
      if s.phase.Loading? && s.phase.next == |p.topics| {
        var start := Work(s.db, [], []);
        LoadEffectTo(p.env, s.phase.feed, p.topics, |p.topics|, start);
        WholeLoad(p.env, s.phase.feed, p.topics, |p.topics|, start);
        FinishMakesExact(s.db, s.phase.work);
      }
    case _ =>
  }

  lemma {:induction false} ExecKeepsViews(p: Plan, start: int, steps: seq<Step>)
    requires ValidPlan(p) && WholePlan(p)
    ensures ViewsKept(p, Exec(p, start, steps))
  {
    if steps == [] {
      EmptyIsExact(p.seeds);
    } else {
      ExecKeepsViews(p, start, steps[..|steps| - 1]);
      StepKeepsViews(p, Exec(p, start, steps[..|steps| - 1]), steps[|steps| - 1]);
    }
  }

  // ----- what a rollup row stands for -----

  /** Does a rollup row of this group stand for the fact, among others? */
  predicate StandsFor(subs: SubTable, group: Group, f: Fact) {
    match group
    case Revenue(province, kind) =>
      && f.subscriberId in subs && subs[f.subscriberId].province == province
      && ((kind == "AIRTIME" && f.detail.Recharge?) || (kind == "BUNDLE" && f.detail.BundleSale?))
    case Calls(tower) => f.detail.CallMade? && f.detail.towerId == tower
    case Data(tower, technology) =>
      f.detail.UsageSession? && f.detail.towerId == tower && f.detail.technology == technology
    case Dead(_, _) => false
  }

  /** What a fact adds to a rollup table. */
  function FactShare(f: Fact, t: Rollup, m: Measure): int {
    match (f.detail, t)
    case (Recharge(cents, _), RevenueMinute) => if m == Total then cents else if m == RowCount then 1 else 0
    case (BundleSale(_, cents), RevenueMinute) => if m == Total then cents else if m == RowCount then 1 else 0
    case (CallMade(_, _, duration, dropped), CallsMinute) =>
      if m == Total then duration else if m == RowCount then 1 else if dropped then 1 else 0
    case (UsageSession(_, hundredths, _, _), DataMinute) => if m == Total then hundredths else if m == RowCount then 1 else 0
    case _ => 0
  }

  /** The sum of a measure over the facts of one minute and group. */
  function SumGroup(subs: SubTable, facts: seq<Fact>, key: AggKey, m: Measure): int {
    if facts == [] then 0
    else
      var f := facts[|facts| - 1];
      SumGroup(subs, facts[..|facts| - 1], key, m)
      + if InMinute(f.ts, key.minute) && StandsFor(subs, key.group, f) then FactShare(f, TableOf(key.group), m) else 0
  }

  /** The rollup has a row for the key exactly when there is a fact in its minute and
      group; the row gives their number, their sum, and how many are marked. */
  ghost predicate RowIsSum(db: Db, key: AggKey) {
    && (key in db.agg <==> SumGroup(db.subs, db.facts, key, RowCount) > 0)
    && (key in db.agg ==> forall m :: OfCell(m, db.agg[key]) == SumGroup(db.subs, db.facts, key, m))
  }

  /** One fact's contribution to a rollup row. */
  lemma FactTally(subs: SubTable, f: Fact, key: AggKey, m: Measure)
    ensures OfCell(m, Tally(FactItem(subs, f), key))
         == if InMinute(f.ts, key.minute) && StandsFor(subs, key.group, f) then FactShare(f, TableOf(key.group), m) else 0
  {
    hide InMinute, FloorMinute;
    MinuteOf(f.ts, key.minute);
    var items := FactItem(subs, f);
    if items != [] {
      assert items[..0] == [];
      assert Tally(items, key) == if KeyOf(items[0]) == key then Add(Cell(0, 0, 0), items[0]) else Cell(0, 0, 0);
    }
  }

  lemma {:induction false} TallyIsSum(subs: SubTable, facts: seq<Fact>, key: AggKey, m: Measure)
    ensures OfCell(m, Tally(FactItems(subs, facts), key)) == SumGroup(subs, facts, key, m)
  {
    hide FactItem, InMinute, StandsFor, FactShare;
    if facts != [] {
      var init, f := facts[..|facts| - 1], facts[|facts| - 1];
      TallyIsSum(subs, init, key, m);
      TallyAppend(FactItems(subs, init), FactItem(subs, f), key);
      FactTally(subs, f, key, m);
      assert FactItems(subs, facts) == FactItems(subs, init) + FactItem(subs, f);
    }
  }

  lemma ExactRowsAreSums(db: Db, key: AggKey)
    requires RollupsExact(db) && TableOf(key.group) != DlqMinute
    ensures RowIsSum(db, key)
  {
    hide FactItems, Tally, SumGroup;
    assert Lookup(db.agg, key) == View(Source(db, TableOf(key.group)), key);
    forall m ensures OfCell(m, Tally(FactItems(db.subs, db.facts), key)) == SumGroup(db.subs, db.facts, key, m) {
      TallyIsSum(db.subs, db.facts, key, m);
    }
    assert OfCell(RowCount, Tally(FactItems(db.subs, db.facts), key)) == SumGroup(db.subs, db.facts, key, RowCount);
  }

  /** At every reachable state each rollup table equals the full GROUP BY over all facts:
      a row is there exactly when its minute and group have a fact, and gives their number,
      sum and marked number. The refresh of a batch about to commit cannot fail. */
  lemma RollupsAreViews(p: Plan, s: Sys)
    requires ValidPlan(p) && WholePlan(p) && Reachable(p, s)
    ensures RollupsExact(s.db)
    ensures forall key: AggKey :: TableOf(key.group) != DlqMinute ==> RowIsSum(s.db, key)
    ensures s.phase.Loading? && s.phase.next == |p.topics| ==> Finish(s.phase.work).Some?
  {
    hide RollupsExact, RowIsSum, Finish;
    ReachableViews(p, s);
    StepKeepsViews(p, s, Commit);
    forall key: AggKey | TableOf(key.group) != DlqMinute ensures RowIsSum(s.db, key) {
      ExactRowsAreSums(s.db, key);
    }
  }

  lemma ReachableViews(p: Plan, s: Sys)
    requires ValidPlan(p) && WholePlan(p) && Reachable(p, s)
    ensures ViewsKept(p, s)
  {
    hide Exec, ViewsKept;
    var start, steps :| s == Exec(p, start, steps);
    ExecKeepsViews(p, start, steps);
  }

  // ----- conservation -----

  function SumFacts(facts: seq<Fact>, t: Rollup, m: Measure): int {
    if facts == [] then 0 else SumFacts(facts[..|facts| - 1], t, m) + FactShare(facts[|facts| - 1], t, m)
  }

  lemma {:induction false} SumItemsAppend(a: seq<Item>, b: seq<Item>, t: Rollup, m: Measure)
    ensures SumItems(a + b, t, m) == SumItems(a, t, m) + SumItems(b, t, m)
  {
    if b == [] {
      assert a + b == a;
    } else {
      SumItemsAppend(a, b[..|b| - 1], t, m);
      assert (a + b)[..|a + b| - 1] == a + b[..|b| - 1];
    }
  }

  lemma FactShareIsItem(subs: SubTable, f: Fact, t: Rollup, m: Measure)
    requires f.subscriberId in subs
    ensures SumItems(FactItem(subs, f), t, m) == FactShare(f, t, m)
  {
    var items := FactItem(subs, f);
    if items != [] {
      assert items[..0] == [];
      assert SumItems(items, t, m)
          == SumItems(items[..0], t, m) + if TableOf(items[0].group) == t then OfItem(m, items[0]) else 0;
    }
  }

  lemma {:induction false} SumItemsIsSumFacts(subs: SubTable, facts: seq<Fact>, t: Rollup, m: Measure)
    requires forall f :: f in facts ==> f.subscriberId in subs
    ensures SumItems(FactItems(subs, facts), t, m) == SumFacts(facts, t, m)
  {
    if facts != [] {
      var init, last := facts[..|facts| - 1], facts[|facts| - 1];
      assert last in facts;
      SumItemsIsSumFacts(subs, init, t, m);
      assert FactItems(subs, facts) == FactItems(subs, init) + FactItem(subs, last);
      SumItemsAppend(FactItems(subs, init), FactItem(subs, last), t, m);
      FactShareIsItem(subs, last, t, m);
    }
  }

  /** Totals are conserved at every reachable state: summed over a rollup table, the
      amounts are those of all recharges and bundle sales, the durations those of all
      calls, the volumes those of all sessions, and the counts their cardinalities. */
  lemma TotalsAreConserved(p: Plan, s: Sys, t: Rollup, m: Measure)
    requires ValidPlan(p) && WholePlan(p) && Reachable(p, s) && t != DlqMinute
    ensures SumRows(OnlyTable(s.db.agg, t), t, m) == SumFacts(s.db.facts, t, m)
  {
    ReachableViews(p, s);
    TableConserved(s.db, t, m);
  }

  lemma TableConserved(db: Db, t: Rollup, m: Measure)
    requires WellFormed(db) && RollupsExact(db) && t != DlqMinute
    ensures SumRows(OnlyTable(db.agg, t), t, m) == SumFacts(db.facts, t, m)
  {
    var all := FactItems(db.subs, db.facts);
    var items := OfTable(all, t);
    forall key: AggKey ensures Lookup(OnlyTable(db.agg, t), key) == View(items, key) {
      OfTableTally(all, t, key);
      assert Lookup(db.agg, key) == View(Source(db, TableOf(key.group)), key);
    }
    TotalsConserved(OnlyTable(db.agg, t), items, t, m);
    OfTableSum(all, t, m);
    SumItemsIsSumFacts(db.subs, db.facts, t, m);
  }

  function OfTable(items: seq<Item>, t: Rollup): seq<Item> {
    if items == [] then []
    else
      var x, init := items[|items| - 1], OfTable(items[..|items| - 1], t);
      if TableOf(x.group) == t then init + [x] else init
  }

  lemma {:induction false} OfTableTally(items: seq<Item>, t: Rollup, key: AggKey)
    ensures Tally(OfTable(items, t), key) == if TableOf(key.group) == t then Tally(items, key) else Cell(0, 0, 0)
  {
    if items != [] {
      var n := |items| - 1;
      OfTableTally(items[..n], t, key);
      var init := OfTable(items[..n], t);
      assert (init + [items[n]])[..|init|] == init;
    }
  }

  lemma {:induction false} OfTableSum(items: seq<Item>, t: Rollup, m: Measure)
    ensures SumItems(OfTable(items, t), t, m) == SumItems(items, t, m)
  {
    if items != [] {
      var n := |items| - 1;
      OfTableSum(items[..n], t, m);
      var init := OfTable(items[..n], t);
      assert (init + [items[n]])[..|init|] == init;
    }
  }

  /** In every rollup row the marked rows are at most the counted ones, and when the
      warehouse grows no row disappears and no count drops. */
  lemma CountsNeverDrop(a: Db, b: Db, key: AggKey)
    requires WellFormed(a) && Grows(a, b) && RollupsExact(a) && RollupsExact(b)
    requires TableOf(key.group) != DlqMinute && key in a.agg
    ensures key in b.agg && b.agg[key].count >= a.agg[key].count > 0
    ensures b.agg[key].marked <= b.agg[key].count
  {
    hide FactItems, Tally;
    var more := b.facts[|a.facts|..];
    assert b.facts == a.facts + more;
    ItemsAppend(b.subs, a.facts, more);
    ItemsStay(a.subs, b.subs, a.facts);
    TallyAppend(FactItems(a.subs, a.facts), FactItems(b.subs, more), key);
    MarkedAtMostCount(FactItems(b.subs, b.facts), key);
    assert Lookup(a.agg, key) == View(Source(a, TableOf(key.group)), key);
    assert Lookup(b.agg, key) == View(Source(b, TableOf(key.group)), key);
  }

  /** Over a run no rollup row disappears, no count drops, and the dropped calls of a
      row are at most its calls. */
  lemma CountsNeverDropInRuns(p: Plan, start: int, steps: seq<Step>, more: seq<Step>, key: AggKey)
    requires ValidPlan(p) && WholePlan(p)
    requires TableOf(key.group) != DlqMinute && key in Exec(p, start, steps).db.agg
    ensures var a, b := Exec(p, start, steps).db.agg, Exec(p, start, steps + more).db.agg;
      key in b && b[key].count >= a[key].count > 0 && b[key].marked <= b[key].count
  {
    hide Exec, Grows;
    ExecKeepsViews(p, start, steps);
    ExecKeepsViews(p, start, steps + more);
    RunsOnlyGrow(p, start, steps, more);
    CountsNeverDrop(Exec(p, start, steps).db, Exec(p, start, steps + more).db, key);
  }
}
