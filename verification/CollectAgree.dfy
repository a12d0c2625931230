/** The concurrent collector against the sequential one. */
module CollectAgree {
  import opened Sequences
  import opened Evidence
  import opened Collect

  datatype CollectionStatus = NoSource | Degraded | PartialDone | Complete

  /** COMPLETED from 5 successful sources, PARTIAL_DONE from 3, DEGRADED from 1, else FAILED. */
  function StatusOf(successes: nat): CollectionStatus {
    if successes >= 5 then Complete
    else if successes >= 3 then PartialDone
    else if successes >= 1 then Degraded
    else NoSource
  }

  function StatusRank(c: CollectionStatus): nat {
    match c
    case NoSource => 0
    case Degraded => 1
    case PartialDone => 2
    case Complete => 3
  }

  function Sequential(plan: seq<Tool>, ask: Answers): Result {
    MergeAll(NOTHING, Items(plan, ask))
  }

  function Concurrent(plan: seq<Tool>, ask: Answers, done: set<Tool>, pending: seq<Tool>): Result {
    MergeAll(NOTHING, Schedule(plan, ask, done, pending))
  }

  // ---- each planned tool is merged exactly once ----

  function Tools(items: seq<Item>): seq<Tool> {
    Image(items, (i: Item) => i.tool)
  }

  lemma ItemsTools(tools: seq<Tool>, ask: Answers)
    ensures Tools(Items(tools, ask)) == tools
  {}

  lemma ScheduleTools(plan: seq<Tool>, ask: Answers, done: set<Tool>, pending: seq<Tool>)
    requires Distinct(plan) && Split(plan, ask, done, pending)
    ensures var ts := Tools(Schedule(plan, ask, done, pending));
            Distinct(ts) && (forall t :: t in ts <==> t in plan) && |ts| == |plan|
  {
    var a, b := Select(plan, IsSkipped(ask)), Select(plan, IsFinished(ask, done));
    SelectMembers(plan, IsSkipped(ask));
    SelectMembers(plan, IsFinished(ask, done));
    SelectDistinct(plan, IsSkipped(ask));
    SelectDistinct(plan, IsFinished(ask, done));
    DistinctAppend(a, b);
    DistinctAppend(a + b, pending);
    assert Tools(Schedule(plan, ask, done, pending)) == a + b + pending;
    SameMembersSameLength(a + b + pending, plan);
  }

  lemma DistinctIsOnce(items: seq<Item>)
    requires Distinct(Tools(items))
    ensures OncePerTool(items)
  {
    forall i, j | 0 <= i < j < |items| ensures items[i].tool != items[j].tool {
      assert Tools(items)[i] != Tools(items)[j];
    }
  }

  // ---- what the two collectors produce ----

  lemma SequentialMeaning(plan: seq<Tool>, ask: Answers)
    requires Distinct(plan)
    ensures Sequential(plan, ask) == Contributions(NOTHING, Items(plan, ask))
    ensures OncePerTool(Items(plan, ask))
  {
    ItemsTools(plan, ask);
    DistinctIsOnce(Items(plan, ask));
    MergeMeaning(NOTHING, Items(plan, ask));
  }

  lemma ConcurrentMeaning(plan: seq<Tool>, ask: Answers, done: set<Tool>, pending: seq<Tool>)
    requires Distinct(plan) && Split(plan, ask, done, pending)
    ensures Concurrent(plan, ask, done, pending) == Contributions(NOTHING, Schedule(plan, ask, done, pending))
    ensures OncePerTool(Schedule(plan, ask, done, pending))
  {
    ScheduleTools(plan, ask, done, pending);
    DistinctIsOnce(Schedule(plan, ask, done, pending));
    MergeMeaning(NOTHING, Schedule(plan, ask, done, pending));
  }

  function Via<T>(ask: Answers, f: Item -> seq<T>): Tool -> seq<T> {
    t => f(ItemOf(t, ask))
  }

  lemma FlatItems<T>(tools: seq<Tool>, ask: Answers, f: Item -> seq<T>)
    ensures Flat(Items(tools, ask), f) == Flat(tools, Via(ask, f))
  {
    FlatImage(tools, Outcomes(ask), f, Via(ask, f));
  }

  lemma FlatSchedule<T>(plan: seq<Tool>, ask: Answers, done: set<Tool>, pending: seq<Tool>, f: Item -> seq<T>)
    ensures Flat(Schedule(plan, ask, done, pending), f)
         == Flat(Select(plan, IsSkipped(ask)), Via(ask, f)) + Flat(Select(plan, IsFinished(ask, done)), Via(ask, f))
            + Flat(TimedOut(pending), f)
  {
    FlatAppend(Skipped(plan, ask) + Finished(plan, ask, done), TimedOut(pending), f);
    FlatAppend(Skipped(plan, ask), Finished(plan, ask, done), f);
    FlatItems(Select(plan, IsSkipped(ask)), ask, f);
    FlatItems(Select(plan, IsFinished(ask, done)), ask, f);
  }

  /** Contributions that only hits make come from the finished queries, in plan order. */
  lemma HitPart<T>(plan: seq<Tool>, ask: Answers, done: set<Tool>, pending: seq<Tool>, f: Item -> seq<T>)
    requires forall i: Item :: !i.outcome.Hit? ==> f(i) == []
    ensures Flat(Schedule(plan, ask, done, pending), f) == Flat(Select(plan, IsFinished(ask, done)), Via(ask, f))
  {
    FlatSchedule(plan, ask, done, pending, f);
    SelectMembers(plan, IsSkipped(ask));
    FlatEmpty(Select(plan, IsSkipped(ask)), Via(ask, f));
    FlatEmpty(TimedOut(pending), f);
  }

  /** When every query finishes in time the two collectors agree, whatever order tasks finish in:
      the same evidence and success sequences, the same gaps and failures up to order. */
  lemma ConcurrentAgreesWithSequential(plan: seq<Tool>, ask: Answers, done: set<Tool>)
    requires Distinct(plan) && Split(plan, ask, done, [])
    ensures var s, c := Sequential(plan, ask), Concurrent(plan, ask, done, []);
            && c.evidence == s.evidence
            && c.success == s.success
            && StatusOf(|c.success|) == StatusOf(|s.success|)
            && multiset(c.gaps) == multiset(s.gaps)
            && multiset(c.failed) == multiset(s.failed)
  {
    SequentialMeaning(plan, ask);
    ConcurrentMeaning(plan, ask, done, []);
    AllFinished(plan, ask, done, RowsOf);
    AllFinished(plan, ask, done, HitOf);
    BothParts(plan, ask, done, GapsOf);
    BothParts(plan, ask, done, FailureOf);
  }

  lemma AllFinished<T>(plan: seq<Tool>, ask: Answers, done: set<Tool>, f: Item -> seq<T>)
    requires Split(plan, ask, done, [])
    requires forall i: Item :: !i.outcome.Hit? ==> f(i) == []
    ensures Flat(Schedule(plan, ask, done, []), f) == Flat(Items(plan, ask), f)
  {
    HitPart(plan, ask, done, [], f);
    FlatItems(plan, ask, f);
    forall t <- plan ensures IsFinished(ask, done)(t) || Via(ask, f)(t) == [] {
      assert t !in [];
    }
    FlatSelectSame(plan, IsFinished(ask, done), Via(ask, f));
  }

  lemma BothParts<T>(plan: seq<Tool>, ask: Answers, done: set<Tool>, f: Item -> seq<T>)
    requires Split(plan, ask, done, [])
    ensures multiset(Flat(Schedule(plan, ask, done, []), f)) == multiset(Flat(Items(plan, ask), f))
  {
    FlatSchedule(plan, ask, done, [], f);
    FlatItems(plan, ask, f);
    forall t <- plan ensures IsFinished(ask, done)(t) <==> !IsSkipped(ask)(t) {
      assert t !in [];
    }
    FlatPartition(plan, IsSkipped(ask), IsFinished(ask, done), Via(ask, f));
  }

  // ---- any split at the global timeout ----

  lemma {:induction false} Origin<T, U>(s: seq<T>, f: T -> seq<U>, x: U) returns (k: nat)
    requires x in Flat(s, f)
    ensures k < |s| && x in f(s[k])
  {
    if x in f(s[0]) {
      k := 0;
    } else {
      k := Origin(s[1..], f, x);
      k := k + 1;
    }
  }

  ghost predicate NamesItsSource(f: Item -> seq<Source>) {
    forall i: Item :: f(i) == [] || f(i) == [SourceOf(i.tool)]
  }

  lemma {:induction false} SourcesDistinct(items: seq<Item>, f: Item -> seq<Source>)
    requires OncePerTool(items) && NamesItsSource(f)
    ensures Distinct(Flat(items, f))
  {
    if items != [] {
      SourcesDistinct(items[1..], f);
      forall x <- Flat(items[1..], f) ensures x != SourceOf(items[0].tool) {
        var k := Origin(items[1..], f, x);
        assert items[0].tool != items[k + 1].tool;
      }
      DistinctAppend(f(items[0]), Flat(items[1..], f));
    }
  }

  lemma SourcesDisjoint(items: seq<Item>, x: Source)
    requires OncePerTool(items) && x in Flat(items, HitOf)
    ensures x !in Flat(items, FailureOf)
  {
    if x in Flat(items, FailureOf) {
      var i := Origin(items, HitOf, x);
      var j := Origin(items, FailureOf, x);
    }
  }

  lemma {:induction false} Shares(items: seq<Item>)
    ensures |Flat(items, HitOf)| + |Flat(items, FailureOf)| + |Flat(items, EmptyOf)| == |items|
  {
    if items != [] {
      Shares(items[1..]);
    }
  }

  lemma SourceLists(items: seq<Item>)
    requires OncePerTool(items)
    ensures Distinct(Flat(items, HitOf)) && Distinct(Flat(items, FailureOf))
    ensures forall x <- Flat(items, HitOf) :: x !in Flat(items, FailureOf)
  {
    SourcesDistinct(items, HitOf);
    SourcesDistinct(items, FailureOf);
    forall x <- Flat(items, HitOf) ensures x !in Flat(items, FailureOf) {
      SourcesDisjoint(items, x);
    }
  }

  lemma OnlyFinishedCount<T>(plan: seq<Tool>, ask: Answers, done: set<Tool>, pending: seq<Tool>, f: Item -> seq<T>)
    requires forall i: Item :: !i.outcome.Hit? ==> f(i) == []
    ensures Subsequence(Flat(Schedule(plan, ask, done, pending), f), Flat(Items(plan, ask), f))
  {
    HitPart(plan, ask, done, pending, f);
    FlatItems(plan, ask, f);
    FlatSelect(plan, IsFinished(ask, done), Via(ask, f));
  }

  /** Each planned tool is merged exactly once and accounted for as success, failure or empty. */
  lemma EveryToolMergedOnce(plan: seq<Tool>, ask: Answers, done: set<Tool>, pending: seq<Tool>)
    requires Distinct(plan) && Split(plan, ask, done, pending)
    ensures var items := Schedule(plan, ask, done, pending);
            && OncePerTool(items) && |items| == |plan|
            && (forall t :: t in plan <==> t in Tools(items))
    ensures var items, c := Schedule(plan, ask, done, pending), Concurrent(plan, ask, done, pending);
            |c.success| + |c.failed| + |Flat(items, EmptyOf)| == |plan|
  {
    ScheduleTools(plan, ask, done, pending);
    ConcurrentMeaning(plan, ask, done, pending);
    Shares(Schedule(plan, ask, done, pending));
  }

  /** Whatever is still pending at the global timeout, sources are listed once and on one side
      only, evidence is only lost, and the collection status never improves. */
  lemma TimeoutOnlyLoses(plan: seq<Tool>, ask: Answers, done: set<Tool>, pending: seq<Tool>)
    requires Distinct(plan) && Split(plan, ask, done, pending)
    ensures var s, c := Sequential(plan, ask), Concurrent(plan, ask, done, pending);
            && Distinct(c.success) && Distinct(c.failed) && (forall x <- c.success :: x !in c.failed)
            && Subsequence(c.evidence, s.evidence)
            && Subsequence(c.success, s.success)
            && StatusRank(StatusOf(|c.success|)) <= StatusRank(StatusOf(|s.success|))
  {
    var items := Schedule(plan, ask, done, pending);
    SequentialMeaning(plan, ask);
    ConcurrentMeaning(plan, ask, done, pending);
    assert [] + Flat(items, RowsOf) == Flat(items, RowsOf) && [] + Flat(items, HitOf) == Flat(items, HitOf);
    assert [] + Flat(items, FailureOf) == Flat(items, FailureOf);
    assert [] + Flat(Items(plan, ask), RowsOf) == Flat(Items(plan, ask), RowsOf);
    assert [] + Flat(Items(plan, ask), HitOf) == Flat(Items(plan, ask), HitOf);
    SourceLists(items);
    OnlyFinishedCount(plan, ask, done, pending, RowsOf);
    OnlyFinishedCount(plan, ask, done, pending, HitOf);
    SubsequenceShorter(Flat(items, HitOf), Flat(Items(plan, ask), HitOf));
  }
}
