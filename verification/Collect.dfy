/** Evidence collection: the sequential collector, the concurrent one with its global timeout,
    and how their results compare. */
module Collect {
  import opened Sequences
  import opened Evidence

  datatype Tool =
    AccountLogin | EdrProcess | FileAccess | NetFlow | DnsQuery | AssetInfo | IntelQuery

  function SourceOf(t: Tool): Source {
    match t
    case AccountLogin => Identity
    case EdrProcess => Endpoint
    case FileAccess => DataSecurity
    case NetFlow => NetworkFlow
    case DnsQuery => Dns
    case AssetInfo => Asset
    case IntelQuery => ThreatIntel
  }

  datatype Gap = Gap(source: Source, reason: string)

  /** The result of one query: parsed rows, an empty answer, or a failure. */
  datatype Outcome = Hit(first: Evidence, more: seq<Evidence>) | Empty | Failure(reason: string)

  /** Either no parameters can be built for the tool (it is skipped), or it is queried. */
  datatype Reply = Skip(reason: string) | Query(outcome: Outcome)

  type Answers = Tool -> Reply

  /** One outcome on its way into the result lists. */
  datatype Item = Item(tool: Tool, outcome: Outcome)

  function RowsOf(i: Item): seq<Evidence> {
    if i.outcome.Hit? then [i.outcome.first] + i.outcome.more else []
  }

  function HitOf(i: Item): seq<Source> {
    if i.outcome.Hit? then [SourceOf(i.tool)] else []
  }

  function FailureOf(i: Item): seq<Source> {
    if i.outcome.Failure? then [SourceOf(i.tool)] else []
  }

  function EmptyOf(i: Item): seq<Source> {
    if i.outcome.Empty? then [SourceOf(i.tool)] else []
  }

  function GapsOf(i: Item): seq<Gap> {
    match i.outcome
    case Hit(_, _) => []
    case Empty => [Gap(SourceOf(i.tool), "no_records")]
    case Failure(reason) => [Gap(SourceOf(i.tool), reason)]
  }

  datatype Result = Result(evidence: seq<Evidence>, success: seq<Source>, failed: seq<Source>, gaps: seq<Gap>)

  const NOTHING := Result([], [], [], [])

  function AddOnce(s: seq<Source>, xs: seq<Source>): seq<Source>
    requires |xs| <= 1
  {
    if xs == [] || xs[0] in s then s else s + xs
  }

  function Merge(r: Result, i: Item): Result {
    Result(r.evidence + RowsOf(i), AddOnce(r.success, HitOf(i)), AddOnce(r.failed, FailureOf(i)), r.gaps + GapsOf(i))
  }

  function MergeAll(r: Result, items: seq<Item>): Result
    decreases |items|
  {
    if items == [] then r else MergeAll(Merge(r, items[0]), items[1..])
  }

  // ---- which items each collector merges, in order ----

  function ItemOf(t: Tool, ask: Answers): Item {
    match ask(t)
    case Skip(reason) => Item(t, Failure(reason))
    case Query(o) => Item(t, o)
  }

  function Outcomes(ask: Answers): Tool -> Item {
    t => ItemOf(t, ask)
  }

  function Items(tools: seq<Tool>, ask: Answers): seq<Item> {
    Image(tools, Outcomes(ask))
  }

  function IsSkipped(ask: Answers): Tool -> bool {
    t => ask(t).Skip?
  }

  /** Queried, and its task finished before the global timeout. */
  function IsFinished(ask: Answers, done: set<Tool>): Tool -> bool {
    t => ask(t).Query? && t in done
  }

  function Skipped(plan: seq<Tool>, ask: Answers): seq<Item> {
    Items(Select(plan, IsSkipped(ask)), ask)
  }

  function Finished(plan: seq<Tool>, ask: Answers, done: set<Tool>): seq<Item> {
    Items(Select(plan, IsFinished(ask, done)), ask)
  }

  const LATE := (t: Tool) => Item(t, Failure("global_timeout"))

  function TimedOut(pending: seq<Tool>): seq<Item> {
    Image(pending, LATE)
  }

  function Schedule(plan: seq<Tool>, ask: Answers, done: set<Tool>, pending: seq<Tool>): seq<Item> {
    Skipped(plan, ask) + Finished(plan, ask, done) + TimedOut(pending)
  }

  /** `pending` enumerates, in whatever order, the queried tools that were not done in time. */
  ghost predicate Split(plan: seq<Tool>, ask: Answers, done: set<Tool>, pending: seq<Tool>) {
    Distinct(pending) && forall t :: t in pending <==> t in plan && ask(t).Query? && t !in done
  }

  // ---- the collectors ----

  class Collector {
    var collected: seq<Evidence>
    var successSources: seq<Source>
    var failedSources: seq<Source>
    var gaps: seq<Gap>

    function State(): Result
      reads this
    {
      Result(collected, successSources, failedSources, gaps)
    }

    constructor ()
      ensures State() == NOTHING
    {
      collected, successSources, failedSources, gaps := [], [], [], [];
    }

    method MergeOutcome(i: Item)
      modifies this
      ensures State() == Merge(old(State()), i)
      ensures
        var source, was := SourceOf(i.tool), old(State());
        match i.outcome
        case Hit(first, more) =>
          && collected == was.evidence + ([first] + more)
          && successSources == (if source in was.success then was.success else was.success + [source])
          && failedSources == was.failed && gaps == was.gaps
        case Empty =>
          State() == was.(gaps := was.gaps + [Gap(source, "no_records")])
        case Failure(reason) =>
          && collected == was.evidence && successSources == was.success
          && failedSources == (if source in was.failed then was.failed else was.failed + [source])
          && gaps == was.gaps + [Gap(source, reason)]
    {
      gaps := gaps + GapsOf(i);
      if i.outcome.Failure? && SourceOf(i.tool) !in failedSources {
        failedSources := failedSources + [SourceOf(i.tool)];
      }
      collected := collected + RowsOf(i);
      if i.outcome.Hit? && SourceOf(i.tool) !in successSources {
        successSources := successSources + [SourceOf(i.tool)];
      }
    }
  }

  lemma {:induction false} MergeAppend(r: Result, a: seq<Item>, b: seq<Item>)
    ensures MergeAll(r, a + b) == MergeAll(MergeAll(r, a), b)
    decreases |a|
  {
    if a == [] {
      assert a + b == b;
    } else {
      assert (a + b)[1..] == a[1..] + b;
      MergeAppend(Merge(r, a[0]), a[1..], b);
    }
  }

  lemma MergeOne(r: Result, a: seq<Item>, i: Item)
    ensures MergeAll(r, a + [i]) == Merge(MergeAll(r, a), i)
  {
    MergeAppend(r, a, [i]);
    assert MergeAll(MergeAll(r, a), [i]) == Merge(MergeAll(r, a), i);
  }

  lemma ItemsSnoc(tools: seq<Tool>, t: Tool, ask: Answers)
    ensures Items(tools + [t], ask) == Items(tools, ask) + [ItemOf(t, ask)]
  {}

  lemma SelectSnoc(plan: seq<Tool>, p: Tool -> bool, k: nat)
    requires k < |plan|
    ensures Select(plan[..k + 1], p) == if p(plan[k]) then Select(plan[..k], p) + [plan[k]] else Select(plan[..k], p)
  {
    assert plan[..k + 1] == plan[..k] + [plan[k]];
    SelectAppend(plan[..k], [plan[k]], p);
  }

  method CollectSequential(plan: seq<Tool>, ask: Answers) returns (r: Result)
    ensures r == MergeAll(NOTHING, Items(plan, ask))
  {
    var c := new Collector();
    for k := 0 to |plan|
      invariant c.State() == MergeAll(NOTHING, Items(plan[..k], ask))
      invariant fresh(c)
    {
      assert plan[..k + 1] == plan[..k] + [plan[k]];
      ItemsSnoc(plan[..k], plan[k], ask);
      MergeOne(NOTHING, Items(plan[..k], ask), ItemOf(plan[k], ask));
      c.MergeOutcome(ItemOf(plan[k], ask));
    }
    assert plan[..|plan|] == plan;
    r := c.State();
  }

  /** Merges, in plan order, the outcomes of the tools that pass the test. */
  method MergeSelected(c: Collector, plan: seq<Tool>, ask: Answers, p: Tool -> bool)
    modifies c
    ensures c.State() == MergeAll(old(c.State()), Items(Select(plan, p), ask))
  {
    for k := 0 to |plan|
      invariant c.State() == MergeAll(old(c.State()), Items(Select(plan[..k], p), ask))
    {
      SelectSnoc(plan, p, k);
      if p(plan[k]) {
        ItemsSnoc(Select(plan[..k], p), plan[k], ask);
        MergeOne(old(c.State()), Items(Select(plan[..k], p), ask), ItemOf(plan[k], ask));
        c.MergeOutcome(ItemOf(plan[k], ask));
      }
    }
    assert plan[..|plan|] == plan;
  }

  method MergeTimedOut(c: Collector, pending: seq<Tool>)
    modifies c
    ensures c.State() == MergeAll(old(c.State()), TimedOut(pending))
  {
    for k := 0 to |pending|
      invariant c.State() == MergeAll(old(c.State()), TimedOut(pending[..k]))
    {
      var i := Item(pending[k], Failure("global_timeout"));
      assert TimedOut(pending[..k + 1]) == TimedOut(pending[..k]) + [i];
      MergeOne(old(c.State()), TimedOut(pending[..k]), i);
      c.MergeOutcome(i);
    }
    assert pending[..|pending|] == pending;
  }

  /** Skips while the tasks are created, finished tasks in plan order, then the cancelled ones. */
  method CollectConcurrent(plan: seq<Tool>, ask: Answers, done: set<Tool>, pending: seq<Tool>) returns (r: Result)
    ensures r == MergeAll(NOTHING, Schedule(plan, ask, done, pending))
  {
    var c := new Collector();
    MergeSelected(c, plan, ask, IsSkipped(ask));
    MergeSelected(c, plan, ask, IsFinished(ask, done));
    MergeTimedOut(c, pending);
    MergeAppend(NOTHING, Skipped(plan, ask), Finished(plan, ask, done));
    MergeAppend(NOTHING, Skipped(plan, ask) + Finished(plan, ask, done), TimedOut(pending));
    r := c.State();
  }

  // ---- what a merge of distinct tools yields ----

  ghost predicate OncePerTool(items: seq<Item>) {
    forall i, j :: 0 <= i < j < |items| ==> items[i].tool != items[j].tool
  }

  ghost predicate Untouched(s: seq<Source>, items: seq<Item>) {
    forall k :: 0 <= k < |items| ==> SourceOf(items[k].tool) !in s
  }

  lemma UntouchedTail(s: seq<Source>, items: seq<Item>, add: seq<Source>)
    requires items != [] && OncePerTool(items) && Untouched(s, items)
    requires add == [] || add == [SourceOf(items[0].tool)]
    ensures Untouched(AddOnce(s, add), items[1..]) && AddOnce(s, add) == s + add
  {
    forall k | 0 <= k < |items[1..]| ensures SourceOf(items[1..][k].tool) !in s + add {
      assert items[1..][k] == items[k + 1];
      assert items[0].tool != items[k + 1].tool;
    }
  }

  function Contributions(r: Result, items: seq<Item>): Result {
    Result(r.evidence + Flat(items, RowsOf), r.success + Flat(items, HitOf),
           r.failed + Flat(items, FailureOf), r.gaps + Flat(items, GapsOf))
  }

  /** Merging outcomes of distinct tools concatenates their contributions. */
  lemma {:induction false} MergeMeaning(r: Result, items: seq<Item>)
    requires OncePerTool(items) && Untouched(r.success, items) && Untouched(r.failed, items)
    ensures MergeAll(r, items) == Contributions(r, items)
    decreases |items|
  {
    if items != [] {
      var i, rest := items[0], items[1..];
      UntouchedTail(r.success, items, HitOf(i));
      UntouchedTail(r.failed, items, FailureOf(i));
      MergeMeaning(Merge(r, i), rest);
      Assoc(r.evidence, RowsOf(i), Flat(rest, RowsOf));
      Assoc(r.success, HitOf(i), Flat(rest, HitOf));
      Assoc(r.failed, FailureOf(i), Flat(rest, FailureOf));
      Assoc(r.gaps, GapsOf(i), Flat(rest, GapsOf));
    } else {
      assert r.evidence + [] == r.evidence && r.success + [] == r.success;
      assert r.failed + [] == r.failed && r.gaps + [] == r.gaps;
    }
  }
}
