/** What a collection returns, tool by tool, in terms of the answers themselves. */
module CollectFacts {
  import opened Sequences
  import opened Evidence
  import opened Collect
  import opened CollectAgree

  /** The tool was queried, finished in time and found rows. */
  predicate HitInTime(ask: Answers, done: set<Tool>, t: Tool) {
    t in done && ask(t).Query? && ask(t).outcome.Hit?
  }

  /** The rows of every tool that hit in time, tool after tool in plan order. */
  function Gathered(plan: seq<Tool>, ask: Answers, done: set<Tool>): seq<Evidence> {
    if plan == [] then []
    else if HitInTime(ask, done, plan[0]) then
      [ask(plan[0]).outcome.first] + ask(plan[0]).outcome.more + Gathered(plan[1..], ask, done)
    else Gathered(plan[1..], ask, done)
  }

  /** The sources of those tools, in plan order. */
  function Succeeded(plan: seq<Tool>, ask: Answers, done: set<Tool>): seq<Source> {
    if plan == [] then []
    else (if HitInTime(ask, done, plan[0]) then [SourceOf(plan[0])] else []) + Succeeded(plan[1..], ask, done)
  }

  /** Skipped, too late, or failed. */
  predicate Failed(ask: Answers, done: set<Tool>, t: Tool) {
    ask(t).Skip? || t !in done || ask(t).outcome.Failure?
  }

  /** Why a tool gave no rows. */
  function Why(ask: Answers, done: set<Tool>, t: Tool): string
    requires !HitInTime(ask, done, t)
  {
    match ask(t)
    case Skip(reason) => reason
    case Query(o) =>
      if t !in done then "global_timeout" else if o.Empty? then "no_records" else o.reason
  }

  /** What a result of a run over `plan` holds. */
  ghost predicate Holds(plan: seq<Tool>, ask: Answers, done: set<Tool>, r: Result) {
    && r.evidence == Gathered(plan, ask, done)
    && r.success == Succeeded(plan, ask, done)
    && (forall t: Tool :: SourceOf(t) in r.success <==> t in plan && HitInTime(ask, done, t))
    && (forall t: Tool :: SourceOf(t) in r.failed <==> t in plan && Failed(ask, done, t))
    && (forall t: Tool, reason: string :: Gap(SourceOf(t), reason) in r.gaps
          <==> t in plan && !HitInTime(ask, done, t) && reason == Why(ask, done, t))
    && |r.gaps| + |r.success| == |plan|
  }

  /** The source each tool reports under; no two share one. */
  lemma WhichSource(a: Tool, b: Tool)
    ensures SourceOf(AccountLogin) == Identity && SourceOf(EdrProcess) == Endpoint && SourceOf(FileAccess) == DataSecurity
    ensures SourceOf(NetFlow) == NetworkFlow && SourceOf(DnsQuery) == Dns
    ensures SourceOf(AssetInfo) == Asset && SourceOf(IntelQuery) == ThreatIntel
    ensures SourceOf(a) == SourceOf(b) ==> a == b
  {
  }

  // ---- the item of each tool ----

  function ItemAt(ask: Answers, done: set<Tool>, t: Tool): Item {
    match ask(t)
    case Skip(reason) => Item(t, Failure(reason))
    case Query(o) => if t in done then Item(t, o) else Item(t, Failure("global_timeout"))
  }

  lemma ScheduleHas(plan: seq<Tool>, ask: Answers, done: set<Tool>, pending: seq<Tool>, i: Item)
    requires Split(plan, ask, done, pending)
    ensures i in Schedule(plan, ask, done, pending) <==> i.tool in plan && i == ItemAt(ask, done, i.tool)
  {
    SelectMembers(plan, IsSkipped(ask));
    SelectMembers(plan, IsFinished(ask, done));
    ImageMembers(Select(plan, IsSkipped(ask)), Outcomes(ask), i);
    ImageMembers(Select(plan, IsFinished(ask, done)), Outcomes(ask), i);
    ImageMembers(pending, LATE, i);
    assert i in Skipped(plan, ask) <==> i.tool in plan && ask(i.tool).Skip? && i == ItemAt(ask, done, i.tool);
  }

  lemma FlatScheduleHas<T>(plan: seq<Tool>, ask: Answers, done: set<Tool>, pending: seq<Tool>, f: Item -> seq<T>, x: T)
    requires Split(plan, ask, done, pending)
    ensures x in Flat(Schedule(plan, ask, done, pending), f) <==> exists t: Tool :: t in plan && x in f(ItemAt(ask, done, t))
  {
    var items := Schedule(plan, ask, done, pending);
    FlatMembers(items, f, x);
    if i :| i in items && x in f(i) {
      ScheduleHas(plan, ask, done, pending, i);
      assert i.tool in plan && x in f(ItemAt(ask, done, i.tool));
    }
    if t: Tool :| t in plan && x in f(ItemAt(ask, done, t)) {
      ScheduleHas(plan, ask, done, pending, ItemAt(ask, done, t));
    }
  }

  lemma {:induction false} GatheredIsFlat(plan: seq<Tool>, ask: Answers, done: set<Tool>)
    ensures Flat(Select(plan, IsFinished(ask, done)), Via(ask, RowsOf)) == Gathered(plan, ask, done)
  {
    if plan != [] {
      var t, rest := plan[0], plan[1..];
      GatheredIsFlat(rest, ask, done);
      FlatAppend(if IsFinished(ask, done)(t) then [t] else [], Select(rest, IsFinished(ask, done)), Via(ask, RowsOf));
      if IsFinished(ask, done)(t) {
        assert Flat([t], Via(ask, RowsOf)) == RowsOf(ItemOf(t, ask));
      }
    }
  }

  lemma {:induction false} SucceededIsFlat(plan: seq<Tool>, ask: Answers, done: set<Tool>)
    ensures Flat(Select(plan, IsFinished(ask, done)), Via(ask, HitOf)) == Succeeded(plan, ask, done)
  {
    if plan != [] {
      var t, rest := plan[0], plan[1..];
      SucceededIsFlat(rest, ask, done);
      FlatAppend(if IsFinished(ask, done)(t) then [t] else [], Select(rest, IsFinished(ask, done)), Via(ask, HitOf));
      if IsFinished(ask, done)(t) {
        assert Flat([t], Via(ask, HitOf)) == HitOf(ItemOf(t, ask));
      }
    }
  }

  lemma {:induction false} GapOrHit(items: seq<Item>)
    ensures |Flat(items, GapsOf)| + |Flat(items, HitOf)| == |items|
  {
    if items != [] {
      GapOrHit(items[1..]);
    }
  }

  lemma SuccessHas(plan: seq<Tool>, ask: Answers, done: set<Tool>, pending: seq<Tool>, t: Tool)
    requires Split(plan, ask, done, pending)
    ensures SourceOf(t) in Flat(Schedule(plan, ask, done, pending), HitOf) <==> t in plan && HitInTime(ask, done, t)
  {
    FlatScheduleHas(plan, ask, done, pending, HitOf, SourceOf(t));
    if t in plan && HitInTime(ask, done, t) {
      assert SourceOf(t) in HitOf(ItemAt(ask, done, t));
    }
  }

  lemma FailedHas(plan: seq<Tool>, ask: Answers, done: set<Tool>, pending: seq<Tool>, t: Tool)
    requires Split(plan, ask, done, pending)
    ensures SourceOf(t) in Flat(Schedule(plan, ask, done, pending), FailureOf) <==> t in plan && Failed(ask, done, t)
  {
    FlatScheduleHas(plan, ask, done, pending, FailureOf, SourceOf(t));
    if t in plan && Failed(ask, done, t) {
      assert SourceOf(t) in FailureOf(ItemAt(ask, done, t));
    }
  }

  lemma GapsHave(plan: seq<Tool>, ask: Answers, done: set<Tool>, pending: seq<Tool>, t: Tool, reason: string)
    requires Split(plan, ask, done, pending)
    ensures Gap(SourceOf(t), reason) in Flat(Schedule(plan, ask, done, pending), GapsOf)
       <==> t in plan && !HitInTime(ask, done, t) && reason == Why(ask, done, t)
  {
    FlatScheduleHas(plan, ask, done, pending, GapsOf, Gap(SourceOf(t), reason));
    if t in plan && !HitInTime(ask, done, t) {
      assert Gap(SourceOf(t), Why(ask, done, t)) in GapsOf(ItemAt(ask, done, t));
    }
  }

  /** For every split at the global timeout: the rows of the tools that hit in time, in plan order; a source succeeded
      exactly when its tool hit in time, and failed exactly when its tool was skipped, failed or was pending; and each
      tool that did not hit has one gap, with its own reason. */
  lemma ConcurrentHolds(plan: seq<Tool>, ask: Answers, done: set<Tool>, pending: seq<Tool>)
    requires Distinct(plan) && Split(plan, ask, done, pending)
    ensures Holds(plan, ask, done, Concurrent(plan, ask, done, pending))
  {
    ConcurrentMeaning(plan, ask, done, pending);
    HitPart(plan, ask, done, pending, RowsOf);
    GatheredIsFlat(plan, ask, done);
    HitPart(plan, ask, done, pending, HitOf);
    SucceededIsFlat(plan, ask, done);
    ScheduleTools(plan, ask, done, pending);
    GapOrHit(Schedule(plan, ask, done, pending));
    forall t: Tool
      ensures SourceOf(t) in Concurrent(plan, ask, done, pending).success <==> t in plan && HitInTime(ask, done, t)
    {
      SuccessHas(plan, ask, done, pending, t);
    }
    forall t: Tool
      ensures SourceOf(t) in Concurrent(plan, ask, done, pending).failed <==> t in plan && Failed(ask, done, t)
    {
      FailedHas(plan, ask, done, pending, t);
    }
    forall t: Tool, reason: string
      ensures Gap(SourceOf(t), reason) in Concurrent(plan, ask, done, pending).gaps
         <==> t in plan && !HitInTime(ask, done, t) && reason == Why(ask, done, t)
    {
      GapsHave(plan, ask, done, pending, t, reason);
    }
  }

  /** The sequential collector returns the same, with every tool in time. */
  lemma SequentialHolds(plan: seq<Tool>, ask: Answers)
    requires Distinct(plan)
    ensures Holds(plan, ask, (set t | t in plan), Sequential(plan, ask))
  {
    var done := set t | t in plan;
    var s, c := Sequential(plan, ask), Concurrent(plan, ask, done, []);
    ConcurrentHolds(plan, ask, done, []);
    ConcurrentAgreesWithSequential(plan, ask, done);
    SameBag(s.gaps, c.gaps);
    SameBag(s.failed, c.failed);
  }
}
