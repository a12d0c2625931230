/** One whole run of the evidence agent: collect, dedup and sort, store, penalise, rate. */
module EvidenceRun {
  import opened Sequences
  import opened Evidence
  import opened Collect
  import opened CollectAgree
  import opened CollectFacts
  import opened Conflicts
  import opened DedupSort
  import opened Store

  function TotalConfidence(rows: seq<Evidence>): real {
    if rows == [] then 0.0 else rows[0].confidence + TotalConfidence(rows[1..])
  }

  function SourcesOf(rows: seq<Evidence>): set<Source> {
    set e | e in rows :: e.source
  }

  function AtMost(n: nat, cap: nat): real { if n < cap then n as real else cap as real }

  function StatusPenalty(status: CollectionStatus): real {
    match status
    case Complete => 0.0
    case PartialDone => 0.10
    case Degraded => 0.25
    case NoSource => 0.0
  }

  function Mean(rows: seq<Evidence>): real
    requires rows != []
  {
    TotalConfidence(rows) / |rows| as real
  }

  function Score(mean: real, sources: nat, rows: nat): real {
    mean * 0.75 + AtMost(sources, 5) / 5.0 * 0.15 + AtMost(rows, 6) / 6.0 * 0.1
  }

  function Rating(rows: seq<Evidence>, status: CollectionStatus): real
    requires rows != []
  {
    Score(Mean(rows), |SourcesOf(rows)|, |rows|) - StatusPenalty(status)
  }

  function OverallConfidence(rows: seq<Evidence>, status: CollectionStatus): real {
    if rows == [] then 0.0 else Clamped(Rating(rows, status))
  }

  datatype Output = Output(evidence: seq<Evidence>, conflicts: seq<Conflict>, gaps: seq<Gap>, success: seq<Source>,
                           failed: seq<Source>, confidence: real, status: CollectionStatus)

  function Assemble(r: Result): Output {
    var kept := DedupAndSort(r.evidence);
    var rows, status := Penalties(kept, Detect(kept)), StatusOf(|r.success|);
    Output(rows, Detect(kept), r.gaps, r.success, r.failed, OverallConfidence(rows, status), status)
  }

  datatype Mode = InTurn | AtOnce(done: set<Tool>, pending: seq<Tool>)

  function Collected(plan: seq<Tool>, ask: Answers, mode: Mode): Result {
    match mode
    case InTurn => Sequential(plan, ask)
    case AtOnce(done, pending) => Concurrent(plan, ask, done, pending)
  }

  method Run(store: Repository, plan: seq<Tool>, ask: Answers, mode: Mode, redact: Redaction) returns (o: Output)
    modifies store
    ensures o == Assemble(Collected(plan, ask, mode))
    ensures store.rows == Synced(old(store.rows), DedupAndSort(Collected(plan, ask, mode).evidence), redact)
  {
    var r: Result;
    match mode {
      case InTurn => r := CollectSequential(plan, ask);
      case AtOnce(done, pending) => r := CollectConcurrent(plan, ask, done, pending);
    }
    var rows, conflicts := store.Consolidate(r.evidence, redact);
    var status := StatusOf(|r.success|);
    o := Output(rows, conflicts, r.gaps, r.success, r.failed, OverallConfidence(rows, status), status);
  }

  /** With every query in time the mode shows only in the order of gaps and failures; the store ends up the same. */
  lemma ModesGiveTheSameOutput(plan: seq<Tool>, ask: Answers, done: set<Tool>, rows: Rows, redact: Redaction)
    requires Distinct(plan) && Split(plan, ask, done, [])
    ensures var s, c := Collected(plan, ask, InTurn), Collected(plan, ask, AtOnce(done, []));
            && Assemble(c) == Assemble(s).(gaps := c.gaps, failed := c.failed)
            && multiset(c.gaps) == multiset(s.gaps) && multiset(c.failed) == multiset(s.failed)
            && Synced(rows, DedupAndSort(c.evidence), redact) == Synced(rows, DedupAndSort(s.evidence), redact)
  {
    ConcurrentAgreesWithSequential(plan, ask, done);
  }

  // ---- the store after a run ----

  /** Rows with distinct ids still have distinct ids after the dedup. */
  lemma DedupKeepsIdsDistinct(items: seq<Evidence>)
    requires DistinctIds(items)
    ensures DistinctIds(DedupAndSort(items))
  {
    var out := DedupAndSort(items);
    OutputKeysDistinct(items);
    forall i, j | 0 <= i < j < |out|
      ensures out[i].id != out[j].id
    {
      var a := RowOrigin(items, out[i]);
      var b := RowOrigin(items, out[j]);
      assert KeyOf(out[i]) != KeyOf(out[j]);
      assert items[a].id != items[b].id;
    }
  }

  /** After a run over freshly numbered rows, the store holds what the run returned. */
  lemma StoreHoldsWhatTheRunReturned(r: Result, rows: Rows, redact: Redaction)
    requires DistinctIds(r.evidence)
    requires forall e <- r.evidence :: e.id !in rows
    ensures forall e <- Assemble(r).evidence :: Agrees(Synced(rows, DedupAndSort(r.evidence), redact), e)
  {
    var kept := DedupAndSort(r.evidence);
    var out := Penalties(kept, Detect(kept));
    DedupKeepsIdsDistinct(r.evidence);
    FreshRowsAgree(rows, kept, redact);
    PenaltiesKeepIds(kept, Detect(kept));
    forall e <- out
      ensures e.id !in rows
    {
      var i :| 0 <= i < |out| && out[i] == e;
      var a := RowOrigin(r.evidence, kept[i]);
      assert r.evidence[a] in r.evidence;
    }
  }

  // ---- the overall confidence ----

  ghost predicate Unit(rows: seq<Evidence>) {
    forall e <- rows :: 0.0 <= e.confidence <= 1.0
  }

  lemma {:induction false} TotalBounds(rows: seq<Evidence>)
    requires Unit(rows)
    ensures 0.0 <= TotalConfidence(rows) <= |rows| as real
  {
    if rows != [] {
      TotalBounds(rows[1..]);
    }
  }

  lemma Quotient(x: real, y: real, n: real)
    requires n > 0.0 && x <= y
    ensures x / n <= y / n
  {
    assert y / n - x / n == (y - x) / n;
  }

  lemma SelfQuotient(n: real)
    requires n > 0.0
    ensures n / n == 1.0
  {
  }

  /** For rows rated in [0, 1] the rating never passes 1, so only the status penalty can make the clamp act. */
  lemma RatingNeedsNoCap(rows: seq<Evidence>, status: CollectionStatus)
    requires rows != [] && Unit(rows)
    ensures -StatusPenalty(status) < Rating(rows, status) <= 1.0
    ensures StatusPenalty(status) == 0.0 ==> OverallConfidence(rows, status) == Rating(rows, status)
  {
    TotalBounds(rows);
    var n := |rows| as real;
    Quotient(0.0, TotalConfidence(rows), n);
    Quotient(TotalConfidence(rows), n, n);
    SelfQuotient(n);
    assert 0.0 < AtMost(|rows|, 6) / 6.0 <= 1.0 && 0.0 <= AtMost(|SourcesOf(rows)|, 5) / 5.0 <= 1.0;
  }

  lemma {:induction false} TotalPenalised(rows: seq<Evidence>, ids: set<string>)
    requires Unit(rows)
    ensures TotalConfidence(Image(rows, PenaltyFor(ids))) <= TotalConfidence(rows)
  {
    if rows != [] {
      TotalPenalised(rows[1..], ids);
      assert Image(rows, PenaltyFor(ids))[1..] == Image(rows[1..], PenaltyFor(ids));
    }
  }

  lemma PenaltiesKeepSources(rows: seq<Evidence>, conflicts: seq<Conflict>)
    ensures SourcesOf(Penalties(rows, conflicts)) == SourcesOf(rows)
  {
    var out := Penalties(rows, conflicts);
    assert forall i :: 0 <= i < |rows| ==> out[i].source == rows[i].source;
    forall x
      ensures x in SourcesOf(out) <==> x in SourcesOf(rows)
    {
      if x in SourcesOf(out) {
        var i :| 0 <= i < |out| && out[i].source == x;
        assert rows[i] in rows;
      }
      if x in SourcesOf(rows) {
        var i :| 0 <= i < |rows| && rows[i].source == x;
        assert out[i] in out;
      }
    }
  }

  /** Conflicts never raise the overall confidence. */
  lemma PenaltiesNeverRaiseConfidence(rows: seq<Evidence>, conflicts: seq<Conflict>, status: CollectionStatus)
    requires Unit(rows)
    ensures OverallConfidence(Penalties(rows, conflicts), status) <= OverallConfidence(rows, status)
  {
    TotalPenalised(rows, AllIds(conflicts));
    PenaltiesKeepSources(rows, conflicts);
    if rows != [] {
      Quotient(TotalConfidence(Penalties(rows, conflicts)), TotalConfidence(rows), |rows| as real);
    }
  }

  // ---- the numbers ----

  function HitsIn(ask: Answers, done: set<Tool>): Tool -> bool {
    (t: Tool) => HitInTime(ask, done, t)
  }

  lemma {:induction false} SucceededCount(plan: seq<Tool>, ask: Answers, done: set<Tool>)
    ensures |Succeeded(plan, ask, done)| == |Select(plan, HitsIn(ask, done))|
  {
    if plan != [] {
      SucceededCount(plan[1..], ask, done);
    }
  }

  /** The status counts the tools that hit in time: five, three, one, or none. */
  lemma StatusCountsHits(plan: seq<Tool>, ask: Answers, done: set<Tool>, pending: seq<Tool>)
    requires Distinct(plan) && Split(plan, ask, done, pending)
    ensures var n, status := |Select(plan, HitsIn(ask, done))|, Assemble(Concurrent(plan, ask, done, pending)).status;
            && (status == Complete <==> n >= 5)
            && (status == PartialDone <==> n == 3 || n == 4)
            && (status == Degraded <==> n == 1 || n == 2)
            && (status == NoSource <==> n == 0)
  {
    ConcurrentHolds(plan, ask, done, pending);
    SucceededCount(plan, ask, done);
  }

  /** The statuses in order, each better than the one before. */
  lemma StatusOrder()
    ensures StatusRank(NoSource) < StatusRank(Degraded) < StatusRank(PartialDone) < StatusRank(Complete)
  {
  }

  lemma {:induction false} TotalAppend(a: seq<Evidence>, b: seq<Evidence>)
    ensures TotalConfidence(a + b) == TotalConfidence(a) + TotalConfidence(b)
    ensures forall e: Evidence :: TotalConfidence([e]) == e.confidence
  {
    if a == [] {
      assert a + b == b;
    } else {
      assert (a + b)[1..] == a[1..] + b;
      TotalAppend(a[1..], b);
    }
  }

  lemma ScoreIs(mean: real, sources: nat, rows: nat)
    ensures Score(mean, sources, rows)
         == 0.75 * mean
            + 0.03 * (if sources < 5 then sources as real else 5.0)
            + (if rows < 6 then rows as real else 6.0) / 60.0
  {
  }

  lemma MeanTimesCount(rows: seq<Evidence>)
    requires rows != []
    ensures Mean(rows) * (|rows| as real) == TotalConfidence(rows)
  {
  }

  /** With complete collection: three quarters of the mean confidence, three hundredths for each source up to five, and
      a sixtieth for each row up to six. */
  lemma CompleteScore(rows: seq<Evidence>)
    requires rows != [] && Unit(rows)
    ensures OverallConfidence(rows, Complete)
         == 0.75 * Mean(rows)
            + 0.03 * (if |SourcesOf(rows)| < 5 then |SourcesOf(rows)| as real else 5.0)
            + (if |rows| < 6 then |rows| as real else 6.0) / 60.0
    ensures Mean(rows) * (|rows| as real) == TotalConfidence(rows)
  {
    MeanTimesCount(rows);
    RatingNeedsNoCap(rows, Complete);
    ScoreIs(Mean(rows), |SourcesOf(rows)|, |rows|);
  }

  /** Partial collection costs a tenth and degraded collection a quarter, never below zero; rows without any successful
      source cost nothing more, and no rows score nothing. */
  lemma StatusCosts(rows: seq<Evidence>)
    requires Unit(rows)
    ensures var full := OverallConfidence(rows, Complete);
            && OverallConfidence(rows, PartialDone) == (if full < 0.10 then 0.0 else full - 0.10)
            && OverallConfidence(rows, Degraded) == (if full < 0.25 then 0.0 else full - 0.25)
            && OverallConfidence(rows, NoSource) == full
            && (rows == [] ==> full == 0.0)
  {
    if rows != [] {
      RatingNeedsNoCap(rows, Complete);
    }
  }
}
