/** The memory agent's gates: which candidates each call files for review, over any sequence of calls. */
module Memory {
  import opened Basics
  import opened Sequences
  import opened Sorting

  datatype Status = Closed | Reporting | OtherStatus
  datatype Verdict = FalsePositive | ConfirmedThreat | OtherVerdict
  datatype Entity = Entity(kind: string, value: string)
  datatype Candidate = HistoryCase | FpRule | Profile(entity: Entity)

  /** A candidate as the output reports it: a review id when it was filed. */
  datatype Record = Record(candidate: Candidate, review: Option<nat>, pending: bool)
  datatype Output = Output(records: seq<Record>, drafts: nat)
  datatype Reply = Refused | Lost | Done(output: Output)

  /**
   * One call: its input, the context flags it reads, and what the services around it do. `found` holds the
   * entities in the order they are met, or None when extracting them fails; `failures(c)` is how many attempts
   * to file `c` fail before one succeeds.
   */
  datatype Call = Call(status: Status, verdict: Verdict, unsynced: bool, analysed: bool,
                       caseReady: bool, ruleReady: bool, draftReady: bool, found: Option<seq<Entity>>,
                       failures: Candidate -> nat, persists: bool)

  /** What lasts between calls: the two output keys and the review queue. */
  datatype Durable = Durable(final: Option<Output>, early: Option<Output>, queue: seq<Candidate>)

  const RETRIES := 2
  /** Three attempts and the fallback insert. */
  const ATTEMPTS := RETRIES + 2

  // ---- specification ----

  const ITSELF := (e: Entity) => e
  const TO_PROFILE := (e: Entity) => Profile(e)

  /** Entities by kind, then by value. */
  const BY_ENTITY := (a: Entity, b: Entity) =>
    if a.kind == b.kind then StringLeq(a.value, b.value) else StringLeq(a.kind, b.kind)

  /** The entities of a call, each once, in order. */
  function Entities(call: Call): seq<Entity> {
    if call.found.Some? then Sort(FirstBy(call.found.value, ITSELF), BY_ENTITY) else []
  }

  function Candidates(call: Call): seq<Candidate> {
    (if call.status.Closed? && call.caseReady then [HistoryCase] else [])
    + (if call.status.Closed? && call.verdict.FalsePositive? && call.ruleReady then [FpRule] else [])
    + Image(Entities(call), TO_PROFILE)
  }

  function Filed(call: Call): Candidate -> bool {
    (c: Candidate) => call.failures(c) < ATTEMPTS
  }

  /** The records for `cs`: filed candidates take the next places in the queue. */
  function Records(cs: seq<Candidate>, filed: Candidate -> bool, next: nat): seq<Record> {
    if cs == [] then []
    else if filed(cs[0]) then [Record(cs[0], Some(next), true)] + Records(cs[1..], filed, next + 1)
    else [Record(cs[0], None, false)] + Records(cs[1..], filed, next)
  }

  datatype Gate = Refuse | Reuse(output: Output) | Skip | Work

  predicate Accepted(enabled: bool, status: Status) {
    status.Closed? || (enabled && status.Reporting?)
  }

  function GateOf(enabled: bool, d: Durable, call: Call): Gate {
    if !Accepted(enabled, call.status) then Refuse
    else if d.final.Some? then Reuse(d.final.value)
    else if !call.status.Closed? && !call.analysed then Refuse
    else if !call.status.Closed? && d.early.Some? then Reuse(d.early.value)
    else if call.unsynced then Skip
    else Work
  }

  /** The rows a call adds to the review queue. */
  function Batch(enabled: bool, d: Durable, call: Call): seq<Candidate> {
    if GateOf(enabled, d, call).Work? then Select(Candidates(call), Filed(call)) else []
  }

  function Fresh(d: Durable, call: Call): Output {
    Output(Records(Candidates(call), Filed(call), |d.queue|),
           if call.verdict.ConfirmedThreat? && call.draftReady then 1 else 0)
  }

  function Persist(d: Durable, call: Call, output: Output): (Durable, Reply) {
    if !call.persists then (d, Lost)
    else if call.status.Closed? then (d.(final := Some(output)), Done(output))
    else (d.(early := Some(output)), Done(output))
  }

  function Serve(enabled: bool, d: Durable, call: Call): (Durable, Reply) {
    match GateOf(enabled, d, call)
    case Refuse => (d, Refused)
    case Reuse(output) => (d, Done(output))
    case Skip => Persist(d, call, Output([], 0))
    case Work => Persist(d.(queue := d.queue + Batch(enabled, d, call)), call, Fresh(d, call))
  }

  function After(enabled: bool, d: Durable, calls: seq<Call>): Durable
    decreases |calls|
  {
    if calls == [] then d else After(enabled, Serve(enabled, d, calls[0]).0, calls[1..])
  }

  // ---- one call ----

  lemma {:induction false} DistinctCount<T>(s: seq<T>, x: T)
    requires Distinct(s)
    ensures multiset(s)[x] <= 1
  {
    if s != [] {
      DistinctCount(s[1..], x);
      assert s == [s[0]] + s[1..];
      assert s[0] !in s[1..];
    }
  }

  lemma ProfilesDistinct(es: seq<Entity>)
    requires Distinct(es)
    ensures Distinct(Image(es, TO_PROFILE))
    ensures forall c <- Image(es, TO_PROFILE) :: c.Profile?
  {
    forall i, j | 0 <= i < j < |es|
      ensures Image(es, TO_PROFILE)[i] != Image(es, TO_PROFILE)[j]
    {
      assert es[i] != es[j];
    }
  }

  lemma CandidatesDistinct(call: Call)
    ensures Distinct(Candidates(call))
    ensures forall c <- Candidates(call) :: c.Profile? || call.status.Closed?
  {
    EntitiesOnceInOrder(call);
    ProfilesDistinct(Entities(call));
  }

  lemma EntitiesOrdered()
    ensures Ordering(BY_ENTITY)
  {
    forall a: Entity, b: Entity ensures BY_ENTITY(a, b) || BY_ENTITY(b, a) {
      StringTotal(a.kind, b.kind);
      StringTotal(a.value, b.value);
    }
    forall a: Entity, b: Entity, c: Entity | BY_ENTITY(a, b) && BY_ENTITY(b, c) ensures BY_ENTITY(a, c) {
      if a.kind == b.kind == c.kind {
        StringTransitive(a.value, b.value, c.value);
      } else {
        StringTotal(a.kind, b.kind);
        StringTotal(b.kind, c.kind);
        if a.kind != b.kind && b.kind != c.kind {
          StringTransitive(a.kind, b.kind, c.kind);
        }
      }
    }
  }

  /** The entities of a call are those it met, each once, ordered by kind and value. */
  lemma EntitiesOnceInOrder(call: Call)
    ensures Distinct(Entities(call)) && Sorted(Entities(call), BY_ENTITY)
    ensures call.found.Some? ==> forall e :: e in Entities(call) <==> e in call.found.value
  {
    if call.found.Some? {
      var found := call.found.value;
      var once := FirstBy(found, ITSELF);
      EntitiesOrdered();
      SortSorts(once, BY_ENTITY);
      FirstByIds(found, ITSELF);
      assert Image(once, ITSELF) == once && Image(found, ITSELF) == found;
      assert DistinctBy(once, ITSELF);
      SortKeepsDistinct(once, BY_ENTITY, ITSELF);
      forall e
        ensures e in Entities(call) <==> e in found
      {
        SortMember(once, BY_ENTITY, e);
        FirstByHas(found, ITSELF, e);
      }
    }
  }

  /** What the fields of a call ask for: a case on closure, a rule on closure of a false positive, and a profile for
      every entity met. */
  predicate AsksFor(call: Call, c: Candidate) {
    match c
    case HistoryCase => call.status == Closed && call.caseReady
    case FpRule => call.status == Closed && call.verdict == FalsePositive && call.ruleReady
    case Profile(e) => call.found.Some? && e in call.found.value
  }

  lemma CandidatesAreAskedFor(call: Call, c: Candidate)
    ensures c in Candidates(call) <==> AsksFor(call, c)
  {
    EntitiesOnceInOrder(call);
    ImageMembers(Entities(call), TO_PROFILE, c);
  }

  function Rank(c: Candidate): nat {
    match c
    case HistoryCase => 0
    case FpRule => 1
    case Profile(_) => 2
  }

  /** Where the profiles start. */
  lemma ProfilesLast(call: Call, k: nat)
    requires k < |Candidates(call)|
    ensures var n := |Candidates(call)| - |Entities(call)|;
            && 0 <= n <= 2
            && if k < n then !Candidates(call)[k].Profile? else Candidates(call)[k] == Profile(Entities(call)[k - n])
  {
  }

  /** The case comes first, then the rule, then the profiles by kind and value. */
  lemma CandidatesInOrder(call: Call, i: nat, j: nat)
    requires i < j < |Candidates(call)|
    ensures var a, b := Candidates(call)[i], Candidates(call)[j];
            && Rank(a) <= Rank(b)
            && (a.Profile? && b.Profile? ==>
                  if a.entity.kind == b.entity.kind then StringLeq(a.entity.value, b.entity.value)
                  else StringLeq(a.entity.kind, b.entity.kind))
  {
    ProfilesLast(call, i);
    ProfilesLast(call, j);
    EntitiesOnceInOrder(call);
    var n := |Candidates(call)| - |Entities(call)|;
    if i >= n {
      assert BY_ENTITY(Entities(call)[i - n], Entities(call)[j - n]);
    }
  }

  lemma BatchOnce(enabled: bool, d: Durable, call: Call, c: Candidate)
    ensures multiset(Batch(enabled, d, call))[c] <= 1
    ensures multiset(Batch(enabled, d, call))[c] == 1
       <==> GateOf(enabled, d, call).Work? && AsksFor(call, c) && call.failures(c) <= 3
    ensures !call.status.Closed? && !c.Profile? ==> multiset(Batch(enabled, d, call))[c] == 0
  {
    CandidatesAreAskedFor(call, c);
    if GateOf(enabled, d, call).Work? {
      CandidatesDistinct(call);
      SelectDistinct(Candidates(call), Filed(call));
      SelectMembers(Candidates(call), Filed(call));
      DistinctCount(Batch(enabled, d, call), c);
      assert c in Batch(enabled, d, call) <==> multiset(Batch(enabled, d, call))[c] > 0;
    }
  }

  /** A call adds its batch to the queue, whatever becomes of its output. */
  lemma ServeAddsBatch(enabled: bool, d: Durable, call: Call)
    ensures Serve(enabled, d, call).0.queue == d.queue + Batch(enabled, d, call)
  {
  }

  // ---- whole runs ----

  /** How many `c` rows the CLOSED calls of a run (or the other calls) add. */
  function Total(enabled: bool, d: Durable, calls: seq<Call>, c: Candidate, closed: bool): nat
    decreases |calls|
  {
    if calls == [] then 0
    else
      (if calls[0].status.Closed? == closed then multiset(Batch(enabled, d, calls[0]))[c] else 0)
      + Total(enabled, Serve(enabled, d, calls[0]).0, calls[1..], c, closed)
  }

  /** How many CLOSED calls of a run (or other calls) lose the write of their output. */
  function Losses(calls: seq<Call>, closed: bool): nat {
    if calls == [] then 0
    else (if calls[0].status.Closed? == closed && !calls[0].persists then 1 else 0) + Losses(calls[1..], closed)
  }

  /** The queue holds what was there, plus what the two kinds of call added. */
  lemma {:induction false} QueueIsTheTotals(enabled: bool, d: Durable, calls: seq<Call>, c: Candidate)
    ensures multiset(After(enabled, d, calls).queue)[c]
         == multiset(d.queue)[c] + Total(enabled, d, calls, c, true) + Total(enabled, d, calls, c, false)
    decreases |calls|
  {
    if calls != [] {
      ServeAddsBatch(enabled, d, calls[0]);
      QueueIsTheTotals(enabled, Serve(enabled, d, calls[0]).0, calls[1..], c);
    }
  }

  /** Case records and false-positive rules are filed by CLOSED calls only. */
  lemma {:induction false} CaseAndRuleOnlyFromClosed(enabled: bool, d: Durable, calls: seq<Call>)
    ensures Total(enabled, d, calls, HistoryCase, false) == 0
    ensures Total(enabled, d, calls, FpRule, false) == 0
    decreases |calls|
  {
    if calls != [] {
      CaseAndRuleOnlyFromClosed(enabled, Serve(enabled, d, calls[0]).0, calls[1..]);
      BatchOnce(enabled, d, calls[0], HistoryCase);
      BatchOnce(enabled, d, calls[0], FpRule);
    }
  }

  /** A candidate is filed at most once by the calls of one phase, plus once for each output write that phase lost. */
  lemma {:induction false} OncePerPhase(enabled: bool, d: Durable, calls: seq<Call>, c: Candidate, closed: bool)
    ensures Total(enabled, d, calls, c, closed)
         <= (if d.final.Some? || (!closed && d.early.Some?) then 0 else 1) + Losses(calls, closed)
    decreases |calls|
  {
    if calls != [] {
      var d' := Serve(enabled, d, calls[0]).0;
      OncePerPhase(enabled, d', calls[1..], c, closed);
      BatchOnce(enabled, d, calls[0], c);
    }
  }

  // ---- exactly how often ----

  /** The calls up to and including the first at which `stop` holds. */
  function Through(calls: seq<Call>, stop: Call -> bool): seq<Call> {
    if calls == [] then [] else [calls[0]] + if stop(calls[0]) then [] else Through(calls[1..], stop)
  }

  predicate Offers(call: Call, c: Candidate) {
    !call.unsynced && AsksFor(call, c) && call.failures(c) <= 3
  }

  /** A CLOSED call that offers `c`, and one whose output is kept. */
  function ClosedOffers(c: Candidate): Call -> bool {
    (call: Call) => call.status.Closed? && Offers(call, c)
  }

  const CLOSED_KEPT := (call: Call) => call.status.Closed? && call.persists

  predicate EarlyPass(enabled: bool, call: Call) {
    enabled && call.status.Reporting? && call.analysed
  }

  /** An early call that offers `c`, and a call whose output, early or final, is kept. */
  function EarlyOffers(enabled: bool, c: Candidate): Call -> bool {
    (call: Call) => EarlyPass(enabled, call) && Offers(call, c)
  }

  function Kept(enabled: bool): Call -> bool {
    (call: Call) => call.persists && (call.status.Closed? || EarlyPass(enabled, call))
  }

  lemma {:induction false} NothingAfterFinal(enabled: bool, d: Durable, calls: seq<Call>, c: Candidate, closed: bool)
    requires d.final.Some? || (!closed && d.early.Some?)
    ensures Total(enabled, d, calls, c, closed) == 0
    decreases |calls|
  {
    if calls != [] {
      BatchOnce(enabled, d, calls[0], c);
      NothingAfterFinal(enabled, Serve(enabled, d, calls[0]).0, calls[1..], c, closed);
    }
  }

  lemma CountThrough(calls: seq<Call>, stop: Call -> bool, p: Call -> bool)
    requires calls != []
    ensures |Select(Through(calls, stop), p)|
         == (if p(calls[0]) then 1 else 0) + (if stop(calls[0]) then 0 else |Select(Through(calls[1..], stop), p)|)
  {
    SelectAppend([calls[0]], if stop(calls[0]) then [] else Through(calls[1..], stop), p);
  }

  /** What one call adds, and whether it closes its phase. */
  lemma OneCall(enabled: bool, d: Durable, call: Call, c: Candidate)
    requires d.final.None?
    ensures call.status.Closed? ==> multiset(Batch(enabled, d, call))[c] == if ClosedOffers(c)(call) then 1 else 0
    ensures d.early.None? && !call.status.Closed? ==>
              multiset(Batch(enabled, d, call))[c] == if EarlyOffers(enabled, c)(call) then 1 else 0
    ensures Serve(enabled, d, call).0.final.Some? <==> CLOSED_KEPT(call)
    ensures d.early.None? ==>
              var d' := Serve(enabled, d, call).0; (d'.final.Some? || d'.early.Some? <==> Kept(enabled)(call))
  {
    BatchOnce(enabled, d, call, c);
  }

  /** CLOSED calls file a candidate once for each of them that offers it, up to the first that keeps its output. */
  lemma {:induction false} ClosedCount(enabled: bool, d: Durable, calls: seq<Call>, c: Candidate)
    requires d.final.None?
    ensures Total(enabled, d, calls, c, true) == |Select(Through(calls, CLOSED_KEPT), ClosedOffers(c))|
    decreases |calls|
  {
    if calls != [] {
      var d' := Serve(enabled, d, calls[0]).0;
      OneCall(enabled, d, calls[0], c);
      CountThrough(calls, CLOSED_KEPT, ClosedOffers(c));
      if d'.final.Some? {
        NothingAfterFinal(enabled, d', calls[1..], c, true);
      } else {
        ClosedCount(enabled, d', calls[1..], c);
      }
    }
  }

  /** Early calls file a candidate once for each of them that offers it, up to the first output kept at all. */
  lemma {:induction false} EarlyCount(enabled: bool, d: Durable, calls: seq<Call>, c: Candidate)
    requires d.final.None? && d.early.None?
    ensures Total(enabled, d, calls, c, false) == |Select(Through(calls, Kept(enabled)), EarlyOffers(enabled, c))|
    decreases |calls|
  {
    if calls != [] {
      var d' := Serve(enabled, d, calls[0]).0;
      OneCall(enabled, d, calls[0], c);
      CountThrough(calls, Kept(enabled), EarlyOffers(enabled, c));
      if d'.final.Some? || d'.early.Some? {
        NothingAfterFinal(enabled, d', calls[1..], c, false);
      } else {
        EarlyCount(enabled, d', calls[1..], c);
      }
    }
  }

  /** Two calls pass `offers` and no call before the second passes `stop`. */
  ghost predicate Twice(calls: seq<Call>, stop: Call -> bool, offers: Call -> bool) {
    exists i, j :: 0 <= i < j < |calls| && offers(calls[i]) && offers(calls[j]) && Unstopped(calls, stop, j)
  }

  ghost predicate Unstopped(calls: seq<Call>, stop: Call -> bool, j: nat) {
    forall k :: 0 <= k < j && k < |calls| ==> !stop(calls[k])
  }

  ghost predicate Once(calls: seq<Call>, stop: Call -> bool, offers: Call -> bool) {
    exists j: nat :: j < |calls| && offers(calls[j]) && Unstopped(calls, stop, j)
  }

  lemma {:induction false} OnceIff(calls: seq<Call>, stop: Call -> bool, offers: Call -> bool)
    ensures Select(Through(calls, stop), offers) != [] <==> Once(calls, stop, offers)
  {
    if calls != [] {
      var rest := calls[1..];
      if !stop(calls[0]) {
        OnceIff(rest, stop, offers);
        SelectAppend([calls[0]], Through(rest, stop), offers);
      }
      assert offers(calls[0]) ==> Unstopped(calls, stop, 0);
      if j: nat :| j < |rest| && offers(rest[j]) && Unstopped(rest, stop, j) && !stop(calls[0]) {
        assert calls[j + 1] == rest[j] && Unstopped(calls, stop, j + 1);
      }
      if j: nat :| 0 < j < |calls| && offers(calls[j]) && Unstopped(calls, stop, j) {
        assert rest[j - 1] == calls[j] && Unstopped(rest, stop, j - 1);
      }
    }
  }

  lemma {:induction false} TwiceIff(calls: seq<Call>, stop: Call -> bool, offers: Call -> bool)
    ensures |Select(Through(calls, stop), offers)| >= 2 <==> Twice(calls, stop, offers)
  {
    if calls != [] {
      var rest := calls[1..];
      if !stop(calls[0]) {
        TwiceIff(rest, stop, offers);
        OnceIff(rest, stop, offers);
        SelectAppend([calls[0]], Through(rest, stop), offers);
      }
      TwiceStep(calls, stop, offers);
    }
  }

  lemma TwiceStep(calls: seq<Call>, stop: Call -> bool, offers: Call -> bool)
    requires calls != []
    ensures Twice(calls, stop, offers) <==>
            && !stop(calls[0])
            && (Twice(calls[1..], stop, offers) || (offers(calls[0]) && Once(calls[1..], stop, offers)))
  {
    var rest := calls[1..];
    forall j: nat | j < |rest|
      ensures Unstopped(calls, stop, j + 1) <==> !stop(calls[0]) && Unstopped(rest, stop, j)
    {
      assert forall k :: 0 < k < j + 1 ==> calls[k] == rest[k - 1];
      assert forall k :: 0 <= k < j ==> rest[k] == calls[k + 1];
    }
    if i, j :| 0 <= i < j < |calls| && offers(calls[i]) && offers(calls[j]) && Unstopped(calls, stop, j) {
      assert rest[j - 1] == calls[j] && Unstopped(calls, stop, j - 1 + 1);
      assert i > 0 ==> rest[i - 1] == calls[i];
    }
    if !stop(calls[0]) {
      if i, j :| 0 <= i < j < |rest| && offers(rest[i]) && offers(rest[j]) && Unstopped(rest, stop, j) {
        assert calls[i + 1] == rest[i] && calls[j + 1] == rest[j] && Unstopped(calls, stop, j + 1);
      }
      if j: nat :| offers(calls[0]) && j < |rest| && offers(rest[j]) && Unstopped(rest, stop, j) {
        assert calls[j + 1] == rest[j] && Unstopped(calls, stop, j + 1);
      }
    }
  }

  /** A candidate is filed more than once by the CLOSED calls of a run exactly when a CLOSED call that offers it is
      followed by another one, and none before that other one kept its output; and so for the early calls. */
  lemma FiledTwiceIff(enabled: bool, d: Durable, calls: seq<Call>, c: Candidate)
    requires d.final.None?
    ensures Total(enabled, d, calls, c, true) >= 2 <==> Twice(calls, CLOSED_KEPT, ClosedOffers(c))
    ensures d.early.None? ==>
              (Total(enabled, d, calls, c, false) >= 2 <==> Twice(calls, Kept(enabled), EarlyOffers(enabled, c)))
  {
    ClosedCount(enabled, d, calls, c);
    TwiceIff(calls, CLOSED_KEPT, ClosedOffers(c));
    if d.early.None? {
      EarlyCount(enabled, d, calls, c);
      TwiceIff(calls, Kept(enabled), EarlyOffers(enabled, c));
    }
  }

  /** Every write kept: cases and rules at most once, each entity's profile at most twice. */
  lemma KeptWritesFileOnce(enabled: bool, calls: seq<Call>)
    requires forall call <- calls :: call.persists
    ensures var q := multiset(After(enabled, Durable(None, None, []), calls).queue);
            && q[HistoryCase] <= 1 && q[FpRule] <= 1
            && forall e: Entity :: q[Profile(e)] <= 2
  {
    var d := Durable(None, None, []);
    NoLosses(calls);
    CaseAndRuleOnlyFromClosed(enabled, d, calls);
    forall c: Candidate
      ensures multiset(After(enabled, d, calls).queue)[c] <= 1 + Total(enabled, d, calls, c, false) <= 2
    {
      QueueIsTheTotals(enabled, d, calls, c);
      OncePerPhase(enabled, d, calls, c, true);
      OncePerPhase(enabled, d, calls, c, false);
    }
  }

  lemma {:induction false} NoLosses(calls: seq<Call>)
    requires forall call <- calls :: call.persists
    ensures Losses(calls, true) == 0 && Losses(calls, false) == 0
  {
    if calls != [] {
      NoLosses(calls[1..]);
    }
  }

  /** Calls that are not CLOSED leave the CLOSED pass all its work. */
  lemma {:induction false} EarlyNeverSuppresses(enabled: bool, d: Durable, calls: seq<Call>, last: Call)
    requires d.final.None? && last.status.Closed?
    requires forall call <- calls :: !call.status.Closed?
    ensures var d' := After(enabled, d, calls);
            && GateOf(enabled, d', last) == GateOf(enabled, d, last)
            && Batch(enabled, d', last) == Batch(enabled, d, last)
    decreases |calls|
  {
    if calls != [] {
      EarlyNeverSuppresses(enabled, Serve(enabled, d, calls[0]).0, calls[1..], last);
    }
  }

  /** Once a CLOSED output is stored it is the answer to every accepted call, and nothing more is filed. */
  lemma {:induction false} FinalIsFixed(enabled: bool, d: Durable, calls: seq<Call>, last: Call)
    requires d.final.Some?
    ensures After(enabled, d, calls) == d
    ensures Accepted(enabled, last.status) ==> Serve(enabled, After(enabled, d, calls), last) == (d, Done(d.final.value))
  {
    if calls != [] {
      FinalIsFixed(enabled, d, calls[1..], last);
    }
  }

  /**
   * The first CLOSED call that keeps its write decides everything: after any earlier calls it files its own filed
   * candidates, each exactly once, unless the event is unsynced.
   */
  lemma ClosedPassFilesItsCandidates(enabled: bool, calls: seq<Call>, last: Call, c: Candidate)
    requires last.status.Closed? && last.persists && !last.unsynced
    requires forall call <- calls :: !call.status.Closed?
    ensures var d := After(enabled, Durable(None, None, []), calls);
            && multiset(Batch(enabled, d, last))[c]
               == (if AsksFor(last, c) && last.failures(c) <= 3 then 1 else 0)
            && Serve(enabled, d, last).0.final == Some(Fresh(d, last))
  {
    var d0 := Durable(None, None, []);
    EarlyNeverSuppresses(enabled, d0, calls, last);
    BatchOnce(enabled, After(enabled, d0, calls), last, c);
  }

  /** A lost write is what breaks the bound: the same CLOSED call, its first write lost, files its case twice. */
  lemma LostWriteFilesTwice(call: Call, enabled: bool)
    requires call.status.Closed? && call.caseReady && !call.unsynced && call.failures(HistoryCase) <= 3
    requires !call.persists
    ensures Total(enabled, Durable(None, None, []), [call, call.(persists := true)], HistoryCase, true) == 2
  {
    var d, again := Durable(None, None, []), call.(persists := true);
    var d' := Serve(enabled, d, call).0;
    assert [call, again][1..] == [again];
    BatchOnce(enabled, d, call, HistoryCase);
    BatchOnce(enabled, d', again, HistoryCase);
    assert AsksFor(call, HistoryCase) && AsksFor(again, HistoryCase);
    assert Total(enabled, d', [again], HistoryCase, true) == 1;
  }

  // ---- replies ----

  /** The call is turned away: not CLOSED, and either not an enabled REPORTING call, or one that comes before its
      analysis is complete and before any CLOSED output. */
  predicate TurnedAway(enabled: bool, d: Durable, call: Call) {
    call.status != Closed && (!enabled || call.status != Reporting || (d.final.None? && !call.analysed))
  }

  /** A stored output answers the call: the CLOSED one any call, the early one the early calls. */
  function Stored(d: Durable, call: Call): Option<Output> {
    if d.final.Some? then d.final else if call.status != Closed then d.early else None
  }

  /** Every call is turned away, answered from what is stored, or answered with a new output; only the last kind
      changes anything, and it stores that output under its own key unless the write is lost. */
  lemma ReplyMeaning(enabled: bool, d: Durable, call: Call)
    ensures var r := Serve(enabled, d, call);
            && (r.1 == Refused <==> TurnedAway(enabled, d, call))
            && (TurnedAway(enabled, d, call) ==> r.0 == d)
            && (!TurnedAway(enabled, d, call) && Stored(d, call).Some? ==> r == (d, Done(Stored(d, call).value)))
            && (!TurnedAway(enabled, d, call) && Stored(d, call).None? ==>
                  && (r.1 == Lost <==> !call.persists)
                  && (!call.persists ==> r.0.final == d.final && r.0.early == d.early)
                  && (call.persists && call.status == Closed ==>
                        r.1.Done? && r.0.final == Some(r.1.output) && r.0.early == d.early)
                  && (call.persists && call.status != Closed ==>
                        r.1.Done? && r.0.early == Some(r.1.output) && r.0.final == d.final))
  {
  }

  /** A new output reports every candidate asked for, each once and with the place of its row when it was filed, and a
      draft exactly for a confirmed threat; the output of an unsynced event is empty. */
  lemma NewOutputTells(enabled: bool, d: Durable, call: Call, c: Candidate)
    requires !TurnedAway(enabled, d, call) && Stored(d, call).None? && call.persists
    ensures var r := Serve(enabled, d, call);
            && r.1.Done?
            && (call.unsynced ==> r.1.output == Output([], 0) && r.0.queue == d.queue)
            && (!call.unsynced ==>
                  && r.1.output.drafts == (if call.verdict == ConfirmedThreat && call.draftReady then 1 else 0)
                  && ReportsOnce(r.1.output.records, c, AsksFor(call, c))
                  && forall r' <- r.1.output.records :: r'.candidate == c ==>
                       Truthful(r', r.0.queue, |d.queue|, call.failures(c) <= 3))
  {
    if !call.unsynced {
      RecordsTell(d.queue, call, c);
    }
  }

  lemma RecordsTell(queue: seq<Candidate>, call: Call, c: Candidate)
    ensures var records := Records(Candidates(call), Filed(call), |queue|);
            && ReportsOnce(records, c, AsksFor(call, c))
            && forall r <- records :: r.candidate == c ==>
                 Truthful(r, queue + Select(Candidates(call), Filed(call)), |queue|, call.failures(c) <= 3)
  {
    var cs, filed := Candidates(call), Filed(call);
    var records, all := Records(cs, filed, |queue|), queue + Select(cs, filed);
    RecordsLength(cs, filed, |queue|);
    CandidatesAreAskedFor(call, c);
    CandidatesDistinct(call);
    forall i | 0 <= i < |cs|
      ensures records[i].candidate == cs[i]
      ensures cs[i] == c ==> Truthful(records[i], all, |queue|, call.failures(c) <= 3)
    {
      ReviewIdsPointAtTheQueue(queue, cs, filed, i);
    }
    if c in cs {
      var i :| 0 <= i < |cs| && cs[i] == c;
      assert records[i].candidate == c;
    }
  }

  /** One record for the candidate when it was asked for, none otherwise. */
  ghost predicate ReportsOnce(records: seq<Record>, c: Candidate, asked: bool) {
    && (asked <==> exists i :: 0 <= i < |records| && records[i].candidate == c)
    && forall i, j :: 0 <= i < j < |records| ==> records[i].candidate != c || records[j].candidate != c
  }

  /** The record carries a review id and is pending exactly when its candidate was filed, and the id is the place of
      that candidate among the rows the call added. */
  ghost predicate Truthful(r: Record, queue: seq<Candidate>, before: nat, filed: bool) {
    && (r.review.Some? <==> filed) && (r.pending <==> filed)
    && (filed ==> before <= r.review.value < |queue| && queue[r.review.value] == r.candidate)
  }

  // ---- records ----

  /** A record's review id is the place of its own candidate in the queue; a record without one was never filed. */
  lemma {:induction false} ReviewIdsPointAtTheQueue(queue: seq<Candidate>, cs: seq<Candidate>,
                                                    filed: Candidate -> bool, i: nat)
    requires i < |cs|
    ensures |Records(cs, filed, |queue|)| == |cs|
    ensures var r, q := Records(cs, filed, |queue|)[i], queue + Select(cs, filed);
            && r.candidate == cs[i]
            && (r.review.Some? <==> filed(cs[i]))
            && (r.pending <==> r.review.Some?)
            && (r.review.Some? ==> |queue| <= r.review.value < |q| && q[r.review.value] == cs[i])
    decreases |cs|
  {
    var queue' := if filed(cs[0]) then queue + [cs[0]] else queue;
    assert queue + Select(cs, filed) == queue' + Select(cs[1..], filed);
    if i > 0 {
      ReviewIdsPointAtTheQueue(queue', cs[1..], filed, i - 1);
    } else {
      RecordsLength(cs, filed, |queue|);
    }
  }

  lemma {:induction false} RecordsLength(cs: seq<Candidate>, filed: Candidate -> bool, next: nat)
    ensures |Records(cs, filed, next)| == |cs|
  {
    if cs != [] {
      RecordsLength(cs[1..], filed, if filed(cs[0]) then next + 1 else next);
    }
  }

  lemma {:induction false} RecordsAppend(a: seq<Candidate>, b: seq<Candidate>, filed: Candidate -> bool, next: nat)
    ensures Records(a + b, filed, next) == Records(a, filed, next) + Records(b, filed, next + |Select(a, filed)|)
  {
    if a == [] {
      assert a + b == b;
    } else {
      assert (a + b)[1..] == a[1..] + b;
      RecordsAppend(a[1..], b, filed, if filed(a[0]) then next + 1 else next);
    }
  }

  // ---- the agent ----

  class Agent {
    const enabled: bool
    var final: Option<Output>
    var early: Option<Output>
    var queue: seq<Candidate>

    constructor (enabled: bool)
      ensures Snapshot() == Durable(None, None, []) && this.enabled == enabled
    {
      this.enabled := enabled;
      final, early, queue := None, None, [];
    }

    function Snapshot(): Durable
      reads this
    {
      Durable(final, early, queue)
    }

    /** Three attempts, then the fallback insert, then give up. */
    method QueueCandidate(c: Candidate, failures: nat) returns (review: Option<nat>)
      modifies this`queue
      ensures failures < ATTEMPTS ==> review == Some(|old(queue)|) && queue == old(queue) + [c]
      ensures failures >= ATTEMPTS ==> review == None && queue == old(queue)
    {
      for attempt := 0 to RETRIES + 1
        invariant queue == old(queue) && attempt <= failures
      {
        if attempt == failures {
          queue := queue + [c];
          return Some(|queue| - 1);
        }
      }
      if failures == RETRIES + 1 {
        queue := queue + [c];
        return Some(|queue| - 1);
      }
      return None;
    }

    /** Queue one candidate and report it. */
    method File(call: Call, c: Candidate, ghost done: seq<Candidate>, ghost start: nat, records: seq<Record>)
      returns (records': seq<Record>)
      requires |queue| == start + |Select(done, Filed(call))|
      requires records == Records(done, Filed(call), start)
      modifies this`queue
      ensures queue == old(queue) + Select([c], Filed(call))
      ensures |queue| == start + |Select(done + [c], Filed(call))|
      ensures records' == Records(done + [c], Filed(call), start)
    {
      SelectAppend(done, [c], Filed(call));
      RecordsAppend(done, [c], Filed(call), start);
      var review := QueueCandidate(c, call.failures(c));
      records' := records + [Record(c, review, review.Some?)];
    }

    method FileProfiles(call: Call, entities: seq<Entity>, ghost base: seq<Candidate>, ghost start: nat,
                        records: seq<Record>)
      returns (records': seq<Record>)
      requires |queue| == start + |Select(base, Filed(call))|
      requires records == Records(base, Filed(call), start)
      modifies this`queue
      ensures queue == old(queue) + Select(Image(entities, TO_PROFILE), Filed(call))
      ensures records' == Records(base + Image(entities, TO_PROFILE), Filed(call), start)
    {
      records' := records;
      ghost var done: seq<Candidate> := [];
      assert base + done == base;
      for i := 0 to |entities|
        invariant done == Image(entities[..i], TO_PROFILE)
        invariant queue == old(queue) + Select(done, Filed(call))
        invariant |queue| == start + |Select(base + done, Filed(call))|
        invariant records' == Records(base + done, Filed(call), start)
      {
        var c := Profile(entities[i]);
        records' := File(call, c, base + done, start, records');
        Grow(old(queue), done, [c], Filed(call));
        ImageSnoc(entities, i, TO_PROFILE);
        Assoc(base, done, [c]);
        done := done + [c];
      }
      assert entities[..|entities|] == entities;
    }

    method FileAll(call: Call) returns (records: seq<Record>)
      modifies this`queue
      ensures queue == old(queue) + Select(Candidates(call), Filed(call))
      ensures records == Records(Candidates(call), Filed(call), |old(queue)|)
    {
      ghost var start := |queue|;
      ghost var done: seq<Candidate> := [];
      records := [];
      if call.status.Closed? && call.caseReady {
        records := File(call, HistoryCase, done, start, records);
        done := done + [HistoryCase];
      }
      if call.status.Closed? && call.verdict.FalsePositive? && call.ruleReady {
        records := File(call, FpRule, done, start, records);
        Grow(old(queue), done, [FpRule], Filed(call));
        done := done + [FpRule];
      }
      records := FileProfiles(call, Entities(call), done, start, records);
      Grow(old(queue), done, Image(Entities(call), TO_PROFILE), Filed(call));
      assert done + Image(Entities(call), TO_PROFILE) == Candidates(call);
    }

    method Store(call: Call, output: Output) returns (reply: Reply)
      modifies this`final, this`early
      ensures (Snapshot(), reply) == Persist(old(Snapshot()), call, output)
    {
      if !call.persists {
        return Lost;
      }
      if call.status.Closed? {
        final := Some(output);
      } else {
        early := Some(output);
      }
      return Done(output);
    }

    method Run(call: Call) returns (reply: Reply)
      modifies this
      ensures (Snapshot(), reply) == Serve(enabled, old(Snapshot()), call)
    {
      if !Accepted(enabled, call.status) {
        return Refused;
      }
      if final.Some? {
        return Done(final.value);
      }
      var isEarly := !call.status.Closed? && call.analysed;
      if !call.status.Closed? && !isEarly {
        return Refused;
      }
      if isEarly && early.Some? {
        return Done(early.value);
      }
      if call.unsynced {
        reply := Store(call, Output([], 0));
        return;
      }
      var records := FileAll(call);
      var drafts := if call.verdict.ConfirmedThreat? && call.draftReady then 1 else 0;
      reply := Store(call, Output(records, drafts));
    }
  }

  lemma Grow(queue: seq<Candidate>, done: seq<Candidate>, more: seq<Candidate>, filed: Candidate -> bool)
    ensures queue + Select(done, filed) + Select(more, filed) == queue + Select(done + more, filed)
  {
    SelectAppend(done, more, filed);
  }
}
