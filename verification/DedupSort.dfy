/** Dedup by (source, type, second) keeping the most confident row, then a stable sort by time. */
module DedupSort {
  import opened Basics
  import opened Sequences
  import opened Evidence
  import opened Sorting

  const SECOND: int := 1_000_000

  function Floor(ts: Option<int>): Option<int> {
    if ts.None? then None else Some(ts.value - ts.value % SECOND)
  }

  function Truncated(e: Evidence): Evidence {
    e.(timestamp := Floor(e.timestamp))
  }

  datatype Key = Key(source: Source, kind: string, second: Option<int>)

  function KeyOf(e: Evidence): Key {
    Key(e.source, e.kind, Floor(e.timestamp))
  }

  lemma TruncatedKey(e: Evidence)
    ensures KeyOf(Truncated(e)) == KeyOf(e)
  {}

  // ---- the reference: first keys, first most confident row ----

  /** The keys of `items` in order of first appearance. */
  function Keys(items: seq<Evidence>): seq<Key> {
    if items == [] then []
    else
      var before, k := Keys(items[..|items| - 1]), KeyOf(items[|items| - 1]);
      if k in before then before else before + [k]
  }

  function Winner(items: seq<Evidence>, k: Key): Evidence
    requires k in Keys(items)
  {
    var before, last := items[..|items| - 1], items[|items| - 1];
    if KeyOf(last) == k && (k !in Keys(before) || last.confidence > Winner(before, k).confidence) then Truncated(last)
    else Winner(before, k)
  }

  function Dedup(items: seq<Evidence>): seq<Evidence> {
    var keys := Keys(items);
    seq(|keys|, i requires 0 <= i < |keys| => Winner(items, keys[i]))
  }

  /** Row i is the first of the most confident rows with its key. */
  ghost predicate FirstBest(items: seq<Evidence>, i: nat) {
    && i < |items|
    && (forall j :: 0 <= j < |items| && KeyOf(items[j]) == KeyOf(items[i]) ==>
          items[j].confidence <= items[i].confidence && (j < i ==> items[j].confidence < items[i].confidence))
  }

  lemma {:induction false} WinnerIsFirstBest(items: seq<Evidence>, k: Key) returns (i: nat)
    requires k in Keys(items)
    ensures FirstBest(items, i) && KeyOf(items[i]) == k && Winner(items, k) == Truncated(items[i])
    decreases |items|
  {
    var before, last := items[..|items| - 1], items[|items| - 1];
    if k in Keys(before) {
      i := WinnerIsFirstBest(before, k);
      assert before[i] == items[i];
      assert forall j :: 0 <= j < |before| ==> items[j] == before[j];
      if KeyOf(last) == k && last.confidence > Winner(before, k).confidence {
        i := |items| - 1;
      }
    } else {
      i := |items| - 1;
      KeysMembers(before);
    }
  }

  lemma {:induction false} KeysMembers(items: seq<Evidence>)
    ensures forall j :: 0 <= j < |items| ==> KeyOf(items[j]) in Keys(items)
    ensures Distinct(Keys(items))
    ensures forall k :: k in Keys(items) ==> exists j :: 0 <= j < |items| && KeyOf(items[j]) == k
  {
    if items != [] {
      var before := items[..|items| - 1];
      KeysMembers(before);
      assert forall j :: 0 <= j < |before| ==> items[j] == before[j];
      forall k | k in Keys(items) ensures exists j :: 0 <= j < |items| && KeyOf(items[j]) == k {
        if k in Keys(before) {
          var j :| 0 <= j < |before| && KeyOf(before[j]) == k;
          assert KeyOf(items[j]) == k;
        } else {
          assert KeyOf(items[|items| - 1]) == k;
        }
      }
    }
  }

  // ---- the stable sort ----

  /** Dated rows by time, undated rows last. */
  predicate Leq(a: Evidence, b: Evidence) {
    b.timestamp.None? || (a.timestamp.Some? && a.timestamp.value <= b.timestamp.value)
  }

  const BY_TIME := (a: Evidence, b: Evidence) => Leq(a, b)

  function DedupAndSort(items: seq<Evidence>): seq<Evidence> {
    Sort(Dedup(items), BY_TIME)
  }

  lemma TimesOrdered()
    ensures Ordering(BY_TIME)
  {
  }

  function At(t: Option<int>): Evidence -> bool {
    (e: Evidence) => e.timestamp == t
  }

  /** Rows of equal time keep the order in which their keys were met. */
  lemma EqualTimesKeepOrder(items: seq<Evidence>, t: Option<int>)
    ensures Select(DedupAndSort(items), At(t)) == Select(Dedup(items), At(t))
  {
    SortStable(Dedup(items), BY_TIME, At(t));
  }

  // ---- the result ----

  const KEY := (e: Evidence) => KeyOf(e)

  ghost predicate DistinctKeys(s: seq<Evidence>) {
    DistinctBy(s, KEY)
  }

  lemma DedupKeys(items: seq<Evidence>)
    ensures DistinctKeys(Dedup(items))
    ensures forall i :: 0 <= i < |Dedup(items)| ==> KeyOf(Dedup(items)[i]) == Keys(items)[i]
  {
    KeysMembers(items);
    forall i | 0 <= i < |Dedup(items)| ensures KeyOf(Dedup(items)[i]) == Keys(items)[i] {
      var j := WinnerIsFirstBest(items, Keys(items)[i]);
      TruncatedKey(items[j]);
    }
  }

  lemma OutputKeysDistinct(items: seq<Evidence>)
    ensures DistinctKeys(DedupAndSort(items)) && Sorted(DedupAndSort(items), BY_TIME)
  {
    DedupKeys(items);
    TimesOrdered();
    SortSorts(Dedup(items), BY_TIME);
    SortKeepsDistinct(Dedup(items), BY_TIME, KEY);
  }

  lemma RowOrigin(items: seq<Evidence>, e: Evidence) returns (i: nat)
    requires e in DedupAndSort(items)
    ensures FirstBest(items, i) && e == Truncated(items[i]) && KeyOf(e) == KeyOf(items[i])
  {
    SortMember(Dedup(items), BY_TIME, e);
    i := DedupOrigin(items, e);
    TruncatedKey(items[i]);
  }

  /** The output holds, for every input key, exactly one row: the first most confident one with
      its time cut to the second; rows are ordered by time with undated rows last. */
  lemma DedupAndSortMeaning(items: seq<Evidence>)
    ensures var out := DedupAndSort(items);
            && Sorted(out, BY_TIME)
            && DistinctKeys(out)
            && (forall i :: 0 <= i < |items| ==> exists e :: e in out && KeyOf(e) == KeyOf(items[i]))
            && (forall e <- out :: exists i: nat :: FirstBest(items, i) && e == Truncated(items[i]))
  {
    OutputKeysDistinct(items);
    forall i | 0 <= i < |items| ensures exists e :: e in DedupAndSort(items) && KeyOf(e) == KeyOf(items[i]) {
      var e := DedupCovers(items, i);
      SortMember(Dedup(items), BY_TIME, e);
    }
    forall e <- DedupAndSort(items) ensures exists i: nat :: FirstBest(items, i) && e == Truncated(items[i]) {
      var i := RowOrigin(items, e);
    }
  }

  lemma DedupCovers(items: seq<Evidence>, i: nat) returns (e: Evidence)
    requires i < |items|
    ensures e in Dedup(items) && KeyOf(e) == KeyOf(items[i])
  {
    KeysMembers(items);
    DedupKeys(items);
    var j :| 0 <= j < |Keys(items)| && Keys(items)[j] == KeyOf(items[i]);
    e := Dedup(items)[j];
  }

  lemma DedupOrigin(items: seq<Evidence>, e: Evidence) returns (i: nat)
    requires e in Dedup(items)
    ensures FirstBest(items, i) && e == Truncated(items[i])
  {
    var j :| 0 <= j < |Dedup(items)| && Dedup(items)[j] == e;
    i := WinnerIsFirstBest(items, Keys(items)[j]);
  }

  lemma {:induction false} DedupIdentity(s: seq<Evidence>)
    requires DistinctKeys(s) && forall e <- s :: Truncated(e) == e
    ensures Dedup(s) == s
  {
    KeysIdentity(s);
    forall i | 0 <= i < |s| ensures Dedup(s)[i] == s[i] {
      var j := WinnerIsFirstBest(s, Keys(s)[i]);
      assert j == i;
    }
  }

  lemma {:induction false} KeysIdentity(s: seq<Evidence>)
    requires DistinctKeys(s)
    ensures |Keys(s)| == |s| && forall i :: 0 <= i < |s| ==> Keys(s)[i] == KeyOf(s[i])
  {
    if s != [] {
      KeysIdentity(s[..|s| - 1]);
    }
  }

  /** Running the step again changes nothing. */
  lemma DedupAndSortFixpoint(items: seq<Evidence>)
    ensures DedupAndSort(DedupAndSort(items)) == DedupAndSort(items)
  {
    var out := DedupAndSort(items);
    OutputKeysDistinct(items);
    forall e <- out ensures Truncated(e) == e {
      var i := RowOrigin(items, e);
      FloorTwice(items[i].timestamp);
    }
    DedupIdentity(out);
    SortIdentity(out, BY_TIME);
  }

  lemma FloorTwice(ts: Option<int>)
    ensures Floor(Floor(ts)) == Floor(ts)
  {}

  // ---- the same, field by field ----

  ghost predicate SameSecond(a: Option<int>, b: Option<int>) {
    if a.Some? && b.Some? then a.value / 1_000_000 == b.value / 1_000_000 else a.None? && b.None?
  }

  /** Two rows of one source and type within one second, or both undated. */
  ghost predicate SameSlot(a: Evidence, b: Evidence) {
    a.source == b.source && a.kind == b.kind && SameSecond(a.timestamp, b.timestamp)
  }

  lemma KeysAreSlots(a: Evidence, b: Evidence)
    ensures KeyOf(a) == KeyOf(b) <==> SameSlot(a, b)
  {
    if a.timestamp.Some? && b.timestamp.Some? {
      var x, y := a.timestamp.value, b.timestamp.value;
      assert x - x % SECOND == SECOND * (x / SECOND) && y - y % SECOND == SECOND * (y / SECOND);
    }
  }

  /** The row with its time cut to the second, all else as it was. */
  ghost predicate CutToSecond(e: Evidence, item: Evidence) {
    && e == item.(timestamp := e.timestamp)
    && SameSecond(e.timestamp, item.timestamp)
    && (e.timestamp.Some? ==> e.timestamp.value % 1_000_000 == 0)
  }

  /** No row of its slot is more confident, and no earlier one as confident. */
  ghost predicate BestOfSlot(items: seq<Evidence>, i: nat) {
    && i < |items|
    && forall j :: 0 <= j < |items| && SameSlot(items[j], items[i]) ==>
         items[j].confidence <= items[i].confidence && (j < i ==> items[j].confidence < items[i].confidence)
  }

  lemma BestIsFirstBest(items: seq<Evidence>, i: nat)
    requires FirstBest(items, i)
    ensures BestOfSlot(items, i)
  {
    forall j | 0 <= j < |items|
      ensures SameSlot(items[j], items[i]) <==> KeyOf(items[j]) == KeyOf(items[i])
    {
      KeysAreSlots(items[j], items[i]);
    }
  }

  ghost predicate BestRow(items: seq<Evidence>, e: Evidence) {
    exists i: nat :: BestOfSlot(items, i) && CutToSecond(e, items[i])
  }

  ghost predicate Covered(out: seq<Evidence>, item: Evidence) {
    exists e :: e in out && SameSlot(e, item)
  }

  /** In order of time, undated rows last. */
  ghost predicate InTimeOrder(out: seq<Evidence>) {
    forall i, j :: 0 <= i < j < |out| ==>
      out[j].timestamp.None? || (out[i].timestamp.Some? && out[i].timestamp.value <= out[j].timestamp.value)
  }

  /** One row for each slot of the input, none shared; each the first most confident row of its slot, cut to the second;
      in order of time. */
  lemma OneRowPerSlot(items: seq<Evidence>)
    ensures var out := DedupAndSort(items);
            && (forall i, j :: 0 <= i < j < |out| ==> !SameSlot(out[i], out[j]))
            && (forall item <- items :: Covered(out, item))
            && (forall e <- out :: BestRow(items, e))
            && InTimeOrder(out)
  {
    var out := DedupAndSort(items);
    OutputKeysDistinct(items);
    forall i, j | 0 <= i < j < |out|
      ensures !SameSlot(out[i], out[j])
      ensures out[j].timestamp.None? || (out[i].timestamp.Some? && out[i].timestamp.value <= out[j].timestamp.value)
    {
      assert KEY(out[i]) != KEY(out[j]) && BY_TIME(out[i], out[j]);
      KeysAreSlots(out[i], out[j]);
    }
    forall item <- items
      ensures Covered(out, item)
    {
      var i :| 0 <= i < |items| && items[i] == item;
      var e := DedupCovers(items, i);
      SortMember(Dedup(items), BY_TIME, e);
      KeysAreSlots(e, item);
    }
    forall e <- out
      ensures BestRow(items, e)
    {
      var i := RowOrigin(items, e);
      BestIsFirstBest(items, i);
      KeysAreSlots(e, items[i]);
    }
  }

  // ---- the implementation ----

  /** The dict of best rows by key; Python keeps keys in insertion order (`order`). */
  method RunDedupAndSort(items: seq<Evidence>) returns (out: seq<Evidence>)
    ensures out == DedupAndSort(items)
  {
    var best: map<Key, Evidence>, order: seq<Key> := map[], [];
    for k := 0 to |items|
      invariant order == Keys(items[..k])
      invariant forall key :: key in best <==> key in order
      invariant forall key :: key in best ==> best[key] == Winner(items[..k], key)
    {
      var item, key := items[k], KeyOf(items[k]);
      assert items[..k + 1][..k] == items[..k];
      if key !in best {
        order := order + [key];
        best := best[key := Truncated(item)];
      } else if item.confidence > best[key].confidence {
        best := best[key := Truncated(item)];
      }
    }
    assert items[..|items|] == items;
    var values := seq(|order|, i requires 0 <= i < |order| => best[order[i]]);
    assert values == Dedup(items);
    out := Sort(values, BY_TIME);
  }
}
