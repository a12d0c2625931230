/** The evidence store and what it agrees on after a whole collection run. */
module Store {
  import opened Sequences
  import opened Evidence
  import opened Conflicts
  import opened DedupSort

  /** Redaction of a row's human-readable parts; it leaves every other field alone. */
  type Redaction = (string, seq<string>) -> (string, seq<string>)

  function Sanitized(e: Evidence, redact: Redaction): Evidence {
    var r := redact(e.text, e.entities);
    e.(text := r.0, entities := r.1)
  }

  type Rows = map<string, Evidence>

  /** Keep the row with the higher confidence; the earlier one on a tie. */
  function Upsert(rows: Rows, e: Evidence): Rows {
    if e.id !in rows || e.confidence > rows[e.id].confidence then rows[e.id := e] else rows
  }

  function UpsertAll(rows: Rows, items: seq<Evidence>, redact: Redaction): Rows {
    if items == [] then rows
    else Upsert(UpsertAll(rows, items[..|items| - 1], redact), Sanitized(items[|items| - 1], redact))
  }

  /** Overwrite confidence and flag whatever they were. */
  function Force(rows: Rows, e: Evidence): Rows {
    if e.id !in rows then rows[e.id := e]
    else rows[e.id := rows[e.id].(confidence := e.confidence, conflicting := e.conflicting)]
  }

  function ForceAll(rows: Rows, items: seq<Evidence>): Rows {
    if items == [] then rows else Force(ForceAll(rows, items[..|items| - 1]), items[|items| - 1])
  }

  function IsDirty(): Evidence -> bool {
    (e: Evidence) => e.conflicting
  }

  class Repository {
    var rows: Rows

    constructor ()
      ensures rows == map[]
    {
      rows := map[];
    }

    method UpsertBatch(items: seq<Evidence>, redact: Redaction)
      modifies this
      ensures rows == UpsertAll(old(rows), items, redact)
    {
      for k := 0 to |items|
        invariant rows == UpsertAll(old(rows), items[..k], redact)
      {
        assert items[..k + 1][..k] == items[..k];
        var safe := Sanitized(items[k], redact);
        if safe.id !in rows || safe.confidence > rows[safe.id].confidence {
          rows := rows[safe.id := safe];
        }
      }
      assert items[..|items|] == items;
    }

    method ApplyConflictUpdates(items: seq<Evidence>)
      modifies this
      ensures rows == ForceAll(old(rows), items)
    {
      for k := 0 to |items|
        invariant rows == ForceAll(old(rows), items[..k])
      {
        assert items[..k + 1][..k] == items[..k];
        var item := items[k];
        if item.id !in rows {
          rows := rows[item.id := item];
        } else {
          rows := rows[item.id := rows[item.id].(confidence := item.confidence, conflicting := item.conflicting)];
        }
      }
      assert items[..|items|] == items;
    }

    /** Persist, detect, penalise, and push the penalties back into the store. */
    method Consolidate(collected: seq<Evidence>, redact: Redaction)
      returns (evidence: seq<Evidence>, conflicts: seq<Conflict>)
      modifies this
      ensures conflicts == Detect(DedupAndSort(collected))
      ensures evidence == Penalties(DedupAndSort(collected), conflicts)
      ensures rows == Synced(old(rows), DedupAndSort(collected), redact)
    {
      var kept := RunDedupAndSort(collected);
      UpsertBatch(kept, redact);
      evidence, conflicts := DetectAndPenalize(kept);
      if evidence != [] && conflicts != [] {
        var dirty := Select(evidence, IsDirty());
        if dirty != [] {
          ApplyConflictUpdates(dirty);
        }
      }
    }
  }

  function Synced(rows: Rows, kept: seq<Evidence>, redact: Redaction): Rows {
    var saved := UpsertAll(rows, kept, redact);
    var out := Penalties(kept, Detect(kept));
    if Detect(kept) == [] then saved else ForceAll(saved, Select(out, IsDirty()))
  }

  // ---- where each row of the store comes from ----

  ghost predicate DistinctIds(s: seq<Evidence>) {
    forall i, j :: 0 <= i < j < |s| ==> s[i].id != s[j].id
  }

  lemma {:induction false} UpsertOther(rows: Rows, items: seq<Evidence>, redact: Redaction, id: string)
    requires forall e <- items :: e.id != id
    ensures id in UpsertAll(rows, items, redact) <==> id in rows
    ensures id in rows ==> UpsertAll(rows, items, redact)[id] == rows[id]
  {
    if items != [] {
      UpsertOther(rows, items[..|items| - 1], redact, id);
      assert items[|items| - 1] in items;
    }
  }

  lemma {:induction false} UpsertRow(rows: Rows, items: seq<Evidence>, redact: Redaction, i: nat)
    requires DistinctIds(items) && i < |items|
    ensures var id, after := items[i].id, UpsertAll(rows, items, redact);
            id in after && after[id] == Upsert(rows, Sanitized(items[i], redact))[id]
    decreases |items|
  {
    var init, last := items[..|items| - 1], items[|items| - 1];
    if i == |items| - 1 {
      forall e <- init ensures e.id != last.id {
        var j :| 0 <= j < |init| && init[j] == e;
        assert items[j].id != items[|items| - 1].id;
      }
      UpsertOther(rows, init, redact, last.id);
    } else {
      assert init[i] == items[i] && items[i].id != last.id;
      UpsertRow(rows, init, redact, i);
    }
  }

  lemma {:induction false} ForceOther(rows: Rows, items: seq<Evidence>, id: string)
    requires forall e <- items :: e.id != id
    ensures id in ForceAll(rows, items) <==> id in rows
    ensures id in rows ==> ForceAll(rows, items)[id] == rows[id]
  {
    if items != [] {
      ForceOther(rows, items[..|items| - 1], id);
      assert items[|items| - 1] in items;
    }
  }

  lemma {:induction false} ForceRow(rows: Rows, items: seq<Evidence>, i: nat)
    requires DistinctIds(items) && i < |items|
    ensures var id, after := items[i].id, ForceAll(rows, items);
            && id in after && after[id].confidence == items[i].confidence && after[id].conflicting == items[i].conflicting
            && (id in rows ==>
                  after[id] == rows[id].(confidence := items[i].confidence, conflicting := items[i].conflicting))
            && (id !in rows ==> after[id] == items[i])
    decreases |items|
  {
    var init, last := items[..|items| - 1], items[|items| - 1];
    if i < |items| - 1 {
      assert init[i] == items[i] && items[i].id != last.id;
      ForceRow(rows, init, i);
    } else {
      forall e <- init ensures e.id != last.id {
        var j :| 0 <= j < |init| && init[j] == e;
        assert items[j].id != items[|items| - 1].id;
      }
      ForceOther(rows, init, last.id);
    }
  }

  // ---- the store agrees with the returned evidence ----

  ghost predicate Agrees(rows: Rows, e: Evidence) {
    e.id in rows && rows[e.id].confidence == e.confidence && rows[e.id].conflicting == e.conflicting
  }

  lemma {:induction false} SelectIds(s: seq<Evidence>, p: Evidence -> bool)
    requires DistinctIds(s)
    ensures DistinctIds(Select(s, p))
  {
    if s != [] {
      SelectIds(s[1..], p);
      SelectMembers(s[1..], p);
      forall e <- s[1..] ensures e.id != s[0].id {
        var j :| 0 <= j < |s[1..]| && s[1..][j] == e;
        assert s[j + 1] == e;
      }
    }
  }

  lemma ForceDirty(saved: Rows, out: seq<Evidence>, i: nat)
    requires DistinctIds(out) && i < |out| && out[i].id in saved
    ensures var after, id := ForceAll(saved, Select(out, IsDirty())), out[i].id;
            && (out[i].conflicting ==>
                  && Agrees(after, out[i])
                  && after[id] == saved[id].(confidence := out[i].confidence, conflicting := true))
            && (!out[i].conflicting ==> id in after && after[id] == saved[id])
  {
    var dirty := Select(out, IsDirty());
    SelectIds(out, IsDirty());
    SelectMembers(out, IsDirty());
    if out[i].conflicting {
      assert out[i] in dirty;
      var j :| 0 <= j < |dirty| && dirty[j] == out[i];
      ForceRow(saved, dirty, j);
    } else {
      forall e <- dirty ensures e.id != out[i].id {
        var j :| 0 <= j < |out| && out[j] == e;
        assert j != i;
      }
      ForceOther(saved, dirty, out[i].id);
    }
  }

  lemma PenaltiesKeepIds(kept: seq<Evidence>, conflicts: seq<Conflict>)
    requires DistinctIds(kept)
    ensures DistinctIds(Penalties(kept, conflicts))
    ensures forall j :: 0 <= j < |kept| ==> Penalties(kept, conflicts)[j].id == kept[j].id
  {
    var out := Penalties(kept, conflicts);
    assert forall j :: 0 <= j < |kept| ==> out[j].id == kept[j].id;
  }

  /** After a run, the store agrees with a returned row exactly when the row was forced (it is flagged
      and a conflict was found), or plain upsert stored it, or the older stored row happens to match. */
  lemma StoreAgreesIff(rows: Rows, kept: seq<Evidence>, redact: Redaction, i: nat)
    requires DistinctIds(kept) && i < |kept|
    ensures var out := Penalties(kept, Detect(kept));
            Agrees(Synced(rows, kept, redact), out[i]) <==>
              || (Detect(kept) != [] && out[i].conflicting)
              || kept[i].id !in rows
              || kept[i].confidence > rows[kept[i].id].confidence
              || Agrees(rows, kept[i])
  {
    var out := Penalties(kept, Detect(kept));
    UpsertRow(rows, kept, redact, i);
    PenaltiesKeepIds(kept, Detect(kept));
    if Detect(kept) != [] {
      ForceDirty(UpsertAll(rows, kept, redact), out, i);
    } else {
      assert AllIds([]) == {};
      assert out[i] == kept[i];
    }
  }

  /** The whole stored row: the redacted new one if it is new or more confident, else the old one; and the penalty and
      flag of the returned row on top of it when that row is flagged and a conflict was found. */
  lemma StoredRowIs(rows: Rows, kept: seq<Evidence>, redact: Redaction, i: nat)
    requires DistinctIds(kept) && i < |kept|
    ensures var id, after, out := kept[i].id, Synced(rows, kept, redact), Penalties(kept, Detect(kept))[i];
            var (text, entities) := redact(kept[i].text, kept[i].entities);
            var base := if id !in rows || kept[i].confidence > rows[id].confidence
                        then kept[i].(text := text, entities := entities) else rows[id];
            && id in after
            && after[id] == if Detect(kept) != [] && out.conflicting
                            then base.(confidence := out.confidence, conflicting := true) else base
  {
    UpsertRow(rows, kept, redact, i);
    PenaltiesKeepIds(kept, Detect(kept));
    if Detect(kept) != [] {
      ForceDirty(UpsertAll(rows, kept, redact), Penalties(kept, Detect(kept)), i);
    }
  }

  /** Ids that the run did not see keep their rows, or their absence. */
  lemma OtherRowsStay(rows: Rows, kept: seq<Evidence>, redact: Redaction, id: string)
    requires forall e <- kept :: e.id != id
    ensures id in Synced(rows, kept, redact) <==> id in rows
    ensures id in rows ==> Synced(rows, kept, redact)[id] == rows[id]
  {
    var out := Penalties(kept, Detect(kept));
    UpsertOther(rows, kept, redact, id);
    SelectMembers(out, IsDirty());
    forall e <- out ensures e.id != id {
      var j :| 0 <= j < |out| && out[j] == e;
      assert kept[j] in kept;
    }
    ForceOther(UpsertAll(rows, kept, redact), Select(out, IsDirty()), id);
  }

  /** Every id that was new to the store ends up with the returned confidence and flag. */
  lemma FreshRowsAgree(rows: Rows, kept: seq<Evidence>, redact: Redaction)
    requires DistinctIds(kept)
    ensures forall e <- Penalties(kept, Detect(kept)) :: e.id !in rows ==> Agrees(Synced(rows, kept, redact), e)
  {
    var out := Penalties(kept, Detect(kept));
    forall e <- out | e.id !in rows ensures Agrees(Synced(rows, kept, redact), e) {
      var i :| 0 <= i < |out| && out[i] == e;
      StoreAgreesIff(rows, kept, redact, i);
    }
  }

  /** Upserting the penalised row instead of forcing it would leave the old confidence in place. */
  lemma UpsertCannotLower(rows: Rows, e: Evidence)
    requires e.id !in rows && 0.0 < e.confidence <= 1.0
    ensures var saved := Upsert(rows, e);
            && Upsert(saved, Penalised(e)) == saved
            && !Agrees(saved, Penalised(e))
            && Agrees(Force(saved, Penalised(e)), Penalised(e))
  {}
}
