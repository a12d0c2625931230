/**
 * Six-factor risk rubric: a chosen situation band, and how a rule score lands on it.
 * Scores are `real`; rounding is not modelled.
 */
module Rubric {
  import opened Basics

  datatype Band = Band(id: string, lo: real, hi: real, center: real)
  datatype Lean = Low | Mid | High
  /** The parts of a resolved choice that landing uses. */
  datatype Choice = Choice(id: string, lean: Lean, secondary: Option<string>, lo: real, hi: real, anchor: real)
  /** A payload after trimming: blank ids are "", and a score that is absent or not a number is None. */
  datatype Payload = Payload(id: string, score: Option<real>, lean: string, secondary: string)

  function Min(a: real, b: real): real { if a <= b then a else b }
  function Max(a: real, b: real): real { if a >= b then a else b }
  function Clamp(x: real): real { Max(0.0, Min(100.0, x)) }
  function Distance(a: real, b: real): real { if a <= b then b - a else a - b }

  // ---- the table ----

  function Ids(factor: string): Option<seq<string>> {
    match factor
    case "asset_impact" =>
      Some(["unknown_or_low", "standard_workstation", "departmental_high", "finance_or_prod", "crown_jewel"])
    case "behavior_anomaly" =>
      Some(["baseline_quiet", "mild_irregular", "encoded_or_script", "archive_upload_chain", "destructive_or_exfil"])
    case "evidence_confidence" =>
      Some(["sparse_or_failed", "partial_single_source", "multi_source_incomplete", "completed_consistent",
            "high_corroborated"])
    case "attack_stage" =>
      Some(["recon_phish", "valid_account_exec", "collect_stage", "exfil_over_c2", "impact_ransom"])
    case "data_sensitivity" =>
      Some(["public_or_unknown", "internal_routine", "confidential_business", "restricted_pii",
            "bulk_exfil_classified"])
    case "threat_intel" =>
      Some(["none_or_benign", "weak_uncorroborated", "tagged_unknown_infra", "matched_technique",
            "confirmed_malicious_intel"])
    case _ => None
  }

  function Lattice(ids: seq<string>): (bands: seq<Band>)
    requires |ids| == 5
  {
    [Band(ids[0], 0.0, 30.0, 12.0), Band(ids[1], 18.0, 50.0, 34.0), Band(ids[2], 38.0, 70.0, 54.0),
     Band(ids[3], 58.0, 90.0, 74.0), Band(ids[4], 78.0, 100.0, 92.0)]
  }

  /** The index of the first band with this id. */
  function IndexOf(bands: seq<Band>, id: string): (r: Option<nat>)
    ensures r.Some? ==> r.value < |bands| && bands[r.value].id == id
    ensures r.None? <==> forall i :: 0 <= i < |bands| ==> bands[i].id != id
  {
    if bands == [] then None
    else if bands[0].id == id then Some(0)
    else
      match IndexOf(bands[1..], id)
      case None => assert forall i :: 0 < i < |bands| ==> bands[i] == bands[1..][i - 1]; None
      case Some(i) => Some(i + 1)
  }

  predicate Adjacent(i: nat, j: nat) { i == j + 1 || j == i + 1 }

  /** The closest centre, the higher one on a tie. */
  function Nearest(bands: seq<Band>, score: real): (i: nat)
    requires bands != []
    ensures i < |bands|
  {
    if |bands| == 1 then 0
    else
      var j := 1 + Nearest(bands[1..], score);
      var d0, dj := Distance(bands[0].center, score), Distance(bands[j].center, score);
      if d0 < dj || (d0 == dj && bands[0].center >= bands[j].center) then 0 else j
  }

  function CoerceLean(raw: string): Lean {
    if raw == "low" then Low else if raw == "high" then High else Mid
  }

  function LeanAnchor(b: Band, lean: Lean): real {
    match lean
    case Low => b.lo + 0.28 * (b.hi - b.lo)
    case High => b.lo + 0.72 * (b.hi - b.lo)
    case Mid => b.center
  }

  function Choose(bands: seq<Band>, i: nat, p: Payload): Choice
    requires i < |bands|
  {
    var b, lean := bands[i], CoerceLean(p.lean);
    var anchor := LeanAnchor(b, lean);
    match if p.secondary == "" then None else IndexOf(bands, p.secondary)
    case None =>
      Choice(b.id, lean, if p.secondary == "" then None else Some(p.secondary), b.lo, b.hi, Clamp(anchor))
    case Some(j) =>
      if Adjacent(i, j) then
        var s := bands[j];
        Choice(b.id, lean, Some(p.secondary), Min(b.lo, s.lo), Max(b.hi, s.hi),
               Clamp(0.7 * anchor + 0.3 * LeanAnchor(s, Mid)))
      else Choice(b.id, lean, None, b.lo, b.hi, Clamp(anchor))
  }

  function Resolve(factor: string, p: Payload): Option<Choice> {
    match Ids(factor)
    case None => None
    case Some(ids) =>
      var bands := Lattice(ids);
      match if p.id == "" then None else IndexOf(bands, p.id)
      case Some(i) => Some(Choose(bands, i, p))
      case None =>
        match p.score
        case None => None
        case Some(score) => Some(Choose(bands, Nearest(bands, Clamp(score)), p))
  }

  function Land(rule: real, c: Choice): real {
    var r := Clamp(rule);
    var merged :=
      if c.lo <= r <= c.hi then 0.35 * r + 0.65 * c.anchor
      else if r < c.lo then Min(Max(0.3 * r + 0.7 * c.anchor, c.lo), c.hi)
      else Min(Max(0.3 * r + 0.7 * c.hi, c.lo), Min(100.0, c.hi + 8.0));
    Clamp(merged)
  }

  // ---- nearest band ----

  lemma {:induction false} NearestIsClosest(bands: seq<Band>, score: real, k: nat)
    requires k < |bands|
    ensures var n := bands[Nearest(bands, score)];
            Distance(n.center, score) < Distance(bands[k].center, score)
            || (Distance(n.center, score) == Distance(bands[k].center, score) && n.center >= bands[k].center)
    decreases |bands|
  {
    if |bands| > 1 {
      NearestIsClosest(bands[1..], score, if k == 0 then 0 else k - 1);
      assert k > 0 ==> bands[k] == bands[1..][k - 1];
    }
  }

  /** A legacy score lands on the band whose neighbours' midpoints bracket it: cuts at 23, 44, 64 and 83. */
  lemma NearestCuts(ids: seq<string>, score: real)
    requires |ids| == 5
    ensures Nearest(Lattice(ids), score)
         == if score < 23.0 then 0 else if score < 44.0 then 1 else if score < 64.0 then 2
            else if score < 83.0 then 3 else 4
  {
    var bands := Lattice(ids);
    NearestIsClosest(bands, score, 0);
    NearestIsClosest(bands, score, 1);
    NearestIsClosest(bands, score, 2);
    NearestIsClosest(bands, score, 3);
    NearestIsClosest(bands, score, 4);
  }

  // ---- every resolved choice is well formed ----

  /** What every resolved choice satisfies: the anchor lies inside the interval, off its floor. */
  ghost predicate WellFormed(c: Choice) {
    && 0.0 <= c.lo < c.anchor < c.hi <= 100.0
    && c.hi - c.lo >= 22.0
    && (c.lo == 0.0 || c.lo >= 18.0)
  }

  /** An interval with its anchor strictly inside. */
  ghost predicate Sound(b: Band) {
    0.0 <= b.lo < b.center < b.hi <= 100.0 && b.hi - b.lo >= 22.0 && (b.lo == 0.0 || b.lo >= 18.0)
  }

  lemma LatticeIsSound(ids: seq<string>, i: nat)
    requires |ids| == 5 && i < 5
    ensures Sound(Lattice(ids)[i])
  {
    assert i == 0 || i == 1 || i == 2 || i == 3 || i == 4;
  }

  lemma BlendStaysInside(b: Band, s: Band, lean: Lean)
    requires Sound(b) && Sound(s)
    ensures var lo, hi := Min(b.lo, s.lo), Max(b.hi, s.hi);
            lo < 0.7 * LeanAnchor(b, lean) + 0.3 * LeanAnchor(s, Mid) < hi
    ensures b.lo < LeanAnchor(b, lean) < b.hi
  {
  }

  lemma ChooseIsWellFormed(ids: seq<string>, i: nat, p: Payload)
    requires |ids| == 5 && i < 5
    ensures WellFormed(Choose(Lattice(ids), i, p))
  {
    var bands := Lattice(ids);
    LatticeIsSound(ids, i);
    var second := IndexOf(bands, p.secondary);
    var j := if second.Some? then second.value else i;
    LatticeIsSound(ids, j);
    BlendStaysInside(bands[i], bands[j], CoerceLean(p.lean));
  }

  /** A choice comes back exactly when the factor is known and either the id is one of its bands or there is a score. */
  lemma ResolveMeaning(factor: string, p: Payload)
    ensures Resolve(factor, p).Some?
       <==> Ids(factor).Some? && ((p.id != "" && p.id in Ids(factor).value) || p.score.Some?)
    ensures Resolve(factor, p).Some? ==> WellFormed(Resolve(factor, p).value)
  {
    match Ids(factor)
    case None =>
    case Some(ids) =>
      var bands := Lattice(ids);
      assert forall k :: 0 <= k < 5 ==> bands[k].id == ids[k];
      if p.id != "" && IndexOf(bands, p.id).Some? {
        ChooseIsWellFormed(ids, IndexOf(bands, p.id).value, p);
      } else if p.score.Some? {
        ChooseIsWellFormed(ids, Nearest(bands, Clamp(p.score.value)), p);
      }
  }

  /** Only an adjacent second band moves the interval or the anchor. */
  lemma SecondaryActsIffAdjacent(ids: seq<string>, i: nat, p: Payload)
    requires |ids| == 5 && i < 5
    ensures var bands := Lattice(ids);
            var c, plain := Choose(bands, i, p), Choose(bands, i, p.(secondary := ""));
            ((c.lo, c.hi, c.anchor) != (plain.lo, plain.hi, plain.anchor)
             <==> p.secondary != "" && exists j :: IndexOf(bands, p.secondary) == Some(j) && Adjacent(i, j))
  {
    var bands := Lattice(ids);
    assert forall k :: 0 <= k < 5 ==> bands[k].lo < bands[k].center < bands[k].hi;
    if p.secondary != "" && IndexOf(bands, p.secondary).Some? {
      var j := IndexOf(bands, p.secondary).value;
      assert Adjacent(i, j) ==> bands[i].lo != bands[j].lo && (bands[i].lo < bands[j].lo <==> bands[i].hi < bands[j].hi);
    }
  }

  // ---- landing ----

  /** The landed score stays in the interval, or within eight points above it when the rule score is above it. */
  lemma LandingStaysNear(factor: string, p: Payload, c: Choice, rule: real)
    requires Resolve(factor, p) == Some(c)
    ensures Clamp(rule) <= c.hi ==> c.lo <= Land(rule, c) <= c.hi
    ensures Clamp(rule) > c.hi ==> c.hi <= Land(rule, c) <= Min(100.0, c.hi + 8.0)
  {
    ResolveMeaning(factor, p);
  }

  lemma LandOrder(r1: real, r2: real, c: Choice)
    requires WellFormed(c)
    requires r1 <= r2
    ensures Land(r1, c) - Land(r2, c) <= 0.05 * (c.anchor - c.lo)
    ensures Land(r2, c) < Land(r1, c) ==> Clamp(r1) < c.lo <= Clamp(r2) <= c.hi
  {
  }

  /** A rising rule score lowers the result only across the floor of the interval, and then by little. */
  lemma RisingRuleLosesLittle(factor: string, p: Payload, c: Choice, r1: real, r2: real)
    requires Resolve(factor, p) == Some(c)
    requires r1 <= r2
    ensures Land(r1, c) - Land(r2, c) <= 0.05 * (c.anchor - c.lo)
    ensures Land(r2, c) < Land(r1, c) ==> Clamp(r1) < c.lo <= Clamp(r2) <= c.hi
  {
    ResolveMeaning(factor, p);
    LandOrder(r1, r2, c);
  }

  /** Landing is monotone exactly for the intervals that start at zero. */
  lemma MonotoneIffFloorIsZero(factor: string, p: Payload, c: Choice)
    requires Resolve(factor, p) == Some(c)
    ensures (forall r1, r2 | r1 <= r2 :: Land(r1, c) <= Land(r2, c)) <==> c.lo == 0.0
  {
    ResolveMeaning(factor, p);
    if c.lo == 0.0 {
      forall r1: real, r2: real | r1 <= r2
        ensures Land(r1, c) <= Land(r2, c)
      {
        LandOrder(r1, r2, c);
      }
    } else {
      var below := c.lo - (c.anchor - c.lo) / 12.0;
      assert Land(below, c) > Land(c.lo, c);
    }
  }

  function Plain(b: Band, lean: Lean): Choice {
    Choice(b.id, lean, None, b.lo, b.hi, Clamp(LeanAnchor(b, lean)))
  }

  /** A choice without a second band is one of the five bands, with its own interval and lean anchor. */
  lemma ResolvesToABand(factor: string, p: Payload, c: Choice) returns (ids: seq<string>, i: nat)
    requires Resolve(factor, p) == Some(c) && p.secondary == ""
    ensures |ids| == 5 && i < 5 && c == Plain(Lattice(ids)[i], c.lean)
  {
    ids := Ids(factor).value;
    var bands := Lattice(ids);
    if p.id != "" && IndexOf(bands, p.id).Some? {
      i := IndexOf(bands, p.id).value;
    } else {
      i := Nearest(bands, Clamp(p.score.value));
    }
  }

  /** Where the low lean turns two neighbouring bands round: above the lower one's ceiling, up to the upper one's. */
  predicate Inverted(low: Band, high: Band, lean: Lean, rule: real) {
    lean == Low && low.hi < Clamp(rule) <= high.hi
  }

  lemma NeighboursLand(ids: seq<string>, i: nat, lean: Lean, rule: real)
    requires |ids| == 5 && i < 4
    ensures var low, high := Lattice(ids)[i], Lattice(ids)[i + 1];
            Land(rule, Plain(low, lean)) < Land(rule, Plain(high, lean)) <==> !Inverted(low, high, lean, rule)
  {
    assert i == 0 || i == 1 || i == 2 || i == 3;
  }

  lemma TwoApartLand(ids: seq<string>, i: nat, lean: Lean, rule: real)
    requires |ids| == 5 && i < 3
    ensures var low, high := Lattice(ids)[i], Lattice(ids)[i + 2];
            Land(rule, Plain(low, lean)) < Land(rule, Plain(high, lean))
  {
    assert i == 0 || i == 1 || i == 2;
  }

  lemma {:induction false} BandsLand(ids: seq<string>, i: nat, j: nat, lean: Lean, rule: real)
    requires |ids| == 5 && i < j < 5
    ensures var low, high := Lattice(ids)[i], Lattice(ids)[j];
            Land(rule, Plain(low, lean)) < Land(rule, Plain(high, lean))
            <==> !(j == i + 1 && Inverted(low, high, lean, rule))
  {
    if j == i + 1 {
      NeighboursLand(ids, i, lean, rule);
    } else {
      TwoApartLand(ids, i, lean, rule);
      if j == i + 3 {
        NeighboursLand(ids, i, lean, rule);
        TwoApartLand(ids, i + 1, lean, rule);
        NeighboursLand(ids, i + 2, lean, rule);
      } else if j == i + 4 {
        TwoApartLand(ids, i + 2, lean, rule);
      }
    }
  }

  /** The bands of every factor lie in the same places; they rise, and exactly neighbours overlap. */
  lemma BandsRise(ids: seq<string>, i: nat, others: seq<string>, j: nat)
    requires |ids| == 5 && |others| == 5 && i < 5 && j < 5
    ensures var b, o, same := Lattice(ids)[i], Lattice(others)[j], Lattice(ids)[j];
            && o.(id := same.id) == same
            && (b.lo < o.lo <==> i < j)
            && (i < j ==> (o.lo < b.hi <==> j == i + 1))
  {
    assert i == 0 || i == 1 || i == 2 || i == 3 || i == 4;
    assert j == 0 || j == 1 || j == 2 || j == 3 || j == 4;
  }

  lemma PlainsLand(ids: seq<string>, i: nat, others: seq<string>, j: nat, low: Choice, high: Choice, rule: real)
    requires |ids| == 5 && |others| == 5 && i < 5 && j < 5
    requires low == Plain(Lattice(ids)[i], low.lean) && high == Plain(Lattice(others)[j], low.lean) && low.lo < high.lo
    ensures Land(rule, low) < Land(rule, high)
       <==> !(low.lean == Low && high.lo < low.hi < Clamp(rule) <= high.hi)
  {
    BandsRise(ids, i, others, j);
    BandsLand(ids, i, j, low.lean, rule);
    assert Land(rule, high) == Land(rule, Plain(Lattice(ids)[j], low.lean));
  }

  /**
   * Of two choices with one lean and no second band, for whatever factors, the one with the higher band gets the
   * strictly higher score for every rule score, except, exactly, for the low lean on overlapping bands with the rule
   * score above the lower ceiling and up to the upper one.
   */
  lemma HigherBandScoresHigher(f: string, p: Payload, low: Choice, g: string, q: Payload, high: Choice, rule: real)
    requires Resolve(f, p) == Some(low) && p.secondary == ""
    requires Resolve(g, q) == Some(high) && q.secondary == ""
    requires low.lean == high.lean && low.lo < high.lo
    ensures Land(rule, low) < Land(rule, high)
       <==> !(low.lean == Low && high.lo < low.hi < Clamp(rule) <= high.hi)
  {
    var ids, i := ResolvesToABand(f, p, low);
    var others, j := ResolvesToABand(g, q, high);
    PlainsLand(ids, i, others, j, low, high, rule);
  }

  // ---- the numbers ----

  const FLOORS: seq<real> := [0.0, 18.0, 38.0, 58.0, 78.0]
  const CEILINGS: seq<real> := [30.0, 50.0, 70.0, 90.0, 100.0]
  const CENTRES: seq<real> := [12.0, 34.0, 54.0, 74.0, 92.0]

  /** Where each lean sits in each band. */
  function Anchors(lean: Lean): (a: seq<real>)
    ensures |a| == 5
  {
    match lean
    case Low => [8.4, 26.96, 46.96, 66.96, 84.16]
    case Mid => CENTRES
    case High => [21.6, 41.04, 61.04, 81.04, 93.84]
  }

  function LeanNamed(raw: string): Lean {
    match raw case "low" => Low case "high" => High case _ => Mid
  }

  lemma BandNumbers(ids: seq<string>, i: nat, lean: Lean)
    requires |ids| == 5 && i < 5
    ensures Lattice(ids)[i] == Band(ids[i], FLOORS[i], CEILINGS[i], CENTRES[i])
    ensures Clamp(LeanAnchor(Lattice(ids)[i], lean)) == LeanAnchor(Lattice(ids)[i], lean) == Anchors(lean)[i]
  {
    assert i == 0 || i == 1 || i == 2 || i == 3 || i == 4;
  }

  /** The second band as the payload names it: known and next to the first, known and not next to it, or unknown. */
  lemma ChoiceNumbers(ids: seq<string>, i: nat, p: Payload)
    requires |ids| == 5 && i < 5
    ensures var c, lean := Choose(Lattice(ids), i, p), LeanNamed(p.lean);
            && c.id == ids[i] && c.lean == lean
            && (p.secondary == "" || IndexOf(Lattice(ids), p.secondary).None? ==>
                  && c.lo == FLOORS[i] && c.hi == CEILINGS[i] && c.anchor == Anchors(lean)[i]
                  && c.secondary == if p.secondary == "" then None else Some(p.secondary))
  {
    BandNumbers(ids, i, CoerceLean(p.lean));
  }

  /** Two adjacent bands: the interval spans both, and the anchor divides the way from the first anchor to the second
      centre as three to seven. A band that is not adjacent is dropped. */
  lemma BlendNumbers(ids: seq<string>, i: nat, p: Payload, j: nat)
    requires |ids| == 5 && i < 5 && p.secondary != "" && IndexOf(Lattice(ids), p.secondary) == Some(j)
    ensures j < 5
    ensures var c, a := Choose(Lattice(ids), i, p), Anchors(LeanNamed(p.lean))[i];
            if j == i + 1 || i == j + 1 then
              && c.lo == FLOORS[if i < j then i else j] && c.hi == CEILINGS[if i < j then j else i]
              && 7.0 * (c.anchor - a) == 3.0 * (CENTRES[j] - c.anchor)
              && c.secondary == Some(p.secondary)
            else c.lo == FLOORS[i] && c.hi == CEILINGS[i] && c.anchor == a && c.secondary == None
  {
    BandNumbers(ids, i, CoerceLean(p.lean));
    BandNumbers(ids, j, Mid);
    if Adjacent(i, j) {
      BlendInRange(i, j, CoerceLean(p.lean));
    }
  }

  lemma BlendInRange(i: nat, j: nat, lean: Lean)
    requires i < 5 && j < 5
    ensures 0.0 <= 0.7 * Anchors(lean)[i] + 0.3 * CENTRES[j] <= 100.0
  {
    assert 0.0 <= Anchors(lean)[i] <= 100.0 by {
      assert i == 0 || i == 1 || i == 2 || i == 3 || i == 4;
    }
    assert 0.0 <= CENTRES[j] <= 100.0 by {
      assert j == 0 || j == 1 || j == 2 || j == 3 || j == 4;
    }
  }

  /** Each factor's ids are distinct, so an id picks its own band. */
  lemma IdPicksItsBand(factor: string, i: nat, p: Payload)
    requires Ids(factor).Some? && i < 5 && p.id == Ids(factor).value[i]
    ensures Resolve(factor, p) == Some(Choose(Lattice(Ids(factor).value), i, p))
  {
    var ids := Ids(factor).value;
    IdsDistinct(factor);
    var found := IndexOf(Lattice(ids), p.id);
    assert Lattice(ids)[i].id == p.id;
    assert found.Some? && ids[found.value] == ids[i];
  }

  lemma IdsDistinct(factor: string)
    requires Ids(factor).Some?
    ensures forall i, j :: 0 <= i < j < 5 ==> Ids(factor).value[i] != Ids(factor).value[j]
    ensures "" !in Ids(factor).value
  {
    forall i, j | 0 <= i < j < 5
      ensures Ids(factor).value[i] != Ids(factor).value[j]
    {
      IdsNameTheirPlace(factor, i);
      IdsNameTheirPlace(factor, j);
    }
    forall i | 0 <= i < 5
      ensures Ids(factor).value[i] != ""
    {
      IdsNameTheirPlace(factor, i);
    }
  }

  /** The factor and place a band id stands for. */
  function PlaceOf(id: string): Option<(string, nat)> {
    match id
    case "unknown_or_low" => Some(("asset_impact", 0))
    case "standard_workstation" => Some(("asset_impact", 1))
    case "departmental_high" => Some(("asset_impact", 2))
    case "finance_or_prod" => Some(("asset_impact", 3))
    case "crown_jewel" => Some(("asset_impact", 4))
    case "baseline_quiet" => Some(("behavior_anomaly", 0))
    case "mild_irregular" => Some(("behavior_anomaly", 1))
    case "encoded_or_script" => Some(("behavior_anomaly", 2))
    case "archive_upload_chain" => Some(("behavior_anomaly", 3))
    case "destructive_or_exfil" => Some(("behavior_anomaly", 4))
    case "sparse_or_failed" => Some(("evidence_confidence", 0))
    case "partial_single_source" => Some(("evidence_confidence", 1))
    case "multi_source_incomplete" => Some(("evidence_confidence", 2))
    case "completed_consistent" => Some(("evidence_confidence", 3))
    case "high_corroborated" => Some(("evidence_confidence", 4))
    case "recon_phish" => Some(("attack_stage", 0))
    case "valid_account_exec" => Some(("attack_stage", 1))
    case "collect_stage" => Some(("attack_stage", 2))
    case "exfil_over_c2" => Some(("attack_stage", 3))
    case "impact_ransom" => Some(("attack_stage", 4))
    case "public_or_unknown" => Some(("data_sensitivity", 0))
    case "internal_routine" => Some(("data_sensitivity", 1))
    case "confidential_business" => Some(("data_sensitivity", 2))
    case "restricted_pii" => Some(("data_sensitivity", 3))
    case "bulk_exfil_classified" => Some(("data_sensitivity", 4))
    case "none_or_benign" => Some(("threat_intel", 0))
    case "weak_uncorroborated" => Some(("threat_intel", 1))
    case "tagged_unknown_infra" => Some(("threat_intel", 2))
    case "matched_technique" => Some(("threat_intel", 3))
    case "confirmed_malicious_intel" => Some(("threat_intel", 4))
    case _ => None
  }

  /** Every id of the table names one factor and one place, and is found there. */
  lemma IdsNameTheirPlace(factor: string, i: nat)
    requires Ids(factor).Some? && i < 5
    ensures PlaceOf(Ids(factor).value[i]) == Some((factor, i))
  {
    assert i == 0 || i == 1 || i == 2 || i == 3 || i == 4;
  }

  /** Where a rule score lands: inside the interval it is drawn to the anchor, thirteen parts to seven; below it seven
      parts to three, but not under the floor; above it three tenths of the excess stay, at most eight points. */
  lemma LandingNumbers(factor: string, p: Payload, c: Choice, rule: real)
    requires Resolve(factor, p) == Some(c)
    ensures var r, s := if rule < 0.0 then 0.0 else if rule > 100.0 then 100.0 else rule, Land(rule, c);
            && (c.lo <= r <= c.hi ==> 13.0 * (s - c.anchor) == 7.0 * (r - s))
            && (r < c.lo ==> 7.0 * (s - c.anchor) == 3.0 * (r - s) || (s == c.lo && 3.0 * r + 7.0 * c.anchor <= 10.0 * c.lo))
            && (r > c.hi ==> s - c.hi == if 0.3 * (r - c.hi) <= 8.0 then 0.3 * (r - c.hi) else 8.0)
  {
    ResolveMeaning(factor, p);
    LandValue(rule, c);
  }

  lemma LandValue(rule: real, c: Choice)
    requires WellFormed(c)
    ensures var r, s := Clamp(rule), Land(rule, c);
            && (c.lo <= r <= c.hi ==> s == 0.35 * r + 0.65 * c.anchor)
            && (r < c.lo ==> s == Max(0.3 * r + 0.7 * c.anchor, c.lo))
            && (r > c.hi ==> s == c.hi + Min(0.3 * (r - c.hi), 8.0))
  {
  }
}
