/** The conflict detector: three cross-source rules and the confidence penalty. */
module Conflicts {
  import opened Basics
  import opened Sequences
  import opened Evidence

  datatype Rule = IamAbsentButEdrActive | NetworkSilentButUpload | AssetIsolatedButEdrActive

  datatype Conflict = Conflict(rule: Rule, ids: seq<string>)

  function From(source: Source): Evidence -> bool {
    (e: Evidence) => e.source == source
  }

  /** The ids of `rows` without repetition, in order of first appearance. */
  function IdsOf(rows: seq<Evidence>): seq<string> {
    if rows == [] then []
    else
      var before, id := IdsOf(rows[..|rows| - 1]), rows[|rows| - 1].id;
      if id in before then before else before + [id]
  }

  // ---- IAM shows no successful login, EDR shows activity of the account ----

  predicate IsAbsent(e: Evidence) {
    !e.signals.loginOk && e.signals.loginAbsent
  }

  function AbsentFor(account: string): Evidence -> bool {
    (e: Evidence) => e.signals.account == Some(account) && IsAbsent(e)
  }

  predicate LoggedIn(identity: seq<Evidence>, account: string) {
    exists i <- identity :: i.signals.account == Some(account) && i.signals.loginOk
  }

  function IamConflict(identity: seq<Evidence>): Evidence -> seq<Conflict> {
    (e: Evidence) =>
      if !e.signals.process || e.signals.account.None? then []
      else
        var account := e.signals.account.value;
        var absent := Select(identity, AbsentFor(account));
        if LoggedIn(identity, account) || absent == [] then []
        else [Conflict(IamAbsentButEdrActive, IdsOf(absent + [e]))]
  }

  function RuleIam(identity: seq<Evidence>, endpoint: seq<Evidence>): seq<Conflict> {
    Flat(endpoint, IamConflict(identity))
  }

  // ---- the network is silent, data security shows an upload ----

  const IS_SILENT := (e: Evidence) => e.signals.silent
  const IS_UPLOAD := (e: Evidence) => e.signals.upload

  predicate AnyExternal(network: seq<Evidence>) {
    exists n <- network :: n.signals.externalFlow
  }

  function SilentPart(network: seq<Evidence>): seq<Evidence> {
    var silent := Select(network, IS_SILENT);
    if silent != [] then silent else network
  }

  function Uploads(dlp: seq<Evidence>): seq<Evidence> {
    Select(dlp, IS_UPLOAD)
  }

  function RuleNetwork(network: seq<Evidence>, dlp: seq<Evidence>): seq<Conflict> {
    if Uploads(dlp) == [] || AnyExternal(network) then []
    else [Conflict(NetworkSilentButUpload, IdsOf(SilentPart(network) + Uploads(dlp)))]
  }

  // ---- an asset is isolated, EDR shows activity on its host ----

  predicate SharesHost(a: Evidence, b: Evidence) {
    a.signals.hosts * b.signals.hosts != {}
  }

  function ActiveOn(asset: Evidence): Evidence -> bool {
    (e: Evidence) => e.signals.process && SharesHost(asset, e)
  }

  function AssetConflict(endpoint: seq<Evidence>): Evidence -> seq<Conflict> {
    (a: Evidence) =>
      var active := Select(endpoint, ActiveOn(a));
      if !a.signals.isolated || active == [] then []
      else [Conflict(AssetIsolatedButEdrActive, IdsOf([a] + active))]
  }

  function RuleAsset(assets: seq<Evidence>, endpoint: seq<Evidence>): seq<Conflict> {
    Flat(assets, AssetConflict(endpoint))
  }

  function Detect(rows: seq<Evidence>): seq<Conflict> {
    RuleIam(Select(rows, From(Identity)), Select(rows, From(Endpoint)))
    + RuleNetwork(Select(rows, From(NetworkFlow)), Select(rows, From(DataSecurity)))
    + RuleAsset(Select(rows, From(Asset)), Select(rows, From(Endpoint)))
  }

  ghost predicate Names(conflicts: seq<Conflict>, id: string) {
    exists c :: c in conflicts && id in c.ids
  }

  // ---- the reference: which rows take part in a contradiction ----

  /** All that the rules look at in a row. */
  datatype Facet = Facet(id: string, source: Source, signals: Signals)

  function FacetOf(e: Evidence): Facet {
    Facet(e.id, e.source, e.signals)
  }

  ghost function Facets(rows: seq<Evidence>): set<Facet> {
    set e | e in rows :: FacetOf(e)
  }

  ghost predicate Ghosted(fs: set<Facet>, account: string) {
    && (exists i <- fs :: i.source == Identity && i.signals.account == Some(account)
                          && !i.signals.loginOk && i.signals.loginAbsent)
    && (exists p <- fs :: p.source == Endpoint && p.signals.account == Some(account) && p.signals.process)
    && !exists i <- fs :: i.source == Identity && i.signals.account == Some(account) && i.signals.loginOk
  }

  ghost predicate InIam(fs: set<Facet>, f: Facet) {
    && f.signals.account.Some? && Ghosted(fs, f.signals.account.value)
    && ((f.source == Endpoint && f.signals.process)
        || (f.source == Identity && !f.signals.loginOk && f.signals.loginAbsent))
  }

  ghost predicate InNetwork(fs: set<Facet>, f: Facet) {
    && (exists u <- fs :: u.source == DataSecurity && u.signals.upload)
    && (!exists n <- fs :: n.source == NetworkFlow && n.signals.externalFlow)
    && ((f.source == DataSecurity && f.signals.upload)
        || (f.source == NetworkFlow
            && (f.signals.silent || !exists n <- fs :: n.source == NetworkFlow && n.signals.silent)))
  }

  ghost predicate Clashes(a: Facet, p: Facet) {
    && a.source == Asset && a.signals.isolated
    && p.source == Endpoint && p.signals.process
    && a.signals.hosts * p.signals.hosts != {}
  }

  ghost predicate InAsset(fs: set<Facet>, f: Facet) {
    (exists p <- fs :: Clashes(f, p)) || (exists a <- fs :: Clashes(a, f))
  }

  ghost predicate Contradicted(fs: set<Facet>, id: string) {
    exists f <- fs :: f.id == id && (InIam(fs, f) || InNetwork(fs, f) || InAsset(fs, f))
  }

  // ---- the rules find exactly those rows ----

  lemma {:induction false} IdsMembers(rows: seq<Evidence>, id: string)
    ensures id in IdsOf(rows) <==> exists e :: e in rows && e.id == id
  {
    if rows != [] {
      IdsMembers(rows[..|rows| - 1], id);
      assert rows == rows[..|rows| - 1] + [rows[|rows| - 1]];
    }
  }

  lemma IamNames(rows: seq<Evidence>, id: string)
    ensures Names(RuleIam(Select(rows, From(Identity)), Select(rows, From(Endpoint))), id)
        <==> exists f <- Facets(rows) :: f.id == id && InIam(Facets(rows), f)
  {
    var fs := Facets(rows);
    var identity, endpoint := Select(rows, From(Identity)), Select(rows, From(Endpoint));
    SelectMembers(rows, From(Identity));
    SelectMembers(rows, From(Endpoint));
    if Names(RuleIam(identity, endpoint), id) {
      var c :| c in RuleIam(identity, endpoint) && id in c.ids;
      IamSound(rows, c, id);
    }
    if exists f <- fs :: f.id == id && InIam(fs, f) {
      var f :| f in fs && f.id == id && InIam(fs, f);
      IamComplete(rows, f);
    }
  }

  lemma FacetsOfSource(rows: seq<Evidence>, source: Source)
    ensures forall e <- Select(rows, From(source)) :: e in rows && e.source == source && FacetOf(e) in Facets(rows)
    ensures forall f <- Facets(rows) :: f.source == source ==> exists e <- Select(rows, From(source)) :: FacetOf(e) == f
  {
    SelectMembers(rows, From(source));
    forall f <- Facets(rows) | f.source == source
      ensures exists e <- Select(rows, From(source)) :: FacetOf(e) == f
    {
      var e :| e in rows && FacetOf(e) == f;
      assert e in Select(rows, From(source));
    }
  }

  lemma LoggedInMeans(rows: seq<Evidence>, account: string)
    ensures LoggedIn(Select(rows, From(Identity)), account) <==>
            exists i <- Facets(rows) :: i.source == Identity && i.signals.account == Some(account) && i.signals.loginOk
  {
    FacetsOfSource(rows, Identity);
    if LoggedIn(Select(rows, From(Identity)), account) {
      var i :| i in Select(rows, From(Identity)) && i.signals.account == Some(account) && i.signals.loginOk;
      assert FacetOf(i) in Facets(rows);
    }
  }

  lemma AbsentMeans(rows: seq<Evidence>, account: string)
    ensures Select(Select(rows, From(Identity)), AbsentFor(account)) != [] <==>
            exists i <- Facets(rows) :: i.source == Identity && i.signals.account == Some(account)
                                        && !i.signals.loginOk && i.signals.loginAbsent
  {
    var identity := Select(rows, From(Identity));
    var absent := Select(identity, AbsentFor(account));
    FacetsOfSource(rows, Identity);
    SelectMembers(identity, AbsentFor(account));
    if absent != [] {
      assert absent[0] in absent;
      assert FacetOf(absent[0]) in Facets(rows);
    }
  }

  lemma IamSound(rows: seq<Evidence>, c: Conflict, id: string)
    requires c in RuleIam(Select(rows, From(Identity)), Select(rows, From(Endpoint))) && id in c.ids
    ensures exists f <- Facets(rows) :: f.id == id && InIam(Facets(rows), f)
  {
    var identity, endpoint := Select(rows, From(Identity)), Select(rows, From(Endpoint));
    FlatMembers(endpoint, IamConflict(identity), c);
    var p :| p in endpoint && c in IamConflict(identity)(p);
    var account := p.signals.account.value;
    LoggedInMeans(rows, account);
    AbsentMeans(rows, account);
    FacetsOfSource(rows, Endpoint);
    assert Ghosted(Facets(rows), account) by { assert FacetOf(p) in Facets(rows); }
    IamInvolved(rows, p, account, id);
  }

  lemma IamInvolved(rows: seq<Evidence>, p: Evidence, account: string, id: string)
    requires p in Select(rows, From(Endpoint)) && p.signals.process && p.signals.account == Some(account)
    requires Ghosted(Facets(rows), account)
    requires id in IdsOf(Select(Select(rows, From(Identity)), AbsentFor(account)) + [p])
    ensures exists f <- Facets(rows) :: f.id == id && InIam(Facets(rows), f)
  {
    var identity := Select(rows, From(Identity));
    var absent := Select(identity, AbsentFor(account));
    SelectMembers(identity, AbsentFor(account));
    SelectMembers(rows, From(Identity));
    SelectMembers(rows, From(Endpoint));
    IdsMembers(absent + [p], id);
    var e :| e in absent + [p] && e.id == id;
    assert e in absent || e == p;
    assert FacetOf(e) in Facets(rows) && InIam(Facets(rows), FacetOf(e));
  }

  lemma IamComplete(rows: seq<Evidence>, f: Facet)
    requires f in Facets(rows) && InIam(Facets(rows), f)
    ensures Names(RuleIam(Select(rows, From(Identity)), Select(rows, From(Endpoint))), f.id)
  {
    var fs := Facets(rows);
    var identity, endpoint := Select(rows, From(Identity)), Select(rows, From(Endpoint));
    var account := f.signals.account.value;
    LoggedInMeans(rows, account);
    AbsentMeans(rows, account);
    FacetsOfSource(rows, Endpoint);
    var g :| g in fs && g.source == Endpoint && g.signals.account == Some(account) && g.signals.process
             && (f.source == Endpoint ==> g == f);
    var p :| p in endpoint && FacetOf(p) == g;
    var absent := Select(identity, AbsentFor(account));
    var c := Conflict(IamAbsentButEdrActive, IdsOf(absent + [p]));
    assert IamConflict(identity)(p) == [c];
    FlatMembers(endpoint, IamConflict(identity), c);
    IamListed(rows, f, p, account);
    assert c in RuleIam(identity, endpoint);
  }

  lemma IamListed(rows: seq<Evidence>, f: Facet, p: Evidence, account: string)
    requires f in Facets(rows) && InIam(Facets(rows), f) && f.signals.account == Some(account)
    requires f.source == Endpoint ==> FacetOf(p) == f
    ensures f.id in IdsOf(Select(Select(rows, From(Identity)), AbsentFor(account)) + [p])
  {
    var absent := Select(Select(rows, From(Identity)), AbsentFor(account));
    IdsMembers(absent + [p], f.id);
    if f.source == Endpoint {
      assert p in absent + [p];
    } else {
      FacetsOfSource(rows, Identity);
      SelectMembers(Select(rows, From(Identity)), AbsentFor(account));
      var e :| e in Select(rows, From(Identity)) && FacetOf(e) == f;
      assert e in absent + [p];
    }
  }

  lemma NetworkNames(rows: seq<Evidence>, id: string)
    ensures Names(RuleNetwork(Select(rows, From(NetworkFlow)), Select(rows, From(DataSecurity))), id)
        <==> exists f <- Facets(rows) :: f.id == id && InNetwork(Facets(rows), f)
  {
    var fs := Facets(rows);
    var network, dlp := Select(rows, From(NetworkFlow)), Select(rows, From(DataSecurity));
    UploadsMean(rows);
    ExternalMeans(rows);
    IdsMembers(SilentPart(network) + Uploads(dlp), id);
    if Uploads(dlp) != [] && !AnyExternal(network) {
      var c := Conflict(NetworkSilentButUpload, IdsOf(SilentPart(network) + Uploads(dlp)));
      assert RuleNetwork(network, dlp) == [c];
      assert Names([c], id) <==> id in c.ids;
      NetworkRows(rows, id);
    }
  }

  lemma UploadsMean(rows: seq<Evidence>)
    ensures Uploads(Select(rows, From(DataSecurity))) != [] <==>
            exists u <- Facets(rows) :: u.source == DataSecurity && u.signals.upload
  {
    var dlp := Select(rows, From(DataSecurity));
    FacetsOfSource(rows, DataSecurity);
    SelectMembers(dlp, (e: Evidence) => e.signals.upload);
    if Uploads(dlp) != [] {
      assert Uploads(dlp)[0] in Uploads(dlp);
      assert FacetOf(Uploads(dlp)[0]) in Facets(rows);
    }
  }

  lemma ExternalMeans(rows: seq<Evidence>)
    ensures AnyExternal(Select(rows, From(NetworkFlow))) <==>
            exists n <- Facets(rows) :: n.source == NetworkFlow && n.signals.externalFlow
  {
    FacetsOfSource(rows, NetworkFlow);
    if AnyExternal(Select(rows, From(NetworkFlow))) {
      var n :| n in Select(rows, From(NetworkFlow)) && n.signals.externalFlow;
      assert FacetOf(n) in Facets(rows);
    }
  }

  lemma SilentMeans(rows: seq<Evidence>, e: Evidence)
    ensures e in SilentPart(Select(rows, From(NetworkFlow))) <==>
            && e in rows && e.source == NetworkFlow
            && (e.signals.silent || !exists n <- Facets(rows) :: n.source == NetworkFlow && n.signals.silent)
  {
    var network := Select(rows, From(NetworkFlow));
    var silent := Select(network, IS_SILENT);
    SelectMembers(rows, From(NetworkFlow));
    FacetsOfSource(rows, NetworkFlow);
    SelectMembers(network, IS_SILENT);
    if silent != [] {
      assert silent[0] in silent;
      assert FacetOf(silent[0]) in Facets(rows);
    }
  }

  lemma UploadMeans(rows: seq<Evidence>, e: Evidence)
    ensures e in Uploads(Select(rows, From(DataSecurity))) <==> e in rows && e.source == DataSecurity && e.signals.upload
  {
    SelectMembers(rows, From(DataSecurity));
    SelectMembers(Select(rows, From(DataSecurity)), IS_UPLOAD);
  }

  lemma NetworkRow(rows: seq<Evidence>, e: Evidence)
    requires exists u <- Facets(rows) :: u.source == DataSecurity && u.signals.upload
    requires !exists n <- Facets(rows) :: n.source == NetworkFlow && n.signals.externalFlow
    ensures e in SilentPart(Select(rows, From(NetworkFlow))) + Uploads(Select(rows, From(DataSecurity)))
        <==> e in rows && InNetwork(Facets(rows), FacetOf(e))
  {
    SilentMeans(rows, e);
    UploadMeans(rows, e);
  }

  lemma NetworkRows(rows: seq<Evidence>, id: string)
    requires exists u <- Facets(rows) :: u.source == DataSecurity && u.signals.upload
    requires !exists n <- Facets(rows) :: n.source == NetworkFlow && n.signals.externalFlow
    ensures (exists e :: e in SilentPart(Select(rows, From(NetworkFlow))) + Uploads(Select(rows, From(DataSecurity)))
                         && e.id == id)
        <==> exists f <- Facets(rows) :: f.id == id && InNetwork(Facets(rows), f)
  {
    var involved := SilentPart(Select(rows, From(NetworkFlow))) + Uploads(Select(rows, From(DataSecurity)));
    var fs := Facets(rows);
    if e: Evidence :| e in involved && e.id == id {
      NetworkRow(rows, e);
      assert FacetOf(e) in fs;
    }
    if f :| f in fs && f.id == id && InNetwork(fs, f) {
      var e :| e in rows && FacetOf(e) == f;
      NetworkRow(rows, e);
    }
  }

  lemma AssetNames(rows: seq<Evidence>, id: string)
    ensures Names(RuleAsset(Select(rows, From(Asset)), Select(rows, From(Endpoint))), id)
        <==> exists f <- Facets(rows) :: f.id == id && InAsset(Facets(rows), f)
  {
    var fs := Facets(rows);
    var assets, endpoint := Select(rows, From(Asset)), Select(rows, From(Endpoint));
    if Names(RuleAsset(assets, endpoint), id) {
      var c :| c in RuleAsset(assets, endpoint) && id in c.ids;
      AssetSound(rows, c, id);
    }
    if exists f <- fs :: f.id == id && InAsset(fs, f) {
      var f :| f in fs && f.id == id && InAsset(fs, f);
      if p :| p in fs && Clashes(f, p) {
        AssetComplete(rows, f, p);
      } else {
        var a :| a in fs && Clashes(a, f);
        AssetComplete(rows, a, f);
      }
    }
  }

  lemma SourceRow(rows: seq<Evidence>, source: Source, e: Evidence)
    ensures e in Select(rows, From(source)) <==> e in rows && e.source == source
    ensures e in rows ==> FacetOf(e) in Facets(rows)
  {
    SelectMembers(rows, From(source));
  }

  /** An isolated asset and an active row on one of its hosts. */
  ghost predicate ActivePair(rows: seq<Evidence>, a: Evidence, p: Evidence) {
    && a in Select(rows, From(Asset)) && a.signals.isolated
    && p in Select(Select(rows, From(Endpoint)), ActiveOn(a))
  }

  lemma PairClashes(rows: seq<Evidence>, a: Evidence, p: Evidence)
    requires ActivePair(rows, a, p)
    ensures FacetOf(a) in Facets(rows) && FacetOf(p) in Facets(rows) && Clashes(FacetOf(a), FacetOf(p))
  {
    SelectMembers(Select(rows, From(Endpoint)), ActiveOn(a));
    SourceRow(rows, Asset, a);
    SourceRow(rows, Endpoint, p);
  }

  lemma AssetRowSound(rows: seq<Evidence>, a: Evidence, active: seq<Evidence>, id: string)
    requires a in Select(rows, From(Asset)) && a.signals.isolated
    requires active == Select(Select(rows, From(Endpoint)), ActiveOn(a)) && active != []
    requires id in IdsOf([a] + active)
    ensures exists f <- Facets(rows) :: f.id == id && InAsset(Facets(rows), f)
  {
    IdsMembers([a] + active, id);
    var e :| e in [a] + active && e.id == id;
    var p := if e == a then active[0] else e;
    PairClashes(rows, a, p);
    assert InAsset(Facets(rows), FacetOf(a)) && InAsset(Facets(rows), FacetOf(p));
  }

  lemma AssetSound(rows: seq<Evidence>, c: Conflict, id: string)
    requires c in RuleAsset(Select(rows, From(Asset)), Select(rows, From(Endpoint))) && id in c.ids
    ensures exists f <- Facets(rows) :: f.id == id && InAsset(Facets(rows), f)
  {
    var assets, endpoint := Select(rows, From(Asset)), Select(rows, From(Endpoint));
    FlatMembers(assets, AssetConflict(endpoint), c);
    var a :| a in assets && c in AssetConflict(endpoint)(a);
    AssetRowSound(rows, a, Select(endpoint, ActiveOn(a)), id);
  }

  lemma PairIsNamed(rows: seq<Evidence>, a: Evidence, p: Evidence)
    requires ActivePair(rows, a, p)
    ensures var found := RuleAsset(Select(rows, From(Asset)), Select(rows, From(Endpoint)));
            Names(found, a.id) && Names(found, p.id)
  {
    var assets, endpoint := Select(rows, From(Asset)), Select(rows, From(Endpoint));
    var active := Select(endpoint, ActiveOn(a));
    var c := Conflict(AssetIsolatedButEdrActive, IdsOf([a] + active));
    assert AssetConflict(endpoint)(a) == [c];
    FlatMembers(assets, AssetConflict(endpoint), c);
    IdsMembers([a] + active, a.id);
    IdsMembers([a] + active, p.id);
    assert a in [a] + active && p in [a] + active;
  }

  lemma AssetComplete(rows: seq<Evidence>, fa: Facet, fp: Facet)
    requires fa in Facets(rows) && fp in Facets(rows) && Clashes(fa, fp)
    ensures var found := RuleAsset(Select(rows, From(Asset)), Select(rows, From(Endpoint)));
            Names(found, fa.id) && Names(found, fp.id)
  {
    var a :| a in rows && FacetOf(a) == fa;
    var p :| p in rows && FacetOf(p) == fp;
    SourceRow(rows, Asset, a);
    SourceRow(rows, Endpoint, p);
    SelectMembers(Select(rows, From(Endpoint)), ActiveOn(a));
    PairIsNamed(rows, a, p);
  }

  /** The three rules name exactly the rows that take part in a contradiction. */
  lemma DetectFindsContradictions(rows: seq<Evidence>, id: string)
    ensures Names(Detect(rows), id) <==> Contradicted(Facets(rows), id)
  {
    var a := RuleIam(Select(rows, From(Identity)), Select(rows, From(Endpoint)));
    var b := RuleNetwork(Select(rows, From(NetworkFlow)), Select(rows, From(DataSecurity)));
    var c := RuleAsset(Select(rows, From(Asset)), Select(rows, From(Endpoint)));
    NamesAppend(a + b, c, id);
    NamesAppend(a, b, id);
    IamNames(rows, id);
    NetworkNames(rows, id);
    AssetNames(rows, id);
  }

  lemma NamesAppend(a: seq<Conflict>, b: seq<Conflict>, id: string)
    ensures Names(a + b, id) <==> Names(a, id) || Names(b, id)
  {
    if Names(a, id) {
      var c :| c in a && id in c.ids;
      assert c in a + b;
    }
    if Names(b, id) {
      var c :| c in b && id in c.ids;
      assert c in a + b;
    }
  }

  // ---- the penalty ----

  const PENALTY: real := 0.7

  function Clamped(x: real): real {
    if x < 0.0 then 0.0 else if x > 1.0 then 1.0 else x
  }

  function Penalised(e: Evidence): Evidence {
    e.(confidence := Clamped(e.confidence * PENALTY), conflicting := true)
  }

  function AllIds(conflicts: seq<Conflict>): set<string> {
    set c, id | c in conflicts && id in c.ids :: id
  }

  function PenaltyFor(ids: set<string>): Evidence -> Evidence {
    (e: Evidence) => if e.id in ids then Penalised(e) else e
  }

  function Penalties(rows: seq<Evidence>, conflicts: seq<Conflict>): seq<Evidence> {
    Image(rows, PenaltyFor(AllIds(conflicts)))
  }

  method ApplyPenalties(rows: seq<Evidence>, conflicts: seq<Conflict>) returns (out: seq<Evidence>)
    ensures out == Penalties(rows, conflicts)
  {
    var ids: set<string> := {};
    for k := 0 to |conflicts|
      invariant ids == AllIds(conflicts[..k])
    {
      assert conflicts[..k + 1] == conflicts[..k] + [conflicts[k]];
      ids := ids + set id | id in conflicts[k].ids;
    }
    assert conflicts[..|conflicts|] == conflicts;
    if ids == {} {
      assert Penalties(rows, conflicts) == rows;
      return rows;
    }
    out := [];
    for k := 0 to |rows|
      invariant out == Image(rows[..k], PenaltyFor(ids))
    {
      var item := rows[k];
      if item.id !in ids {
        out := out + [item];
      } else {
        out := out + [item.(confidence := Clamped(item.confidence * PENALTY), conflicting := true)];
      }
    }
    assert rows[..|rows|] == rows;
  }

  /** One pass multiplies by 0.7 exactly once the confidence of exactly the contradicted rows, however
      many conflicts name them, and leaves every other row, the order and the length alone. */
  lemma OnePenaltyPerContradictedRow(rows: seq<Evidence>)
    requires forall e <- rows :: 0.0 <= e.confidence <= 1.0
    ensures var out := Penalties(rows, Detect(rows));
            && |out| == |rows|
            && forall i :: 0 <= i < |rows| ==>
                 out[i] == if Contradicted(Facets(rows), rows[i].id)
                           then rows[i].(confidence := rows[i].confidence * 0.7, conflicting := true)
                           else rows[i]
  {
    forall i | 0 <= i < |rows|
      ensures Penalties(rows, Detect(rows))[i] == if Contradicted(Facets(rows), rows[i].id)
                           then rows[i].(confidence := rows[i].confidence * 0.7, conflicting := true)
                           else rows[i]
    {
      DetectFindsContradictions(rows, rows[i].id);
      assert rows[i] in rows;
      assert rows[i].id in AllIds(Detect(rows)) <==> Names(Detect(rows), rows[i].id);
    }
  }

  /** Neither the order of the rows nor penalties already applied change who is penalised. */
  lemma PenalisedIdsStable(rows: seq<Evidence>, other: seq<Evidence>, earlier: set<string>)
    requires multiset(other) == multiset(Image(rows, PenaltyFor(earlier)))
    ensures AllIds(Detect(other)) == AllIds(Detect(rows))
  {
    SameFacets(rows, other, earlier);
    forall id ensures id in AllIds(Detect(other)) <==> id in AllIds(Detect(rows)) {
      DetectFindsContradictions(rows, id);
      DetectFindsContradictions(other, id);
      assert id in AllIds(Detect(rows)) <==> Names(Detect(rows), id);
      assert id in AllIds(Detect(other)) <==> Names(Detect(other), id);
    }
  }

  lemma SameFacets(rows: seq<Evidence>, other: seq<Evidence>, earlier: set<string>)
    requires multiset(other) == multiset(Image(rows, PenaltyFor(earlier)))
    ensures Facets(other) == Facets(rows)
  {
    var marked := Image(rows, PenaltyFor(earlier));
    forall f ensures f in Facets(other) <==> f in Facets(rows) {
      if f in Facets(other) {
        var e :| e in other && FacetOf(e) == f;
        assert e in multiset(other) && e in marked;
        var k :| 0 <= k < |marked| && marked[k] == e;
        assert FacetOf(rows[k]) == f && rows[k] in rows;
      }
      if f in Facets(rows) {
        var e :| e in rows && FacetOf(e) == f;
        var k :| 0 <= k < |rows| && rows[k] == e;
        assert marked[k] in multiset(marked) && FacetOf(marked[k]) == f;
        assert marked[k] in other;
      }
    }
  }

  // ---- the first rule as it runs: one pass over the logins, one over the endpoint rows ----

  ghost predicate Indexed(seen: seq<Evidence>, ok: set<string>, absent: map<string, seq<Evidence>>) {
    && (forall a :: a in ok <==> LoggedIn(seen, a))
    && (forall a :: a in absent <==> Select(seen, AbsentFor(a)) != [])
    && (forall a :: a in absent ==> absent[a] == Select(seen, AbsentFor(a)))
  }

  lemma IndexedSnoc(seen: seq<Evidence>, item: Evidence, a: string)
    ensures Select(seen + [item], AbsentFor(a)) == Select(seen, AbsentFor(a)) + if AbsentFor(a)(item) then [item] else []
    ensures LoggedIn(seen + [item], a) <==> LoggedIn(seen, a) || (item.signals.account == Some(a) && item.signals.loginOk)
  {
    SelectAppend(seen, [item], AbsentFor(a));
  }

  /** The index after one more login row. */
  method IndexOne(ghost seen: seq<Evidence>, ok: set<string>, absent: map<string, seq<Evidence>>, item: Evidence)
    returns (ok': set<string>, absent': map<string, seq<Evidence>>)
    requires Indexed(seen, ok, absent)
    ensures Indexed(seen + [item], ok', absent')
  {
    ok', absent' := ok, absent;
    forall a
      ensures Select(seen + [item], AbsentFor(a)) == Select(seen, AbsentFor(a)) + if AbsentFor(a)(item) then [item] else []
      ensures LoggedIn(seen + [item], a) <==> LoggedIn(seen, a) || (item.signals.account == Some(a) && item.signals.loginOk)
    {
      IndexedSnoc(seen, item, a);
    }
    if item.signals.account.Some? {
      var account := item.signals.account.value;
      if item.signals.loginOk {
        ok' := ok + {account};
      } else if item.signals.loginAbsent {
        absent' := absent[account := (if account in absent then absent[account] else []) + [item]];
      }
    }
  }

  method IndexLogins(identity: seq<Evidence>) returns (ok: set<string>, absent: map<string, seq<Evidence>>)
    ensures Indexed(identity, ok, absent)
  {
    ok, absent := {}, map[];
    for k := 0 to |identity|
      invariant Indexed(identity[..k], ok, absent)
    {
      assert identity[..k + 1] == identity[..k] + [identity[k]];
      ok, absent := IndexOne(identity[..k], ok, absent, identity[k]);
    }
    assert identity[..|identity|] == identity;
  }

  method IamConflictOf(ghost identity: seq<Evidence>, ok: set<string>, absent: map<string, seq<Evidence>>, item: Evidence)
    returns (found: seq<Conflict>)
    requires Indexed(identity, ok, absent)
    ensures found == IamConflict(identity)(item)
  {
    if item.signals.process && item.signals.account.Some? {
      var account := item.signals.account.value;
      if account !in ok && account in absent {
        var ids := UniqueIds(absent[account] + [item]);
        return [Conflict(IamAbsentButEdrActive, ids)];
      }
    }
    return [];
  }

  method FindIamConflicts(identity: seq<Evidence>, endpoint: seq<Evidence>) returns (conflicts: seq<Conflict>)
    ensures conflicts == RuleIam(identity, endpoint)
  {
    conflicts := [];
    if identity == [] || endpoint == [] {
      NoLoginsNoConflict(endpoint);
      return;
    }
    var ok, absent := IndexLogins(identity);
    ghost var rule := IamConflict(identity);
    for k := 0 to |endpoint|
      invariant conflicts == Flat(endpoint[..k], rule)
    {
      FlatSnoc(endpoint, k, rule);
      var found := IamConflictOf(identity, ok, absent, endpoint[k]);
      conflicts := conflicts + found;
    }
    assert endpoint[..|endpoint|] == endpoint;
  }

  lemma {:induction false} NoLoginsNoConflict(endpoint: seq<Evidence>)
    ensures Flat(endpoint, IamConflict([])) == []
  {
    if endpoint != [] {
      NoLoginsNoConflict(endpoint[1..]);
    }
  }

  // ---- the other two rules, the grouping and the whole detector as they run ----

  method FindNetworkConflicts(network: seq<Evidence>, dlp: seq<Evidence>) returns (conflicts: seq<Conflict>)
    ensures conflicts == RuleNetwork(network, dlp)
  {
    if dlp == [] {
      return [];
    }
    var uploads := Keep(dlp, IS_UPLOAD);
    if uploads == [] {
      return [];
    }
    for k := 0 to |network|
      invariant !AnyExternal(network[..k])
    {
      if network[k].signals.externalFlow {
        assert network[k] in network;
        return [];
      }
      assert network[..k + 1] == network[..k] + [network[k]];
    }
    assert network[..|network|] == network;
    var silent := Keep(network, IS_SILENT);
    var involved := if silent != [] then silent + uploads else uploads;
    if network != [] && silent == [] {
      involved := network + uploads;
    }
    assert involved == SilentPart(network) + Uploads(dlp);
    var ids := UniqueIds(involved);
    conflicts := [Conflict(NetworkSilentButUpload, ids)];
  }

  method UniqueIds(rows: seq<Evidence>) returns (ids: seq<string>)
    ensures ids == IdsOf(rows)
  {
    ids := [];
    var seen: set<string> := {};
    for k := 0 to |rows|
      invariant ids == IdsOf(rows[..k])
      invariant forall id :: id in seen <==> id in ids
    {
      assert rows[..k + 1][..k] == rows[..k];
      if rows[k].id !in seen {
        seen := seen + {rows[k].id};
        ids := ids + [rows[k].id];
      }
    }
    assert rows[..|rows|] == rows;
  }

  const IS_ISOLATED := (e: Evidence) => e.signals.isolated
  const IS_ACTIVE := (e: Evidence) => e.signals.process

  function OnHostOf(asset: Evidence): Evidence -> bool {
    (e: Evidence) => SharesHost(asset, e)
  }

  /** The conflict of one isolated asset, given the active rows. */
  method AssetConflictOf(asset: Evidence, ghost endpoint: seq<Evidence>, active: seq<Evidence>)
    returns (found: seq<Conflict>)
    requires asset.signals.isolated && active == Select(endpoint, IS_ACTIVE)
    ensures found == AssetConflict(endpoint)(asset)
  {
    SelectSelect(endpoint, IS_ACTIVE, OnHostOf(asset), ActiveOn(asset));
    if asset.signals.hosts == {} {
      SelectNone(endpoint, ActiveOn(asset));
      return [];
    }
    var matched := Keep(active, OnHostOf(asset));
    if matched == [] {
      return [];
    }
    var ids := UniqueIds([asset] + matched);
    found := [Conflict(AssetIsolatedButEdrActive, ids)];
  }

  method ConflictsOfIsolated(isolated: seq<Evidence>, ghost endpoint: seq<Evidence>, active: seq<Evidence>)
    returns (conflicts: seq<Conflict>)
    requires forall k :: 0 <= k < |isolated| ==> isolated[k].signals.isolated
    requires active == Select(endpoint, IS_ACTIVE)
    ensures conflicts == Flat(isolated, AssetConflict(endpoint))
  {
    conflicts := [];
    ghost var rule := AssetConflict(endpoint);
    for k := 0 to |isolated|
      invariant conflicts == Flat(isolated[..k], rule)
    {
      var found := AssetConflictOf(isolated[k], endpoint, active);
      FlatSnoc(isolated, k, rule);
      conflicts := conflicts + found;
    }
    assert isolated[..|isolated|] == isolated;
  }

  method FindAssetConflicts(assets: seq<Evidence>, endpoint: seq<Evidence>) returns (conflicts: seq<Conflict>)
    ensures conflicts == RuleAsset(assets, endpoint)
  {
    var isolated := Keep(assets, IS_ISOLATED);
    var active := Keep(endpoint, IS_ACTIVE);
    OnlyIsolatedConflict(assets, endpoint);
    conflicts := ConflictsOfIsolated(isolated, endpoint, active);
  }

  lemma OnlyIsolatedConflict(assets: seq<Evidence>, endpoint: seq<Evidence>)
    ensures Flat(Select(assets, IS_ISOLATED), AssetConflict(endpoint)) == RuleAsset(assets, endpoint)
    ensures var isolated := Select(assets, IS_ISOLATED);
            forall k :: 0 <= k < |isolated| ==> isolated[k].signals.isolated
  {
    FlatSelectSame(assets, IS_ISOLATED, AssetConflict(endpoint));
    var isolated := Select(assets, IS_ISOLATED);
    forall k | 0 <= k < |isolated|
      ensures isolated[k].signals.isolated
    {
      SelectMembers(assets, IS_ISOLATED);
      assert isolated[k] in isolated;
    }
  }

  function Group(grouped: map<Source, seq<Evidence>>, source: Source): seq<Evidence> {
    if source in grouped then grouped[source] else []
  }

  method GroupBySource(rows: seq<Evidence>) returns (grouped: map<Source, seq<Evidence>>)
    ensures forall source :: Group(grouped, source) == Select(rows, From(source))
  {
    grouped := map[];
    for k := 0 to |rows|
      invariant forall source :: Group(grouped, source) == Select(rows[..k], From(source))
    {
      assert rows[..k + 1] == rows[..k] + [rows[k]];
      forall source
        ensures Select(rows[..k + 1], From(source))
             == Select(rows[..k], From(source)) + if rows[k].source == source then [rows[k]] else []
      {
        SelectAppend(rows[..k], [rows[k]], From(source));
      }
      grouped := grouped[rows[k].source := Group(grouped, rows[k].source) + [rows[k]]];
    }
    assert rows[..|rows|] == rows;
  }

  /** The detector: group the rows, then the three rules in turn. */
  method RunDetect(rows: seq<Evidence>) returns (conflicts: seq<Conflict>)
    ensures conflicts == Detect(rows)
  {
    var grouped := GroupBySource(rows);
    var iam := FindIamConflicts(Group(grouped, Identity), Group(grouped, Endpoint));
    var network := FindNetworkConflicts(Group(grouped, NetworkFlow), Group(grouped, DataSecurity));
    var assets := FindAssetConflicts(Group(grouped, Asset), Group(grouped, Endpoint));
    conflicts := iam + network + assets;
  }

  method DetectAndPenalize(rows: seq<Evidence>) returns (out: seq<Evidence>, conflicts: seq<Conflict>)
    ensures conflicts == Detect(rows) && out == Penalties(rows, conflicts)
  {
    conflicts := RunDetect(rows);
    out := ApplyPenalties(rows, conflicts);
  }
}
