/** What each reported conflict says, rule by rule, in terms of the rows. */
module ConflictFacts {
  import opened Basics
  import opened Sequences
  import opened Evidence
  import opened Conflicts

  // ---- which rows set a rule off ----

  /** A login row of the account that shows no successful login. */
  ghost predicate NoLogin(i: Evidence, account: string) {
    i.source == Identity && i.signals.account == Some(account) && !i.signals.loginOk && i.signals.loginAbsent
  }

  ghost predicate LoginOk(i: Evidence, account: string) {
    i.source == Identity && i.signals.account == Some(account) && i.signals.loginOk
  }

  /** An active endpoint row whose account has rows without login and none with. */
  ghost predicate IamTrigger(rows: seq<Evidence>, e: Evidence) {
    && e.source == Endpoint && e.signals.process && e.signals.account.Some?
    && (exists i <- rows :: NoLogin(i, e.signals.account.value))
    && (forall i <- rows :: !LoginOk(i, e.signals.account.value))
  }

  /** Activity on a host of the asset. */
  ghost predicate ActiveAt(p: Evidence, asset: Evidence) {
    p.source == Endpoint && p.signals.process && asset.signals.hosts * p.signals.hosts != {}
  }

  ghost predicate AssetTrigger(rows: seq<Evidence>, a: Evidence) {
    a.source == Asset && a.signals.isolated && exists p <- rows :: ActiveAt(p, a)
  }

  ghost predicate NetworkTrigger(rows: seq<Evidence>) {
    && (exists u <- rows :: u.source == DataSecurity && u.signals.upload)
    && (forall n <- rows :: n.source == NetworkFlow ==> !n.signals.externalFlow)
  }

  /** Network rows that count: the silent ones, or all of them when none is silent. */
  ghost predicate CountsAsSilent(rows: seq<Evidence>, n: Evidence) {
    n.source == NetworkFlow && (n.signals.silent || forall m <- rows :: m.source == NetworkFlow ==> !m.signals.silent)
  }

  // ---- what a conflict names ----

  ghost function NoLogins(account: string): Evidence -> bool {
    (e: Evidence) => NoLogin(e, account)
  }

  ghost function ActiveRowsOf(asset: Evidence): Evidence -> bool {
    (e: Evidence) => ActiveAt(e, asset)
  }

  ghost function SilentIn(rows: seq<Evidence>): Evidence -> bool {
    (e: Evidence) => CountsAsSilent(rows, e)
  }

  ghost function UploadRows(): Evidence -> bool {
    (e: Evidence) => e.source == DataSecurity && e.signals.upload
  }

  ghost predicate NamesIam(rows: seq<Evidence>, e: Evidence, c: Conflict) {
    && c.rule == IamAbsentButEdrActive && e.signals.account.Some?
    && c.ids == IdsOf(Select(rows, NoLogins(e.signals.account.value)) + [e])
    && forall id :: id in c.ids <==> id == e.id || exists i <- rows :: NoLogin(i, e.signals.account.value) && i.id == id
  }

  ghost predicate NamesAsset(rows: seq<Evidence>, a: Evidence, c: Conflict) {
    && c.rule == AssetIsolatedButEdrActive
    && c.ids == IdsOf([a] + Select(rows, ActiveRowsOf(a)))
    && forall id :: id in c.ids <==> id == a.id || exists p <- rows :: ActiveAt(p, a) && p.id == id
  }

  ghost predicate NamesNetwork(rows: seq<Evidence>, c: Conflict) {
    && c.rule == NetworkSilentButUpload
    && c.ids == IdsOf(Select(rows, SilentIn(rows)) + Select(rows, UploadRows()))
    && forall id :: id in c.ids <==>
         exists x <- rows :: x.id == id && ((x.source == DataSecurity && x.signals.upload) || CountsAsSilent(rows, x))
  }

  lemma {:induction false} IdsOnce(rows: seq<Evidence>)
    ensures Distinct(IdsOf(rows))
  {
    if rows != [] {
      IdsOnce(rows[..|rows| - 1]);
    }
  }

  /** The ids of a longer list start with those of a shorter one: order of first appearance. */
  lemma {:induction false} IdsGrow(a: seq<Evidence>, b: seq<Evidence>)
    ensures IdsOf(a) <= IdsOf(a + b)
    decreases |b|
  {
    if b == [] {
      assert a + b == a;
    } else {
      IdsGrow(a, b[..|b| - 1]);
      assert (a + b)[..|a + b| - 1] == a + b[..|b| - 1];
    }
  }

  // ---- the login rule ----

  lemma AbsentRows(rows: seq<Evidence>, account: string, i: Evidence)
    ensures i in Select(Select(rows, From(Identity)), AbsentFor(account)) <==> i in rows && NoLogin(i, account)
  {
    SourceRow(rows, Identity, i);
    SelectMembers(Select(rows, From(Identity)), AbsentFor(account));
  }

  lemma LoggedInRows(rows: seq<Evidence>, account: string)
    ensures LoggedIn(Select(rows, From(Identity)), account) <==> exists i <- rows :: LoginOk(i, account)
  {
    if LoggedIn(Select(rows, From(Identity)), account) {
      var i :| i in Select(rows, From(Identity)) && i.signals.account == Some(account) && i.signals.loginOk;
      SourceRow(rows, Identity, i);
      assert LoginOk(i, account);
    }
    if i :| i in rows && LoginOk(i, account) {
      SourceRow(rows, Identity, i);
    }
  }

  lemma IamRow(rows: seq<Evidence>, e: Evidence)
    requires e in Select(rows, From(Endpoint))
    ensures var found := IamConflict(Select(rows, From(Identity)))(e);
            if IamTrigger(rows, e) then |found| == 1 && NamesIam(rows, e, found[0]) else found == []
  {
    SourceRow(rows, Endpoint, e);
    if e.signals.process && e.signals.account.Some? {
      var account := e.signals.account.value;
      var absent := Select(Select(rows, From(Identity)), AbsentFor(account));
      LoggedInRows(rows, account);
      if absent != [] {
        AbsentRows(rows, account, absent[0]);
      }
      if i :| i in rows && NoLogin(i, account) {
        AbsentRows(rows, account, i);
      }
      AbsentIds(rows, account, e);
      SelectSelect(rows, From(Identity), AbsentFor(account), NoLogins(account));
    }
  }

  lemma AbsentIds(rows: seq<Evidence>, account: string, e: Evidence)
    ensures var absent := Select(Select(rows, From(Identity)), AbsentFor(account));
            forall id :: id in IdsOf(absent + [e]) <==> id == e.id || exists i <- rows :: NoLogin(i, account) && i.id == id
  {
    var absent := Select(Select(rows, From(Identity)), AbsentFor(account));
    forall id
      ensures id in IdsOf(absent + [e]) <==> id == e.id || exists i <- rows :: NoLogin(i, account) && i.id == id
    {
      IdsMembers(absent + [e], id);
      assert e in absent + [e];
      if i :| i in absent + [e] && i.id == id && i != e {
        AbsentRows(rows, account, i);
      }
      if i :| i in rows && NoLogin(i, account) && i.id == id {
        AbsentRows(rows, account, i);
        assert i in absent + [e];
      }
    }
  }

  // ---- the asset rule ----

  lemma ActiveRows(rows: seq<Evidence>, a: Evidence, p: Evidence)
    ensures p in Select(Select(rows, From(Endpoint)), ActiveOn(a)) <==> p in rows && ActiveAt(p, a)
  {
    SourceRow(rows, Endpoint, p);
    SelectMembers(Select(rows, From(Endpoint)), ActiveOn(a));
  }

  lemma AssetRow(rows: seq<Evidence>, a: Evidence)
    requires a in Select(rows, From(Asset))
    ensures var found := AssetConflict(Select(rows, From(Endpoint)))(a);
            if AssetTrigger(rows, a) then |found| == 1 && NamesAsset(rows, a, found[0]) else found == []
  {
    SourceRow(rows, Asset, a);
    var active := Select(Select(rows, From(Endpoint)), ActiveOn(a));
    SelectSelect(rows, From(Endpoint), ActiveOn(a), ActiveRowsOf(a));
    if active != [] {
      ActiveRows(rows, a, active[0]);
    }
    if p :| p in rows && ActiveAt(p, a) {
      ActiveRows(rows, a, p);
    }
    forall id
      ensures id in IdsOf([a] + active) <==> id == a.id || exists p <- rows :: ActiveAt(p, a) && p.id == id
    {
      IdsMembers([a] + active, id);
      assert a in [a] + active;
      if p :| p in [a] + active && p.id == id && p != a {
        ActiveRows(rows, a, p);
      }
      if p :| p in rows && ActiveAt(p, a) && p.id == id {
        ActiveRows(rows, a, p);
        assert p in [a] + active;
      }
    }
  }

  // ---- the network rule ----

  lemma SilentRows(rows: seq<Evidence>, n: Evidence)
    ensures n in SilentPart(Select(rows, From(NetworkFlow))) <==> n in rows && CountsAsSilent(rows, n)
  {
    var network := Select(rows, From(NetworkFlow));
    var silent := Select(network, IS_SILENT);
    SourceRow(rows, NetworkFlow, n);
    SelectMembers(network, IS_SILENT);
    if silent != [] {
      assert silent[0] in silent;
      SourceRow(rows, NetworkFlow, silent[0]);
    } else {
      forall m <- rows | m.source == NetworkFlow
        ensures !m.signals.silent
      {
        SourceRow(rows, NetworkFlow, m);
      }
    }
  }

  lemma SilentInOrder(rows: seq<Evidence>)
    ensures SilentPart(Select(rows, From(NetworkFlow))) == Select(rows, SilentIn(rows))
  {
    var network := Select(rows, From(NetworkFlow));
    if Select(network, IS_SILENT) != [] {
      var n := Select(network, IS_SILENT)[0];
      SelectMembers(network, IS_SILENT);
      assert n in Select(network, IS_SILENT);
      SourceRow(rows, NetworkFlow, n);
      SelectSelect(rows, From(NetworkFlow), IS_SILENT, SilentIn(rows));
    } else {
      forall m <- rows | m.source == NetworkFlow
        ensures !m.signals.silent
      {
        SourceRow(rows, NetworkFlow, m);
        SelectMembers(network, IS_SILENT);
      }
      SameSelect(rows, From(NetworkFlow), SilentIn(rows));
    }
  }

  lemma NetworkSetsOff(rows: seq<Evidence>)
    ensures NetworkTrigger(rows) <==>
            Uploads(Select(rows, From(DataSecurity))) != [] && !AnyExternal(Select(rows, From(NetworkFlow)))
  {
    var uploads, network := Uploads(Select(rows, From(DataSecurity))), Select(rows, From(NetworkFlow));
    if uploads != [] {
      UploadMeans(rows, uploads[0]);
    }
    if u :| u in rows && u.source == DataSecurity && u.signals.upload {
      UploadMeans(rows, u);
    }
    forall n: Evidence
      ensures n in network <==> n in rows && n.source == NetworkFlow
    {
      SourceRow(rows, NetworkFlow, n);
    }
  }

  lemma NetworkConflict(rows: seq<Evidence>)
    ensures var found := RuleNetwork(Select(rows, From(NetworkFlow)), Select(rows, From(DataSecurity)));
            if NetworkTrigger(rows) then |found| == 1 && NamesNetwork(rows, found[0]) else found == []
  {
    NetworkSetsOff(rows);
    SilentInOrder(rows);
    SelectSelect(rows, From(DataSecurity), IS_UPLOAD, UploadRows());
    var involved := SilentPart(Select(rows, From(NetworkFlow))) + Uploads(Select(rows, From(DataSecurity)));
    forall id
      ensures id in IdsOf(involved) <==>
              exists x <- rows :: x.id == id && ((x.source == DataSecurity && x.signals.upload) || CountsAsSilent(rows, x))
    {
      IdsMembers(involved, id);
      if x :| x in involved && x.id == id {
        SilentRows(rows, x);
        UploadMeans(rows, x);
      }
      if x :| x in rows && x.id == id && ((x.source == DataSecurity && x.signals.upload) || CountsAsSilent(rows, x)) {
        SilentRows(rows, x);
        UploadMeans(rows, x);
        assert x in involved;
      }
    }
  }

  // ---- all of them, in order ----

  ghost function Triggers(rows: seq<Evidence>, candidates: seq<Evidence>, iam: bool): seq<Evidence> {
    if candidates == [] then []
    else
      var e := candidates[0];
      (if (iam && IamTrigger(rows, e)) || (!iam && AssetTrigger(rows, e)) then [e] else [])
      + Triggers(rows, candidates[1..], iam)
  }

  ghost predicate AllIam(rows: seq<Evidence>, es: seq<Evidence>, found: seq<Conflict>) {
    |found| == |es| && forall k :: 0 <= k < |es| ==> NamesIam(rows, es[k], found[k])
  }

  ghost predicate AllAssets(rows: seq<Evidence>, es: seq<Evidence>, found: seq<Conflict>) {
    |found| == |es| && forall k :: 0 <= k < |es| ==> NamesAsset(rows, es[k], found[k])
  }

  lemma {:induction false} IamConflicts(rows: seq<Evidence>, candidates: seq<Evidence>)
    requires forall e <- candidates :: e in Select(rows, From(Endpoint))
    ensures AllIam(rows, Triggers(rows, candidates, true), Flat(candidates, IamConflict(Select(rows, From(Identity)))))
  {
    if candidates != [] {
      IamRow(rows, candidates[0]);
      IamConflicts(rows, candidates[1..]);
    }
  }

  lemma {:induction false} AssetConflicts(rows: seq<Evidence>, candidates: seq<Evidence>)
    requires forall e <- candidates :: e in Select(rows, From(Asset))
    ensures AllAssets(rows, Triggers(rows, candidates, false), Flat(candidates, AssetConflict(Select(rows, From(Endpoint)))))
  {
    if candidates != [] {
      AssetRow(rows, candidates[0]);
      AssetConflicts(rows, candidates[1..]);
    }
  }

  /** Rows of another source set nothing off, so the triggers are found among all rows. */
  lemma {:induction false} TriggersAmongAll(rows: seq<Evidence>, some: seq<Evidence>, iam: bool)
    ensures Triggers(rows, Select(some, From(if iam then Endpoint else Asset)), iam) == Triggers(rows, some, iam)
  {
    if some != [] {
      var p := From(if iam then Endpoint else Asset);
      TriggersAmongAll(rows, some[1..], iam);
      if p(some[0]) {
        assert Select(some, p)[0] == some[0] && Select(some, p)[1..] == Select(some[1..], p);
      } else {
        assert Select(some, p) == Select(some[1..], p);
      }
    }
  }

  /** The conflicts are, in order: one for each endpoint row that sets off the login rule, one if the network rule is set
      off, and one for each asset that sets off the asset rule; each names its own rows and nothing else. */
  ghost predicate Explains(rows: seq<Evidence>, conflicts: seq<Conflict>, iam: seq<Evidence>, assets: seq<Evidence>) {
    var n := if NetworkTrigger(rows) then 1 else 0;
    && |conflicts| == |iam| + n + |assets|
    && AllIam(rows, iam, conflicts[..|iam|])
    && (n == 1 ==> NamesNetwork(rows, conflicts[|iam|]))
    && AllAssets(rows, assets, conflicts[|iam| + n..])
  }

  lemma Together(rows: seq<Evidence>, a: seq<Conflict>, b: seq<Conflict>, c: seq<Conflict>,
                 iam: seq<Evidence>, assets: seq<Evidence>)
    requires AllIam(rows, iam, a) && AllAssets(rows, assets, c)
    requires if NetworkTrigger(rows) then |b| == 1 && NamesNetwork(rows, b[0]) else b == []
    ensures Explains(rows, a + b + c, iam, assets)
  {
    var all := a + b + c;
    assert all[..|a|] == a && all[|a| + |b|..] == c;
    assert b != [] ==> all[|a|] == b[0];
  }

  lemma ConflictsExplained(rows: seq<Evidence>)
    ensures Explains(rows, Detect(rows), Triggers(rows, rows, true), Triggers(rows, rows, false))
  {
    var identity, endpoint, assets := Select(rows, From(Identity)), Select(rows, From(Endpoint)), Select(rows, From(Asset));
    IamConflicts(rows, endpoint);
    AssetConflicts(rows, assets);
    NetworkConflict(rows);
    TriggersAmongAll(rows, rows, true);
    TriggersAmongAll(rows, rows, false);
    Together(rows, RuleIam(identity, endpoint),
             RuleNetwork(Select(rows, From(NetworkFlow)), Select(rows, From(DataSecurity))),
             RuleAsset(assets, endpoint), Triggers(rows, rows, true), Triggers(rows, rows, false));
  }
}
