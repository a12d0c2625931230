/** When a cached graph stands in for a rebuild: the evidence fingerprint test. */
module GraphCache {
  import opened Sequences
  import opened Sorting
  import opened Lines
  import opened Evidence
  import opened Graph

  // ---- the fingerprint ----

  const SAME := (id: string) => id
  const GIVEN := (id: string) => id != ""
  const ROW_ID := (ev: Evidence) => ev.id
  const EDGE_ROW := (e: Edge) => e.evidenceId

  /** The non-blank ids, each once, in order. */
  function Listing(ids: seq<string>): seq<string> {
    Sort(FirstBy(Select(ids, GIVEN), SAME), BY_STRING)
  }

  /** The text that is hashed. */
  function Material(ids: seq<string>): string {
    Join(Listing(ids), "|")
  }

  function RowIds(evidence: seq<Evidence>): seq<string> {
    Image(evidence, ROW_ID)
  }

  function EdgeRows(edges: seq<Edge>): seq<string> {
    Image(edges, EDGE_ROW)
  }

  /** A stored graph: its nodes and edges. */
  datatype Cached = Cached(nodes: seq<Node>, edges: seq<Edge>)

  type Hash = string -> string

  predicate Hit(hash: Hash, cached: Cached, evidence: seq<Evidence>) {
    hash(Material(RowIds(evidence))) == hash(Material(EdgeRows(cached.edges)))
  }

  function Built(env: Env, evidence: seq<Evidence>): Cached {
    Cached(BuildNodes(env, evidence), BuildEdges(env, evidence))
  }

  lemma ListingMeaning(ids: seq<string>)
    ensures forall x :: x in Listing(ids) <==> x in ids && x != ""
    ensures Distinct(Listing(ids)) && Sorted(Listing(ids), BY_STRING)
  {
    var given := Select(ids, GIVEN);
    var once := FirstBy(given, SAME);
    forall x
      ensures x in Listing(ids) <==> x in ids && x != ""
    {
      SelectMembers(ids, GIVEN);
      FirstByKeeps(given, SAME, x);
      SortMember(once, BY_STRING, x);
    }
    FirstByIds(given, SAME);
    assert Image(once, SAME) == once;
    assert DistinctBy(once, SAME);
    SortKeepsDistinct(once, BY_STRING, SAME);
    StringsOrdered();
    SortSorts(once, BY_STRING);
  }

  lemma ListingIs(ids: seq<string>, listed: seq<string>)
    requires Sorted(listed, BY_STRING) && Distinct(listed) && forall x :: x in listed <==> x in ids && x != ""
    ensures Listing(ids) == listed
  {
    ListingMeaning(ids);
    forall x: string, y: string | BY_STRING(x, y) && BY_STRING(y, x)
      ensures x == y
    {
      StringTotal(x, y);
    }
    SortedUnique(Listing(ids), listed, BY_STRING);
  }

  ghost predicate BarFree(ids: seq<string>) {
    forall id <- ids :: '|' !in id
  }

  /** Ids without the separator: two lists give the same text exactly when they hold the same non-blank ids. */
  lemma MaterialTellsIds(a: seq<string>, b: seq<string>)
    requires BarFree(a) && BarFree(b)
    ensures Material(a) == Material(b) <==> forall x :: x != "" ==> (x in a <==> x in b)
  {
    ListingMeaning(a);
    ListingMeaning(b);
    if Material(a) == Material(b) {
      JoinInjective(Listing(a), Listing(b), '|');
      forall x | x != ""
        ensures x in a <==> x in b
      {
        assert x in Listing(a) <==> x in Listing(b);
      }
    }
    if forall x :: x != "" ==> (x in a <==> x in b) {
      ListingIs(a, Listing(b));
    }
  }

  /** The premise is needed: one id that holds the separator gives the same text as two ids. */
  lemma BarsConfuse(x: string, y: string)
    requires x != "" && y != "" && x != y && StringLeq(x, y)
    ensures Material([x + "|" + y]) == Material([x, y])
  {
    var both := x + "|" + y;
    ListingIs([both], [both]);
    ListingIs([x, y], [x, y]);
    JoinTwo(x, y, "|");
  }

  // ---- what the results assume of the rows and hashes at hand ----

  /** All that the builder reads of a row. */
  ghost predicate SameContent(a: Evidence, b: Evidence) {
    a.id == b.id && a.eventId == b.eventId && a.source == b.source && a.entities == b.entities && a.timestamp == b.timestamp
  }

  ghost predicate IdFixesContent(before: seq<Evidence>, now: seq<Evidence>) {
    forall a <- before, b <- now :: a.id == b.id ==> SameContent(a, b)
  }

  ghost predicate PlainIds(evidence: seq<Evidence>) {
    forall ev <- evidence :: ev.id != "" && '|' !in ev.id
  }

  /** The two texts that are compared do not collide. */
  ghost predicate NoCollision(env: Env, hash: Hash, before: seq<Evidence>, now: seq<Evidence>) {
    var a, b := Material(RowIds(now)), Material(EdgeRows(BuildEdges(env, before)));
    hash(a) == hash(b) ==> a == b
  }

  ghost predicate Comparable(env: Env, hash: Hash, before: seq<Evidence>, now: seq<Evidence>) {
    PlainIds(before) && PlainIds(now) && IdFixesContent(before, now) && NoCollision(env, hash, before, now)
  }

  /** No two different edges extracted from these rows share an id; and so for nodes. */
  ghost predicate EdgesToldApart(env: Env, evidence: seq<Evidence>) {
    ToldApart(Flat(evidence, EdgesOf(env)), EdgeKey())
  }

  ghost predicate NodesToldApart(env: Env, evidence: seq<Evidence>) {
    ToldApart(Flat(evidence, NodesOf(env)), NodeKey())
  }

  // ---- the edges of a graph ----

  lemma SameEdges(env: Env, a: Evidence, b: Evidence)
    requires SameContent(a, b)
    ensures EdgesOf(env)(a) == EdgesOf(env)(b) && NodesOf(env)(a) == NodesOf(env)(b)
  {
    assert Entities(env, a) == Entities(env, b);
  }

  lemma EdgeNamesItsRow(env: Env, ev: Evidence, e: Edge)
    requires e in EdgesOf(env)(ev)
    ensures e.evidenceId == ev.id
  {
    ImageMembers(LinksOf(env, ev), EdgeOf(env, ev), e);
  }

  lemma RowOfEdge(env: Env, evidence: seq<Evidence>, e: Edge) returns (ev: Evidence)
    requires e in BuildEdges(env, evidence)
    ensures ev in evidence && e in EdgesOf(env)(ev) && e.evidenceId == ev.id
  {
    FirstByIds(Flat(evidence, EdgesOf(env)), EdgeKey());
    FlatMembers(evidence, EdgesOf(env), e);
    ev :| ev in evidence && e in EdgesOf(env)(ev);
    EdgeNamesItsRow(env, ev, e);
  }

  lemma EdgeSurvives(env: Env, evidence: seq<Evidence>, ev: Evidence, e: Edge)
    requires EdgesToldApart(env, evidence) && ev in evidence && e in EdgesOf(env)(ev)
    ensures e in BuildEdges(env, evidence)
  {
    FlatMembers(evidence, EdgesOf(env), e);
    FirstByKeeps(Flat(evidence, EdgesOf(env)), EdgeKey(), e);
  }

  /** Every id read off a built graph is that of a row with an edge; when edges are told apart, all of those are read. */
  lemma GraphIdsMeaning(env: Env, evidence: seq<Evidence>, id: string)
    ensures id in EdgeRows(BuildEdges(env, evidence)) ==>
              exists ev :: ev in evidence && ev.id == id && EdgesOf(env)(ev) != []
    ensures EdgesToldApart(env, evidence) ==>
              (id in EdgeRows(BuildEdges(env, evidence)) <==>
               exists ev :: ev in evidence && ev.id == id && EdgesOf(env)(ev) != [])
  {
    var edges := BuildEdges(env, evidence);
    ImageMembers(edges, EDGE_ROW, id);
    if id in EdgeRows(edges) {
      var e :| e in edges && e.evidenceId == id;
      var ev := RowOfEdge(env, evidence, e);
    }
    if EdgesToldApart(env, evidence) {
      if ev :| ev in evidence && ev.id == id && EdgesOf(env)(ev) != [] {
        var e := EdgesOf(env)(ev)[0];
        EdgeNamesItsRow(env, ev, e);
        EdgeSurvives(env, evidence, ev, e);
      }
    }
  }

  lemma EdgeRowsBarFree(env: Env, evidence: seq<Evidence>)
    requires PlainIds(evidence)
    ensures BarFree(EdgeRows(BuildEdges(env, evidence))) && BarFree(RowIds(evidence))
  {
    forall id <- EdgeRows(BuildEdges(env, evidence))
      ensures '|' !in id
    {
      GraphIdsMeaning(env, evidence, id);
    }
    forall id <- RowIds(evidence)
      ensures '|' !in id
    {
      ImageMembers(evidence, ROW_ID, id);
    }
  }

  // ---- the cache ----

  /** On a hit, the current rows and the cached edges name the same evidence. */
  lemma HitMeans(env: Env, hash: Hash, before: seq<Evidence>, now: seq<Evidence>, id: string)
    requires Comparable(env, hash, before, now) && Hit(hash, Built(env, before), now)
    ensures (exists b :: b in now && b.id == id) <==> id in EdgeRows(BuildEdges(env, before))
  {
    EdgeRowsBarFree(env, before);
    EdgeRowsBarFree(env, now);
    MaterialTellsIds(RowIds(now), EdgeRows(BuildEdges(env, before)));
    ImageMembers(now, ROW_ID, id);
    if id == "" {
      GraphIdsMeaning(env, before, id);
    }
  }

  /** On a hit, every current row was there before, with the same content and an edge. */
  lemma RowWasThere(env: Env, hash: Hash, before: seq<Evidence>, now: seq<Evidence>, b: Evidence) returns (a: Evidence)
    requires Comparable(env, hash, before, now) && Hit(hash, Built(env, before), now) && b in now
    ensures a in before && SameContent(a, b) && EdgesOf(env)(a) != []
    ensures EdgesOf(env)(a) == EdgesOf(env)(b) && NodesOf(env)(a) == NodesOf(env)(b)
  {
    HitMeans(env, hash, before, now, b.id);
    GraphIdsMeaning(env, before, b.id);
    a :| a in before && a.id == b.id && EdgesOf(env)(a) != [];
    SameEdges(env, a, b);
  }

  lemma RebuildAddsNoEdge(env: Env, hash: Hash, before: seq<Evidence>, now: seq<Evidence>, e: Edge)
    requires Comparable(env, hash, before, now) && Hit(hash, Built(env, before), now)
    requires e in Flat(now, EdgesOf(env))
    ensures e in Flat(before, EdgesOf(env))
  {
    FlatMembers(now, EdgesOf(env), e);
    var b :| b in now && e in EdgesOf(env)(b);
    var a := RowWasThere(env, hash, before, now, b);
    FlatMembers(before, EdgesOf(env), e);
  }

  lemma HitEdge(env: Env, hash: Hash, before: seq<Evidence>, now: seq<Evidence>, e: Edge)
    requires Comparable(env, hash, before, now) && Hit(hash, Built(env, before), now) && EdgesToldApart(env, before)
    ensures e in BuildEdges(env, before) <==> e in BuildEdges(env, now)
  {
    var all, again := Flat(before, EdgesOf(env)), Flat(now, EdgesOf(env));
    forall x <- again
      ensures x in all
    {
      RebuildAddsNoEdge(env, hash, before, now, x);
    }
    FirstByKeeps(all, EdgeKey(), e);
    FirstByKeeps(again, EdgeKey(), e);
    if e in BuildEdges(env, before) {
      CachedEdgeIsRebuilt(env, hash, before, now, e);
    }
  }

  lemma CachedEdgeIsRebuilt(env: Env, hash: Hash, before: seq<Evidence>, now: seq<Evidence>, e: Edge)
    requires Comparable(env, hash, before, now) && Hit(hash, Built(env, before), now)
    requires e in BuildEdges(env, before)
    ensures e in Flat(now, EdgesOf(env))
  {
    var a := RowOfEdge(env, before, e);
    ImageMembers(BuildEdges(env, before), EDGE_ROW, a.id);
    HitMeans(env, hash, before, now, a.id);
    var b :| b in now && b.id == a.id;
    SameEdges(env, a, b);
    FlatMembers(now, EdgesOf(env), e);
  }

  lemma HitNode(env: Env, hash: Hash, before: seq<Evidence>, now: seq<Evidence>, n: Node)
    requires Comparable(env, hash, before, now) && Hit(hash, Built(env, before), now)
    requires n in BuildNodes(env, now)
    ensures n in Flat(before, NodesOf(env)) && n.id in NodeIds(env, before)
  {
    FirstByIds(Flat(now, NodesOf(env)), NodeKey());
    FlatMembers(now, NodesOf(env), n);
    var b :| b in now && n in NodesOf(env)(b);
    var a := RowWasThere(env, hash, before, now, b);
    FlatMembers(before, NodesOf(env), n);
    ImageMembers(Flat(before, NodesOf(env)), NodeKey(), n.id);
    KeyKept(Flat(before, NodesOf(env)), NodeKey(), n.id);
  }

  /** On a hit, when the edges extracted before are told apart by their ids, the cached graph has exactly the edges of a
      rebuild; it has at least the node ids of one; and when nodes are told apart too, at least its nodes. */
  lemma CacheHitIsSound(env: Env, hash: Hash, before: seq<Evidence>, now: seq<Evidence>)
    requires Comparable(env, hash, before, now)
    requires Hit(hash, Built(env, before), now)
    ensures EdgesToldApart(env, before) ==>
              (set e | e in BuildEdges(env, before)) == (set e | e in BuildEdges(env, now))
    ensures NodeIds(env, now) <= NodeIds(env, before)
    ensures NodesToldApart(env, before) ==> (set n | n in BuildNodes(env, now)) <= (set n | n in BuildNodes(env, before))
  {
    if EdgesToldApart(env, before) {
      forall e ensures e in BuildEdges(env, before) <==> e in BuildEdges(env, now) {
        HitEdge(env, hash, before, now, e);
      }
    }
    forall n <- BuildNodes(env, now)
      ensures n.id in NodeIds(env, before)
      ensures NodesToldApart(env, before) ==> n in BuildNodes(env, before)
    {
      HitNode(env, hash, before, now, n);
      if NodesToldApart(env, before) {
        FirstByKeeps(Flat(before, NodesOf(env)), NodeKey(), n);
      }
    }
  }

  /** The no-collision premise is needed: when the two texts hash alike, any stored graph is taken. */
  lemma CollisionsHit(hash: Hash, cached: Cached, evidence: seq<Evidence>)
    requires hash(Material(RowIds(evidence))) == hash(Material(EdgeRows(cached.edges)))
    ensures Hit(hash, cached, evidence)
  {
  }

  /** One row without edges is enough to miss, so such a list is rebuilt on every run. */
  lemma EdgeFreeRowMisses(env: Env, hash: Hash, before: seq<Evidence>, now: seq<Evidence>, b: Evidence)
    requires Comparable(env, hash, before, now)
    requires b in now && EdgesOf(env)(b) == []
    ensures !Hit(hash, Built(env, before), now)
  {
    if Hit(hash, Built(env, before), now) {
      var a := RowWasThere(env, hash, before, now, b);
    }
  }

  /** An unchanged list hits its own cached graph exactly when each of its rows gave an edge. */
  lemma UnchangedListHitsIff(env: Env, hash: Hash, evidence: seq<Evidence>)
    requires Comparable(env, hash, evidence, evidence) && EdgesToldApart(env, evidence)
    ensures Hit(hash, Built(env, evidence), evidence) <==> forall ev <- evidence :: EdgesOf(env)(ev) != []
  {
    if forall ev <- evidence :: EdgesOf(env)(ev) != [] {
      forall id
        ensures id in RowIds(evidence) <==> id in EdgeRows(BuildEdges(env, evidence))
      {
        ImageMembers(evidence, ROW_ID, id);
        GraphIdsMeaning(env, evidence, id);
      }
      EdgeRowsBarFree(env, evidence);
      MaterialTellsIds(RowIds(evidence), EdgeRows(BuildEdges(env, evidence)));
    } else {
      var ev :| ev in evidence && EdgesOf(env)(ev) == [];
      EdgeFreeRowMisses(env, hash, evidence, evidence, ev);
    }
  }
}
