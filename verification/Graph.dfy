/** The evidence-to-graph builder: per-source extraction rules and the dedup by derived id. */
module Graph {
  import opened Basics
  import opened Sequences
  import opened Evidence

  datatype Kind = Account | Ip | Host | Domain | Process | File

  datatype Entity = Entity(kind: Kind, value: string)

  datatype Relation = LoggedInFrom | LoggedInTo | Executed | Accessed | UploadedTo | ConnectedTo | Resolved | Requested

  type Id = string

  datatype Node = Node(id: Id, eventId: string, entity: Entity)

  datatype Edge = Edge(id: Id, eventId: string, source: Id, target: Id, relation: Relation, evidenceId: string,
                       occurredAt: Option<int>)

  /** The parts the builder takes as given: how a related-entity string is classified (None when it is
      blank), and the two hashes that derive ids. */
  datatype Env = Env(
    classify: string -> Option<Entity>,
    nodeId: (string, Entity) -> Id,
    edgeId: (string, Id, Id, Relation, string) -> Id)

  datatype Link = Link(source: Entity, target: Entity, relation: Relation)

  // ---- entities ----

  function Classified(env: Env): string -> seq<Entity> {
    v => if env.classify(v).Some? then [env.classify(v).value] else []
  }

  function Entities(env: Env, ev: Evidence): seq<Entity> {
    Flat(ev.entities, Classified(env))
  }

  function OfKind(kind: Kind): Entity -> bool {
    (e: Entity) => e.kind == kind
  }

  function Actors(): Entity -> bool {
    (e: Entity) => e.kind == Process || e.kind == Account
  }

  // ---- extraction rules ----

  function Links(source: Entity, targets: seq<Entity>, relation: Relation): seq<Link> {
    Image(targets, (t: Entity) => Link(source, t, relation))
  }

  function Cross(sources: seq<Entity>, targets: seq<Entity>, relation: Relation): seq<Link> {
    Flat(sources, (s: Entity) => Links(s, targets, relation))
  }

  function Both(t1: seq<Entity>, r1: Relation, t2: seq<Entity>, r2: Relation): Entity -> seq<Link> {
    (s: Entity) => Links(s, t1, r1) + Links(s, t2, r2)
  }

  function IdentityLinks(es: seq<Entity>): seq<Link> {
    Flat(Select(es, OfKind(Account)), Both(Select(es, OfKind(Ip)), LoggedInFrom, Select(es, OfKind(Host)), LoggedInTo))
  }

  function DataSecurityLinks(es: seq<Entity>): seq<Link> {
    var files := Select(es, OfKind(File));
    Cross(Select(es, Actors()), files, Accessed)
    + Flat(files, Both(Select(es, OfKind(Ip)), UploadedTo, Select(es, OfKind(Domain)), UploadedTo))
  }

  function DnsLinks(es: seq<Entity>): seq<Link> {
    Cross(Select(es, OfKind(Domain)), Select(es, OfKind(Ip)), Resolved)
    + Cross(Select(es, OfKind(Host)), Select(es, OfKind(Domain)), Requested)
  }

  function RuleLinks(source: Source, es: seq<Entity>): seq<Link> {
    match source
    case Identity => IdentityLinks(es)
    case Endpoint => Cross(Select(es, OfKind(Host)), Select(es, OfKind(Process)), Executed)
    case DataSecurity => DataSecurityLinks(es)
    case NetworkFlow => Cross(Select(es, OfKind(Host)), Select(es, OfKind(Ip)), ConnectedTo)
    case Dns => DnsLinks(es)
    case Asset | ThreatIntel | FalsePositiveMatch => []
  }

  function LinksOf(env: Env, ev: Evidence): seq<Link> {
    RuleLinks(ev.source, Entities(env, ev))
  }

  function NodeOf(env: Env, eventId: string): Entity -> Node {
    (e: Entity) => Node(env.nodeId(eventId, e), eventId, e)
  }

  function EdgeOf(env: Env, ev: Evidence): Link -> Edge {
    (l: Link) =>
      var s, t := env.nodeId(ev.eventId, l.source), env.nodeId(ev.eventId, l.target);
      Edge(env.edgeId(ev.eventId, s, t, l.relation, ev.id), ev.eventId, s, t, l.relation, ev.id, ev.timestamp)
  }

  const ENDS := (l: Link) => [l.source, l.target]

  /** Both ends of every link first, then each entity that no link mentioned, once. */
  function Mentioned(links: seq<Link>): seq<Entity> {
    Flat(links, ENDS)
  }

  function Unmentioned(es: seq<Entity>, seen: seq<Entity>): seq<Entity> {
    if es == [] then []
    else
      var before, last := Unmentioned(es[..|es| - 1], seen), es[|es| - 1];
      if last in seen || last in before then before else before + [last]
  }

  predicate HasRule(source: Source) {
    source.Identity? || source.Endpoint? || source.DataSecurity? || source.NetworkFlow? || source.Dns?
  }

  function NodeEntities(env: Env, ev: Evidence): seq<Entity> {
    var es := Entities(env, ev);
    if HasRule(ev.source) then Mentioned(LinksOf(env, ev)) + Unmentioned(es, Mentioned(LinksOf(env, ev)))
    else es
  }

  function NodesOf(env: Env): Evidence -> seq<Node> {
    (ev: Evidence) => Image(NodeEntities(env, ev), NodeOf(env, ev.eventId))
  }

  function EdgesOf(env: Env): Evidence -> seq<Edge> {
    (ev: Evidence) => Image(LinksOf(env, ev), EdgeOf(env, ev))
  }

  // ---- the build ----

  function NodeKey(): Node -> Id { (n: Node) => n.id }

  function EdgeKey(): Edge -> Id { (e: Edge) => e.id }

  function BuildNodes(env: Env, evidence: seq<Evidence>): seq<Node> {
    FirstBy(Flat(evidence, NodesOf(env)), NodeKey())
  }

  function BuildEdges(env: Env, evidence: seq<Evidence>): seq<Edge> {
    FirstBy(Flat(evidence, EdgesOf(env)), EdgeKey())
  }

  // ---- the reference: which links evidence of a source supports ----

  ghost predicate Supports(source: Source, l: Link) {
    match l.relation
    case LoggedInFrom => source == Identity && l.source.kind == Account && l.target.kind == Ip
    case LoggedInTo => source == Identity && l.source.kind == Account && l.target.kind == Host
    case Executed => source == Endpoint && l.source.kind == Host && l.target.kind == Process
    case Accessed =>
      source == DataSecurity && (l.source.kind == Process || l.source.kind == Account) && l.target.kind == File
    case UploadedTo => source == DataSecurity && l.source.kind == File && (l.target.kind == Ip || l.target.kind == Domain)
    case ConnectedTo => source == NetworkFlow && l.source.kind == Host && l.target.kind == Ip
    case Resolved => source == Dns && l.source.kind == Domain && l.target.kind == Ip
    case Requested => source == Dns && l.source.kind == Host && l.target.kind == Domain
  }

  lemma LinksMembers(s: Entity, targets: seq<Entity>, relation: Relation, l: Link)
    ensures l in Links(s, targets, relation) <==> l.source == s && l.target in targets && l.relation == relation
  {
    ImageMembers(targets, (t: Entity) => Link(s, t, relation), l);
  }

  lemma CrossMembers(sources: seq<Entity>, targets: seq<Entity>, relation: Relation, l: Link)
    ensures l in Cross(sources, targets, relation) <==> l.source in sources && l.target in targets && l.relation == relation
  {
    FlatMembers(sources, (s: Entity) => Links(s, targets, relation), l);
    LinksMembers(l.source, targets, relation, l);
    forall s | l in Links(s, targets, relation) ensures s == l.source {
      LinksMembers(s, targets, relation, l);
    }
  }

  lemma TwoLinksMembers(sources: seq<Entity>, t1: seq<Entity>, r1: Relation, t2: seq<Entity>, r2: Relation, l: Link)
    ensures l in Flat(sources, Both(t1, r1, t2, r2)) <==>
            l.source in sources && ((l.target in t1 && l.relation == r1) || (l.target in t2 && l.relation == r2))
  {
    FlatMembers(sources, Both(t1, r1, t2, r2), l);
    LinksMembers(l.source, t1, r1, l);
    LinksMembers(l.source, t2, r2, l);
    forall s | l in Links(s, t1, r1) + Links(s, t2, r2) ensures s == l.source {
      LinksMembers(s, t1, r1, l);
      LinksMembers(s, t2, r2, l);
    }
  }

  lemma KindMember(es: seq<Entity>, e: Entity, k: Kind)
    ensures e in Select(es, OfKind(k)) <==> e in es && e.kind == k
  {
    SelectMembers(es, OfKind(k));
  }

  /** Links from every entity of one kind to every entity of another. */
  lemma KindsLinked(es: seq<Entity>, from: Kind, to: Kind, relation: Relation, l: Link)
    ensures l in Cross(Select(es, OfKind(from)), Select(es, OfKind(to)), relation) <==>
            && l.source in es && l.source.kind == from && l.target in es && l.target.kind == to
            && l.relation == relation
  {
    KindMember(es, l.source, from);
    KindMember(es, l.target, to);
    CrossMembers(Select(es, OfKind(from)), Select(es, OfKind(to)), relation, l);
  }

  lemma KindsLinkedTwice(es: seq<Entity>, from: Kind, to1: Kind, r1: Relation, to2: Kind, r2: Relation, l: Link)
    ensures l in Flat(Select(es, OfKind(from)), Both(Select(es, OfKind(to1)), r1, Select(es, OfKind(to2)), r2)) <==>
            && l.source in es && l.source.kind == from && l.target in es
            && ((l.target.kind == to1 && l.relation == r1) || (l.target.kind == to2 && l.relation == r2))
  {
    KindMember(es, l.source, from);
    KindMember(es, l.target, to1);
    KindMember(es, l.target, to2);
    TwoLinksMembers(Select(es, OfKind(from)), Select(es, OfKind(to1)), r1, Select(es, OfKind(to2)), r2, l);
  }

  lemma ActorsLinked(es: seq<Entity>, l: Link)
    ensures l in Cross(Select(es, Actors()), Select(es, OfKind(File)), Accessed) <==>
            && l.source in es && (l.source.kind == Process || l.source.kind == Account)
            && l.target in es && l.target.kind == File && l.relation == Accessed
  {
    SelectMembers(es, Actors());
    KindMember(es, l.target, File);
    CrossMembers(Select(es, Actors()), Select(es, OfKind(File)), Accessed, l);
  }

  ghost predicate Linked(source: Source, es: seq<Entity>, l: Link) {
    l.source in es && l.target in es && Supports(source, l)
  }

  lemma DataSecurityMeaning(es: seq<Entity>, l: Link)
    ensures l in DataSecurityLinks(es) <==> Linked(DataSecurity, es, l)
  {
    ActorsLinked(es, l);
    KindsLinkedTwice(es, File, Ip, UploadedTo, Domain, UploadedTo, l);
  }

  lemma DnsMeaning(es: seq<Entity>, l: Link)
    ensures l in DnsLinks(es) <==> Linked(Dns, es, l)
  {
    KindsLinked(es, Domain, Ip, Resolved, l);
    KindsLinked(es, Host, Domain, Requested, l);
  }

  lemma IdentityMeaning(es: seq<Entity>, l: Link)
    ensures l in IdentityLinks(es) <==> Linked(Identity, es, l)
  {
    KindsLinkedTwice(es, Account, Ip, LoggedInFrom, Host, LoggedInTo, l);
  }

  lemma EndpointMeaning(es: seq<Entity>, l: Link)
    ensures l in Cross(Select(es, OfKind(Host)), Select(es, OfKind(Process)), Executed) <==> Linked(Endpoint, es, l)
  {
    KindsLinked(es, Host, Process, Executed, l);
  }

  lemma NetworkFlowMeaning(es: seq<Entity>, l: Link)
    ensures l in Cross(Select(es, OfKind(Host)), Select(es, OfKind(Ip)), ConnectedTo) <==> Linked(NetworkFlow, es, l)
  {
    KindsLinked(es, Host, Ip, ConnectedTo, l);
  }

  /** The extraction rules produce exactly the supported links between the row's entities. */
  lemma RuleLinksMeaning(source: Source, es: seq<Entity>, l: Link)
    ensures l in RuleLinks(source, es) <==> l.source in es && l.target in es && Supports(source, l)
  {
    match source {
      case Identity => IdentityMeaning(es, l);
      case Endpoint => EndpointMeaning(es, l);
      case DataSecurity => DataSecurityMeaning(es, l);
      case NetworkFlow => NetworkFlowMeaning(es, l);
      case Dns => DnsMeaning(es, l);
      case _ =>
    }
  }

  // ---- every edge has its end nodes, every entity its node ----

  lemma {:induction false} UnmentionedCovers(es: seq<Entity>, seen: seq<Entity>)
    ensures forall e <- es :: e in seen || e in Unmentioned(es, seen)
    ensures forall e <- Unmentioned(es, seen) :: e in es && e !in seen
  {
    if es != [] {
      UnmentionedCovers(es[..|es| - 1], seen);
      assert es == es[..|es| - 1] + [es[|es| - 1]];
    }
  }

  lemma NodeEntitiesCover(env: Env, ev: Evidence)
    ensures forall e <- Entities(env, ev) :: e in NodeEntities(env, ev)
    ensures forall l <- LinksOf(env, ev) :: l.source in NodeEntities(env, ev) && l.target in NodeEntities(env, ev)
  {
    var links := LinksOf(env, ev);
    if HasRule(ev.source) {
      UnmentionedCovers(Entities(env, ev), Mentioned(links));
      forall l <- links ensures l.source in Mentioned(links) && l.target in Mentioned(links) {
        FlatMembers(links, ENDS, l.source);
        FlatMembers(links, ENDS, l.target);
      }
    }
  }

  ghost predicate HasNode(nodes: seq<Node>, id: Id) {
    id in Image(nodes, NodeKey())
  }

  lemma EntityNodeBuilt(env: Env, evidence: seq<Evidence>, ev: Evidence, e: Entity)
    requires ev in evidence && e in NodeEntities(env, ev)
    ensures HasNode(BuildNodes(env, evidence), env.nodeId(ev.eventId, e))
  {
    var n := NodeOf(env, ev.eventId)(e);
    ImageMembers(NodeEntities(env, ev), NodeOf(env, ev.eventId), n);
    FlatMembers(evidence, NodesOf(env), n);
    var all := Flat(evidence, NodesOf(env));
    ImageMembers(all, NodeKey(), n.id);
    FirstByIds(all, NodeKey());
  }

  /** For any classifier and any hashes: every edge ends in nodes of the output, and every non-blank
      related entity of every row has its node. */
  lemma GraphIsClosed(env: Env, evidence: seq<Evidence>)
    ensures forall e <- BuildEdges(env, evidence) ::
              HasNode(BuildNodes(env, evidence), e.source) && HasNode(BuildNodes(env, evidence), e.target)
    ensures forall ev <- evidence, x <- Entities(env, ev) ::
              HasNode(BuildNodes(env, evidence), env.nodeId(ev.eventId, x))
  {
    forall e <- BuildEdges(env, evidence)
      ensures HasNode(BuildNodes(env, evidence), e.source) && HasNode(BuildNodes(env, evidence), e.target)
    {
      var ev, l := EdgeOrigin(env, evidence, e);
      NodeEntitiesCover(env, ev);
      EntityNodeBuilt(env, evidence, ev, l.source);
      EntityNodeBuilt(env, evidence, ev, l.target);
    }
    forall ev <- evidence, x <- Entities(env, ev) ensures HasNode(BuildNodes(env, evidence), env.nodeId(ev.eventId, x)) {
      NodeEntitiesCover(env, ev);
      EntityNodeBuilt(env, evidence, ev, x);
    }
  }

  lemma EdgeOrigin(env: Env, evidence: seq<Evidence>, e: Edge) returns (ev: Evidence, l: Link)
    requires e in BuildEdges(env, evidence)
    ensures ev in evidence && l in LinksOf(env, ev) && e == EdgeOf(env, ev)(l)
  {
    var all := Flat(evidence, EdgesOf(env));
    FirstByIds(all, EdgeKey());
    FlatMembers(evidence, EdgesOf(env), e);
    ev :| ev in evidence && e in EdgesOf(env)(ev);
    ImageMembers(LinksOf(env, ev), EdgeOf(env, ev), e);
    l :| l in LinksOf(env, ev) && EdgeOf(env, ev)(l) == e;
  }

  // ---- more evidence, the same evidence again, another order ----

  /** Building on a longer list extends the graph of the shorter one. */
  lemma BuildExtends(env: Env, a: seq<Evidence>, b: seq<Evidence>)
    ensures BuildNodes(env, a) <= BuildNodes(env, a + b)
    ensures BuildEdges(env, a) <= BuildEdges(env, a + b)
  {
    FlatAppend(a, b, NodesOf(env));
    FlatAppend(a, b, EdgesOf(env));
    FirstByPrefix(Flat(a, NodesOf(env)), Flat(b, NodesOf(env)), NodeKey());
    FirstByPrefix(Flat(a, EdgesOf(env)), Flat(b, EdgesOf(env)), EdgeKey());
  }

  /** Rows that were already there add nothing. */
  lemma BuildAbsorbs(env: Env, a: seq<Evidence>, b: seq<Evidence>)
    requires forall ev <- b :: ev in a
    ensures BuildNodes(env, a + b) == BuildNodes(env, a)
    ensures BuildEdges(env, a + b) == BuildEdges(env, a)
  {
    FlatAppend(a, b, NodesOf(env));
    FlatAppend(a, b, EdgesOf(env));
    AbsorbKeys(a, b, NodesOf(env), NodeKey());
    AbsorbKeys(a, b, EdgesOf(env), EdgeKey());
    FirstByAbsorbs(Flat(a, NodesOf(env)), Flat(b, NodesOf(env)), NodeKey());
    FirstByAbsorbs(Flat(a, EdgesOf(env)), Flat(b, EdgesOf(env)), EdgeKey());
  }

  lemma AbsorbKeys<T>(a: seq<Evidence>, b: seq<Evidence>, f: Evidence -> seq<T>, key: T -> Id)
    requires forall ev <- b :: ev in a
    ensures forall x <- Flat(b, f) :: x in Flat(a, f) && key(x) in Image(Flat(a, f), key)
  {
    forall x <- Flat(b, f) ensures x in Flat(a, f) && key(x) in Image(Flat(a, f), key) {
      FlatMembers(b, f, x);
      FlatMembers(a, f, x);
      ImageMembers(Flat(a, f), key, key(x));
    }
  }

  ghost function NodeIds(env: Env, evidence: seq<Evidence>): set<Id> {
    set n | n in BuildNodes(env, evidence) :: n.id
  }

  ghost function EdgeIds(env: Env, evidence: seq<Evidence>): set<Id> {
    set e | e in BuildEdges(env, evidence) :: e.id
  }

  lemma IdsGrow(env: Env, a: seq<Evidence>, b: seq<Evidence>)
    requires forall ev <- a :: ev in b
    ensures NodeIds(env, a) <= NodeIds(env, b) && EdgeIds(env, a) <= EdgeIds(env, b)
  {
    forall id <- NodeIds(env, a) ensures id in NodeIds(env, b) {
      var n :| n in BuildNodes(env, a) && n.id == id;
      FirstByIds(Flat(a, NodesOf(env)), NodeKey());
      AbsorbKeys(b, a, NodesOf(env), NodeKey());
      KeyKept(Flat(b, NodesOf(env)), NodeKey(), id);
    }
    forall id <- EdgeIds(env, a) ensures id in EdgeIds(env, b) {
      var e :| e in BuildEdges(env, a) && e.id == id;
      FirstByIds(Flat(a, EdgesOf(env)), EdgeKey());
      AbsorbKeys(b, a, EdgesOf(env), EdgeKey());
      KeyKept(Flat(b, EdgesOf(env)), EdgeKey(), id);
    }
  }

  lemma KeyKept<T>(s: seq<T>, key: T -> Id, id: Id)
    requires id in Image(s, key)
    ensures exists x :: x in FirstBy(s, key) && key(x) == id
  {
    FirstByIds(s, key);
    ImageMembers(FirstBy(s, key), key, id);
  }

  /** The id sets depend only on which rows there are, not on their order or repetition. */
  lemma IdsIgnoreOrder(env: Env, a: seq<Evidence>, b: seq<Evidence>)
    requires forall ev :: ev in a <==> ev in b
    ensures NodeIds(env, a) == NodeIds(env, b) && EdgeIds(env, a) == EdgeIds(env, b)
  {
    IdsGrow(env, a, b);
    IdsGrow(env, b, a);
  }

  // ---- the build as it runs ----

  /** Adds the rows of a batch whose id is not yet in the dict. */
  method InsertNew<T(==)>(kept: seq<T>, batch: seq<T>, key: T -> Id, ghost all: seq<T>) returns (out: seq<T>)
    requires kept == FirstBy(all, key)
    ensures out == FirstBy(all + batch, key)
  {
    out := kept;
    var ids := set x | x in kept :: key(x);
    assert all + [] == all;
    for k := 0 to |batch|
      invariant out == FirstBy(all + batch[..k], key)
      invariant ids == set x | x in out :: key(x)
    {
      ghost var sofar := all + batch[..k];
      assert (all + batch[..k + 1])[..|all| + k] == sofar;
      ImageMembers(out, key, key(batch[k]));
      if key(batch[k]) !in ids {
        out := out + [batch[k]];
        ids := ids + {key(batch[k])};
      }
    }
    assert batch[..|batch|] == batch;
  }

  /** A row without entities is passed over. */
  lemma NoEntitiesNothing(env: Env, ev: Evidence)
    requires Entities(env, ev) == []
    ensures NodesOf(env)(ev) == [] && EdgesOf(env)(ev) == []
  {
    assert RuleLinks(ev.source, []) == [];
  }

  /** The node and edge dicts after every row has been extracted in turn. */
  method Accumulate(evidence: seq<Evidence>, nodesOf: Evidence -> seq<Node>, edgesOf: Evidence -> seq<Edge>)
    returns (nodes: seq<Node>, edges: seq<Edge>)
    ensures nodes == FirstBy(Flat(evidence, nodesOf), NodeKey())
    ensures edges == FirstBy(Flat(evidence, edgesOf), EdgeKey())
  {
    nodes, edges := [], [];
    for k := 0 to |evidence|
      invariant nodes == FirstBy(Flat(evidence[..k], nodesOf), NodeKey())
      invariant edges == FirstBy(Flat(evidence[..k], edgesOf), EdgeKey())
    {
      var ev := evidence[k];
      FlatSnoc(evidence, k, nodesOf);
      FlatSnoc(evidence, k, edgesOf);
      nodes := InsertNew(nodes, nodesOf(ev), NodeKey(), Flat(evidence[..k], nodesOf));
      edges := InsertNew(edges, edgesOf(ev), EdgeKey(), Flat(evidence[..k], edgesOf));
    }
    assert evidence[..|evidence|] == evidence;
  }

  method Build(env: Env, evidence: seq<Evidence>) returns (nodes: seq<Node>, edges: seq<Edge>)
    ensures nodes == BuildNodes(env, evidence) && edges == BuildEdges(env, evidence)
  {
    nodes, edges := Accumulate(evidence, NodesOf(env), EdgesOf(env));
  }
}
