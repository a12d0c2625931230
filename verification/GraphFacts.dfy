/** What the fields of a built graph say, in terms of the rows it was built from. */
module GraphFacts {
  import opened Basics
  import opened Sequences
  import opened Evidence
  import opened Graph
  import opened GraphCache

  /** One of the row's related-entity strings is read as this entity. */
  ghost predicate Mentions(env: Env, ev: Evidence, x: Entity) {
    exists v <- ev.entities :: env.classify(v) == Some(x)
  }

  /** The edge states, field by field, that the row supports a link from `x` to `y`. */
  ghost predicate Attests(env: Env, ev: Evidence, x: Entity, y: Entity, e: Edge) {
    && Mentions(env, ev, x) && Mentions(env, ev, y) && Supports(ev.source, Link(x, y, e.relation))
    && e.source == env.nodeId(ev.eventId, x) && e.target == env.nodeId(ev.eventId, y)
    && e.id == env.edgeId(ev.eventId, e.source, e.target, e.relation, ev.id)
    && e.eventId == ev.eventId && e.evidenceId == ev.id && e.occurredAt == ev.timestamp
  }

  ghost predicate Attested(env: Env, evidence: seq<Evidence>, e: Edge) {
    exists ev: Evidence, x: Entity, y: Entity :: ev in evidence && Attests(env, ev, x, y, e)
  }

  /** The node stands for an entity that a row of its event mentions. */
  ghost predicate StandsFor(env: Env, ev: Evidence, n: Node) {
    Mentions(env, ev, n.entity) && n.eventId == ev.eventId && n.id == env.nodeId(ev.eventId, n.entity)
  }

  lemma EntitiesAreMentioned(env: Env, ev: Evidence, x: Entity)
    ensures x in Entities(env, ev) <==> Mentions(env, ev, x)
  {
    FlatMembers(ev.entities, Classified(env), x);
    if Mentions(env, ev, x) {
      var v :| v in ev.entities && env.classify(v) == Some(x);
      assert x in Classified(env)(v);
    }
  }

  lemma RowAttests(env: Env, ev: Evidence, e: Edge)
    ensures e in EdgesOf(env)(ev) <==> exists x: Entity, y: Entity :: Attests(env, ev, x, y, e)
  {
    ImageMembers(LinksOf(env, ev), EdgeOf(env, ev), e);
    if l :| l in LinksOf(env, ev) && EdgeOf(env, ev)(l) == e {
      RuleLinksMeaning(ev.source, Entities(env, ev), l);
      EntitiesAreMentioned(env, ev, l.source);
      EntitiesAreMentioned(env, ev, l.target);
      assert l == Link(l.source, l.target, e.relation);
      assert Attests(env, ev, l.source, l.target, e);
    }
    if x: Entity, y: Entity :| Attests(env, ev, x, y, e) {
      var l := Link(x, y, e.relation);
      RuleLinksMeaning(ev.source, Entities(env, ev), l);
      EntitiesAreMentioned(env, ev, x);
      EntitiesAreMentioned(env, ev, y);
      assert EdgeOf(env, ev)(l) == e;
    }
  }

  /** Every edge of the graph is attested by a row: its ends, direction, relation, ids and time. When the extracted
      edges are told apart by their ids, the graph has every attested edge. */
  lemma EdgesAreAttested(env: Env, evidence: seq<Evidence>, e: Edge)
    ensures e in BuildEdges(env, evidence) ==> Attested(env, evidence, e)
    ensures EdgesToldApart(env, evidence) ==> (e in BuildEdges(env, evidence) <==> Attested(env, evidence, e))
  {
    if e in BuildEdges(env, evidence) {
      var ev := RowOfEdge(env, evidence, e);
      RowAttests(env, ev, e);
    }
    if Attested(env, evidence, e) && EdgesToldApart(env, evidence) {
      var ev: Evidence, x: Entity, y: Entity :| ev in evidence && Attests(env, ev, x, y, e);
      RowAttests(env, ev, e);
      EdgeSurvives(env, evidence, ev, e);
    }
  }

  lemma NodeEntitiesAreEntities(env: Env, ev: Evidence, x: Entity)
    ensures x in NodeEntities(env, ev) <==> x in Entities(env, ev)
  {
    NodeEntitiesCover(env, ev);
    var links := LinksOf(env, ev);
    if x in NodeEntities(env, ev) && HasRule(ev.source) {
      UnmentionedCovers(Entities(env, ev), Mentioned(links));
      if x in Mentioned(links) {
        FlatMembers(links, ENDS, x);
        var l :| l in links && x in ENDS(l);
        RuleLinksMeaning(ev.source, Entities(env, ev), l);
      }
    }
  }

  lemma RowStandsFor(env: Env, ev: Evidence, n: Node)
    ensures n in NodesOf(env)(ev) <==> StandsFor(env, ev, n)
  {
    ImageMembers(NodeEntities(env, ev), NodeOf(env, ev.eventId), n);
    NodeEntitiesAreEntities(env, ev, n.entity);
    EntitiesAreMentioned(env, ev, n.entity);
    if StandsFor(env, ev, n) {
      assert NodeOf(env, ev.eventId)(n.entity) == n;
    }
  }

  /** Every node of the graph stands for a mentioned entity; when nodes are told apart by their ids, every mentioned
      entity has its own node. */
  lemma NodesStandForEntities(env: Env, evidence: seq<Evidence>, n: Node)
    ensures n in BuildNodes(env, evidence) ==> exists ev :: ev in evidence && StandsFor(env, ev, n)
    ensures NodesToldApart(env, evidence) ==>
              (n in BuildNodes(env, evidence) <==> exists ev :: ev in evidence && StandsFor(env, ev, n))
  {
    var all := Flat(evidence, NodesOf(env));
    FirstByIds(all, NodeKey());
    FlatMembers(evidence, NodesOf(env), n);
    if n in BuildNodes(env, evidence) {
      var ev :| ev in evidence && n in NodesOf(env)(ev);
      RowStandsFor(env, ev, n);
    }
    if NodesToldApart(env, evidence) {
      if ev :| ev in evidence && StandsFor(env, ev, n) {
        RowStandsFor(env, ev, n);
        FirstByKeeps(all, NodeKey(), n);
      }
    }
  }
}
