/** The knowledge graph builder (localknow/graph/builder.py): a directed
    graph whose nodes are concept, principle and controversy names with an
    attribute dictionary each, and whose edges run from a principle to the
    concepts its rationale mentions. json.dumps of the viewpoints is the
    parameter `dumps`. */
module Graph {
  import opened Common
  import opened Types

  /** The networkx DiGraph: node attributes by node, edge attributes by
      (source, target). The builder's graphs are keyed by strings and hold
      JSON-like attribute values (`KnowledgeGraph`). */
  datatype Digraph<N(==, !new), K(==), V> = Digraph(nodes: map<N, map<K, V>>, edges: map<(N, N), map<K, V>>)

  type Attrs = map<string, Json>
  type KnowledgeGraph = Digraph<string, string, Json>

  const EmptyGraph: KnowledgeGraph := Digraph(map[], map[])

  /** The attribute names and values the builder writes. */
  const TypeKey: string := "type"
  const ConfidenceKey: string := "confidence"
  const DescriptionKey: string := "description"
  const RationaleKey: string := "rationale"
  const ViewpointsKey: string := "viewpoints"
  const DocIdKey: string := "doc_id"
  const RelKey: string := "rel"
  const ConceptType: string := "concept"
  const PrincipleType: string := "principle"
  const ControversyType: string := "controversy"
  const ExplainsRel: string := "explains"

  /** G.add_node(name, **attrs): a new node with these attributes, or the
      existing node's attributes updated with them. */
  function AddNode<N(==, !new), K(==), V>(g: Digraph<N, K, V>, name: N, attrs: map<K, V>): Digraph<N, K, V>
  {
    Digraph(g.nodes[name := if name in g.nodes then g.nodes[name] + attrs else attrs], g.edges)
  }

  /** G.add_edge(u, v, **attrs): missing endpoints become nodes without
      attributes; the edge is added, or its attributes updated. */
  function AddEdge<N(==, !new), K(==), V>(g: Digraph<N, K, V>, u: N, v: N, attrs: map<K, V>): Digraph<N, K, V>
  {
    var withU := if u in g.nodes then g.nodes else g.nodes[u := map[]];
    var nodes := if v in withU then withU else withU[v := map[]];
    Digraph(nodes, g.edges[(u, v) := if (u, v) in g.edges then g.edges[(u, v)] + attrs else attrs])
  }

  /** add_node adds the name if it is new, leaves the edges and every other
      node alone, and the given attributes win over the stored ones, which
      are otherwise kept. */
  lemma AddNodeEffect<N(!new), K, V>(g: Digraph<N, K, V>, name: N, attrs: map<K, V>)
    ensures var h := AddNode(g, name, attrs);
      && h.nodes.Keys == g.nodes.Keys + {name} && h.edges == g.edges
      && (forall n :: n in g.nodes && n != name ==> h.nodes[n] == g.nodes[n])
      && (forall k :: k in attrs ==> k in h.nodes[name] && h.nodes[name][k] == attrs[k])
      && (name in g.nodes ==> forall k :: k in g.nodes[name] && k !in attrs ==> k in h.nodes[name] && h.nodes[name][k] == g.nodes[name][k])
  {
  }

  /** add_edge adds the missing endpoints as bare nodes and the edge if it
      is new; existing nodes and other edges keep their attributes, and the
      given attributes win on the edge. */
  lemma AddEdgeEffect<N(!new), K, V>(g: Digraph<N, K, V>, u: N, v: N, attrs: map<K, V>)
    ensures var h := AddEdge(g, u, v, attrs);
      && h.nodes.Keys == g.nodes.Keys + {u, v} && h.edges.Keys == g.edges.Keys + {(u, v)}
      && (forall n :: n in g.nodes ==> h.nodes[n] == g.nodes[n])
      && (forall n :: n in h.nodes && n !in g.nodes ==> h.nodes[n] == map[])
      && (forall e :: e in g.edges && e != (u, v) ==> h.edges[e] == g.edges[e])
      && (forall k :: k in attrs ==> k in h.edges[(u, v)] && h.edges[(u, v)][k] == attrs[k])
  {
  }

  // ------------------------------------------------------------------ nodes

  /** A node to add: its name and its attributes. */
  datatype Entry<N, K(==), V> = Entry(name: N, attrs: map<K, V>)

  function ConceptEntry(c: Concept, docId: string): Entry<string, string, Json>
  {
    Entry(c.name, map[TypeKey := JString(ConceptType), ConfidenceKey := JNumber(c.confidence),
                      DescriptionKey := JString(c.description), DocIdKey := JString(docId)])
  }

  function PrincipleEntry(p: Principle, docId: string): Entry<string, string, Json>
  {
    Entry(p.name, map[TypeKey := JString(PrincipleType), ConfidenceKey := JNumber(p.confidence),
                      RationaleKey := JString(p.rationale), DocIdKey := JString(docId)])
  }

  function ControversyEntry(c: Controversy, docId: string, dumps: Json -> string): Entry<string, string, Json>
  {
    Entry(c.topic, map[TypeKey := JString(ControversyType), ConfidenceKey := JNumber(c.confidence),
                       ViewpointsKey := JString(dumps(c.viewpoints)), DocIdKey := JString(docId)])
  }

  /** add_node for each entry, in order. */
  function AddNodes<N(==, !new), K(==), V>(g: Digraph<N, K, V>, entries: seq<Entry<N, K, V>>): Digraph<N, K, V>
  {
    if entries == [] then g
    else
      var e := entries[|entries| - 1];
      AddNode(AddNodes(g, entries[..|entries| - 1]), e.name, e.attrs)
  }

  /** The names the entries add. */
  function Names<N(==, !new), K(==), V>(entries: seq<Entry<N, K, V>>): (r: set<N>)
    ensures forall i :: 0 <= i < |entries| ==> entries[i].name in r
    ensures forall n :: n in r ==> exists i :: 0 <= i < |entries| && entries[i].name == n
  {
    if entries == [] then {} else Names(entries[..|entries| - 1]) + {entries[|entries| - 1].name}
  }

  /** Adding nodes removes nothing and touches no edge: the node names
      afterwards are the old ones and the entries' names. */
  lemma {:induction false} AddNodesKeys<N(!new), K, V>(g: Digraph<N, K, V>, entries: seq<Entry<N, K, V>>)
    ensures AddNodes(g, entries).edges == g.edges
    ensures AddNodes(g, entries).nodes.Keys == g.nodes.Keys + Names(entries)
  {
    if entries != [] {
      AddNodesKeys(g, entries[..|entries| - 1]);
    }
  }

  /** A name added more than once keeps every attribute of its last entry:
      re-adding updates the node instead of making a second one. */
  lemma {:induction false} LastEntryWins<N(!new), K, V>(g: Digraph<N, K, V>, entries: seq<Entry<N, K, V>>, j: int)
    requires 0 <= j < |entries|
    requires forall i :: j < i < |entries| ==> entries[i].name != entries[j].name
    ensures entries[j].name in AddNodes(g, entries).nodes
    ensures forall k :: k in entries[j].attrs ==>
      k in AddNodes(g, entries).nodes[entries[j].name] && AddNodes(g, entries).nodes[entries[j].name][k] == entries[j].attrs[k]
  {
    if j < |entries| - 1 {
      LastEntryWins(g, entries[..|entries| - 1], j);
    }
  }

  /** Nodes no entry names keep their attributes. */
  lemma {:induction false} OtherNodesKept<N(!new), K, V>(g: Digraph<N, K, V>, entries: seq<Entry<N, K, V>>, n: N)
    requires n in g.nodes && forall i :: 0 <= i < |entries| ==> entries[i].name != n
    ensures n in AddNodes(g, entries).nodes && AddNodes(g, entries).nodes[n] == g.nodes[n]
  {
    if entries != [] {
      OtherNodesKept(g, entries[..|entries| - 1], n);
    }
  }

  function ConceptEntries(cs: seq<Concept>, docId: string): (r: seq<Entry<string, string, Json>>)
    ensures |r| == |cs| && forall i :: 0 <= i < |cs| ==> r[i] == ConceptEntry(cs[i], docId)
  {
    seq(|cs|, i requires 0 <= i < |cs| => ConceptEntry(cs[i], docId))
  }

  function PrincipleEntries(ps: seq<Principle>, docId: string): (r: seq<Entry<string, string, Json>>)
    ensures |r| == |ps| && forall i :: 0 <= i < |ps| ==> r[i] == PrincipleEntry(ps[i], docId)
  {
    seq(|ps|, i requires 0 <= i < |ps| => PrincipleEntry(ps[i], docId))
  }

  function ControversyEntries(cs: seq<Controversy>, docId: string, dumps: Json -> string): (r: seq<Entry<string, string, Json>>)
    ensures |r| == |cs| && forall i :: 0 <= i < |cs| ==> r[i] == ControversyEntry(cs[i], docId, dumps)
  {
    seq(|cs|, i requires 0 <= i < |cs| => ControversyEntry(cs[i], docId, dumps))
  }

  /** After add_concepts, a concept whose name does not recur later in the
      list is a node typed "concept" carrying its own confidence,
      description and document id. */
  lemma ConceptNodeAttributes(g: KnowledgeGraph, cs: seq<Concept>, docId: string, j: int)
    requires 0 <= j < |cs| && forall i :: j < i < |cs| ==> cs[i].name != cs[j].name
    ensures var n := AddNodes(g, ConceptEntries(cs, docId)).nodes;
      && cs[j].name in n
      && TypeKey in n[cs[j].name] && n[cs[j].name][TypeKey] == JString(ConceptType)
      && ConfidenceKey in n[cs[j].name] && n[cs[j].name][ConfidenceKey] == JNumber(cs[j].confidence)
      && DescriptionKey in n[cs[j].name] && n[cs[j].name][DescriptionKey] == JString(cs[j].description)
      && DocIdKey in n[cs[j].name] && n[cs[j].name][DocIdKey] == JString(docId)
  {
    LastEntryWins(g, ConceptEntries(cs, docId), j);
  }

  // ------------------------------------------------------------------ edges

  /** The linking heuristic: the concept's lower-cased name occurs in the
      principle's lower-cased rationale. */
  predicate Explains(c: Concept, p: Principle)
  {
    Contains(Lower(p.rationale), Lower(c.name))
  }

  /** The (principle, concept) edges map_dependencies adds for one concept,
      in principle order. */
  function LinksFor(c: Concept, ps: seq<Principle>): (r: seq<(string, string)>)
    ensures |r| <= |ps|
  {
    if ps == [] then []
    else
      var p := ps[|ps| - 1];
      LinksFor(c, ps[..|ps| - 1]) + (if Explains(c, p) then [(p.name, c.name)] else [])
  }

  /** All edges map_dependencies adds, concept by concept. */
  function Links(cs: seq<Concept>, ps: seq<Principle>): (r: seq<(string, string)>)
    ensures |r| <= |cs| * |ps|
  {
    if cs == [] then []
    else
      assert (|cs| - 1) * |ps| + |ps| == |cs| * |ps|;
      Links(cs[..|cs| - 1], ps) + LinksFor(cs[|cs| - 1], ps)
  }

  lemma LinksForMembership(c: Concept, ps: seq<Principle>, e: (string, string))
    ensures e in LinksFor(c, ps) <==> e.1 == c.name && exists j :: 0 <= j < |ps| && ps[j].name == e.0 && Explains(c, ps[j])
  {
    var explains := (p: Principle) => Explains(c, p);
    LinksForIsLinksWhere(c, ps, explains);
    LinksWhereMembership(c.name, ps, explains, e);
  }

  /** LinksFor with the heuristic as a parameter, for the membership proof. */
  function LinksWhere(name: string, ps: seq<Principle>, explains: Principle -> bool): seq<(string, string)>
  {
    if ps == [] then []
    else
      var p := ps[|ps| - 1];
      LinksWhere(name, ps[..|ps| - 1], explains) + (if explains(p) then [(p.name, name)] else [])
  }

  lemma {:induction false} LinksForIsLinksWhere(c: Concept, ps: seq<Principle>, explains: Principle -> bool)
    requires forall p :: explains(p) == Explains(c, p)
    ensures LinksFor(c, ps) == LinksWhere(c.name, ps, explains)
  {
    if ps != [] {
      LinksForIsLinksWhere(c, ps[..|ps| - 1], explains);
    }
  }

  lemma {:induction false} LinksWhereMembership(name: string, ps: seq<Principle>, explains: Principle -> bool, e: (string, string))
    ensures e in LinksWhere(name, ps, explains) <==>
      e.1 == name && exists j :: 0 <= j < |ps| && ps[j].name == e.0 && explains(ps[j])
  {
    if ps != [] {
      var init := ps[..|ps| - 1];
      LinksWhereMembership(name, init, explains, e);
      if exists j :: 0 <= j < |init| && init[j].name == e.0 && explains(init[j]) {
        var j :| 0 <= j < |init| && init[j].name == e.0 && explains(init[j]);
        assert ps[j] == init[j];
      }
    }
  }

  /** An edge principle -> concept is listed exactly when some concept of
      that name is explained by some principle of that name. */
  lemma {:induction false} LinksMembership(cs: seq<Concept>, ps: seq<Principle>, e: (string, string))
    ensures e in Links(cs, ps) <==>
      exists i, j :: 0 <= i < |cs| && 0 <= j < |ps| && cs[i].name == e.1 && ps[j].name == e.0 && Explains(cs[i], ps[j])
  {
    if cs != [] {
      var init := cs[..|cs| - 1];
      LinksMembership(init, ps, e);
      LinksForMembership(cs[|cs| - 1], ps, e);
      if exists i, j :: 0 <= i < |init| && 0 <= j < |ps| && init[i].name == e.1 && ps[j].name == e.0 && Explains(init[i], ps[j]) {
        var i, j :| 0 <= i < |init| && 0 <= j < |ps| && init[i].name == e.1 && ps[j].name == e.0 && Explains(init[i], ps[j]);
        assert cs[i] == init[i];
      }
      if exists i, j :: 0 <= i < |cs| && 0 <= j < |ps| && cs[i].name == e.1 && ps[j].name == e.0 && Explains(cs[i], ps[j]) {
        var i, j :| 0 <= i < |cs| && 0 <= j < |ps| && cs[i].name == e.1 && ps[j].name == e.0 && Explains(cs[i], ps[j]);
        if i < |cs| - 1 {
          assert init[i] == cs[i];
        }
      }
    }
  }

  /** At most one edge per (concept, principle) pair. */
  lemma {:induction false} LinksCount(cs: seq<Concept>, ps: seq<Principle>)
    ensures |Links(cs, ps)| <= |cs| * |ps|
  {
    if cs != [] {
      LinksCount(cs[..|cs| - 1], ps);
      assert (|cs| - 1) * |ps| + |ps| == |cs| * |ps|;
    }
  }

  /** The edge attributes map_dependencies sets. */
  const ExplainsAttrs: Attrs := map[RelKey := JString(ExplainsRel)]

  /** add_edge(u, v, **attrs) for each pair, in order. */
  function AddEdges<N(==, !new), K(==), V>(g: Digraph<N, K, V>, pairs: seq<(N, N)>, attrs: map<K, V>): Digraph<N, K, V>
  {
    if pairs == [] then g
    else
      var e := pairs[|pairs| - 1];
      AddEdge(AddEdges(g, pairs[..|pairs| - 1], attrs), e.0, e.1, attrs)
  }

  lemma {:induction false} AddEdgesAppend<N(!new), K, V>(g: Digraph<N, K, V>, a: seq<(N, N)>, b: seq<(N, N)>, attrs: map<K, V>)
    ensures AddEdges(g, a + b, attrs) == AddEdges(AddEdges(g, a, attrs), b, attrs)
  {
    if b == [] {
      assert a + b == a;
    } else {
      assert (a + b)[..|a + b| - 1] == a + b[..|b| - 1];
      AddEdgesAppend(g, a, b[..|b| - 1], attrs);
    }
  }

  lemma AddEdgesSnoc<N(!new), K, V>(g: Digraph<N, K, V>, a: seq<(N, N)>, e: (N, N), attrs: map<K, V>)
    ensures AddEdges(g, a + [e], attrs) == AddEdge(AddEdges(g, a, attrs), e.0, e.1, attrs)
  {
    assert (a + [e])[..|a|] == a;
  }

  /** Adding edges removes no node, keeps every existing node's attributes
      and makes each endpoint a node. */
  lemma {:induction false} AddEdgesNodes<N(!new), K, V>(g: Digraph<N, K, V>, pairs: seq<(N, N)>, attrs: map<K, V>)
    ensures var r := AddEdges(g, pairs, attrs);
      && (forall n :: n in g.nodes ==> n in r.nodes && r.nodes[n] == g.nodes[n])
      && (forall i :: 0 <= i < |pairs| ==> pairs[i].0 in r.nodes && pairs[i].1 in r.nodes)
  {
    if pairs != [] {
      var init := pairs[..|pairs| - 1];
      AddEdgesNodes(g, init, attrs);
      var m := AddEdges(g, init, attrs);
      var r := AddEdges(g, pairs, attrs);
      AddEdgeNodes(m, pairs[|pairs| - 1].0, pairs[|pairs| - 1].1, attrs);
      forall i | 0 <= i < |pairs|
        ensures pairs[i].0 in r.nodes && pairs[i].1 in r.nodes
      {
        if i < |init| {
          assert pairs[i] == init[i];
        }
      }
    }
  }

  /** One edge keeps every node and its attributes and adds its endpoints. */
  lemma AddEdgeNodes<N(!new), K, V>(g: Digraph<N, K, V>, u: N, v: N, attrs: map<K, V>)
    ensures var r := AddEdge(g, u, v, attrs);
      && (forall n :: n in g.nodes ==> n in r.nodes && r.nodes[n] == g.nodes[n])
      && u in r.nodes && v in r.nodes
  {
  }

  /** Adding edges removes no edge, adds exactly the listed ones, and at
      most one per listed pair. */
  lemma {:induction false} AddEdgesKeys<N(!new), K, V>(g: Digraph<N, K, V>, pairs: seq<(N, N)>, attrs: map<K, V>)
    ensures var r := AddEdges(g, pairs, attrs);
      && (forall e :: e in r.edges <==> e in g.edges || e in pairs)
      && |r.edges.Keys| <= |g.edges.Keys| + |pairs|
  {
    if pairs != [] {
      var init, e := pairs[..|pairs| - 1], pairs[|pairs| - 1];
      assert pairs == init + [e];
      AddEdgesKeys(g, init, attrs);
      var m := AddEdges(g, init, attrs);
      var r := AddEdge(m, e.0, e.1, attrs);
      if e in m.edges {
        assert r.edges.Keys == m.edges.Keys;
      } else {
        assert r.edges.Keys == m.edges.Keys + {e};
      }
    }
  }

  /** A listed edge carries every attribute given. */
  lemma {:induction false} AddEdgesAttrs<N(!new), K, V>(g: Digraph<N, K, V>, pairs: seq<(N, N)>, attrs: map<K, V>, e: (N, N))
    requires e in pairs
    ensures var r := AddEdges(g, pairs, attrs);
      e in r.edges && forall k :: k in attrs ==> k in r.edges[e] && r.edges[e][k] == attrs[k]
  {
    if pairs[|pairs| - 1] != e {
      assert pairs == pairs[..|pairs| - 1] + [pairs[|pairs| - 1]];
      AddEdgesAttrs(g, pairs[..|pairs| - 1], attrs, e);
    }
  }

  /** Every edge map_dependencies adds joins a principle to a concept it
      explains, and there are at most |concepts| * |principles| new ones. */
  lemma DependencyEdges(g: KnowledgeGraph, cs: seq<Concept>, ps: seq<Principle>, e: (string, string))
    ensures e in AddEdges(g, Links(cs, ps), ExplainsAttrs).edges <==> (e in g.edges ||
      exists i, j :: 0 <= i < |cs| && 0 <= j < |ps| && cs[i].name == e.1 && ps[j].name == e.0 && Explains(cs[i], ps[j]))
    ensures e in Links(cs, ps) ==> var r := AddEdges(g, Links(cs, ps), ExplainsAttrs);
      e in r.edges && RelKey in r.edges[e] && r.edges[e][RelKey] == JString(ExplainsRel)
    ensures |AddEdges(g, Links(cs, ps), ExplainsAttrs).edges.Keys| <= |g.edges.Keys| + |cs| * |ps|
  {
    AddEdgesKeys(g, Links(cs, ps), ExplainsAttrs);
    if e in Links(cs, ps) {
      AddEdgesAttrs(g, Links(cs, ps), ExplainsAttrs, e);
    }
    LinksMembership(cs, ps, e);
    LinksCount(cs, ps);
  }

  /** HierarchicalKnowledgeBuilder: the graph, extended in place. */
  class KnowledgeBuilder {
    var graph: KnowledgeGraph

    constructor()
      ensures graph == EmptyGraph
    {
      graph := EmptyGraph;
    }

    method AddEntries(entries: seq<Entry<string, string, Json>>)
      modifies this
      ensures graph == AddNodes(old(graph), entries)
    {
      var i := 0;
      while i < |entries|
        invariant 0 <= i <= |entries|
        invariant graph == AddNodes(old(graph), entries[..i])
      {
        assert entries[..i + 1][..i] == entries[..i];
        graph := AddNode(graph, entries[i].name, entries[i].attrs);
        i := i + 1;
      }
      assert entries[..i] == entries;
    }

    /** add_concepts. */
    method AddConcepts(concepts: seq<Concept>, docId: string)
      modifies this
      ensures graph == AddNodes(old(graph), ConceptEntries(concepts, docId))
    {
      AddEntries(ConceptEntries(concepts, docId));
    }

    /** add_principles. */
    method AddPrinciples(principles: seq<Principle>, docId: string)
      modifies this
      ensures graph == AddNodes(old(graph), PrincipleEntries(principles, docId))
    {
      AddEntries(PrincipleEntries(principles, docId));
    }

    /** add_controversies. */
    method AddControversies(controversies: seq<Controversy>, docId: string, dumps: Json -> string)
      modifies this
      ensures graph == AddNodes(old(graph), ControversyEntries(controversies, docId, dumps))
    {
      AddEntries(ControversyEntries(controversies, docId, dumps));
    }

    /** The inner loop of map_dependencies: one concept against every
        principle. */
    method LinkConcept(c: Concept, principles: seq<Principle>)
      modifies this
      ensures graph == AddEdges(old(graph), LinksFor(c, principles), ExplainsAttrs)
    {
      var j := 0;
      while j < |principles|
        invariant 0 <= j <= |principles|
        invariant graph == AddEdges(old(graph), LinksFor(c, principles[..j]), ExplainsAttrs)
      {
        assert principles[..j + 1][..j] == principles[..j];
        var p := principles[j];
        if Explains(c, p) {
          AddEdgesSnoc(old(graph), LinksFor(c, principles[..j]), (p.name, c.name), ExplainsAttrs);
          graph := AddEdge(graph, p.name, c.name, ExplainsAttrs);
        } else {
          assert LinksFor(c, principles[..j + 1]) == LinksFor(c, principles[..j]) + [];
          assert LinksFor(c, principles[..j]) + [] == LinksFor(c, principles[..j]);
        }
        j := j + 1;
      }
      assert principles[..j] == principles;
    }

    /** map_dependencies: for each concept, for each principle, the edge
        principle -> concept when the rationale mentions the concept. */
    method MapDependencies(concepts: seq<Concept>, principles: seq<Principle>)
      modifies this
      ensures graph == AddEdges(old(graph), Links(concepts, principles), ExplainsAttrs)
    {
      var i := 0;
      while i < |concepts|
        invariant 0 <= i <= |concepts|
        invariant graph == AddEdges(old(graph), Links(concepts[..i], principles), ExplainsAttrs)
      {
        assert concepts[..i + 1][..i] == concepts[..i];
        AddEdgesAppend(old(graph), Links(concepts[..i], principles), LinksFor(concepts[i], principles), ExplainsAttrs);
        LinkConcept(concepts[i], principles);
        i := i + 1;
      }
      assert concepts[..i] == concepts;
    }
  }
}
