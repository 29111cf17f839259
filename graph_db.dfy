/** `GraphService`: each user's memory graph, kept in the `graph_nodes` and
    `graph_edges` tables. A table is a sequence of rows in row-id order, and
    a new row gets the row id SQLite gives it: one more than the largest. */
module GraphDb {
  import opened Wrappers
  import Seqs

  datatype Node = Node(id: nat, userId: int, name: string, kind: string)
  datatype Edge = Edge(id: nat, sourceId: nat, targetId: nat, relationship: string)

  function NodeId(n: Node): nat { n.id }
  function EdgeId(e: Edge): nat { e.id }

  /** The row id of a new row: 1 in an empty table, else the largest id
      plus one. */
  function NextId<T>(key: T -> nat, rows: seq<T>): (id: nat)
    ensures forall i :: 0 <= i < |rows| ==> key(rows[i]) < id
    ensures id == 1 || exists i :: 0 <= i < |rows| && id == key(rows[i]) + 1
  {
    if |rows| == 0 then 1
    else
      var m := NextId(key, rows[..|rows| - 1]);
      var last := key(rows[|rows| - 1]);
      if last >= m then last + 1 else m
  }

  /** The rows of both tables have distinct ids (their primary keys). */
  ghost predicate TablesValid(nodes: seq<Node>, edges: seq<Edge>) {
    Seqs.DistinctKeys(NodeId, nodes) && Seqs.DistinctKeys(EdgeId, edges)
  }

  // ---------------------------------------------------------------------
  // Adding nodes and edges

  function Named(userId: int, name: string): Node -> bool {
    (n: Node) => n.userId == userId && n.name == name
  }

  /** The node table after `add_node`: unchanged when the user already has a
      node with that name, whatever its type; else one new node at the end. */
  function NodesAfterAdd(nodes: seq<Node>, userId: int, name: string, kind: string): seq<Node> {
    match Seqs.FirstIndex(Named(userId, name), nodes)
    case Some(_) => nodes
    case None => nodes + [Node(NextId(NodeId, nodes), userId, name, kind)]
  }

  /** `add_node`'s result: the first existing node, or the new one. */
  function AddedNode(nodes: seq<Node>, userId: int, name: string, kind: string): Node {
    match Seqs.FirstIndex(Named(userId, name), nodes)
    case Some(i) => nodes[i]
    case None => Node(NextId(NodeId, nodes), userId, name, kind)
  }

  /** A second `add_node` for the same user and name changes nothing and
      returns the node the first one returned, whatever type it asks for. */
  lemma AddNodeIdempotent(nodes: seq<Node>, userId: int, name: string, kind: string, kind2: string)
    ensures var once := NodesAfterAdd(nodes, userId, name, kind);
      && NodesAfterAdd(once, userId, name, kind2) == once
      && AddedNode(once, userId, name, kind2) == AddedNode(nodes, userId, name, kind)
  {
    var p := Named(userId, name);
    if Seqs.FirstIndex(p, nodes).None? {
      var once := NodesAfterAdd(nodes, userId, name, kind);
      assert p(once[|nodes|]);
    }
  }

  /** After `add_node` the user has a node with that name, and it is the
      node returned; a new node gets an id no other row has. */
  lemma AddNodeFindable(nodes: seq<Node>, userId: int, name: string, kind: string)
    requires Seqs.DistinctKeys(NodeId, nodes)
    ensures var after := NodesAfterAdd(nodes, userId, name, kind);
      var node := AddedNode(nodes, userId, name, kind);
      && node in after && node.userId == userId && node.name == name
      && Seqs.DistinctKeys(NodeId, after)
      && (|after| == |nodes| || (after == nodes + [node] && node.kind == kind))
  {
  }

  function Linking(sourceId: nat, targetId: nat, relationship: string): Edge -> bool {
    (e: Edge) => e.sourceId == sourceId && e.targetId == targetId && e.relationship == relationship
  }

  /** The edge table after `add_edge`: deduplicated on source, target and
      relationship; the two nodes are not checked. */
  function EdgesAfterAdd(edges: seq<Edge>, sourceId: nat, targetId: nat, relationship: string): seq<Edge> {
    match Seqs.FirstIndex(Linking(sourceId, targetId, relationship), edges)
    case Some(_) => edges
    case None => edges + [Edge(NextId(EdgeId, edges), sourceId, targetId, relationship)]
  }

  function AddedEdge(edges: seq<Edge>, sourceId: nat, targetId: nat, relationship: string): Edge {
    match Seqs.FirstIndex(Linking(sourceId, targetId, relationship), edges)
    case Some(i) => edges[i]
    case None => Edge(NextId(EdgeId, edges), sourceId, targetId, relationship)
  }

  /** A second `add_edge` with the same ends and relationship changes
      nothing and returns the same edge. */
  lemma AddEdgeIdempotent(edges: seq<Edge>, sourceId: nat, targetId: nat, relationship: string)
    ensures var once := EdgesAfterAdd(edges, sourceId, targetId, relationship);
      && EdgesAfterAdd(once, sourceId, targetId, relationship) == once
      && AddedEdge(once, sourceId, targetId, relationship) == AddedEdge(edges, sourceId, targetId, relationship)
  {
    var p := Linking(sourceId, targetId, relationship);
    if Seqs.FirstIndex(p, edges).None? {
      var once := EdgesAfterAdd(edges, sourceId, targetId, relationship);
      assert p(once[|edges|]);
    }
  }

  /** After `add_edge` the table has the edge, and one row more exactly when
      it had none like it. */
  lemma AddEdgeFindable(edges: seq<Edge>, sourceId: nat, targetId: nat, relationship: string)
    requires Seqs.DistinctKeys(EdgeId, edges)
    ensures var after := EdgesAfterAdd(edges, sourceId, targetId, relationship);
      var edge := AddedEdge(edges, sourceId, targetId, relationship);
      && edge in after && edge.sourceId == sourceId && edge.targetId == targetId && edge.relationship == relationship
      && Seqs.DistinctKeys(EdgeId, after)
      && (|after| == |edges| + 1 <==> forall e :: e in edges ==> !Linking(sourceId, targetId, relationship)(e))
  {
  }

  // ---------------------------------------------------------------------
  // Deleting and relabelling

  function HasId(nodeId: nat): Node -> bool {
    (n: Node) => n.id == nodeId
  }

  function OtherId(nodeId: nat): Node -> bool {
    (n: Node) => n.id != nodeId
  }

  function Untouched(nodeId: nat): Edge -> bool {
    (e: Edge) => e.sourceId != nodeId && e.targetId != nodeId
  }

  /** Deleting a node keeps every other node and every edge that does not
      touch it; nothing left has its id or touches it. */
  lemma DeleteKeepsTheRest(nodes: seq<Node>, edges: seq<Edge>, nodeId: nat, n: Node, e: Edge)
    ensures n in Seqs.Filter(OtherId(nodeId), nodes) <==> n in nodes && n.id != nodeId
    ensures e in Seqs.Filter(Untouched(nodeId), edges) <==> e in edges && e.sourceId != nodeId && e.targetId != nodeId
  {
    Seqs.FilterHas(OtherId(nodeId), nodes, n);
    Seqs.FilterHas(Untouched(nodeId), edges, e);
  }

  // ---------------------------------------------------------------------
  // Reading a user's graph

  /** The two lists `get_user_graph` returns, as rows. */
  datatype Graph = Graph(nodes: seq<Node>, edges: seq<Edge>)

  function Owned(userId: int): Node -> bool {
    (n: Node) => n.userId == userId
  }

  function Within(ids: seq<nat>): Edge -> bool {
    (e: Edge) => e.sourceId in ids && e.targetId in ids
  }

  function UserGraph(nodes: seq<Node>, edges: seq<Edge>, userId: int): Graph {
    var mine := Seqs.Filter(Owned(userId), nodes);
    Graph(mine, Seqs.Filter(Within(Seqs.Map(NodeId, mine)), edges))
  }

  /** The user's graph is exactly the user's nodes, and the edges with both
      ends among them. */
  lemma UserGraphExact(nodes: seq<Node>, edges: seq<Edge>, userId: int, n: Node, e: Edge)
    ensures n in UserGraph(nodes, edges, userId).nodes <==> n in nodes && n.userId == userId
    ensures e in UserGraph(nodes, edges, userId).edges <==>
      && e in edges
      && (exists s :: s in nodes && s.userId == userId && s.id == e.sourceId)
      && (exists t :: t in nodes && t.userId == userId && t.id == e.targetId)
  {
    var mine := Seqs.Filter(Owned(userId), nodes);
    var ids := Seqs.Map(NodeId, mine);
    Seqs.FilterHas(Owned(userId), nodes, n);
    Seqs.FilterHas(Within(ids), edges, e);
    Seqs.MapHas(NodeId, mine, e.sourceId);
    Seqs.MapHas(NodeId, mine, e.targetId);
    forall m | m in nodes
      ensures m in mine <==> m.userId == userId
    {
      Seqs.FilterHas(Owned(userId), nodes, m);
    }
    forall m | m in mine
      ensures m in nodes
    {
      Seqs.FilterHas(Owned(userId), nodes, m);
    }
  }

  // ---------------------------------------------------------------------
  // The service

  class GraphService {
    var nodes: seq<Node>
    var edges: seq<Edge>

    ghost predicate Valid()
      reads this
    {
      TablesValid(nodes, edges)
    }

    /** A service over the tables as they are in the database. */
    constructor (nodes: seq<Node>, edges: seq<Edge>)
      requires TablesValid(nodes, edges)
      ensures Valid() && this.nodes == nodes && this.edges == edges
    {
      this.nodes := nodes;
      this.edges := edges;
    }

    method GetUserGraph(userId: int) returns (graph: Graph)
      ensures graph == UserGraph(nodes, edges, userId)
    {
      var mine := Seqs.Filter(Owned(userId), nodes);
      var nodeIds := Seqs.Map(NodeId, mine);
      var linked := Seqs.Filter(Within(nodeIds), edges);
      graph := Graph(mine, linked);
    }

    method AddNode(userId: int, name: string, kind: string) returns (node: Node)
      requires Valid()
      modifies this
      ensures Valid()
      ensures nodes == NodesAfterAdd(old(nodes), userId, name, kind) && edges == old(edges)
      ensures node == AddedNode(old(nodes), userId, name, kind)
    {
      AddNodeFindable(nodes, userId, name, kind);
      var existing := Seqs.FirstIndex(Named(userId, name), nodes);
      if existing.Some? {
        return nodes[existing.value];
      }
      node := Node(NextId(NodeId, nodes), userId, name, kind);
      nodes := nodes + [node];
    }

    method AddEdge(sourceId: nat, targetId: nat, relationship: string) returns (edge: Edge)
      requires Valid()
      modifies this
      ensures Valid()
      ensures edges == EdgesAfterAdd(old(edges), sourceId, targetId, relationship) && nodes == old(nodes)
      ensures edge == AddedEdge(old(edges), sourceId, targetId, relationship)
    {
      AddEdgeFindable(edges, sourceId, targetId, relationship);
      var existing := Seqs.FirstIndex(Linking(sourceId, targetId, relationship), edges);
      if existing.Some? {
        return edges[existing.value];
      }
      edge := Edge(NextId(EdgeId, edges), sourceId, targetId, relationship);
      edges := edges + [edge];
    }

    /** Deletes the edges touching the node, then the node, and commits;
        when there is no such node nothing is committed and the tables stay
        as they were. */
    method DeleteNode(nodeId: nat) returns (deleted: bool)
      requires Valid()
      modifies this
      ensures Valid()
      ensures deleted <==> exists i :: 0 <= i < |old(nodes)| && old(nodes)[i].id == nodeId
      ensures deleted ==>
        && nodes == Seqs.Filter(OtherId(nodeId), old(nodes))
        && edges == Seqs.Filter(Untouched(nodeId), old(edges))
      ensures !deleted ==> nodes == old(nodes) && edges == old(edges)
    {
      var remaining := Seqs.Filter(Untouched(nodeId), edges);
      var node := Seqs.FirstIndex(HasId(nodeId), nodes);
      if node.Some? {
        Seqs.FilterDistinct(Untouched(nodeId), EdgeId, edges);
        Seqs.FilterDistinct(OtherId(nodeId), NodeId, nodes);
        edges := remaining;
        nodes := Seqs.Filter(OtherId(nodeId), nodes);
        return true;
      }
      return false;
    }

    method UpdateNode(nodeId: nat, newName: string) returns (r: Option<Node>)
      requires Valid()
      modifies this
      ensures Valid() && edges == old(edges)
      ensures match Seqs.FirstIndex(HasId(nodeId), old(nodes))
        case None => r == None && nodes == old(nodes)
        case Some(i) => nodes == old(nodes)[i := old(nodes)[i].(name := newName)] && r == Some(nodes[i])
    {
      var found := Seqs.FirstIndex(HasId(nodeId), nodes);
      if found.None? {
        return None;
      }
      var i := found.value;
      nodes := nodes[i := nodes[i].(name := newName)];
      r := Some(nodes[i]);
    }
  }
}
