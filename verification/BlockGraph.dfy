/**
 Block nodes and the edges between them (BlockDriverState and BdrvChild in block.c).

 An edge belongs to a parent node, or to a user outside the graph (a block backend
 or a job).  The children of a node are the edges that belong to it and lead
 somewhere; its parents are the edges that lead to it.
 */
module BlockGraph {
  import opened Common
  import opened Dag

  type EdgeId = nat

  /** BLK_PERM_* */
  datatype Perm = ConsistentRead | Write | WriteUnchanged | Resize

  /** BDRV_CHILD_FILTERED, BDRV_CHILD_COW, BDRV_CHILD_METADATA and BDRV_CHILD_DATA in their legal combinations */
  datatype Role = Filtered | Cow | Metadata | Data | MetadataAndData {
    predicate HasMetadata() { Metadata? || MetadataAndData? }
    predicate HasData() { Data? || MetadataAndData? }
  }

  /** `stayAtNode` is the flag of the edge's class. */
  datatype Edge = Edge(parent: Option<Node>, bs: Option<Node>, role: Role, stayAtNode: bool, frozen: bool,
                       perm: set<Perm>, shared: set<Perm>)

  type Edges = map<EdgeId, Edge>

  predicate IsLink(e: Edge) {
    e.parent.Some? && e.bs.Some?
  }

  function LinksOf(edges: Edges): Links {
    set e | e in edges && IsLink(edges[e]) :: (edges[e].parent.value, edges[e].bs.value)
  }

  lemma LinkOf(edges: Edges, e: EdgeId)
    requires e in edges && IsLink(edges[e])
    ensures (edges[e].parent.value, edges[e].bs.value) in LinksOf(edges)
  {
  }

  lemma EdgeOf(edges: Edges, u: Node, v: Node) returns (e: EdgeId)
    requires (u, v) in LinksOf(edges)
    ensures e in edges && edges[e].parent == Some(u) && edges[e].bs == Some(v)
  {
    e :| e in edges && IsLink(edges[e]) && (edges[e].parent.value, edges[e].bs.value) == (u, v);
  }

  function ChildEdges(edges: Edges, n: Node): (c: set<EdgeId>)
    ensures forall e :: e in c <==> e in edges && edges[e].parent == Some(n) && edges[e].bs.Some?
  {
    set e | e in edges && edges[e].parent == Some(n) && edges[e].bs.Some?
  }

  function ParentEdges(edges: Edges, n: Node): (c: set<EdgeId>)
    ensures forall e :: e in c <==> e in edges && edges[e].bs == Some(n)
  {
    set e | e in edges && edges[e].bs == Some(n)
  }
}
