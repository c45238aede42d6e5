/** The searches that keep the block graph free of cycles (block.c). */
module GraphSearch {
  import opened Dag
  import opened BlockGraph

  /** bdrv_recurse_has_child: whether `child` lies in the subtree of bs. */
  method RecurseHasChild(edges: Edges, bs: Node, child: Node) returns (found: bool)
    requires Acyclic(LinksOf(edges))
    ensures found <==> Reaches(LinksOf(edges), bs, child)
    decreases |Subtree(LinksOf(edges), bs)|
  {
    ghost var g := LinksOf(edges);
    if bs == child {
      ReachesSelf(g, bs);
      return true;
    }
    var todo := ChildEdges(edges, bs);
    while todo != {}
      invariant todo <= ChildEdges(edges, bs)
      invariant forall e :: e in ChildEdges(edges, bs) - todo ==> !Reaches(g, edges[e].bs.value, child)
      decreases todo
    {
      var c :| c in todo;
      LinkOf(edges, c);
      SubtreeShrinks(g, bs, edges[c].bs.value);
      found := RecurseHasChild(edges, edges[c].bs.value, child);
      if found {
        ReachesLink(g, bs, edges[c].bs.value, child);
        return;
      }
      todo := todo - {c};
    }
    if Reaches(g, bs, child) {
      var w := ReachesFirst(g, bs, child);
      var e := EdgeOf(edges, bs, w);
    }
    found := false;
  }

  /** The edge belongs to a node in the subtree of `to`. */
  ghost predicate InSubtree(edges: Edges, c: EdgeId, to: Node)
    requires c in edges
  {
    IsLink(edges[c]) && Reaches(LinksOf(edges), to, edges[c].parent.value)
  }

  /** Every child of a node that was taken from the queue is known. */
  ghost predicate Explored(edges: Edges, found: set<Node>, queue: seq<Node>) {
    forall u, v :: (u, v) in LinksOf(edges) && u in found && u !in queue ==> v in found
  }

  lemma ExploredAll(edges: Edges, found: set<Node>, to: Node, v: Node)
    requires to in found && Explored(edges, found, []) && Reaches(LinksOf(edges), to, v)
    ensures v in found
  {
    ClosedReaches(LinksOf(edges), found, to, v);
  }

  /**
   One node of the breadth-first search in should_update_child.  The walk over its
   children stops at c; then not all of them are queued.
   */
  method VisitNode(edges: Edges, c: EdgeId, to: Node, v: Node, found0: set<Node>, queue0: seq<Node>)
    returns (hit: bool, found: set<Node>, queue: seq<Node>)
    requires v in found0 && Reaches(LinksOf(edges), to, v)
    requires forall x :: x in found0 ==> Reaches(LinksOf(edges), to, x)
    ensures hit <==> c in ChildEdges(edges, v)
    ensures found0 <= found && queue0 <= queue && forall x :: x in queue[|queue0|..] ==> x in found
    ensures forall x :: x in found ==> Reaches(LinksOf(edges), to, x)
    ensures forall x :: x in found - found0 ==> x in queue && x in Vertices(LinksOf(edges))
    ensures found == found0 ==> queue == queue0
    ensures !hit ==> forall u :: (v, u) in LinksOf(edges) ==> u in found
  {
    ghost var g := LinksOf(edges);
    hit, found, queue := false, found0, queue0;
    var todo := ChildEdges(edges, v);
    while todo != {}
      invariant todo <= ChildEdges(edges, v) && c !in ChildEdges(edges, v) - todo
      invariant found0 <= found && queue0 <= queue && forall x :: x in queue[|queue0|..] ==> x in found
      invariant forall x :: x in found ==> Reaches(g, to, x)
      invariant forall x :: x in found - found0 ==> x in queue && x in Vertices(g)
      invariant found == found0 ==> queue == queue0
      invariant forall e :: e in ChildEdges(edges, v) - todo ==> edges[e].bs.value in found
      decreases todo
    {
      var c2 :| c2 in todo;
      if c2 == c {
        hit := true;
        return;
      }
      todo := todo - {c2};
      var b := edges[c2].bs.value;
      if b !in found {
        LinkOf(edges, c2);
        ReachesSelf(g, b);
        ReachesLink(g, v, b, b);
        ReachesTrans(g, to, v, b);
        LinkVertices(g, v, b);
        queue, found := queue + [b], found + {b};
      }
    }
    forall u | (v, u) in g ensures u in found {
      var e := EdgeOf(edges, v, u);
      assert e in ChildEdges(edges, v);
    }
  }

  /** should_update_child: whether the edge may be led to `to` without closing a cycle. */
  method ShouldUpdateChild(edges: Edges, c: EdgeId, to: Node) returns (update: bool)
    requires c in edges
    ensures update <==> !edges[c].stayAtNode && !InSubtree(edges, c, to)
  {
    if edges[c].stayAtNode { return false; }
    ghost var g := LinksOf(edges);
    update := true;
    var found, queue := {to}, [to];
    ReachesSelf(g, to);
    while queue != []
      invariant to in found && forall x :: x in queue ==> x in found
      invariant forall x :: x in found ==> Reaches(g, to, x)
      invariant !update ==> InSubtree(edges, c, to)
      invariant update ==> Explored(edges, found, queue)
      invariant update && InSubtree(edges, c, to) && edges[c].parent.value in found ==> edges[c].parent.value in queue
      decreases Vertices(g) + {to} - found, |queue|
    {
      var v := queue[0];
      ghost var queue0, found0 := queue, found;
      var hit;
      hit, found, queue := VisitNode(edges, c, to, v, found, queue[1..]);
      if hit { update := false; }
      QueueStep(queue0, queue);
    }
    if update && InSubtree(edges, c, to) {
      ExploredAll(edges, found, to, edges[c].parent.value);
    }
  }

  lemma QueueStep(before: seq<Node>, after: seq<Node>)
    requires before != [] && before[1..] <= after
    ensures forall x :: x in before && x != before[0] ==> x in after
  {
    forall x | x in before && x != before[0] ensures x in after {
      var i :| 0 <= i < |before| && before[i] == x;
      assert before[1..][i - 1] == after[i - 1];
    }
  }
}
