/** The lists of nodes that permission updates walk: bdrv_topological_dfs in block.c. */
module TopoSort {
  import opened Dag
  import opened BlockGraph

  ghost predicate Distinct(l: seq<Node>) {
    forall i, j :: 0 <= i < j < |l| ==> l[i] != l[j]
  }

  /** Parents stand before their children. */
  ghost predicate Sorted(g: Links, l: seq<Node>) {
    forall i, j :: 0 <= i <= j < |l| ==> (l[j], l[i]) !in g
  }

  function Elements(l: seq<Node>): set<Node> {
    set x | x in l
  }

  ghost predicate SortedClosed(g: Links, l: seq<Node>) {
    Distinct(l) && Sorted(g, l) && Closed(g, Elements(l))
  }

  /** The nodes whose visit has begun and not ended are proper ancestors of v. */
  ghost predicate OnTheWay(g: Links, pending: set<Node>, v: Node) {
    forall x :: x in pending ==> x != v && Reaches(g, x, v)
  }

  lemma PendingForChild(g: Links, pending: set<Node>, bs: Node, v: Node)
    requires Acyclic(g) && OnTheWay(g, pending, bs) && (bs, v) in g
    ensures OnTheWay(g, pending + {bs}, v)
  {
    ReachesSelf(g, v);
    ReachesLink(g, bs, v, v);
    forall x | x in pending + {bs} ensures x != v && Reaches(g, x, v) {
      if x != bs { ReachesTrans(g, x, bs, v); }
    }
  }

  lemma PrependSorted(g: Links, l: seq<Node>, bs: Node)
    requires SortedClosed(g, l) && Acyclic(g) && bs !in l
    requires forall v :: (bs, v) in g ==> v in l
    ensures SortedClosed(g, [bs] + l)
  {
    var l' := [bs] + l;
    ReachesSelf(g, bs);
    forall i, j | 0 <= i <= j < |l'| ensures (l'[j], l'[i]) !in g {
      if j > 0 && i == 0 { assert l'[j] in Elements(l); }
    }
    forall u, v | (u, v) in g && u in Elements(l') ensures v in Elements(l') {
      if u != bs { assert u in Elements(l); assert v in Elements(l); }
    }
  }

  ghost function Targets(edges: Edges, ids: set<EdgeId>): set<Node>
    requires forall e :: e in ids ==> e in edges && edges[e].bs.Some?
  {
    set e | e in ids :: edges[e].bs.value
  }

  /** What the list grows to: the old nodes and everything reachable from bs. */
  ghost predicate Extends(g: Links, old_: seq<Node>, l: seq<Node>, roots: set<Node>) {
    forall x :: x in l <==> x in old_ || exists r :: r in roots && Reaches(g, r, x)
  }

  lemma ClosedContains(g: Links, l: seq<Node>, r: Node, x: Node)
    requires Closed(g, Elements(l)) && r in l && Reaches(g, r, x)
    ensures x in l
  {
    ClosedReaches(g, Elements(l), r, x);
  }

  /** The hash table holds the listed nodes and those whose visit is under way. */
  ghost predicate Visiting(found: set<Node>, list: seq<Node>, pending: set<Node>) {
    found == pending + Elements(list) && pending !! Elements(list)
  }

  /**
   bdrv_topological_dfs: from a sorted closed list the list becomes a sorted closed
   list of the old nodes and of the whole subtree of bs.  The children are visited
   in any order.
   */
  method TopologicalDfs(edges: Edges, list: seq<Node>, found: set<Node>, bs: Node, ghost pending: set<Node>)
    returns (list': seq<Node>, found': set<Node>)
    requires var g := LinksOf(edges); Acyclic(g) && SortedClosed(g, list) && OnTheWay(g, pending, bs)
    requires Visiting(found, list, pending)
    ensures var g := LinksOf(edges); SortedClosed(g, list') && Extends(g, list, list', {bs})
    ensures Visiting(found', list', pending)
    decreases |Subtree(LinksOf(edges), bs)|
  {
    ghost var g := LinksOf(edges);
    if bs in found {
      AlreadyListed(g, list, bs);
      return list, found;
    }
    list', found' := list, found + {bs};
    var todo := ChildEdges(edges, bs);
    ghost var done: set<EdgeId> := {};
    assert Extends(g, list, list, Targets(edges, {}));
    hide SortedClosed, Extends, LinksOf, OnTheWay, Acyclic, Targets;
    while todo != {}
      invariant todo + done == ChildEdges(edges, bs)
      invariant SortedClosed(g, list') && Extends(g, list, list', Targets(edges, done))
      invariant Visiting(found', list', pending + {bs})
      decreases todo
    {
      var e :| e in todo;
      var v := edges[e].bs.value;
      LinkOf(edges, e);
      PendingForChild(g, pending, bs, v);
      SubtreeShrinks(g, bs, v);
      ghost var before := list';
      list', found' := TopologicalDfs(edges, list', found', v, pending + {bs});
      ExtendsDone(edges, list, before, list', done, e);
      todo, done := todo - {e}, done + {e};
    }
    ChildrenCover(edges, list, list', bs);
    PrependSorted(g, list', bs);
    list' := [bs] + list';
  }

  lemma ExtendsMore(g: Links, old_: seq<Node>, l: seq<Node>, l': seq<Node>, roots: set<Node>, v: Node)
    requires Extends(g, old_, l, roots) && Extends(g, l, l', {v})
    ensures Extends(g, old_, l', roots + {v})
  {
  }

  lemma ExtendsDone(edges: Edges, old_: seq<Node>, l: seq<Node>, l': seq<Node>, done: set<EdgeId>, e: EdgeId)
    requires forall i :: i in done + {e} ==> i in edges && edges[i].bs.Some?
    requires Extends(LinksOf(edges), old_, l, Targets(edges, done)) &&
      Extends(LinksOf(edges), l, l', {edges[e].bs.value})
    ensures Extends(LinksOf(edges), old_, l', Targets(edges, done + {e}))
  {
    var v := edges[e].bs.value;
    ExtendsMore(LinksOf(edges), old_, l, l', Targets(edges, done), v);
    assert Targets(edges, done + {e}) == Targets(edges, done) + {v};
  }

  lemma AlreadyListed(g: Links, list: seq<Node>, bs: Node)
    requires SortedClosed(g, list) && bs in Elements(list)
    ensures Extends(g, list, list, {bs})
  {
    forall x | Reaches(g, bs, x) ensures x in list { ClosedContains(g, list, bs, x); }
  }

  lemma ChildrenCover(edges: Edges, list: seq<Node>, l: seq<Node>, bs: Node)
    requires Extends(LinksOf(edges), list, l, Targets(edges, ChildEdges(edges, bs))) && bs !in l
    ensures forall v :: (bs, v) in LinksOf(edges) ==> v in l
    ensures Extends(LinksOf(edges), list, [bs] + l, {bs})
  {
    var g, kids := LinksOf(edges), Targets(edges, ChildEdges(edges, bs));
    forall v | (bs, v) in g ensures v in kids && v in l {
      var e := EdgeOf(edges, bs, v);
      assert e in ChildEdges(edges, bs);
      ReachesSelf(g, v);
    }
    forall x ensures x in [bs] + l <==> x in list || exists r :: r in {bs} && Reaches(g, r, x) {
      if x == bs {
        ReachesSelf(g, bs);
      } else {
        if Reaches(g, bs, x) { var w := ReachesFirst(g, bs, x); }
        if r :| r in kids && Reaches(g, r, x) { ReachesLink(g, bs, r, x); }
        assert Reaches(g, bs, x) ==> bs in {bs};
      }
    }
  }

  /** The loop of bdrv_list_refresh_perms: any list of roots, repetitions included, from any sorted closed list. */
  method SortSubtrees(edges: Edges, start: seq<Node>, roots: seq<Node>) returns (list: seq<Node>)
    requires Acyclic(LinksOf(edges)) && SortedClosed(LinksOf(edges), start)
    ensures SortedClosed(LinksOf(edges), list)
    ensures Extends(LinksOf(edges), start, list, Elements(roots))
  {
    ghost var g := LinksOf(edges);
    list := start;
    var found := Elements(start);
    for k := 0 to |roots|
      invariant SortedClosed(g, list) && Visiting(found, list, {})
      invariant Extends(g, start, list, Elements(roots[..k]))
    {
      ghost var before := list;
      list, found := TopologicalDfs(edges, list, found, roots[k], {});
      ExtendsMore(g, start, before, list, Elements(roots[..k]), roots[k]);
      assert roots[..k + 1] == roots[..k] + [roots[k]];
      assert Elements(roots[..k + 1]) == Elements(roots[..k]) + {roots[k]};
    }
    assert roots[..|roots|] == roots;
  }
}
