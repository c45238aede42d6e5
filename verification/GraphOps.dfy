/**
 The operations that change the block graph (block.c): attaching a child, replacing
 a node, appending a node on top of a chain, dropping a user.  Each either takes
 full effect with consistent permissions or leaves everything as it was, and none
 of them ever closes a cycle.
 */
module GraphOps {
  import opened Common
  import opened Dag
  import opened BlockGraph
  import opened TopoSort
  import opened Perms
  import opened Refresh
  import opened GraphTran
  import opened BlockLayer
  import opened GraphSearch

  /** No transaction is open and the graph has no cycle. */
  ghost predicate Quiet(l: Layer)
    reads l
  {
    l.Valid() && l.actions == [] && l.start == l.State() && Acyclic(LinksOf(l.edges))
  }

  // --------------------------------------------------------------- attach

  lemma AttachLinks(edges: Edges, id: EdgeId, e: Edge)
    requires id !in edges && IsLink(e)
    ensures LinksOf(edges[id := e]) == LinksOf(edges) + {(e.parent.value, e.bs.value)}
  {
    var edges' := edges[id := e];
    forall l | l in LinksOf(edges') ensures l in LinksOf(edges) + {(e.parent.value, e.bs.value)} {
      var i := EdgeOf(edges', l.0, l.1);
      if i != id { LinkOf(edges, i); }
    }
    forall l | l in LinksOf(edges) + {(e.parent.value, e.bs.value)} ensures l in LinksOf(edges') {
      if l in LinksOf(edges) { var i := EdgeOf(edges, l.0, l.1); LinkOf(edges', i); } else { LinkOf(edges', id); }
    }
  }

  lemma AttachKeepsAcyclic(edges: Edges, id: EdgeId, e: Edge)
    requires Acyclic(LinksOf(edges)) && id !in edges && IsLink(e)
    requires !Reaches(LinksOf(edges), e.bs.value, e.parent.value)
    ensures Acyclic(LinksOf(edges[id := e])) && RedirectedTo(LinksOf(edges), LinksOf(edges[id := e]), e.bs.value)
  {
    AttachLinks(edges, id, e);
    RedirectKeepsAcyclic(LinksOf(edges), LinksOf(edges[id := e]), e.bs.value);
  }

  lemma FreshEdgeExists(edges: Edges)
    ensures exists id: EdgeId :: id !in edges
  {
    var id := Above(edges.Keys);
    assert id !in edges;
  }

  lemma {:induction false} Above(s: set<EdgeId>) returns (m: EdgeId)
    ensures forall x :: x in s ==> x < m
  {
    if s == {} {
      m := 0;
    } else {
      var y :| y in s;
      m := Above(s - {y});
      if m <= y { m := y + 1; }
      forall x | x in s ensures x < m { assert x == y || x in s - {y}; }
    }
  }

  /** What the new edge carries: the permissions that follow from those on its parent. */
  function NewEdge(env: Env, edges: Edges, parent: Node, child: Node, role: Role, id: EdgeId): Edge {
    var g := ChildGrant(env, parent, id, child, Cumulative(edges, parent));
    Edge(Some(parent), Some(child), role, false, false, g.perm, g.shared)
  }

  /** Why bdrv_attach_child_noperm refuses. */
  ghost predicate AttachRefused(env: Env, edges: Edges, parent: Node, child: Node, role: Role, id: EdgeId) {
    || Reaches(LinksOf(edges), child, parent)
    || (env.attr(child).inactive && !env.attr(parent).inactive)
    || (env.attr(child).inactive && !(NewEdge(env, edges, parent, child, role, id).perm <= {ConsistentRead}))
  }

  /** A new edge carries what the parent's driver asks for, and leaves everything to others with force_share. */
  ghost predicate Asked(env: Env, edges: Edges, parent: Node, child: Node, role: Role, id: EdgeId, e: Edge) {
    && e.parent == Some(parent) && e.bs == Some(child) && e.role == role && !e.stayAtNode && !e.frozen
    && forall g :: TakenOn(edges, parent, g) ==>
       && e.perm == env.childPerm(parent, id, g).perm
       && e.shared == if env.attr(child).forceShare then ALL else env.childPerm(parent, id, g).shared
  }

  lemma NewEdgeAsked(env: Env, edges: Edges, parent: Node, child: Node, role: Role, id: EdgeId)
    ensures Asked(env, edges, parent, child, role, id, NewEdge(env, edges, parent, child, role, id))
  {
    forall g | TakenOn(edges, parent, g) ensures g == Cumulative(edges, parent) { CumulativeIs(edges, parent, g); }
    hide TakenOn, Cumulative;
  }

  /**
   An attachment is refused exactly if the parent lies below the child, or if the child
   is inactive and the parent is not or its driver asks for more than consistent reads.
   */
  lemma RefusedIff(env: Env, edges: Edges, parent: Node, child: Node, role: Role, id: EdgeId, g: Grant)
    requires TakenOn(edges, parent, g)
    ensures AttachRefused(env, edges, parent, child, role, id) <==>
      || Reaches(LinksOf(edges), child, parent)
      || (env.attr(child).inactive &&
          (!env.attr(parent).inactive || exists p :: p in env.childPerm(parent, id, g).perm && p != ConsistentRead))
  {
    CumulativeIs(edges, parent, g);
    hide TakenOn, Cumulative;
  }

  /** bdrv_attach_child_noperm */
  method AttachChildNoperm(l: Layer, parent: Node, child: Node, role: Role) returns (ok: bool, id: EdgeId)
    requires l.Valid() && Acyclic(LinksOf(l.edges))
    modifies l`edges, l`refs, l`actions
    ensures l.Valid() && id !in old(l.edges) && (ok <==> !AttachRefused(l.env, old(l.edges), parent, child, role, id))
    ensures ok ==> l.edges == old(l.edges)[id := NewEdge(l.env, old(l.edges), parent, child, role, id)]
    ensures ok ==> id in l.edges && Asked(l.env, old(l.edges), parent, child, role, id, l.edges[id])
    ensures Removed(l.actions) == Removed(old(l.actions)) && Acyclic(LinksOf(l.edges))
    ensures !ok ==> l.edges == old(l.edges)
  {
    hide Inv;
    FreshEdgeExists(l.edges);
    id :| id !in l.edges;
    var cycle := RecurseHasChild(l.edges, child, parent);
    if cycle { return false, id; }
    if l.env.attr(child).inactive && !l.env.attr(parent).inactive { return false, id; }
    var g := l.GetCumulativePerm(parent);
    var r := ChildGrant(l.env, parent, id, child, g);
    if l.env.attr(child).inactive && !(r.perm <= {ConsistentRead}) { return false, id; }
    var e := Edge(Some(parent), Some(child), role, false, false, r.perm, r.shared);
    AttachKeepsAcyclic(l.edges, id, e);
    NewEdgeAsked(l.env, l.edges, parent, child, role, id);
    l.InsertEdge(id, e);
    RemovedLast(l.actions);
    ok := true;
  }

  // --------------------------------------------------------- replace a node

  /** The edge is led to `to` when its node is replaced. */
  ghost predicate Redirectable(edges: Edges, e: EdgeId, to: Node)
    requires e in edges
  {
    !edges[e].stayAtNode && !InSubtree(edges, e, to)
  }

  ghost predicate Moves(edges: Edges, e: EdgeId, from: Node, to: Node)
    requires e in edges
  {
    edges[e].bs == Some(from) && Redirectable(edges, e, to)
  }

  /** Those edges of `done` that may be led to `to` are. */
  ghost predicate RedirectedIn(was: Edges, now: Edges, from: Node, to: Node, done: set<EdgeId>) {
    && now.Keys == was.Keys
    && forall e :: e in was ==>
       now[e] == if e in done && Moves(was, e, from, to) then was[e].(bs := Some(to)) else was[e]
  }

  lemma RedirectedLinks(was: Edges, now: Edges, from: Node, to: Node, done: set<EdgeId>)
    requires RedirectedIn(was, now, from, to, done)
    ensures RedirectedTo(LinksOf(was), LinksOf(now), to) && SubtreeLinksKept(LinksOf(was), LinksOf(now), to)
  {
    var g, g' := LinksOf(was), LinksOf(now);
    forall u, v | (u, v) in g' ensures (u, v) in g || (v == to && !Reaches(g, to, u)) {
      var e := EdgeOf(now, u, v);
      if now[e] == was[e] { LinkOf(was, e); }
    }
    forall u, v | (u, v) in g && Reaches(g, to, u) ensures (u, v) in g' {
      var e := EdgeOf(was, u, v);
      assert !Moves(was, e, from, to);
      LinkOf(now, e);
    }
  }

  /** The searches of later rounds see the same subtree as those of the first. */
  lemma RedirectableSame(was: Edges, now: Edges, from: Node, to: Node, done: set<EdgeId>, e: EdgeId)
    requires RedirectedIn(was, now, from, to, done) && e in was && e !in done
    ensures Redirectable(now, e, to) <==> Redirectable(was, e, to)
  {
    RedirectedLinks(was, now, from, to, done);
    if was[e].parent.Some? { RedirectKeepsSubtree(LinksOf(was), LinksOf(now), to, was[e].parent.value); }
  }

  /** Why bdrv_replace_node_noperm fails at a parent edge. */
  ghost predicate Obstacle(edges: Edges, e: EdgeId, to: Node, autoSkip: bool)
    requires e in edges
  {
    if Redirectable(edges, e, to) then edges[e].frozen else !autoSkip
  }

  /** bdrv_replace_node_noperm */
  method ReplaceNodeNoperm(l: Layer, from: Node, to: Node, autoSkip: bool) returns (ok: bool)
    requires l.Valid() && Acyclic(LinksOf(l.edges)) && from != to && Removed(l.actions) == {}
    modifies l`edges, l`refs, l`actions
    ensures l.Valid() && Removed(l.actions) == {} && Acyclic(LinksOf(l.edges))
    ensures ok <==> forall e :: e in ParentEdges(old(l.edges), from) ==> !Obstacle(old(l.edges), e, to, autoSkip)
    ensures ok ==> RedirectedIn(old(l.edges), l.edges, from, to, old(l.edges).Keys)
  {
    hide Inv;
    ghost var was := l.edges;
    var todo := ParentEdges(l.edges, from);
    ghost var done: set<EdgeId> := {};
    while todo != {}
      invariant l.Valid() && Removed(l.actions) == {} && todo + done == ParentEdges(was, from) && todo !! done
      invariant RedirectedIn(was, l.edges, from, to, done)
      invariant forall e :: e in done ==> !Obstacle(was, e, to, autoSkip)
      decreases todo
    {
      var c :| c in todo;
      RedirectableSame(was, l.edges, from, to, done, c);
      var update := ShouldUpdateChild(l.edges, c, to);
      assert update <==> Redirectable(was, c, to);
      RedirectedMore(was, l.edges, from, to, done, c);
      hide Redirectable, InSubtree, RedirectedIn;
      if !update {
        if !autoSkip {
          RedirectedAcyclic(was, l.edges, from, to, done);
          assert Obstacle(was, c, to, autoSkip);
          return false;
        }
      } else {
        if l.edges[c].frozen {
          RedirectedAcyclic(was, l.edges, from, to, done);
          assert Obstacle(was, c, to, autoSkip);
          return false;
        }
        l.ReplaceChildTran(c, Some(to));
        RemovedLast(l.actions);
      }
      todo, done := todo - {c}, done + {c};
    }
    RedirectedAcyclic(was, l.edges, from, to, done);
    ok := true;
  }

  /** One more parent edge has been dealt with. */
  lemma RedirectedMore(was: Edges, now: Edges, from: Node, to: Node, done: set<EdgeId>, c: EdgeId)
    requires RedirectedIn(was, now, from, to, done) && c in was && c !in done && was[c].bs == Some(from)
    ensures now[c] == was[c]
    ensures var next := if Redirectable(was, c, to) then now[c := now[c].(bs := Some(to))] else now;
      RedirectedIn(was, next, from, to, done + {c})
  {
    hide Redirectable;
  }

  lemma RedirectedAcyclic(was: Edges, now: Edges, from: Node, to: Node, done: set<EdgeId>)
    requires Acyclic(LinksOf(was)) && RedirectedIn(was, now, from, to, done)
    ensures Acyclic(LinksOf(now))
  {
    RedirectedLinks(was, now, from, to, done);
    RedirectKeepsAcyclic(LinksOf(was), LinksOf(now), to);
  }

  // ---------------------------------------------------- what an operation does

  /** A new edge that the check of bdrv_attach_child_noperm lets through. */
  ghost predicate Attachable(edges: Edges, id: EdgeId, e: Edge) {
    id !in edges && IsLink(e) && !Reaches(LinksOf(edges), e.bs.value, e.parent.value)
  }

  ghost predicate AttachEdit(was: Edges, now: Edges, id: EdgeId, e: Edge) {
    Attachable(was, id, e) && SameShape(now, was[id := e])
  }

  ghost predicate ReplaceEdit(was: Edges, now: Edges, from: Node, to: Node) {
    SameShape(now, Redirected(was, from, to))
  }

  ghost predicate AppendEdit(was: Edges, now: Edges, id: EdgeId, e: Edge) {
    Attachable(was, id, e) && SameShape(now, Redirected(was[id := e], e.bs.value, e.parent.value))
  }

  ghost predicate DropEdit(was: Edges, now: Edges, e: EdgeId) {
    SameShape(now, was - {e})
  }

  /** What one operation, successful or not, can do to the graph. */
  ghost predicate Edit(was: Edges, now: Edges) {
    || SameShape(now, was)
    || (exists id, e :: AttachEdit(was, now, id, e))
    || (exists from, to :: ReplaceEdit(was, now, from, to))
    || (exists id, e :: AppendEdit(was, now, id, e))
    || (exists e :: DropEdit(was, now, e))
  }

  lemma AttachIsEdit(env: Env, was: Edges, now: Edges, parent: Node, child: Node, role: Role, id: EdgeId)
    requires id !in was && !AttachRefused(env, was, parent, child, role, id)
    requires SameShape(now, was[id := NewEdge(env, was, parent, child, role, id)])
    ensures Edit(was, now)
  {
    assert AttachEdit(was, now, id, NewEdge(env, was, parent, child, role, id));
  }

  lemma ReplaceIsEdit(was: Edges, now: Edges, from: Node, to: Node)
    requires SameShape(now, Redirected(was, from, to))
    ensures Edit(was, now)
  {
    assert ReplaceEdit(was, now, from, to);
  }

  lemma AppendIsEdit(env: Env, was: Edges, now: Edges, bsNew: Node, bsTop: Node, role: Role, id: EdgeId)
    requires id !in was && !AttachRefused(env, was, bsNew, bsTop, role, id)
    requires SameShape(now, AppendedGraph(env, was, bsNew, bsTop, role, id))
    ensures Edit(was, now)
  {
    hide Redirected;
    assert AppendEdit(was, now, id, NewEdge(env, was, bsNew, bsTop, role, id));
  }

  lemma DropIsEdit(was: Edges, now: Edges, e: EdgeId)
    requires SameShape(now, was - {e})
    ensures Edit(was, now)
  {
    assert DropEdit(was, now, e);
  }

  lemma NothingIsEdit(was: Edges)
    ensures Edit(was, was)
  {
    assert SameShape(was, was);
  }

  // ------------------------------------------------------- whole operations

  /** tran_finalize */
  method TranFinalize(l: Layer, ok: bool)
    requires l.Valid() && Removed(l.actions) == {} && Acyclic(LinksOf(l.edges)) && Acyclic(LinksOf(l.start.edges))
    modifies l
    ensures Quiet(l)
    ensures ok ==> l.edges == old(l.edges) && l.inherits == old(l.inherits)
    ensures !ok ==> Same(l.State(), old(l.start))
  {
    hide Inv;
    if ok {
      l.TranCommit();
      assert l.edges == old(l.edges);
    } else {
      l.TranAbort();
    }
  }

  /** A refresh changes permissions only, so it leaves the graph without cycles. */
  method RefreshRoots(l: Layer, roots: seq<Node>) returns (ok: bool)
    requires l.Valid() && Acyclic(LinksOf(l.edges)) && Removed(l.actions) == {}
    modifies l`edges, l`actions
    ensures l.Valid() && Acyclic(LinksOf(l.edges)) && Removed(l.actions) == {}
    ensures RefreshResult(l.env, old(l.edges), Elements(roots), ok, l.edges)
  {
    hide Inv;
    ok := l.ListRefreshPerms(roots);
    SameLinks(l.edges, old(l.edges));
  }

  /** The same for the subtree of one node. */
  method RefreshRoot(l: Layer, bs: Node) returns (ok: bool)
    requires l.Valid() && Acyclic(LinksOf(l.edges)) && Removed(l.actions) == {}
    modifies l`edges, l`actions
    ensures l.Valid() && Acyclic(LinksOf(l.edges)) && Removed(l.actions) == {}
    ensures RefreshResult(l.env, old(l.edges), {bs}, ok, l.edges)
  {
    hide Inv;
    ok := l.RefreshPerms(bs);
    SameLinks(l.edges, old(l.edges));
  }

  /** There are permissions below the roots that pass all checks. */
  ghost predicate Permitted(env: Env, edges: Edges, roots: set<Node>) {
    exists t :: Consistent(env, edges, roots, t)
  }

  /** bdrv_attach_child */
  method AttachChild(l: Layer, parent: Node, child: Node, role: Role) returns (ok: bool, id: EdgeId)
    requires Quiet(l)
    modifies l
    ensures Quiet(l) && id !in old(l.edges) && Edit(old(l.edges), l.edges)
    ensures if ok then l.inherits == old(l.inherits) else Same(l.State(), old(l.State()))
    ensures var mid := old(l.edges)[id := NewEdge(l.env, old(l.edges), parent, child, role, id)];
      && (ok <==> !AttachRefused(l.env, old(l.edges), parent, child, role, id) && Permitted(l.env, mid, {parent}))
      && (ok ==> Consistent(l.env, mid, {parent}, l.edges))
  {
    hide Inv, AttachRefused, NewEdge, Edit;
    ok, id := AttachChildNoperm(l, parent, child, role);
    if ok {
      ok := RefreshRoot(l, parent);
    }
    TranFinalize(l, ok);
    NothingIsEdit(old(l.edges));
    if ok { AttachIsEdit(l.env, old(l.edges), l.edges, parent, child, role, id); }
  }

  /** What replacing a node leads to before permissions are updated. */
  ghost function Redirected(was: Edges, from: Node, to: Node): (now: Edges)
    ensures RedirectedIn(was, now, from, to, was.Keys)
  {
    map e | e in was :: if Moves(was, e, from, to) then was[e].(bs := Some(to)) else was[e]
  }

  ghost predicate NoObstacle(edges: Edges, from: Node, to: Node, autoSkip: bool) {
    forall e :: e in ParentEdges(edges, from) ==> !Obstacle(edges, e, to, autoSkip)
  }

  lemma RedirectedUnique(was: Edges, now: Edges, from: Node, to: Node)
    requires RedirectedIn(was, now, from, to, was.Keys)
    ensures now == Redirected(was, from, to)
  {
  }

  /** bdrv_replace_node_common */
  method ReplaceNode(l: Layer, from: Node, to: Node, autoSkip: bool) returns (ok: bool)
    requires Quiet(l) && from != to
    modifies l
    ensures Quiet(l) && Edit(old(l.edges), l.edges)
    ensures if ok then l.inherits == old(l.inherits) else Same(l.State(), old(l.State()))
    ensures var mid := Redirected(old(l.edges), from, to);
      && (ok <==> NoObstacle(old(l.edges), from, to, autoSkip) && Permitted(l.env, mid, {from, to}))
      && (ok ==> Consistent(l.env, mid, {from, to}, l.edges))
  {
    hide Inv, Obstacle, RedirectedIn, Edit;
    ok := ReplaceNodeNoperm(l, from, to, autoSkip);
    if ok {
      RedirectedUnique(old(l.edges), l.edges, from, to);
      ok := RefreshRoots(l, [from, to]);
      assert Elements([from, to]) == {from, to};
    }
    TranFinalize(l, ok);
    NothingIsEdit(old(l.edges));
    if ok { ReplaceIsEdit(old(l.edges), l.edges, from, to); }
  }

  // --------------------------------------------------------------- append

  /** The graph with bsNew put on top of bsTop, before permissions are updated. */
  ghost function AppendedGraph(env: Env, was: Edges, bsNew: Node, bsTop: Node, role: Role, id: EdgeId): Edges {
    Redirected(was[id := NewEdge(env, was, bsNew, bsTop, role, id)], bsTop, bsNew)
  }

  /** bdrv_append */
  method Append(l: Layer, bsNew: Node, bsTop: Node, role: Role) returns (ok: bool, id: EdgeId)
    requires Quiet(l)
    modifies l
    ensures Quiet(l) && id !in old(l.edges) && Edit(old(l.edges), l.edges)
    ensures if ok then l.inherits == old(l.inherits) else Same(l.State(), old(l.State()))
    ensures var was := old(l.edges);
      var mid := AppendedGraph(l.env, was, bsNew, bsTop, role, id);
      && (ok <==> && !AttachRefused(l.env, was, bsNew, bsTop, role, id)
                  && NoObstacle(was[id := NewEdge(l.env, was, bsNew, bsTop, role, id)], bsTop, bsNew, true)
                  && Permitted(l.env, mid, {bsNew}))
      && (ok ==> Consistent(l.env, mid, {bsNew}, l.edges))
  {
    hide Inv, Obstacle, RedirectedIn, NewEdge, Edit;
    ok, id := AttachChildNoperm(l, bsNew, bsTop, role);
    if ok {
      ghost var attached := l.edges;
      assert bsNew != bsTop by { ReachesSelf(LinksOf(old(l.edges)), bsTop); }
      hide AttachRefused;
      ok := ReplaceNodeNoperm(l, bsTop, bsNew, true);
      if ok {
        RedirectedUnique(attached, l.edges, bsTop, bsNew);
        ok := RefreshRoot(l, bsNew);
      }
    }
    TranFinalize(l, ok);
    NothingIsEdit(old(l.edges));
    if ok { AppendIsEdit(l.env, old(l.edges), l.edges, bsNew, bsTop, role, id); }
  }

  /** Attaching bsTop below bsNew does not change which users of bsTop can be moved to bsNew. */
  lemma MovesAsBefore(env: Env, was: Edges, bsNew: Node, bsTop: Node, role: Role, id: EdgeId, e: EdgeId)
    requires Acyclic(LinksOf(was)) && id !in was && e in was && was[e].bs == Some(bsTop)
    requires !AttachRefused(env, was, bsNew, bsTop, role, id)
    ensures Moves(was[id := NewEdge(env, was, bsNew, bsTop, role, id)], e, bsTop, bsNew) <==>
      Moves(was, e, bsTop, bsNew)
  {
    var n := NewEdge(env, was, bsNew, bsTop, role, id);
    var g, g' := LinksOf(was), LinksOf(was[id := n]);
    AttachKeepsAcyclic(was, id, n);
    AttachLinks(was, id, n);
    if was[e].parent.Some? {
      var p := was[e].parent.value;
      LinkOf(was, e);
      if Reaches(g', bsNew, p) { RedirectReaches(g, g', bsTop, bsNew, p); }
      if Reaches(g, bsNew, p) { MoreLinksReach(g, g', bsNew, p); }
    }
  }

  /**
   After a successful append the new node stands on top of the old one, its backing
   edge is kept, every user of the old top that is not bound to it and is not below
   the new node now uses the new node, and no other edge has moved.
   */
  lemma AppendPutsOnTop(env: Env, was: Edges, now: Edges, bsNew: Node, bsTop: Node, role: Role, id: EdgeId)
    requires Acyclic(LinksOf(was)) && id !in was && !AttachRefused(env, was, bsNew, bsTop, role, id)
    requires SameShape(now, AppendedGraph(env, was, bsNew, bsTop, role, id))
    ensures now.Keys == was.Keys + {id} && now[id].parent == Some(bsNew) && now[id].bs == Some(bsTop)
    ensures forall e :: e in was ==>
      now[e].parent == was[e].parent && now[e].bs == if Moves(was, e, bsTop, bsNew) then Some(bsNew) else was[e].bs
  {
    var attached := was[id := NewEdge(env, was, bsNew, bsTop, role, id)];
    assert !Moves(attached, id, bsTop, bsNew) by { ReachesSelf(LinksOf(attached), bsNew); }
    forall e | e in was ensures now[e].parent == was[e].parent &&
      now[e].bs == if Moves(was, e, bsTop, bsNew) then Some(bsNew) else was[e].bs
    {
      if was[e].bs == Some(bsTop) { MovesAsBefore(env, was, bsNew, bsTop, role, id, e); }
    }
  }

  // ------------------------------------------------------------ drop a user

  lemma FewerLinks(edges: Edges, e: EdgeId)
    requires Acyclic(LinksOf(edges))
    ensures Acyclic(LinksOf(edges - {e}))
  {
    var g, g' := LinksOf(edges), LinksOf(edges - {e});
    forall l | l in g' ensures l in g { var i := EdgeOf(edges - {e}, l.0, l.1); LinkOf(edges, i); }
    forall u, v | (u, v) in g' ensures !Reaches(g', v, u) {
      if Reaches(g', v, u) { MoreLinksReach(g', g, v, u); }
    }
  }

  /** The graph without an edge, and with the reference of the edge given back. */
  function Dropped(g: Graph, e: EdgeId): Graph
    requires e in g.edges
  {
    g.(edges := g.edges - {e}, unrefs := Unref(g.unrefs, g.edges[e].bs))
  }

  lemma DropAccounted(outside: Node -> nat, g: Graph, e: EdgeId)
    requires e in g.edges && Accounted(outside, g, [])
    ensures Accounted(outside, Dropped(g, e), [])
    ensures forall n: Node :: Refs(Dropped(g, e), n) == Refs(g, n) - if g.edges[e].bs == Some(n) then 1 else 0
  {
    var h := Dropped(g, e);
    forall n ensures Refs(h, n) == outside(n) + |ParentEdges(h.edges, n)| + Held([], n) {
      assert Refs(g, n) == outside(n) + |ParentEdges(g.edges, n)| + Held([], n);
      assert ParentEdges(h.edges, n) == ParentEdges(g.edges, n) - {e};
    }
  }

  /** Permissions have nothing to do with reference counts. */
  lemma SameOwnersSameRefs(outside: Node -> nat, g: Graph, h: Graph)
    requires Accounted(outside, g, []) && Accounted(outside, h, []) && SameShape(h.edges, g.edges)
    ensures forall n :: Refs(h, n) == Refs(g, n)
  {
    forall n ensures Refs(h, n) == Refs(g, n) {
      assert ParentEdges(h.edges, n) == ParentEdges(g.edges, n);
      assert Refs(g, n) == outside(n) + |ParentEdges(g.edges, n)| + Held([], n);
      assert Refs(h, n) == outside(n) + |ParentEdges(h.edges, n)| + Held([], n);
    }
  }

  /** bdrv_root_unref_child: the edge is gone in any case; a failed refresh is ignored and undone. */
  method RootUnrefChild(l: Layer, e: EdgeId)
    requires Quiet(l) && e in l.edges && !l.edges[e].frozen && l.edges[e].bs.Some?
    modifies l
    ensures Quiet(l) && Edit(old(l.edges), l.edges)
    ensures forall k :: Inherits(l.State(), k) == Inherits(old(l.State()), k)
    ensures var mid, n := old(l.edges) - {e}, old(l.edges)[e].bs.value;
      && (if Permitted(l.env, mid, {n}) then Consistent(l.env, mid, {n}, l.edges) else l.edges == mid)
      && forall k :: Refs(l.State(), k) == Refs(old(l.State()), k) - if k == n then 1 else 0
  {
    hide Quiet, Edit, Permitted;
    var n := l.edges[e].bs.value;
    DetachChild(l, e);
    RefreshDropped(l, n);
    DropIsEdit(old(l.edges), l.edges, e);
    hide Consistent;
  }

  /** bdrv_replace_child_noperm with no new node, and bdrv_child_free. */
  method DetachChild(l: Layer, e: EdgeId)
    requires Quiet(l) && e in l.edges && !l.edges[e].frozen && l.edges[e].bs.Some?
    modifies l
    ensures Quiet(l) && l.edges == old(l.edges) - {e} && l.inherits == old(l.inherits)
    ensures var n := old(l.edges)[e].bs.value;
      forall k :: Refs(l.State(), k) == Refs(old(l.State()), k) - if k == n then 1 else 0
  {
    FewerLinks(l.edges, e);
    DropAccounted(l.outside, l.State(), e);
    l.edges, l.unrefs := l.edges - {e}, Unref(l.unrefs, l.edges[e].bs);
    l.start := l.State();
    EmptyInv(l.outside, l.State());
    assert l.State() == Dropped(old(l.State()), e);
    hide Inv;
  }

  /** The permission update of bdrv_root_unref_child, in a transaction of its own. */
  method RefreshDropped(l: Layer, n: Node)
    requires Quiet(l)
    modifies l
    ensures Quiet(l)
    ensures if Permitted(l.env, old(l.edges), {n}) then Consistent(l.env, old(l.edges), {n}, l.edges)
      else l.edges == old(l.edges)
    ensures forall k :: Refs(l.State(), k) == Refs(old(l.State()), k)
    ensures forall k :: Inherits(l.State(), k) == Inherits(old(l.State()), k)
  {
    ghost var mid := l.State();
    ghost var owned := Accounted(l.outside, mid, []);
    assert owned;
    hide Inv, Accounted;
    var ok := RefreshRoot(l, n);
    TranFinalize(l, ok);
    QuietOwned(l);
    SameOwnersSameRefs(l.outside, mid, l.State());
  }

  lemma QuietOwned(l: Layer)
    requires Quiet(l)
    ensures Accounted(l.outside, l.State(), [])
  {
  }

  /**
   In a consistent graph with monotone permission functions, dropping a user can be
   followed by consistent permissions exactly if the alignment check and the drivers
   agree with the loosened permissions.
   */
  lemma DropPermitted(env: Env, b: Edges, e: EdgeId, n: Node, list: seq<Node>)
    requires Monotone(env) && e in b && Lists(b - {e}, {n}, list)
    requires forall x :: x in list ==> ChildrenOk(env, b, x) && NodeOk(env, b, x)
    ensures var t := Assign(env, b - {e}, list);
      Permitted(env, b - {e}, {n}) <==>
      forall x :: x in list ==> AlignmentOk(env, x, Cumulative(t, x)) && DriverOk(env, x, Cumulative(t, x))
  {
    var a := b - {e};
    var t := Assign(env, a, list);
    RemovalFailsOnlyBy(env, b, a, e, list);
    hide Assign, ChecksPass, NodeOk, ChildrenOk, AlignmentOk, DriverOk, Cumulative, Lists, Consistent, SortedClosed;
    ResultOfList(env, a, {n}, list, ChecksPass(env, a, list), t);
  }

  // -------------------------------------------------- permissions of one edge

  predicate Tightens(old_: Grant, new_: Grant) {
    !(new_.perm <= old_.perm) || !(old_.shared <= new_.shared)
  }

  /**
   bdrv_child_try_set_perm: without consistent permissions nothing changes, and the
   failure is reported only if the caller asked for more than it had.
   */
  method ChildTrySetPerm(l: Layer, e: EdgeId, perm: set<Perm>, shared: set<Perm>) returns (ok: bool)
    requires Quiet(l) && e in l.edges && l.edges[e].bs.Some?
    modifies l
    ensures Quiet(l)
    ensures var was, n := old(l.edges), old(l.edges)[e].bs.value;
      var mid := was[e := was[e].(perm := perm, shared := shared)];
      && (ok <==> Permitted(l.env, mid, {n}) || !Tightens(GrantOf(was[e]), Grant(perm, shared)))
      && (if Permitted(l.env, mid, {n}) then Consistent(l.env, mid, {n}, l.edges) && l.inherits == old(l.inherits)
          else Same(l.State(), old(l.State())))
  {
    hide Inv;
    var n := l.edges[e].bs.value;
    l.ChildSetPerm(e, perm, shared);
    SameLinks(l.edges, old(l.edges));
    ok := RefreshRoot(l, n);
    TranFinalize(l, ok);
    if !ok { ok := perm <= l.edges[e].perm && l.edges[e].shared <= shared; }
  }

  // -------------------------------------------------------------- whole runs

  lemma EditKeepsAcyclic(was: Edges, now: Edges)
    requires Acyclic(LinksOf(was)) && Edit(was, now)
    ensures Acyclic(LinksOf(now))
  {
    hide Acyclic, LinksOf, Redirected;
    if SameShape(now, was) {
      SameLinks(now, was);
    } else if id, e :| AttachEdit(was, now, id, e) {
      AttachKeepsAcyclic(was, id, e);
      SameLinks(now, was[id := e]);
    } else if from, to :| ReplaceEdit(was, now, from, to) {
      RedirectedAcyclic(was, Redirected(was, from, to), from, to, was.Keys);
      SameLinks(now, Redirected(was, from, to));
    } else if id, e :| AppendEdit(was, now, id, e) {
      var mid, from, to := was[id := e], e.bs.value, e.parent.value;
      AttachKeepsAcyclic(was, id, e);
      RedirectedAcyclic(mid, Redirected(mid, from, to), from, to, mid.Keys);
      SameLinks(now, Redirected(mid, from, to));
    } else {
      var e :| DropEdit(was, now, e);
      FewerLinks(was, e);
      SameLinks(now, was - {e});
    }
  }

  /** No sequence of attach, replace, append and drop operations ever closes a cycle. */
  lemma {:induction false} RunsStayAcyclic(r: seq<Edges>, k: nat)
    requires k < |r| && Acyclic(LinksOf(r[0])) && forall i :: 0 < i < |r| ==> Edit(r[i - 1], r[i])
    ensures Acyclic(LinksOf(r[k]))
  {
    if k > 0 {
      RunsStayAcyclic(r, k - 1);
      EditKeepsAcyclic(r[k - 1], r[k]);
    }
  }
}
