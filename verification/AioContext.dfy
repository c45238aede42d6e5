/**
 Moving part of the block graph to another AioContext (bdrv_change_aio_context and
 its helpers in block.c, child_job_change_aio_ctx in blockjob.c).  Of an edge only
 its two ends matter here, but jobs and other users are ends like nodes, because
 they have a context of their own.
 */
module AioContext {
  import opened BlockGraph
  import opened Dag

  type Ctx = nat

  /** Who an edge belongs to: a node, a block job, or a user that does or does not accept the change. */
  datatype Owner = OfNode(node: Node) | OfJob(job: nat) | OfUser(accepts: bool)

  datatype CtxEdge = CtxEdge(owner: Owner, bs: Node)

  type CtxEdges = map<EdgeId, CtxEdge>

  /** What has an AioContext; a user is known by its one edge. */
  datatype Vertex = N(node: Node) | J(job: nat) | U(edge: EdgeId)

  function Up(edges: CtxEdges, e: EdgeId): Vertex
    requires e in edges
  {
    match edges[e].owner
    case OfNode(n) => N(n)
    case OfJob(j) => J(j)
    case OfUser(_) => U(e)
  }

  function Down(edges: CtxEdges, e: EdgeId): Vertex
    requires e in edges
  {
    N(edges[e].bs)
  }

  predicate Refuses(edges: CtxEdges, e: EdgeId)
    requires e in edges
  {
    edges[e].owner == OfUser(false)
  }

  predicate Touches(edges: CtxEdges, e: EdgeId, v: Vertex)
    requires e in edges
  {
    Up(edges, e) == v || Down(edges, e) == v
  }

  predicate Adjacent(edges: CtxEdges, v: Vertex, w: Vertex) {
    exists e :: e in edges && Touches(edges, e, v) && Touches(edges, e, w)
  }

  ghost predicate ConnectedIn(edges: CtxEdges, v: Vertex, w: Vertex, n: nat)
    decreases n
  {
    if n == 0 then v == w else exists x :: Adjacent(edges, v, x) && ConnectedIn(edges, x, w, n - 1)
  }

  /** w can be reached from v along edges in either direction and through jobs. */
  ghost predicate Connected(edges: CtxEdges, v: Vertex, w: Vertex) {
    exists n: nat :: ConnectedIn(edges, v, w, n)
  }

  type Contexts = map<Vertex, Ctx>

  predicate Complete(edges: CtxEdges, ctx: Contexts) {
    forall e :: e in edges ==> Up(edges, e) in ctx && Down(edges, e) in ctx
  }

  /** Both ends of every edge are in the same context. */
  predicate EqualContexts(edges: CtxEdges, ctx: Contexts) {
    Complete(edges, ctx) && forall e :: e in edges ==> ctx[Up(edges, e)] == ctx[Down(edges, e)]
  }

  // ------------------------------------------------------------ components

  lemma ConnectedSelf(edges: CtxEdges, v: Vertex)
    ensures Connected(edges, v, v)
  {
    assert ConnectedIn(edges, v, v, 0);
  }

  lemma {:induction false} ConnectedInMore(edges: CtxEdges, v: Vertex, w: Vertex, x: Vertex, n: nat)
    requires ConnectedIn(edges, v, w, n) && Adjacent(edges, w, x)
    ensures ConnectedIn(edges, v, x, n + 1)
    decreases n
  {
    if n == 0 {
      assert ConnectedIn(edges, x, x, 0);
    } else {
      var y :| Adjacent(edges, v, y) && ConnectedIn(edges, y, w, n - 1);
      ConnectedInMore(edges, y, w, x, n - 1);
    }
  }

  lemma ConnectedMore(edges: CtxEdges, v: Vertex, e: EdgeId, w: Vertex, x: Vertex)
    requires e in edges && Touches(edges, e, w) && Touches(edges, e, x) && Connected(edges, v, w)
    ensures Connected(edges, v, x)
  {
    assert Adjacent(edges, w, x);
    var n: nat :| ConnectedIn(edges, v, w, n);
    ConnectedInMore(edges, v, w, x, n);
  }

  lemma {:induction false} SameContextIn(edges: CtxEdges, ctx: Contexts, v: Vertex, w: Vertex, n: nat)
    requires EqualContexts(edges, ctx) && ConnectedIn(edges, v, w, n) && v in ctx
    ensures w in ctx && ctx[w] == ctx[v]
    decreases n
  {
    if n > 0 {
      var x :| Adjacent(edges, v, x) && ConnectedIn(edges, x, w, n - 1);
      SameContextIn(edges, ctx, x, w, n - 1);
    }
  }

  lemma SameContext(edges: CtxEdges, ctx: Contexts, v: Vertex, w: Vertex)
    requires EqualContexts(edges, ctx) && Connected(edges, v, w) && v in ctx
    ensures w in ctx && ctx[w] == ctx[v]
  {
    var n: nat :| ConnectedIn(edges, v, w, n);
    SameContextIn(edges, ctx, v, w, n);
  }

  /** A set of vertices that no edge leaves. */
  predicate Component(edges: CtxEdges, s: set<Vertex>) {
    forall e :: e in edges ==> (Up(edges, e) in s <==> Down(edges, e) in s)
  }

  lemma {:induction false} ComponentContainsIn(edges: CtxEdges, s: set<Vertex>, v: Vertex, w: Vertex, n: nat)
    requires Component(edges, s) && v in s && ConnectedIn(edges, v, w, n)
    ensures w in s
    decreases n
  {
    if n > 0 {
      var x :| Adjacent(edges, v, x) && ConnectedIn(edges, x, w, n - 1);
      ComponentContainsIn(edges, s, x, w, n - 1);
    }
  }

  lemma ComponentContains(edges: CtxEdges, s: set<Vertex>, v: Vertex, w: Vertex)
    requires Component(edges, s) && v in s && Connected(edges, v, w)
    ensures w in s
  {
    var n: nat :| ConnectedIn(edges, v, w, n);
    ComponentContainsIn(edges, s, v, w, n);
  }

  // -------------------------------------------------------------- the walk

  /**
   The walk so far: visited edges lead to vertices that are to move or whose visit
   is under way, and all edges of a vertex that is to move have been visited.
   */
  predicate Walked(edges: CtxEdges, visited: set<EdgeId>, moves: set<Vertex>, pending: set<Vertex>) {
    && visited <= edges.Keys
    && (forall e :: e in visited ==>
          Up(edges, e) in moves + pending && Down(edges, e) in moves + pending && !Refuses(edges, e))
    && (forall e :: e in edges && (Up(edges, e) in moves || Down(edges, e) in moves) ==> e in visited)
  }

  ghost predicate AllConnected(edges: CtxEdges, root: Vertex, moves: set<Vertex>) {
    forall v :: v in moves ==> Connected(edges, root, v)
  }

  ghost predicate RefusedBelow(edges: CtxEdges, root: Vertex) {
    exists e :: e in edges && edges[e].owner == OfUser(false) && Connected(edges, root, N(edges[e].bs))
  }

  function ParentIds(edges: CtxEdges, n: Node): set<EdgeId> {
    set e | e in edges && edges[e].bs == n
  }

  function ChildIds(edges: CtxEdges, n: Node): set<EdgeId> {
    set e | e in edges && edges[e].owner == OfNode(n)
  }

  function JobIds(edges: CtxEdges, j: nat): set<EdgeId> {
    set e | e in edges && edges[e].owner == OfJob(j)
  }

  lemma WalkedVisit(edges: CtxEdges, visited: set<EdgeId>, moves: set<Vertex>, pending: set<Vertex>,
                    e: EdgeId, v: Vertex)
    requires Walked(edges, visited, moves, pending) && e in edges && !Refuses(edges, e)
    requires Up(edges, e) in pending + {v} && Down(edges, e) in pending + {v}
    ensures Walked(edges, visited + {e}, moves, pending + {v})
  {
  }

  lemma WalkedMove(edges: CtxEdges, visited: set<EdgeId>, moves: set<Vertex>, pending: set<Vertex>, v: Vertex)
    requires Walked(edges, visited, moves, pending + {v})
    requires forall e :: e in edges && Touches(edges, e, v) ==> e in visited
    ensures Walked(edges, visited, moves + {v}, pending)
  {
    assert moves + (pending + {v}) == moves + {v} + pending;
  }

  function Elements(s: seq<Vertex>): set<Vertex> {
    set v | v in s
  }

  lemma ElementsMore(s: seq<Vertex>, v: Vertex)
    ensures Elements(s + [v]) == Elements(s) + {v}
  {
  }

  /** One run of the recursion phase. */
  class Walk {
    const edges: CtxEdges
    const ctx: Contexts
    const target: Ctx
    ghost const root: Vertex
    /** The hash table of visited edges, and the vertices named by the actions of the transaction, oldest first. */
    var visited: set<EdgeId>
    var actions: seq<Vertex>

    constructor (edges: CtxEdges, ctx: Contexts, target: Ctx, ghost root: Vertex)
      ensures this.edges == edges && this.ctx == ctx && this.target == target && this.root == root
      ensures visited == {} && actions == []
    {
      this.edges, this.ctx, this.target, this.root := edges, ctx, target, root;
      visited, actions := {}, [];
    }

    ghost predicate Valid(pending: set<Vertex>)
      reads this
    {
      && Walked(edges, visited, Elements(actions), pending) && AllConnected(edges, root, Elements(actions) + pending)
      && EqualContexts(edges, ctx) && root in ctx && ctx[root] != target
    }

    /** tran_add */
    method AddAction(v: Vertex, ghost pending: set<Vertex>)
      requires Valid(pending + {v}) && forall e :: e in edges && Touches(edges, e, v) ==> e in visited
      modifies this`actions
      ensures Valid(pending) && Elements(actions) == old(Elements(actions)) + {v}
    {
      WalkedMove(edges, visited, Elements(actions), pending, v);
      ElementsMore(actions, v);
      assert Elements(actions) + {v} + pending == Elements(actions) + (pending + {v});
      actions := actions + [v];
    }

    /** Marks an edge as visited; v is its end that is to be visited next. */
    method Visit(e: EdgeId, v: Vertex, ghost pending: set<Vertex>)
      requires Valid(pending) && e in edges && !Refuses(edges, e)
      requires (Up(edges, e) == v && Down(edges, e) in pending) || (Down(edges, e) == v && Up(edges, e) in pending)
      modifies this`visited
      ensures Valid(pending + {v}) && visited == old(visited) + {e}
    {
      WalkedVisit(edges, visited, Elements(actions), pending, e, v);
      ConnectedMore(edges, root, e, if Up(edges, e) == v then Down(edges, e) else Up(edges, e), v);
      visited := visited + {e};
    }

    /** bdrv_change_aio_context */
    method ChangeNode(n: Node, ghost pending: set<Vertex>) returns (ok: bool)
      requires Valid(pending + {N(n)})
      modifies this
      ensures ok ==> Valid(pending) && old(visited) <= visited
      ensures ok ==> old(Elements(actions)) <= Elements(actions) && N(n) in Elements(actions)
      ensures !ok ==> RefusedBelow(edges, root)
      decreases edges.Keys - visited, 3
    {
      SameContext(edges, ctx, root, N(n));
      if ctx[N(n)] == target { return true; }
      ghost var under := pending + {N(n)};
      hide Walked, AllConnected, EqualContexts, RefusedBelow;
      var todo := ParentIds(edges, n);
      while todo != {}
        invariant todo <= ParentIds(edges, n) && Valid(under)
        invariant old(visited) <= visited && old(Elements(actions)) <= Elements(actions)
        invariant ParentIds(edges, n) - todo <= visited
        decreases todo
      {
        var c :| c in todo;
        ok := ParentChange(c, under);
        if !ok { return; }
        todo := todo - {c};
      }
      todo := ChildIds(edges, n);
      while todo != {}
        invariant todo <= ChildIds(edges, n) && Valid(under)
        invariant old(visited) <= visited && old(Elements(actions)) <= Elements(actions)
        invariant ParentIds(edges, n) <= visited && ChildIds(edges, n) - todo <= visited
        decreases todo
      {
        var c :| c in todo;
        ok := ChildChange(c, under);
        if !ok { return; }
        todo := todo - {c};
      }
      AddAction(N(n), pending);
      ok := true;
    }

    /** bdrv_parent_change_aio_context, with the change_aio_ctx callback of the edge's class. */
    method ParentChange(e: EdgeId, ghost pending: set<Vertex>) returns (ok: bool)
      requires Valid(pending) && e in edges && Down(edges, e) in pending
      modifies this
      ensures ok ==> Valid(pending) && old(visited) <= visited
      ensures ok ==> old(Elements(actions)) <= Elements(actions) && e in visited
      ensures !ok ==> RefusedBelow(edges, root)
      decreases edges.Keys - visited, 2
    {
      if e in visited { return true; }
      if Refuses(edges, e) {
        visited := visited + {e};
        return false;
      }
      Visit(e, Up(edges, e), pending);
      hide Walked, AllConnected, EqualContexts, RefusedBelow;
      match edges[e].owner {
        case OfNode(p) => ok := ChangeNode(p, pending);
        case OfJob(j) => ok := JobChange(j, pending);
        case OfUser(_) => AddAction(U(e), pending); ok := true;
      }
    }

    /** bdrv_child_change_aio_context */
    method ChildChange(e: EdgeId, ghost pending: set<Vertex>) returns (ok: bool)
      requires Valid(pending) && e in edges && Up(edges, e) in pending && !edges[e].owner.OfUser?
      modifies this
      ensures ok ==> Valid(pending) && old(visited) <= visited
      ensures ok ==> old(Elements(actions)) <= Elements(actions) && e in visited
      ensures !ok ==> RefusedBelow(edges, root)
      decreases edges.Keys - visited, 2
    {
      if e in visited { return true; }
      Visit(e, Down(edges, e), pending);
      hide Walked, AllConnected, EqualContexts, RefusedBelow;
      ok := ChangeNode(edges[e].bs, pending);
    }

    /** child_job_change_aio_ctx: the job moves with all its nodes. */
    method JobChange(j: nat, ghost pending: set<Vertex>) returns (ok: bool)
      requires Valid(pending + {J(j)})
      modifies this
      ensures ok ==> Valid(pending) && old(visited) <= visited && old(Elements(actions)) <= Elements(actions)
      ensures !ok ==> RefusedBelow(edges, root)
      decreases edges.Keys - visited, 3
    {
      hide Walked, AllConnected, EqualContexts, RefusedBelow;
      ghost var under := pending + {J(j)};
      var todo := JobIds(edges, j);
      while todo != {}
        invariant todo <= JobIds(edges, j) && Valid(under)
        invariant old(visited) <= visited && old(Elements(actions)) <= Elements(actions)
        invariant JobIds(edges, j) - todo <= visited
        decreases todo
      {
        var sibling :| sibling in todo;
        ok := ChildChange(sibling, under);
        if !ok { return; }
        todo := todo - {sibling};
      }
      AddAction(J(j), pending);
      ok := true;
    }
  }

  lemma WalkIsComponent(edges: CtxEdges, visited: set<EdgeId>, moves: set<Vertex>, root: Vertex)
    requires Walked(edges, visited, moves, {}) && AllConnected(edges, root, moves) && root in moves
    ensures forall v :: v in moves <==> Connected(edges, root, v)
    ensures !RefusedBelow(edges, root)
  {
    forall e | e in edges ensures Up(edges, e) in moves <==> Down(edges, e) in moves {}
    forall v | Connected(edges, root, v) ensures v in moves { ComponentContains(edges, moves, root, v); }
  }

  /** v is in context c1 after the move if it belongs to the component of root, and as before otherwise. */
  ghost predicate MovedExactly(edges: CtxEdges, was: Contexts, now: Contexts, root: Vertex, target: Ctx) {
    && now.Keys == was.Keys
    && forall v :: v in was ==> now[v] == if Connected(edges, root, v) then target else was[v]
  }

  /** A whole component that moves together keeps both ends of every edge together. */
  lemma MoveKeepsEqual(edges: CtxEdges, was: Contexts, now: Contexts, root: Vertex, target: Ctx)
    requires EqualContexts(edges, was) && MovedExactly(edges, was, now, root, target)
    ensures EqualContexts(edges, now)
  {
    forall e | e in edges ensures now[Up(edges, e)] == now[Down(edges, e)] {
      if Connected(edges, root, Up(edges, e)) { ConnectedMore(edges, root, e, Up(edges, e), Down(edges, e)); }
      if Connected(edges, root, Down(edges, e)) { ConnectedMore(edges, root, e, Down(edges, e), Up(edges, e)); }
    }
  }

  class AioLayer {
    const edges: CtxEdges
    var ctx: Contexts

    constructor (edges: CtxEdges, ctx: Contexts)
      ensures this.edges == edges && this.ctx == ctx
    {
      this.edges, this.ctx := edges, ctx;
    }

    /** The linear phase: tran_commit, newest first.  A vertex may be named more than once. */
    method CommitMoves(actions: seq<Vertex>, target: Ctx)
      requires forall v :: v in actions ==> v in ctx
      modifies this
      ensures ctx.Keys == old(ctx).Keys
      ensures forall v :: v in ctx ==> ctx[v] == if v in actions then target else old(ctx)[v]
    {
      var k := |actions|;
      while k > 0
        invariant 0 <= k <= |actions| && ctx.Keys == old(ctx).Keys
        invariant forall v :: v in ctx ==> ctx[v] == if v in actions[k..] then target else old(ctx)[v]
      {
        k := k - 1;
        ctx := ctx[actions[k] := target];
        assert actions[k..] == [actions[k]] + actions[k + 1..];
      }
      assert actions[0..] == actions;
    }

    /**
     bdrv_try_change_aio_context_locked: either the connected component of n moves, and
     nothing else, or nothing moves because a user in the component refuses.
     */
    method TryChange(n: Node, target: Ctx) returns (ok: bool)
      requires EqualContexts(edges, ctx) && N(n) in ctx
      modifies this
      ensures EqualContexts(edges, ctx)
      ensures ok <==> old(ctx)[N(n)] == target || !RefusedBelow(edges, N(n))
      ensures if ok then MovedExactly(edges, old(ctx), ctx, N(n), target) else ctx == old(ctx)
    {
      ghost var root, was := N(n), ctx;
      if ctx[N(n)] == target {
        forall v | Connected(edges, root, v) ensures v in ctx && ctx[v] == target { SameContext(edges, ctx, root, v); }
        return true;
      }
      var w := new Walk(edges, ctx, target, root);
      ConnectedSelf(edges, root);
      ok := w.ChangeNode(n, {});
      if !ok { return; }
      assert Elements(w.actions) + {} == Elements(w.actions);
      WalkIsComponent(edges, w.visited, Elements(w.actions), root);
      forall v | v in w.actions ensures v in ctx {
        assert v in Elements(w.actions);
        SameContext(edges, ctx, root, v);
      }
      assert forall v :: v in w.actions <==> v in Elements(w.actions);
      CommitMoves(w.actions, target);
      assert MovedExactly(edges, was, ctx, root, target);
      MoveKeepsEqual(edges, was, ctx, root, target);
    }
  }
}
