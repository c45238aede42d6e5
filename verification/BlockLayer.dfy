/**
 The block layer at work (block.c): computing permissions, refreshing them, and
 changing the graph, all within a transaction that can be aborted.
 */
module BlockLayer {
  import opened Common
  import opened Dag
  import opened BlockGraph
  import opened TopoSort
  import opened Perms
  import opened Refresh
  import opened GraphTran

  /** The graph and the transaction that is open on it. */
  class Layer {
    const env: Env
    ghost const outside: Node -> nat
    var edges: Edges
    var inherits: map<Node, Option<Node>>
    var refs: map<Node, int>
    var unrefs: multiset<Node>
    var actions: seq<Action>
    ghost var start: Graph

    ghost function State(): Graph
      reads this
    {
      Graph(edges, inherits, refs, unrefs)
    }

    /** The transaction can be taken back to where it began, and every reference has an owner. */
    ghost predicate Valid()
      reads this
    {
      Inv(outside, start, State(), actions)
    }

    constructor (env: Env, ghost outside: Node -> nat, g: Graph)
      requires Accounted(outside, g, [])
      ensures Valid() && State() == g == start && actions == [] && this.env == env && this.outside == outside
    {
      this.env, this.outside := env, outside;
      edges, inherits, refs, unrefs, actions, start := g.edges, g.inherits, g.refs, g.unrefs, [], g;
      new;
      EmptyInv(outside, g);
    }

    // -------------------------------------------------------- permissions

    /** bdrv_get_cumulative_perm */
    method GetCumulativePerm(n: Node) returns (g: Grant)
      ensures g == Cumulative(edges, n)
    {
      g := Grant({}, ALL);
      forall p: Perm ensures p in ALL {
        match p
        case ConsistentRead =>
        case Write =>
        case WriteUnchanged =>
        case Resize =>
      }
      var todo := ParentEdges(edges, n);
      ghost var done: set<EdgeId> := {};
      while todo != {}
        invariant todo + done == ParentEdges(edges, n)
        invariant forall p :: p in g.perm <==> exists e :: e in done && p in edges[e].perm
        invariant forall p :: p in g.shared <==> forall e :: e in done ==> p in edges[e].shared
        decreases todo
      {
        var e :| e in todo;
        g := Grant(g.perm + edges[e].perm, g.shared * edges[e].shared);
        todo, done := todo - {e}, done + {e};
      }
      assert done == ParentEdges(edges, n);
      forall p ensures p in g.perm <==> Takes(edges, n, p) {
        if p in g.perm { var e :| e in done && p in edges[e].perm; }
      }
      assert g.perm == Cumulative(edges, n).perm;
      forall p ensures p in g.shared <==> Shares(edges, n, p) {}
      assert g.shared == Cumulative(edges, n).shared;
    }

    /** bdrv_parent_perms_conflict */
    method ParentPermsConflict(n: Node) returns (conflict: bool)
      ensures conflict <==> !Compatible(edges, n)
    {
      var all := ParentEdges(edges, n);
      var as_ := all;
      while as_ != {}
        invariant as_ <= all
        invariant forall a, b :: a in all - as_ && b in all && a != b ==> Allows(edges[a], edges[b])
        decreases as_
      {
        var a :| a in as_;
        var bs := all;
        while bs != {}
          invariant bs <= all
          invariant forall b :: b in all - bs && a != b ==> Allows(edges[a], edges[b])
          decreases bs
        {
          var b :| b in bs;
          if a != b && !(edges[b].perm * edges[a].shared == edges[b].perm) {
            assert !Allows(edges[a], edges[b]);
            return true;
          }
          assert a != b ==> edges[b].perm == edges[b].perm * edges[a].shared <= edges[a].shared;
          bs := bs - {b};
        }
        as_ := as_ - {a};
      }
      return false;
    }

    /** bdrv_child_set_perm */
    method ChildSetPerm(e: EdgeId, perm: set<Perm>, shared: set<Perm>)
      requires Valid() && e in edges
      modifies this`edges, this`actions
      ensures Valid() && edges == old(edges)[e := old(edges)[e].(perm := perm, shared := shared)]
      ensures Removed(actions) == Removed(old(actions))
    {
      ghost var op := OpSetPerm(e, perm, shared);
      ApplyKeeps(outside, start, State(), actions, op);
      hide Inv;
      actions := actions + [SetPerm(e, edges[e].perm, edges[e].shared)];
      RemovedLast(actions);
      edges := edges[e := edges[e].(perm := perm, shared := shared)];
    }

    /** bdrv_drv_set_perm */
    method DrvSetPerm(n: Node, g: Grant) returns (ok: bool)
      requires Valid()
      modifies this`actions
      ensures Valid() && ok == DriverOk(env, n, g) && Removed(actions) == Removed(old(actions))
    {
      if !env.attr(n).hasDriver { return true; }
      if !env.check(n, g) { return false; }
      ApplyKeeps(outside, start, State(), actions, OpDriver(n));
      hide Inv;
      actions := actions + [DriverSetPerm(n)];
      RemovedLast(actions);
      ok := true;
    }

    /** bdrv_node_refresh_perm */
    method NodeRefreshPerm(n: Node) returns (ok: bool)
      requires Valid()
      modifies this`edges, this`actions
      ensures Valid() && Removed(actions) == Removed(old(actions)) && SameShape(edges, old(edges))
      ensures var g := Cumulative(old(edges), n);
        ok <==> ReadOnlyOk(env, n, g) && AlignmentOk(env, n, g) && DriverOk(env, n, g)
      ensures ok ==> edges == SetChildren(env, old(edges), n)
    {
      ghost var was := edges;
      var g := GetCumulativePerm(n);
      hide Cumulative;
      if Writes(g) && !Writable(env.attr(n)) { return false; }
      if Writes(g) && Resize !in g.perm && !env.attr(n).aligned { return false; }
      ok := DrvSetPerm(n, g);
      if !ok { return; }
      if !env.attr(n).hasDriver {
        assert edges == SetChildren(env, was, n);
        return;
      }
      SetChildPerms(n, g);
      assert edges == SetChildren(env, was, n);
    }

    /** The loop over the children in bdrv_node_refresh_perm. */
    method SetChildPerms(n: Node, g: Grant)
      requires Valid() && env.attr(n).hasDriver
      modifies this`edges, this`actions
      ensures Valid() && Removed(actions) == Removed(old(actions)) && edges.Keys == old(edges).Keys
      ensures forall e :: e in edges ==> edges[e] == Refreshed(env, n, e, old(edges)[e], g)
      ensures forall e :: e in edges && edges[e].parent == Some(n) && edges[e].bs.Some? ==>
        && edges[e].perm == env.childPerm(n, e, g).perm
        && edges[e].shared == if env.attr(edges[e].bs.value).forceShare then ALL else env.childPerm(n, e, g).shared
    {
      hide Inv;
      ghost var was := edges;
      var todo := ChildEdges(edges, n);
      ghost var done: set<EdgeId> := {};
      while todo != {}
        invariant Valid() && Removed(actions) == Removed(old(actions)) && edges.Keys == was.Keys
        invariant todo + done == ChildEdges(was, n) && todo !! done
        invariant forall e :: e in was ==> edges[e] == if e in done then Refreshed(env, n, e, was[e], g) else was[e]
        decreases todo
      {
        var e :| e in todo;
        var r := ChildGrant(env, n, e, edges[e].bs.value, g);
        ChildSetPerm(e, r.perm, r.shared);
        todo, done := todo - {e}, done + {e};
      }
    }

    /** bdrv_do_refresh_perms */
    method DoRefreshPerms(list: seq<Node>) returns (ok: bool)
      requires Valid()
      modifies this`edges, this`actions
      ensures Valid() && Removed(actions) == Removed(old(actions)) && SameShape(edges, old(edges))
      ensures ok <==> ChecksPass(env, old(edges), list)
      ensures ok ==> edges == Assign(env, old(edges), list)
    {
      ghost var was := edges;
      hide Inv, NodeOk;
      for k := 0 to |list|
        invariant Valid() && Removed(actions) == Removed(old(actions)) && SameShape(edges, was)
        invariant ChecksPass(env, was, list) <==> ChecksPass(env, edges, list[k..])
        invariant Assign(env, was, list) == Assign(env, edges, list[k..])
      {
        ghost var before := edges;
        var conflict := ParentPermsConflict(list[k]);
        assert NodeOk(env, edges, list[k]) <==> !conflict && NodeChecks(env, edges, list[k]) by {
          NodeOkSplit(env, edges, list[k]);
        }
        assert list[k..][0] == list[k] && list[k..][1..] == list[k + 1..];
        if conflict { return false; }
        ok := NodeRefreshPerm(list[k]);
        if !ok { return; }
      }
      ok := true;
    }

    /** bdrv_refresh_perms within a transaction. */
    method RefreshPerms(bs: Node) returns (ok: bool)
      requires Valid() && Acyclic(LinksOf(edges))
      modifies this`edges, this`actions
      ensures Valid() && Removed(actions) == Removed(old(actions)) && SameShape(edges, old(edges))
      ensures RefreshResult(env, old(edges), {bs}, ok, edges)
      ensures ok ==> Granted(env, old(edges), {bs}, edges)
    {
      ghost var was := edges;
      var list, found := TopologicalDfs(edges, [], {}, bs, {});
      assert Lists(was, {bs}, list);
      hide Inv;
      ok := DoRefreshPerms(list);
      ResultOfList(env, was, {bs}, list, ok, edges);
      ConsistentMeans(env, was, {bs}, edges);
    }

    /** bdrv_list_refresh_perms */
    method ListRefreshPerms(roots: seq<Node>) returns (ok: bool)
      requires Valid() && Acyclic(LinksOf(edges))
      modifies this`edges, this`actions
      ensures Valid() && Removed(actions) == Removed(old(actions)) && SameShape(edges, old(edges))
      ensures RefreshResult(env, old(edges), Elements(roots), ok, edges)
      ensures ok ==> Granted(env, old(edges), Elements(roots), edges)
    {
      ghost var was := edges;
      var list := SortSubtrees(edges, [], roots);
      assert Lists(was, Elements(roots), list);
      hide Inv;
      ok := DoRefreshPerms(list);
      ResultOfList(env, was, Elements(roots), list, ok, edges);
      ConsistentMeans(env, was, Elements(roots), edges);
    }

    // ------------------------------------------------- ending a transaction

    /** The abort handlers. */
    method UndoLast()
      requires actions != [] && UndoOk(State(), Last(actions))
      modifies this`edges, this`inherits, this`refs, this`unrefs, this`actions
      ensures State() == Undo(old(State()), Last(old(actions))) && actions == Init(old(actions))
    {
      var a := Last(actions);
      match a {
        case SetPerm(e, perm, shared) =>
          edges := edges[e := edges[e].(perm := perm, shared := shared)];
        case ReplaceChild(e, oldBs) =>
          var newBs := edges[e].bs;
          edges := edges[e := edges[e].(bs := oldBs)];
          refs := AddRefs(refs, newBs, -1);
        case AttachChild(e) =>
          unrefs := Unref(unrefs, edges[e].bs);
          edges := edges - {e};
        case SetInheritsFrom(n, from) =>
          inherits := inherits[n := from];
        case RemoveChild(_) =>
        case DriverSetPerm(_) =>
      }
      actions := Init(actions);
    }

    /** tran_abort: newest first, and every handler finds its edge. */
    method TranAbort()
      requires Valid()
      modifies this
      ensures Valid() && actions == [] && start == State() && Same(State(), old(start))
    {
      ghost var back := UndoAll(State(), actions);
      UndoAllOwned(outside, start, State(), actions);
      while actions != []
        invariant UndoAllOk(State(), actions) && UndoAll(State(), actions) == back
        invariant Accounted(outside, back, []) && Same(back, old(start))
        decreases |actions|
      {
        UndoLast();
      }
      start := State();
      EmptyInv(outside, State());
    }

    /** tran_commit: newest first. */
    method TranCommit()
      requires Valid()
      modifies this
      ensures Valid() && actions == [] && start == State()
      ensures edges == old(edges) - Removed(old(actions)) && inherits == old(inherits)
    {
      ghost var end := CommitAll(State(), actions);
      CommitAccounts(outside, State(), actions);
      while actions != []
        invariant CommitAllOk(State(), actions) && CommitAll(State(), actions) == end
        decreases |actions|
      {
        var a := Last(actions);
        if a.ReplaceChild? {
          unrefs := Unref(unrefs, a.oldBs);
        } else if a.RemoveChild? {
          edges := edges - {a.edge};
        }
        actions := Init(actions);
      }
      start := State();
      EmptyInv(outside, State());
    }

    // --------------------------------------------------- changing the graph

    /** bdrv_replace_child_tran */
    method ReplaceChildTran(e: EdgeId, bs: Option<Node>)
      requires Valid() && OpOk(State(), actions, OpReplace(e, bs))
      modifies this`edges, this`refs, this`actions
      ensures Valid() && edges == old(edges)[e := old(edges)[e].(bs := bs)]
      ensures actions == old(actions) + [ReplaceChild(e, old(edges)[e].bs)]
    {
      ApplyKeeps(outside, start, State(), actions, OpReplace(e, bs));
      hide Inv;
      actions := actions + [ReplaceChild(e, edges[e].bs)];
      refs := AddRefs(refs, bs, 1);
      edges := edges[e := edges[e].(bs := bs)];
    }

    /** bdrv_remove_child */
    method RemoveChild(e: EdgeId)
      requires Valid() && e in edges && e !in Removed(actions) && (edges[e].bs.Some? ==> !edges[e].frozen)
      modifies this`edges, this`refs, this`actions
      ensures Valid() && edges == old(edges)[e := old(edges)[e].(bs := None)]
      ensures Removed(actions) == Removed(old(actions)) + {e}
    {
      hide Inv;
      if edges[e].bs.Some? {
        ReplaceChildTran(e, None);
        RemovedLast(actions);
      }
      ApplyKeeps(outside, start, State(), actions, OpRemove(e));
      assert edges == old(edges)[e := old(edges)[e].(bs := None)];
      actions := actions + [GraphTran.RemoveChild(e)];
      RemovedLast(actions);
    }

    /** bdrv_set_inherits_from */
    method SetInheritsFrom(n: Node, from: Option<Node>)
      requires Valid()
      modifies this`inherits, this`actions
      ensures Valid() && inherits == old(inherits)[n := from]
    {
      ApplyKeeps(outside, start, State(), actions, OpInherits(n, from));
      hide Inv;
      actions := actions + [GraphTran.SetInheritsFrom(n, if n in inherits then inherits[n] else None)];
      inherits := inherits[n := from];
    }

    /** The part of bdrv_attach_child_common that inserts a new edge. */
    method InsertEdge(id: EdgeId, edge: Edge)
      requires Valid() && OpOk(State(), actions, OpAttach(id, edge))
      modifies this`edges, this`refs, this`actions
      ensures Valid() && edges == old(edges)[id := edge] && actions == old(actions) + [AttachChild(id)]
    {
      ApplyKeeps(outside, start, State(), actions, OpAttach(id, edge));
      hide Inv;
      refs := AddRefs(refs, edge.bs, 1);
      edges := edges[id := edge];
      actions := actions + [AttachChild(id)];
    }
  }

  lemma UndoAllOwned(outside: Node -> nat, start: Graph, g: Graph, acts: seq<Action>)
    requires Inv(outside, start, g, acts)
    ensures UndoAllOk(g, acts) && Same(UndoAll(g, acts), start) && Accounted(outside, UndoAll(g, acts), [])
  {
    SameAccounted(outside, UndoAll(g, acts), start);
  }

  lemma RemovedLast(acts: seq<Action>)
    requires acts != []
    ensures Removed(acts) == Removed(Init(acts)) + if Last(acts).RemoveChild? then {Last(acts).edge} else {}
  {
    RemovedInit(acts);
  }

  predicate NodeChecks(env: Env, edges: Edges, n: Node) {
    var g := Cumulative(edges, n);
    ReadOnlyOk(env, n, g) && AlignmentOk(env, n, g) && DriverOk(env, n, g)
  }

  lemma NodeOkSplit(env: Env, edges: Edges, n: Node)
    ensures NodeOk(env, edges, n) <==> Compatible(edges, n) && NodeChecks(env, edges, n)
  {
  }
}
