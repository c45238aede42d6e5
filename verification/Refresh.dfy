/**
 What a permission refresh of part of the graph leads to (bdrv_do_refresh_perms and
 its helpers in block.c), and why it is the same for every order of visit.
 */
module Refresh {
  import opened Common
  import opened Dag
  import opened BlockGraph
  import opened TopoSort
  import opened Perms

  /**
   What does not change: the nodes' fields, the drivers' child permission functions
   and the verdicts of their bdrv_check_perm.
   */
  datatype Env = Env(attr: Node -> Attr, childPerm: (Node, EdgeId, Grant) -> Grant, check: (Node, Grant) -> bool)

  predicate Takes(edges: Edges, n: Node, p: Perm) {
    exists e :: e in edges && edges[e].bs == Some(n) && p in edges[e].perm
  }

  predicate Shares(edges: Edges, n: Node, p: Perm) {
    forall e :: e in edges && edges[e].bs == Some(n) ==> p in edges[e].shared
  }

  /** bdrv_get_cumulative_perm: what all users of a node take together, and what all of them share. */
  function Cumulative(edges: Edges, n: Node): Grant {
    Grant(set p: Perm | Takes(edges, n, p), set p: Perm | Shares(edges, n, p))
  }

  predicate Allows(a: Edge, b: Edge) {
    b.perm <= a.shared
  }

  /** Any two users of the node get along. */
  predicate Compatible(edges: Edges, n: Node) {
    forall a, b :: a in ParentEdges(edges, n) && b in ParentEdges(edges, n) && a != b ==> Allows(edges[a], edges[b])
  }

  predicate ReadOnlyOk(env: Env, n: Node, g: Grant) {
    Writes(g) ==> Writable(env.attr(n))
  }

  predicate AlignmentOk(env: Env, n: Node, g: Grant) {
    Writes(g) && Resize !in g.perm ==> env.attr(n).aligned
  }

  predicate DriverOk(env: Env, n: Node, g: Grant) {
    env.attr(n).hasDriver ==> env.check(n, g)
  }

  /** The checks that a refresh makes at a node. */
  predicate NodeOk(env: Env, edges: Edges, n: Node) {
    && Compatible(edges, n)
    && ReadOnlyOk(env, n, Cumulative(edges, n))
    && AlignmentOk(env, n, Cumulative(edges, n))
    && DriverOk(env, n, Cumulative(edges, n))
  }

  /** bdrv_child_perm: the driver's answer, overruled by force_share of the child. */
  function ChildGrant(env: Env, n: Node, e: EdgeId, bs: Node, g: Grant): Grant {
    var r := env.childPerm(n, e, g);
    if env.attr(bs).forceShare then r.(shared := ALL) else r
  }

  function GrantOf(e: Edge): Grant {
    Grant(e.perm, e.shared)
  }

  predicate IsChildOf(e: Edge, n: Node) {
    e.parent == Some(n) && e.bs.Some?
  }

  /** An edge of node n after n was refreshed. */
  function Refreshed(env: Env, n: Node, id: EdgeId, e: Edge, g: Grant): Edge {
    if IsChildOf(e, n) && env.attr(n).hasDriver then
      var r := ChildGrant(env, n, id, e.bs.value, g);
      e.(perm := r.perm, shared := r.shared)
    else e
  }

  /** bdrv_node_refresh_perm when no check fails. */
  function SetChildren(env: Env, edges: Edges, n: Node): Edges {
    var g := Cumulative(edges, n);
    map id | id in edges :: Refreshed(env, n, id, edges[id], g)
  }

  /** The edges of n carry what the permissions taken on n call for. */
  predicate ChildrenOk(env: Env, edges: Edges, n: Node) {
    forall id :: id in edges ==> edges[id] == Refreshed(env, n, id, edges[id], Cumulative(edges, n))
  }

  /** The edges when all nodes of the list have been refreshed in turn. */
  function Assign(env: Env, edges: Edges, list: seq<Node>): Edges {
    if list == [] then edges else Assign(env, SetChildren(env, edges, list[0]), list[1..])
  }

  /** The checks that bdrv_do_refresh_perms makes on its way through the list. */
  predicate ChecksPass(env: Env, edges: Edges, list: seq<Node>) {
    list == [] || (NodeOk(env, edges, list[0]) && ChecksPass(env, SetChildren(env, edges, list[0]), list[1..]))
  }

  /** The same graph, with other permissions. */
  predicate SameShape(a: Edges, b: Edges) {
    a.Keys == b.Keys && forall id :: id in a ==> a[id] == b[id].(perm := a[id].perm, shared := a[id].shared)
  }

  predicate AgreeInto(a: Edges, b: Edges, n: Node) {
    forall id :: id in a && id in b && a[id].bs == Some(n) ==> a[id] == b[id]
  }

  // -------------------------------------------------------- one node at a time

  /** Only the edges that lead to a node matter for what happens there. */
  lemma CumulativeSame(a: Edges, b: Edges, n: Node)
    requires SameShape(a, b) && AgreeInto(a, b, n)
    ensures Cumulative(a, n) == Cumulative(b, n)
  {
    forall p ensures Takes(a, n, p) == Takes(b, n, p) && Shares(a, n, p) == Shares(b, n, p) {}
  }

  lemma NodeOkSame(env: Env, a: Edges, b: Edges, n: Node)
    requires SameShape(a, b) && AgreeInto(a, b, n)
    ensures NodeOk(env, a, n) == NodeOk(env, b, n)
  {
    CumulativeSame(a, b, n);
    assert ParentEdges(a, n) == ParentEdges(b, n);
    hide Cumulative;
  }

  lemma {:induction false} AssignFrame(env: Env, edges: Edges, list: seq<Node>)
    ensures var t := Assign(env, edges, list);
      && SameShape(t, edges) && LinksOf(t) == LinksOf(edges)
      && forall id :: id in edges && (edges[id].parent.None? || edges[id].parent.value !in list) ==> t[id] == edges[id]
  {
    if list != [] {
      AssignFrame(env, SetChildren(env, edges, list[0]), list[1..]);
    }
    SameLinks(Assign(env, edges, list), edges);
  }

  lemma SameLinks(a: Edges, b: Edges)
    requires SameShape(a, b)
    ensures LinksOf(a) == LinksOf(b)
  {
    forall l | l in LinksOf(a) ensures l in LinksOf(b) { var e := EdgeOf(a, l.0, l.1); LinkOf(b, e); }
    forall l | l in LinksOf(b) ensures l in LinksOf(a) { var e := EdgeOf(b, l.0, l.1); LinkOf(a, e); }
  }

  lemma SortedTail(g: Links, list: seq<Node>)
    requires Distinct(list) && Sorted(g, list) && list != []
    ensures Distinct(list[1..]) && Sorted(g, list[1..]) && list[0] !in list[1..]
    ensures forall i :: 0 <= i < |list| ==> (list[i], list[0]) !in g
  {
    forall i, j | 0 <= i <= j < |list[1..]| ensures (list[1..][j], list[1..][i]) !in g {
      assert (list[j + 1], list[i + 1]) !in g;
    }
  }

  lemma ParentEarlier(edges: Edges, list: seq<Node>, k: nat, id: EdgeId)
    requires Sorted(LinksOf(edges), list) && k < |list| && id in edges && edges[id].bs == Some(list[k])
    ensures edges[id].parent.None? || edges[id].parent.value !in list[k..]
  {
    if edges[id].parent.Some? {
      LinkOf(edges, id);
      forall j | k <= j < |list| ensures list[j] != edges[id].parent.value {
        assert (list[j], list[k]) !in LinksOf(edges);
      }
    }
  }

  /** Refreshing what stands later in the list does not touch the edges into the first node. */
  lemma FirstIsSettled(env: Env, edges: Edges, list: seq<Node>)
    requires list != [] && Distinct(list) && Sorted(LinksOf(edges), list)
    ensures AgreeInto(edges, Assign(env, edges, list), list[0])
    ensures SameShape(edges, Assign(env, edges, list))
  {
    AssignFrame(env, edges, list);
    var t := Assign(env, edges, list);
    forall id | id in edges && edges[id].bs == Some(list[0]) ensures edges[id] == t[id] {
      ParentEarlier(edges, list, 0, id);
      assert list[0..] == list;
    }
  }

  // ------------------------------------------------------- the whole list

  /** A refresh leaves every listed node's children with what the final permissions on the node call for. */
  lemma {:induction false} AssignConsistent(env: Env, edges: Edges, list: seq<Node>)
    requires Distinct(list) && Sorted(LinksOf(edges), list)
    ensures forall n :: n in list ==> ChildrenOk(env, Assign(env, edges, list), n)
  {
    if list != [] {
      var n, mid, t := list[0], SetChildren(env, edges, list[0]), Assign(env, edges, list);
      SortedTail(LinksOf(edges), list);
      AssignFrame(env, edges, [n]);
      assert [n][1..] == [] && Assign(env, edges, [n]) == mid;
      AssignConsistent(env, mid, list[1..]);
      FirstIsSettled(env, edges, list);
      CumulativeSame(edges, t, n);
      AssignFrame(env, mid, list[1..]);
      forall id | id in t ensures t[id] == Refreshed(env, n, id, t[id], Cumulative(t, n)) {
        hide Cumulative, Assign;
        if IsChildOf(t[id], n) { assert t[id] == mid[id]; }
      }
      assert ChildrenOk(env, t, n);
      hide ChildrenOk, Assign;
    }
  }

  /** The loop's checks are the checks of the final assignment. */
  lemma {:induction false} ChecksPassIff(env: Env, edges: Edges, list: seq<Node>)
    requires Distinct(list) && Sorted(LinksOf(edges), list)
    ensures ChecksPass(env, edges, list) <==> forall n :: n in list ==> NodeOk(env, Assign(env, edges, list), n)
  {
    if list != [] {
      var n, mid := list[0], SetChildren(env, edges, list[0]);
      SortedTail(LinksOf(edges), list);
      AssignFrame(env, edges, [n]);
      assert [n][1..] == [] && Assign(env, edges, [n]) == mid;
      ChecksPassIff(env, mid, list[1..]);
      FirstIsSettled(env, edges, list);
      NodeOkSame(env, edges, Assign(env, edges, list), n);
      assert forall x :: x in list <==> x == n || x in list[1..];
      hide NodeOk, Distinct, Sorted;
    }
  }

  predicate AgreeFrom(a: Edges, b: Edges, id: EdgeId) {
    id in a && id in b ==> a[id] == b[id]
  }

  /** Two consistent assignments that agree on what is not refreshed agree on one more node's edges. */
  lemma OneMoreAgrees(env: Env, a: Edges, b: Edges, list: seq<Node>, k: nat, id: EdgeId)
    requires SameShape(a, b) && Distinct(list) && Sorted(LinksOf(a), list) && k < |list|
    requires ChildrenOk(env, a, list[k]) && ChildrenOk(env, b, list[k])
    requires forall i :: i in a && (a[i].parent.None? || a[i].parent.value !in list[k..]) ==> AgreeFrom(a, b, i)
    requires id in a && IsChildOf(a[id], list[k]) && env.attr(list[k]).hasDriver
    ensures a[id] == b[id]
  {
    var n := list[k];
    forall i | i in a && a[i].bs == Some(n) ensures a[i] == b[i] {
      ParentEarlier(a, list, k, i);
      assert AgreeFrom(a, b, i);
    }
    CumulativeSame(a, b, n);
    hide Cumulative;
    assert a[id] == Refreshed(env, n, id, a[id], Cumulative(a, n));
    assert b[id] == Refreshed(env, n, id, b[id], Cumulative(b, n));
  }

  /** No refresh sets the permissions of this edge. */
  predicate Fixed(env: Env, e: Edge) {
    e.bs.None? || e.parent.None? || !env.attr(e.parent.value).hasDriver
  }

  predicate Untouched(env: Env, a: Edges, b: Edges, list: seq<Node>) {
    forall id :: id in a && id in b && (Fixed(env, a[id]) || a[id].parent.value !in list) ==> a[id] == b[id]
  }

  lemma {:induction false} AgreeUpTo(env: Env, a: Edges, b: Edges, list: seq<Node>, k: nat)
    requires SameShape(a, b) && Distinct(list) && Sorted(LinksOf(a), list) && k <= |list| && Untouched(env, a, b, list)
    requires forall n :: n in list ==> ChildrenOk(env, a, n) && ChildrenOk(env, b, n)
    ensures forall i :: i in a && (a[i].parent.None? || a[i].parent.value !in list[k..]) ==> AgreeFrom(a, b, i)
  {
    if k == 0 {
      assert list[0..] == list;
    } else {
      AgreeUpTo(env, a, b, list, k - 1);
      forall i | i in a && (a[i].parent.None? || a[i].parent.value !in list[k..]) ensures AgreeFrom(a, b, i) {
        if a[i].parent.Some? && a[i].parent.value in list[k - 1..] {
          assert a[i].parent.value == list[k - 1];
          if a[i].bs.Some? && env.attr(list[k - 1]).hasDriver {
            OneMoreAgrees(env, a, b, list, k - 1, i);
          }
        }
      }
    }
  }

  /**
   There is only one way to assign permissions to the edges of the listed nodes that
   is consistent with the permissions on all other edges.
   */
  lemma UniqueAssignment(env: Env, a: Edges, b: Edges, list: seq<Node>)
    requires SameShape(a, b) && Distinct(list) && Sorted(LinksOf(a), list) && Untouched(env, a, b, list)
    requires forall n :: n in list ==> ChildrenOk(env, a, n) && ChildrenOk(env, b, n)
    ensures a == b
  {
    AgreeUpTo(env, a, b, list, |list|);
    assert list[|list|..] == [];
    forall id | id in a ensures a[id] == b[id] { assert AgreeFrom(a, b, id); }
  }

  lemma AssignUntouched(env: Env, edges: Edges, list: seq<Node>, l2: seq<Node>)
    requires Elements(list) == Elements(l2)
    ensures Untouched(env, Assign(env, edges, list), Assign(env, edges, l2), list)
  {
    AssignDriverless(env, edges, list);
    AssignDriverless(env, edges, l2);
    AssignFrame(env, edges, list);
    AssignFrame(env, edges, l2);
    assert forall n :: n in list <==> n in Elements(list);
    assert forall n :: n in l2 <==> n in Elements(l2);
  }

  lemma {:induction false} AssignDriverless(env: Env, edges: Edges, list: seq<Node>)
    ensures Assign(env, edges, list).Keys == edges.Keys
    ensures forall id :: id in edges && Fixed(env, edges[id]) ==> Assign(env, edges, list)[id] == edges[id]
  {
    if list != [] { AssignDriverless(env, SetChildren(env, edges, list[0]), list[1..]); }
  }

  /** Neither the outcome nor the result of a refresh depends on which sorted order is used. */
  lemma OrderDoesNotMatter(env: Env, edges: Edges, l1: seq<Node>, l2: seq<Node>)
    requires Distinct(l1) && Distinct(l2) && Sorted(LinksOf(edges), l1) && Sorted(LinksOf(edges), l2)
    requires Elements(l1) == Elements(l2)
    ensures Assign(env, edges, l1) == Assign(env, edges, l2)
    ensures ChecksPass(env, edges, l1) <==> ChecksPass(env, edges, l2)
  {
    var a, b := Assign(env, edges, l1), Assign(env, edges, l2);
    AssignFrame(env, edges, l1);
    AssignFrame(env, edges, l2);
    AssignConsistent(env, edges, l1);
    AssignConsistent(env, edges, l2);
    AssignUntouched(env, edges, l1, l2);
    assert forall n :: n in l1 <==> n in Elements(l1);
    assert forall n :: n in l2 <==> n in Elements(l2);
    hide Assign, ChildrenOk, NodeOk;
    UniqueAssignment(env, a, b, l1);
    ChecksPassIff(env, edges, l1);
    ChecksPassIff(env, edges, l2);
  }

  /**
   After a successful refresh of whole subtrees the entire graph is consistent, if
   only nodes of these subtrees were not so before.
   */
  lemma RefreshRestores(env: Env, edges: Edges, list: seq<Node>, n: Node)
    requires SortedClosed(LinksOf(edges), list) && ChecksPass(env, edges, list)
    requires n !in list ==> NodeOk(env, edges, n) && ChildrenOk(env, edges, n)
    ensures NodeOk(env, Assign(env, edges, list), n) && ChildrenOk(env, Assign(env, edges, list), n)
  {
    var t := Assign(env, edges, list);
    if n in list {
      AssignConsistent(env, edges, list);
      ChecksPassIff(env, edges, list);
    } else {
      AssignFrame(env, edges, list);
      forall id | id in edges && edges[id].bs == Some(n) ensures edges[id] == t[id] {
        if edges[id].parent.Some? {
          LinkOf(edges, id);
          assert edges[id].parent.value in list <==> edges[id].parent.value in Elements(list);
        }
      }
      NodeOkSame(env, edges, t, n);
      CumulativeSame(edges, t, n);
      forall id | id in t ensures t[id] == Refreshed(env, n, id, t[id], Cumulative(t, n)) {
        hide Assign, Cumulative, NodeOk;
        if IsChildOf(t[id], n) { assert t[id] == edges[id]; }
      }
    }
  }

  // ------------------------------------------------- what a refresh decides

  /** n lies in the subtree of one of the roots. */
  ghost predicate Below(edges: Edges, roots: set<Node>, n: Node) {
    exists r :: r in roots && Reaches(LinksOf(edges), r, n)
  }

  /**
   t has permissions that pass all checks below the roots, that follow from one
   another there, and that are those of `was` everywhere else.
   */
  ghost predicate Consistent(env: Env, was: Edges, roots: set<Node>, t: Edges) {
    && SameShape(t, was)
    && (forall id :: id in was && (Fixed(env, was[id]) || !Below(was, roots, was[id].parent.value)) ==>
          t[id] == was[id])
    && (forall n :: Below(was, roots, n) ==> NodeOk(env, t, n) && ChildrenOk(env, t, n))
  }

  /** g is what the users of n take together, and what all of them share. */
  predicate TakenOn(t: Edges, n: Node, g: Grant) {
    && (forall p :: p in g.perm <==> exists e :: e in t && t[e].bs == Some(n) && p in t[e].perm)
    && (forall p :: p in g.shared <==> forall e :: e in t && t[e].bs == Some(n) ==> p in t[e].shared)
  }

  /**
   What a refresh asks for at node n.  No user takes what another one does not share.
   Who writes needs a writable node, and to resize it unless its size is aligned.  A
   driver has agreed, and its children carry what it asks for, with force_share leaving
   everything to others.
   */
  ghost predicate MeansAt(env: Env, t: Edges, n: Node, g: Grant) {
    && (forall a, b, p :: a in t && b in t && a != b && t[a].bs == t[b].bs == Some(n) && p in t[b].perm ==>
          p in t[a].shared)
    && (Write in g.perm || WriteUnchanged in g.perm ==>
          env.attr(n).rdwr && !env.attr(n).inactive && (Resize in g.perm || env.attr(n).aligned))
    && (env.attr(n).hasDriver ==> env.check(n, g))
    && (forall e :: e in t && env.attr(n).hasDriver && t[e].parent == Some(n) && t[e].bs.Some? ==>
          && t[e].perm == env.childPerm(n, e, g).perm
          && t[e].shared == if env.attr(t[e].bs.value).forceShare then ALL else env.childPerm(n, e, g).shared)
  }

  lemma CumulativeIs(t: Edges, n: Node, g: Grant)
    requires TakenOn(t, n, g)
    ensures g == Cumulative(t, n)
  {
    var c := Cumulative(t, n);
    assert forall p :: p in c.perm <==> Takes(t, n, p);
    assert forall p :: p in c.shared <==> Shares(t, n, p);
    assert g.perm == c.perm && g.shared == c.shared;
  }

  lemma CumulativeTaken(t: Edges, n: Node)
    ensures TakenOn(t, n, Cumulative(t, n))
  {
    var c := Cumulative(t, n);
    assert forall p :: p in c.perm <==> Takes(t, n, p);
    assert forall p :: p in c.shared <==> Shares(t, n, p);
  }

  /** The checks of a refresh at a node, and what it sets there, mean exactly this. */
  lemma NodeMeans(env: Env, t: Edges, n: Node, g: Grant)
    requires TakenOn(t, n, g)
    ensures NodeOk(env, t, n) && ChildrenOk(env, t, n) <==> MeansAt(env, t, n, g)
  {
    CumulativeIs(t, n, g);
    hide Cumulative, TakenOn;
    if MeansAt(env, t, n, g) {
      forall a, b | a in ParentEdges(t, n) && b in ParentEdges(t, n) && a != b ensures Allows(t[a], t[b]) {
        assert forall p :: p in t[b].perm ==> p in t[a].shared;
      }
    }
    if NodeOk(env, t, n) {
      forall a, b, p | a in t && b in t && a != b && t[a].bs == t[b].bs == Some(n) && p in t[b].perm
        ensures p in t[a].shared
      {
        assert Allows(t[a], t[b]);
      }
    }
  }

  /** At every node below the roots the permissions are as a refresh asks for. */
  ghost predicate Granted(env: Env, was: Edges, roots: set<Node>, t: Edges) {
    forall n, g :: Below(was, roots, n) && TakenOn(t, n, g) ==> MeansAt(env, t, n, g)
  }

  /** t is a possible result of a refresh exactly if it is as asked for below the roots and unchanged elsewhere. */
  lemma ConsistentMeans(env: Env, was: Edges, roots: set<Node>, t: Edges)
    ensures Consistent(env, was, roots, t) <==>
      && SameShape(t, was) && Granted(env, was, roots, t)
      && (forall id :: id in was ==>
            || t[id] == was[id]
            || (was[id].bs.Some? && was[id].parent.Some? && env.attr(was[id].parent.value).hasDriver
                && Below(was, roots, was[id].parent.value)))
  {
    hide NodeOk, ChildrenOk, MeansAt, Below, TakenOn;
    forall n, g | TakenOn(t, n, g) ensures NodeOk(env, t, n) && ChildrenOk(env, t, n) <==> MeansAt(env, t, n, g) {
      NodeMeans(env, t, n, g);
    }
    forall n | Below(was, roots, n)
      ensures Granted(env, was, roots, t) ==> NodeOk(env, t, n) && ChildrenOk(env, t, n)
    {
      CumulativeTaken(t, n);
      assert TakenOn(t, n, Cumulative(t, n));
    }
  }

  /** A refresh succeeds if there is a consistent assignment, and then it installs it. */
  ghost predicate RefreshResult(env: Env, was: Edges, roots: set<Node>, ok: bool, now: Edges) {
    && (ok ==> Consistent(env, was, roots, now))
    && (!ok ==> forall t :: !Consistent(env, was, roots, t))
  }

  ghost predicate Lists(edges: Edges, roots: set<Node>, list: seq<Node>) {
    SortedClosed(LinksOf(edges), list) && forall n :: n in list <==> Below(edges, roots, n)
  }

  lemma ConsistentUntouched(env: Env, was: Edges, roots: set<Node>, list: seq<Node>, t: Edges)
    requires Lists(was, roots, list) && Consistent(env, was, roots, t)
    ensures Untouched(env, Assign(env, was, list), t, list)
  {
    AssignFrame(env, was, list);
    AssignDriverless(env, was, list);
    hide Assign, ChildrenOk, NodeOk, Below, SortedClosed;
  }

  lemma ConsistentIsAssign(env: Env, was: Edges, roots: set<Node>, list: seq<Node>, t: Edges)
    requires Lists(was, roots, list) && Consistent(env, was, roots, t)
    ensures t == Assign(env, was, list)
  {
    ConsistentUntouched(env, was, roots, list, t);
    AssignFrame(env, was, list);
    AssignConsistent(env, was, list);
    hide Assign, ChildrenOk, NodeOk, Below, Untouched, Distinct, Sorted;
    UniqueAssignment(env, Assign(env, was, list), t, list);
  }

  /** There is at most one consistent assignment. */
  lemma ConsistentUnique(env: Env, was: Edges, roots: set<Node>, list: seq<Node>, t: Edges, u: Edges)
    requires Lists(was, roots, list) && Consistent(env, was, roots, t) && Consistent(env, was, roots, u)
    ensures t == u
  {
    ConsistentIsAssign(env, was, roots, list, t);
    ConsistentIsAssign(env, was, roots, list, u);
  }

  lemma ResultOfList(env: Env, was: Edges, roots: set<Node>, list: seq<Node>, ok: bool, now: Edges)
    requires Lists(was, roots, list)
    requires (ok <==> ChecksPass(env, was, list)) && (ok ==> now == Assign(env, was, list))
    ensures RefreshResult(env, was, roots, ok, now)
  {
    var a := Assign(env, was, list);
    AssignFrame(env, was, list);
    AssignConsistent(env, was, list);
    AssignDriverless(env, was, list);
    ChecksPassIff(env, was, list);
    hide Assign, ChildrenOk, NodeOk, Below, ChecksPass;
    if !ok {
      forall t ensures !Consistent(env, was, roots, t) {
        if Consistent(env, was, roots, t) { ConsistentIsAssign(env, was, roots, list, t); }
      }
    }
  }

  // ------------------------------------------------------------- loosening

  ghost predicate Monotone(env: Env) {
    forall n, e, g, h :: Looser(g, h) ==> Looser(env.childPerm(n, e, g), env.childPerm(n, e, h))
  }

  /** With the default permission functions the refresh is monotone. */
  lemma DefaultEnvMonotone(env: Env, role: EdgeId -> Role)
    requires forall n, e, g :: env.childPerm(n, e, g) == DefaultPerms(env.attr(n), role(e), g)
    ensures Monotone(env)
  {
    forall n, e, g, h | Looser(g, h) ensures Looser(env.childPerm(n, e, g), env.childPerm(n, e, h)) {
      DefaultPermsMonotone(env.attr(n), role(e), g, h);
    }
  }

  /** Every edge of `a` is one of `b`, with no tighter permissions. */
  predicate LooserEdges(a: Edges, b: Edges) {
    forall id :: id in a ==> id in b && LooserEdge(a[id], b[id])
  }

  predicate LooserEdge(a: Edge, b: Edge) {
    a == b.(perm := a.perm, shared := a.shared) && Looser(GrantOf(a), GrantOf(b))
  }

  predicate LooserInto(a: Edges, b: Edges, n: Node) {
    forall id :: id in a && a[id].bs == Some(n) ==> id in b && LooserEdge(a[id], b[id])
  }

  lemma CumulativeLooser(a: Edges, b: Edges, n: Node)
    requires LooserInto(a, b, n)
    ensures Looser(Cumulative(a, n), Cumulative(b, n))
  {
    forall p | Takes(a, n, p) ensures Takes(b, n, p) {
      var e :| e in a && a[e].bs == Some(n) && p in a[e].perm;
      assert LooserEdge(a[e], b[e]);
    }
    forall p | Shares(b, n, p) ensures Shares(a, n, p) {
      forall e | e in a && a[e].bs == Some(n) ensures p in a[e].shared { assert LooserEdge(a[e], b[e]); }
    }
  }

  /** The parent edge `gone` was taken away; everything else is as in `b`. */
  predicate Without(a: Edges, b: Edges, gone: EdgeId) {
    a.Keys == b.Keys - {gone} && forall id :: id in a ==> a[id] == b[id]
  }

  /** If the edges into a node got looser, so do the edges that it has itself. */
  lemma LooserChild(env: Env, t: Edges, b: Edges, n: Node, id: EdgeId)
    requires Monotone(env) && LooserInto(t, b, n) && ChildrenOk(env, t, n) && ChildrenOk(env, b, n)
    requires id in t && id in b && t[id] == b[id].(perm := t[id].perm, shared := t[id].shared)
    requires IsChildOf(t[id], n) && env.attr(n).hasDriver
    ensures LooserEdge(t[id], b[id])
  {
    CumulativeLooser(t, b, n);
    hide Cumulative;
    assert t[id] == Refreshed(env, n, id, t[id], Cumulative(t, n));
    assert b[id] == Refreshed(env, n, id, b[id], Cumulative(b, n));
  }

  /** Edges of nodes that stand at k or later in the list are not looked at yet. */
  predicate LooserBefore(t: Edges, b: Edges, list: seq<Node>, k: nat)
    requires k <= |list|
  {
    forall id :: id in t && (t[id].parent.None? || t[id].parent.value !in list[k..]) ==>
      id in b && LooserEdge(t[id], b[id])
  }

  /** One more node of the list. */
  lemma LooserStep(env: Env, b: Edges, a: Edges, t: Edges, gone: EdgeId, list: seq<Node>, k: nat)
    requires Monotone(env) && Without(a, b, gone) && SameShape(t, a) && Sorted(LinksOf(t), list) && k < |list|
    requires ChildrenOk(env, b, list[k]) && ChildrenOk(env, t, list[k])
    requires forall id :: id in a && Fixed(env, a[id]) ==> t[id] == a[id]
    requires LooserBefore(t, b, list, k)
    ensures LooserBefore(t, b, list, k + 1)
  {
    hide ChildrenOk, Monotone, Sorted, LinksOf;
    var n := list[k];
    forall id | id in t && t[id].bs == Some(n) ensures id in b && LooserEdge(t[id], b[id]) {
      ParentEarlier(t, list, k, id);
    }
    forall id | id in t && (t[id].parent.None? || t[id].parent.value !in list[k + 1..])
      ensures id in b && LooserEdge(t[id], b[id])
    {
      if t[id].parent == Some(n) {
        if IsChildOf(t[id], n) && env.attr(n).hasDriver { LooserChild(env, t, b, n, id); }
      } else {
        assert t[id].parent.None? || t[id].parent.value !in list[k..];
      }
    }
  }

  lemma {:induction false} LooserUpTo(env: Env, b: Edges, a: Edges, gone: EdgeId, list: seq<Node>, k: nat)
    requires Monotone(env) && Without(a, b, gone) && Distinct(list) && Sorted(LinksOf(a), list) && k <= |list|
    requires forall n :: n in list ==> ChildrenOk(env, b, n)
    ensures LooserBefore(Assign(env, a, list), b, list, k)
  {
    AssignFrame(env, a, list);
    if k == 0 {
      assert list[0..] == list;
    } else {
      LooserUpTo(env, b, a, gone, list, k - 1);
      AssignConsistent(env, a, list);
      AssignDriverless(env, a, list);
      hide Assign, ChildrenOk, Monotone, Sorted, LooserBefore;
      LooserStep(env, b, a, Assign(env, a, list), gone, list, k - 1);
    }
  }

  /** Taking a parent away and refreshing loosens every edge. */
  lemma RemovalLoosens(env: Env, b: Edges, a: Edges, gone: EdgeId, list: seq<Node>)
    requires Monotone(env) && Without(a, b, gone) && Distinct(list) && Sorted(LinksOf(a), list)
    requires forall n :: n in list ==> ChildrenOk(env, b, n)
    ensures LooserEdges(Assign(env, a, list), b)
  {
    LooserUpTo(env, b, a, gone, list, |list|);
    AssignFrame(env, a, list);
    assert list[|list|..] == [];
  }

  lemma LooserStaysOk(env: Env, a: Edges, b: Edges, n: Node)
    requires LooserEdges(a, b) && Compatible(b, n) && ReadOnlyOk(env, n, Cumulative(b, n))
    ensures Compatible(a, n) && ReadOnlyOk(env, n, Cumulative(a, n))
  {
    CumulativeLooser(a, b, n);
    hide Cumulative;
    forall x, y | x in ParentEdges(a, n) && y in ParentEdges(a, n) && x != y ensures Allows(a[x], a[y]) {
      assert LooserEdge(a[x], b[x]) && LooserEdge(a[y], b[y]);
      assert x in ParentEdges(b, n) && y in ParentEdges(b, n);
    }
  }

  /**
   After a parent was taken away the conflict check and the read-only check cannot
   fail: the refresh fails exactly when the alignment check or a driver objects.
   */
  lemma RemovalFailsOnlyBy(env: Env, b: Edges, a: Edges, gone: EdgeId, list: seq<Node>)
    requires Monotone(env) && Without(a, b, gone) && Distinct(list) && Sorted(LinksOf(a), list)
    requires forall n :: n in list ==> ChildrenOk(env, b, n) && NodeOk(env, b, n)
    ensures var t := Assign(env, a, list);
      ChecksPass(env, a, list) <==>
      forall n :: n in list ==> AlignmentOk(env, n, Cumulative(t, n)) && DriverOk(env, n, Cumulative(t, n))
  {
    var t := Assign(env, a, list);
    RemovalLoosens(env, b, a, gone, list);
    ChecksPassIff(env, a, list);
    hide Assign, Cumulative;
    forall n | n in list ensures Compatible(t, n) && ReadOnlyOk(env, n, Cumulative(t, n)) {
      LooserStaysOk(env, t, b, n);
    }
    hide Compatible, ReadOnlyOk, AlignmentOk, DriverOk;
  }

  /** A writer without RESIZE next to a user with RESIZE, on an image of unaligned size. */
  function UnalignedEnv(): Env {
    Env(n => Attr(true, false, false, false, false, false, false), (n, e, g) => g, (n, g) => true)
  }

  function TwoUsers(): Edges {
    map[0 := Edge(None, Some(0), Filtered, false, false, {Write}, ALL),
        1 := Edge(None, Some(0), Filtered, false, false, {Resize}, ALL)]
  }

  /** Loosening can fail: without the user that holds RESIZE the alignment check objects. */
  lemma RemovalCanFail()
    ensures var env, b := UnalignedEnv(), TwoUsers();
      && Monotone(env) && NodeOk(env, b, 0) && ChildrenOk(env, b, 0) && Without(b - {1}, b, 1)
      && !ChecksPass(env, b - {1}, [0])
  {
    var env, b := UnalignedEnv(), TwoUsers();
    assert b[0].bs == Some(0) && b[1].bs == Some(0);
    assert Takes(b, 0, Resize) && Takes(b, 0, Write);
    var a := b - {1};
    assert a[0].bs == Some(0) && Takes(a, 0, Write) && !Takes(a, 0, Resize);
    assert !AlignmentOk(env, 0, Cumulative(a, 0));
  }
}
