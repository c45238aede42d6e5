/**
 Transactions on the block graph: the actions that block.c adds to a transaction,
 what aborting and committing them does, and that aborting undoes every sequence of
 changes.  A transaction (util/transactions.c) keeps its actions newest first, and
 both tran_abort and tran_commit go through them in this order.
 */
module GraphTran {
  import opened Common
  import opened Dag
  import opened BlockGraph

  /**
   The parts of the graph that transactions change: edges, inherits_from, reference
   counts, and the unrefs that are scheduled for later.
   */
  datatype Graph = Graph(edges: Edges, inherits: map<Node, Option<Node>>, refs: map<Node, int>, unrefs: multiset<Node>)

  function Count(refs: map<Node, int>, n: Node): int {
    if n in refs then refs[n] else 0
  }

  function AddRefs(refs: map<Node, int>, n: Option<Node>, d: int): (r: map<Node, int>)
    ensures forall k: Node :: Count(r, k) == Count(refs, k) + if n == Some(k) then d else 0
  {
    if n.Some? then refs[n.value := Count(refs, n.value) + d] else refs
  }

  function Unref(unrefs: multiset<Node>, n: Option<Node>): (r: multiset<Node>)
    ensures forall k :: r[k] == unrefs[k] + if n == Some(k) then 1 else 0
  {
    if n.Some? then unrefs + multiset{n.value} else unrefs
  }

  /** The reference count of a node once the scheduled unrefs have run. */
  function Refs(g: Graph, n: Node): int {
    Count(g.refs, n) - g.unrefs[n]
  }

  function Inherits(g: Graph, n: Node): Option<Node> {
    if n in g.inherits then g.inherits[n] else None
  }

  /** The same edges with the same permissions, the same inherits_from and the same reference counts. */
  ghost predicate Same(a: Graph, b: Graph) {
    && a.edges == b.edges
    && (forall n :: Inherits(a, n) == Inherits(b, n))
    && (forall n :: Refs(a, n) == Refs(b, n))
  }

  /** What a transaction remembers; each action keeps what it needs to go back. */
  datatype Action =
    | SetPerm(edge: EdgeId, perm: set<Perm>, shared: set<Perm>)
    | ReplaceChild(edge: EdgeId, oldBs: Option<Node>)
    | AttachChild(edge: EdgeId)
    | RemoveChild(edge: EdgeId)
    | SetInheritsFrom(node: Node, from: Option<Node>)
    | DriverSetPerm(node: Node)

  // ---------------------------------------------------------------- abort

  /** The edge that an abort handler works on still exists and is in the state the handler asserts. */
  predicate UndoOk(g: Graph, a: Action) {
    match a
    case SetPerm(e, _, _) => e in g.edges
    case ReplaceChild(e, oldBs) => e in g.edges && !g.edges[e].frozen && g.edges[e].bs != oldBs
    case AttachChild(e) => e in g.edges && !g.edges[e].frozen && g.edges[e].bs.Some?
    case _ => true
  }

  function Undo(g: Graph, a: Action): Graph
    requires UndoOk(g, a)
  {
    match a
    case SetPerm(e, perm, shared) => g.(edges := g.edges[e := g.edges[e].(perm := perm, shared := shared)])
    case ReplaceChild(e, oldBs) =>
      g.(edges := g.edges[e := g.edges[e].(bs := oldBs)], refs := AddRefs(g.refs, g.edges[e].bs, -1))
    case AttachChild(e) => g.(edges := g.edges - {e}, unrefs := Unref(g.unrefs, g.edges[e].bs))
    case RemoveChild(_) => g
    case SetInheritsFrom(n, from) => g.(inherits := g.inherits[n := from])
    case DriverSetPerm(_) => g
  }

  function Init<T>(s: seq<T>): seq<T>
    requires s != []
  {
    s[..|s| - 1]
  }

  function Last<T>(s: seq<T>): T
    requires s != []
  {
    s[|s| - 1]
  }

  predicate UndoAllOk(g: Graph, acts: seq<Action>)
    decreases |acts|
  {
    acts == [] || (UndoOk(g, Last(acts)) && UndoAllOk(Undo(g, Last(acts)), Init(acts)))
  }

  function UndoAll(g: Graph, acts: seq<Action>): Graph
    requires UndoAllOk(g, acts)
    decreases |acts|
  {
    if acts == [] then g else UndoAll(Undo(g, Last(acts)), Init(acts))
  }

  /** Aborting leads back to the start, and no handler finds a freed edge on the way. */
  ghost predicate Rollback(start: Graph, g: Graph, acts: seq<Action>) {
    UndoAllOk(g, acts) && Same(UndoAll(g, acts), start)
  }

  // --------------------------------------------------------------- commit

  predicate CommitOk(g: Graph, a: Action) {
    a.RemoveChild? ==> a.edge in g.edges && g.edges[a.edge].bs.None?
  }

  function Commit(g: Graph, a: Action): Graph {
    match a
    case ReplaceChild(_, oldBs) => g.(unrefs := Unref(g.unrefs, oldBs))
    case RemoveChild(e) => g.(edges := g.edges - {e})
    case _ => g
  }

  predicate CommitAllOk(g: Graph, acts: seq<Action>)
    decreases |acts|
  {
    acts == [] || (CommitOk(g, Last(acts)) && CommitAllOk(Commit(g, Last(acts)), Init(acts)))
  }

  function CommitAll(g: Graph, acts: seq<Action>): Graph
    decreases |acts|
  {
    if acts == [] then g else CommitAll(Commit(g, Last(acts)), Init(acts))
  }

  /** The edges that a commit will free. */
  function Removed(acts: seq<Action>): (r: set<EdgeId>)
    ensures forall e :: e in r <==> exists i :: 0 <= i < |acts| && acts[i] == RemoveChild(e)
  {
    set i | 0 <= i < |acts| && acts[i].RemoveChild? :: acts[i].edge
  }

  // ------------------------------------------------------------- owners

  /** References to n that the transaction holds until it ends. */
  function Held(acts: seq<Action>, n: Node): nat
    decreases |acts|
  {
    if acts == [] then 0
    else Held(Init(acts), n) + if Last(acts).ReplaceChild? && Last(acts).oldBs == Some(n) then 1 else 0
  }

  /** Every reference has an owner: an edge, the transaction, or someone outside the graph. */
  ghost predicate Accounted(outside: Node -> nat, g: Graph, acts: seq<Action>) {
    forall n :: Refs(g, n) == outside(n) + |ParentEdges(g.edges, n)| + Held(acts, n)
  }

  /** Removed edges lead nowhere and were removed once. */
  predicate RemovedOk(g: Graph, acts: seq<Action>) {
    && (forall i :: 0 <= i < |acts| ==> CommitOk(g, acts[i]))
    && (forall i, j :: 0 <= i < j < |acts| && acts[i].RemoveChild? && acts[j].RemoveChild? ==>
          acts[i].edge != acts[j].edge)
  }

  // ------------------------------------------------------------- changes

  /** The changes that block.c makes within a transaction. */
  datatype Op =
    | OpSetPerm(e: EdgeId, perm: set<Perm>, shared: set<Perm>)
    | OpReplace(e: EdgeId, bs: Option<Node>)
    | OpAttach(e: EdgeId, edge: Edge)
    | OpRemove(e: EdgeId)
    | OpInherits(node: Node, from: Option<Node>)
    | OpDriver(node: Node)

  /**
   What the callers have to see to: edges exist, are not frozen and were not removed
   before; a replacement is another node; a new edge leads somewhere.  An edge is
   emptied (a replacement by None) before it is removed.
   */
  predicate OpOk(g: Graph, acts: seq<Action>, op: Op) {
    match op
    case OpSetPerm(e, _, _) => e in g.edges
    case OpReplace(e, bs) => e in g.edges && !g.edges[e].frozen && g.edges[e].bs != bs && e !in Removed(acts)
    case OpAttach(e, edge) => e !in g.edges && !edge.frozen && edge.bs.Some?
    case OpRemove(e) => e in g.edges && g.edges[e].bs.None? && e !in Removed(acts)
    case _ => true
  }

  function Replace(g: Graph, e: EdgeId, bs: Option<Node>): Graph
    requires e in g.edges
  {
    g.(edges := g.edges[e := g.edges[e].(bs := bs)], refs := AddRefs(g.refs, bs, 1))
  }

  function Apply(g: Graph, acts: seq<Action>, op: Op): Graph
    requires OpOk(g, acts, op)
  {
    match op
    case OpSetPerm(e, perm, shared) => g.(edges := g.edges[e := g.edges[e].(perm := perm, shared := shared)])
    case OpReplace(e, bs) => Replace(g, e, bs)
    case OpAttach(e, edge) => g.(edges := g.edges[e := edge], refs := AddRefs(g.refs, edge.bs, 1))
    case OpRemove(_) => g
    case OpInherits(n, from) => g.(inherits := g.inherits[n := from])
    case OpDriver(_) => g
  }

  /** What is added to the transaction. */
  function Log(g: Graph, acts: seq<Action>, op: Op): seq<Action>
    requires OpOk(g, acts, op)
  {
    match op
    case OpSetPerm(e, _, _) => [SetPerm(e, g.edges[e].perm, g.edges[e].shared)]
    case OpReplace(e, _) => [ReplaceChild(e, g.edges[e].bs)]
    case OpAttach(e, _) => [AttachChild(e)]
    case OpRemove(e) => [RemoveChild(e)]
    case OpInherits(n, _) => [SetInheritsFrom(n, Inherits(g, n))]
    case OpDriver(n) => [DriverSetPerm(n)]
  }

  // ----------------------------------------------------- aborting is exact

  lemma UndoSame(g: Graph, h: Graph, a: Action)
    requires Same(g, h) && UndoOk(g, a)
    ensures UndoOk(h, a) && Same(Undo(g, a), Undo(h, a))
  {
    forall n ensures Inherits(Undo(g, a), n) == Inherits(Undo(h, a), n) && Refs(Undo(g, a), n) == Refs(Undo(h, a), n) {
      assert Refs(g, n) == Refs(h, n) && Inherits(g, n) == Inherits(h, n);
    }
  }

  lemma {:induction false} UndoAllSame(g: Graph, h: Graph, acts: seq<Action>)
    requires Same(g, h) && UndoAllOk(g, acts)
    ensures UndoAllOk(h, acts) && Same(UndoAll(g, acts), UndoAll(h, acts))
    decreases |acts|
  {
    if acts != [] {
      UndoSame(g, h, Last(acts));
      UndoAllSame(Undo(g, Last(acts)), Undo(h, Last(acts)), Init(acts));
    }
  }

  /** An action whose abort takes back one change extends what can be rolled back. */
  lemma RollbackMore(start: Graph, g: Graph, acts: seq<Action>, g': Graph, a: Action)
    requires Rollback(start, g, acts) && UndoOk(g', a) && Same(Undo(g', a), g)
    ensures Rollback(start, g', acts + [a])
  {
    assert Init(acts + [a]) == acts && Last(acts + [a]) == a;
    SameBack(Undo(g', a), g);
    UndoAllSame(g, Undo(g', a), acts);
  }

  lemma SameBack(a: Graph, b: Graph)
    requires Same(a, b)
    ensures Same(b, a)
  {
  }

  lemma ReplaceUndone(g: Graph, e: EdgeId, bs: Option<Node>)
    requires e in g.edges && !g.edges[e].frozen && g.edges[e].bs != bs
    ensures UndoOk(Replace(g, e, bs), ReplaceChild(e, g.edges[e].bs))
    ensures Same(Undo(Replace(g, e, bs), ReplaceChild(e, g.edges[e].bs)), g)
  {
    var h := Undo(Replace(g, e, bs), ReplaceChild(e, g.edges[e].bs));
    assert h.edges == g.edges;
  }

  /** Every change keeps the way back open. */
  lemma ApplyRollback(start: Graph, g: Graph, acts: seq<Action>, op: Op)
    requires Rollback(start, g, acts) && OpOk(g, acts, op)
    ensures Rollback(start, Apply(g, acts, op), acts + Log(g, acts, op))
  {
    var g' := Apply(g, acts, op);
    match op {
      case OpRemove(e) =>
        RollbackMore(start, g, acts, g', RemoveChild(e));
      case OpReplace(e, bs) =>
        ReplaceUndone(g, e, bs);
        RollbackMore(start, g, acts, g', ReplaceChild(e, g.edges[e].bs));
      case OpAttach(e, edge) =>
        assert Undo(g', AttachChild(e)).edges == g.edges;
        RollbackMore(start, g, acts, g', AttachChild(e));
      case OpSetPerm(e, perm, shared) =>
        var a := SetPerm(e, g.edges[e].perm, g.edges[e].shared);
        assert Undo(g', a).edges == g.edges;
        RollbackMore(start, g, acts, g', a);
      case OpInherits(n, from) =>
        RollbackMore(start, g, acts, g', SetInheritsFrom(n, Inherits(g, n)));
      case OpDriver(n) =>
        RollbackMore(start, g, acts, g', DriverSetPerm(n));
    }
  }

  // ---------------------------------------------------- references stay owned

  lemma ParentCount(edges: Edges, e: EdgeId, x: Edge, n: Node)
    ensures |ParentEdges(edges[e := x], n)| ==
      |ParentEdges(edges, n)| - (if e in edges && edges[e].bs == Some(n) then 1 else 0)
                              + (if x.bs == Some(n) then 1 else 0)
  {
    var rest := ParentEdges(edges, n) - {e};
    assert ParentEdges(edges[e := x], n) == if x.bs == Some(n) then rest + {e} else rest;
    assert ParentEdges(edges, n) == if e in edges && edges[e].bs == Some(n) then rest + {e} else rest;
  }

  lemma HeldMore(acts: seq<Action>, a: Action, n: Node)
    ensures Held(acts + [a], n) == Held(acts, n) + if a.ReplaceChild? && a.oldBs == Some(n) then 1 else 0
  {
    assert Init(acts + [a]) == acts && Last(acts + [a]) == a;
  }

  lemma ReplaceAccounted(outside: Node -> nat, g: Graph, acts: seq<Action>, e: EdgeId, bs: Option<Node>)
    requires Accounted(outside, g, acts) && e in g.edges
    ensures Accounted(outside, Replace(g, e, bs), acts + [ReplaceChild(e, g.edges[e].bs)])
  {
    var g', a := Replace(g, e, bs), ReplaceChild(e, g.edges[e].bs);
    forall n ensures Refs(g', n) == outside(n) + |ParentEdges(g'.edges, n)| + Held(acts + [a], n) {
      ParentCount(g.edges, e, g.edges[e].(bs := bs), n);
      HeldMore(acts, a, n);
      assert Refs(g, n) == outside(n) + |ParentEdges(g.edges, n)| + Held(acts, n);
    }
  }

  lemma ApplyAccounted(outside: Node -> nat, g: Graph, acts: seq<Action>, op: Op)
    requires Accounted(outside, g, acts) && OpOk(g, acts, op)
    ensures Accounted(outside, Apply(g, acts, op), acts + Log(g, acts, op))
  {
    var g' := Apply(g, acts, op);
    if op.OpReplace? {
      ReplaceAccounted(outside, g, acts, op.e, op.bs);
    } else {
      var a := Log(g, acts, op)[0];
      forall n ensures Refs(g', n) == outside(n) + |ParentEdges(g'.edges, n)| + Held(acts + [a], n) {
        HeldMore(acts, a, n);
        assert Refs(g, n) == outside(n) + |ParentEdges(g.edges, n)| + Held(acts, n);
        if op.OpSetPerm? { ParentCount(g.edges, op.e, g'.edges[op.e], n); }
        if op.OpAttach? { ParentCount(g.edges, op.e, op.edge, n); }
      }
    }
  }

  lemma ApplyRemovedOk(g: Graph, acts: seq<Action>, op: Op)
    requires RemovedOk(g, acts) && OpOk(g, acts, op)
    ensures RemovedOk(Apply(g, acts, op), acts + Log(g, acts, op))
  {
    var g', acts' := Apply(g, acts, op), acts + Log(g, acts, op);
    forall i | 0 <= i < |acts'| ensures CommitOk(g', acts'[i]) {
      if i < |acts| { assert acts'[i] == acts[i] && CommitOk(g, acts[i]); }
    }
    forall i, j | 0 <= i < j < |acts'| && acts'[i].RemoveChild? && acts'[j].RemoveChild?
      ensures acts'[i].edge != acts'[j].edge
    {
      assert i < |acts| && acts'[i] == acts[i];
      if j < |acts| { assert acts'[j] == acts[j]; } else { assert acts[i] == RemoveChild(acts[i].edge); }
    }
  }

  /** What holds of an open transaction. */
  ghost predicate Inv(outside: Node -> nat, start: Graph, g: Graph, acts: seq<Action>) {
    Rollback(start, g, acts) && Accounted(outside, start, []) && Accounted(outside, g, acts) && RemovedOk(g, acts)
  }

  lemma SameAccounted(outside: Node -> nat, a: Graph, b: Graph)
    requires Same(a, b) && Accounted(outside, b, [])
    ensures Accounted(outside, a, [])
  {
    forall n ensures Refs(a, n) == outside(n) + |ParentEdges(a.edges, n)| + Held([], n) {
      assert Refs(b, n) == outside(n) + |ParentEdges(b.edges, n)| + Held([], n);
    }
  }

  lemma ApplyKeeps(outside: Node -> nat, start: Graph, g: Graph, acts: seq<Action>, op: Op)
    requires Inv(outside, start, g, acts) && OpOk(g, acts, op)
    ensures Inv(outside, start, Apply(g, acts, op), acts + Log(g, acts, op))
  {
    ApplyRollback(start, g, acts, op);
    ApplyAccounted(outside, g, acts, op);
    ApplyRemovedOk(g, acts, op);
  }

  // ---------------------------------------------------- whole transactions

  ghost predicate RunOk(g: Graph, acts: seq<Action>, ops: seq<Op>)
    decreases |ops|
  {
    ops == [] || (OpOk(g, acts, ops[0]) && RunOk(Apply(g, acts, ops[0]), acts + Log(g, acts, ops[0]), ops[1..]))
  }

  ghost function Run(g: Graph, acts: seq<Action>, ops: seq<Op>): (Graph, seq<Action>)
    requires RunOk(g, acts, ops)
    decreases |ops|
  {
    if ops == [] then (g, acts) else Run(Apply(g, acts, ops[0]), acts + Log(g, acts, ops[0]), ops[1..])
  }

  lemma {:induction false} RunKeeps(outside: Node -> nat, start: Graph, g: Graph, acts: seq<Action>, ops: seq<Op>)
    requires Inv(outside, start, g, acts) && RunOk(g, acts, ops)
    ensures var (g', acts') := Run(g, acts, ops); Inv(outside, start, g', acts')
    decreases |ops|
  {
    if ops != [] {
      ApplyKeeps(outside, start, g, acts, ops[0]);
      RunKeeps(outside, start, Apply(g, acts, ops[0]), acts + Log(g, acts, ops[0]), ops[1..]);
    }
  }

  lemma EmptyInv(outside: Node -> nat, g: Graph)
    requires Accounted(outside, g, [])
    ensures Inv(outside, g, g, [])
  {
  }

  /**
   For every sequence of changes: aborting finds every edge it needs and restores
   edges, permissions, inherits_from and, after the scheduled unrefs, the counts.
   */
  lemma AbortRestores(outside: Node -> nat, start: Graph, ops: seq<Op>)
    requires Accounted(outside, start, []) && RunOk(start, [], ops)
    ensures var (g, acts) := Run(start, [], ops);
      UndoAllOk(g, acts) && Same(UndoAll(g, acts), start) && Accounted(outside, UndoAll(g, acts), [])
  {
    EmptyInv(outside, start);
    RunKeeps(outside, start, start, [], ops);
    var (g, acts) := Run(start, [], ops);
    SameAccounted(outside, UndoAll(g, acts), start);
  }

  lemma CommitStep(outside: Node -> nat, g: Graph, acts: seq<Action>)
    requires acts != [] && Accounted(outside, g, acts) && RemovedOk(g, acts)
    ensures CommitOk(g, Last(acts))
    ensures Accounted(outside, Commit(g, Last(acts)), Init(acts)) && RemovedOk(Commit(g, Last(acts)), Init(acts))
  {
    var a, g', rest := Last(acts), Commit(g, Last(acts)), Init(acts);
    assert CommitOk(g, acts[|acts| - 1]);
    forall n ensures Refs(g', n) == outside(n) + |ParentEdges(g'.edges, n)| + Held(rest, n) {
      assert Refs(g, n) == outside(n) + |ParentEdges(g.edges, n)| + Held(acts, n);
      if a.RemoveChild? { assert ParentEdges(g'.edges, n) == ParentEdges(g.edges, n); }
    }
    forall i | 0 <= i < |rest| ensures CommitOk(g', rest[i]) { assert rest[i] == acts[i] && CommitOk(g, acts[i]); }
  }

  /** Committing frees only removed edges and leaves each count equal to the number of remaining owners. */
  lemma {:induction false} CommitAccounts(outside: Node -> nat, g: Graph, acts: seq<Action>)
    requires Accounted(outside, g, acts) && RemovedOk(g, acts)
    ensures CommitAllOk(g, acts)
    ensures var h := CommitAll(g, acts);
      h.edges == g.edges - Removed(acts) && h.inherits == g.inherits && Accounted(outside, h, [])
    decreases |acts|
  {
    if acts != [] {
      CommitStep(outside, g, acts);
      CommitAccounts(outside, Commit(g, Last(acts)), Init(acts));
      RemovedInit(acts);
    }
  }

  lemma RemovedInit(acts: seq<Action>)
    requires acts != []
    ensures Removed(acts) == Removed(Init(acts)) + if Last(acts).RemoveChild? then {Last(acts).edge} else {}
  {
    var r := Removed(Init(acts)) + if Last(acts).RemoveChild? then {Last(acts).edge} else {};
    forall e | e in Removed(acts) ensures e in r {
      var i :| 0 <= i < |acts| && acts[i] == RemoveChild(e);
      if i < |acts| - 1 { assert Init(acts)[i] == RemoveChild(e); }
    }
    forall e | e in r ensures e in Removed(acts) {
      if i :| 0 <= i < |Init(acts)| && Init(acts)[i] == RemoveChild(e) { assert acts[i] == RemoveChild(e); }
    }
  }

  /** For every sequence of changes: after a commit each reference count equals the remaining owners. */
  lemma CommitLeavesOwners(outside: Node -> nat, start: Graph, ops: seq<Op>)
    requires Accounted(outside, start, []) && RunOk(start, [], ops)
    ensures var (g, acts) := Run(start, [], ops);
      && CommitAllOk(g, acts)
      && CommitAll(g, acts).edges == g.edges - Removed(acts)
      && forall n :: Refs(CommitAll(g, acts), n) == outside(n) + |ParentEdges(g.edges - Removed(acts), n)|
  {
    EmptyInv(outside, start);
    RunKeeps(outside, start, start, [], ops);
    var (g, acts) := Run(start, [], ops);
    CommitAccounts(outside, g, acts);
    forall n ensures Refs(CommitAll(g, acts), n) == outside(n) + |ParentEdges(g.edges - Removed(acts), n)| {
      assert Refs(CommitAll(g, acts), n) == outside(n) + |ParentEdges(CommitAll(g, acts).edges, n)| + Held([], n);
    }
  }
}
