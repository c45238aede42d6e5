/**
 Directed graphs of block nodes: which nodes lie in the subtree of which, and what
 keeps a graph free of cycles.
 */
module Dag {
  import opened Common

  type Node = nat
  type Links = set<(Node, Node)>

  ghost predicate ReachesIn(g: Links, u: Node, v: Node, n: nat)
    decreases n
  {
    if n == 0 then u == v else exists w :: (u, w) in g && ReachesIn(g, w, v, n - 1)
  }

  /** v lies in the subtree of u. */
  ghost predicate Reaches(g: Links, u: Node, v: Node) {
    exists n: nat :: ReachesIn(g, u, v, n)
  }

  ghost predicate Acyclic(g: Links) {
    forall u, v :: (u, v) in g ==> !Reaches(g, v, u)
  }

  ghost predicate Closed(g: Links, s: set<Node>) {
    forall u, v :: (u, v) in g && u in s ==> v in s
  }

  lemma ReachesSelf(g: Links, u: Node)
    ensures Reaches(g, u, u)
  {
    assert ReachesIn(g, u, u, 0);
  }

  lemma ReachesLink(g: Links, u: Node, w: Node, v: Node)
    requires (u, w) in g && Reaches(g, w, v)
    ensures Reaches(g, u, v)
  {
    var n: nat :| ReachesIn(g, w, v, n);
    assert ReachesIn(g, u, v, n + 1);
  }

  lemma ReachesFirst(g: Links, u: Node, v: Node) returns (w: Node)
    requires Reaches(g, u, v) && u != v
    ensures (u, w) in g && Reaches(g, w, v)
  {
    var n: nat :| ReachesIn(g, u, v, n);
    w :| (u, w) in g && ReachesIn(g, w, v, n - 1);
  }

  lemma {:induction false} ReachesInTrans(g: Links, u: Node, w: Node, v: Node, n: nat)
    requires ReachesIn(g, u, w, n) && Reaches(g, w, v)
    ensures Reaches(g, u, v)
    decreases n
  {
    if n > 0 {
      var x :| (u, x) in g && ReachesIn(g, x, w, n - 1);
      ReachesInTrans(g, x, w, v, n - 1);
      ReachesLink(g, u, x, v);
    }
  }

  lemma ReachesTrans(g: Links, u: Node, w: Node, v: Node)
    requires Reaches(g, u, w) && Reaches(g, w, v)
    ensures Reaches(g, u, v)
  {
    var n: nat :| ReachesIn(g, u, w, n);
    ReachesInTrans(g, u, w, v, n);
  }

  lemma {:induction false} ClosedReachesIn(g: Links, s: set<Node>, u: Node, v: Node, n: nat)
    requires Closed(g, s) && u in s && ReachesIn(g, u, v, n)
    ensures v in s
    decreases n
  {
    if n > 0 {
      var w :| (u, w) in g && ReachesIn(g, w, v, n - 1);
      ClosedReachesIn(g, s, w, v, n - 1);
    }
  }

  lemma ClosedReaches(g: Links, s: set<Node>, u: Node, v: Node)
    requires Closed(g, s) && u in s && Reaches(g, u, v)
    ensures v in s
  {
    var n: nat :| ReachesIn(g, u, v, n);
    ClosedReachesIn(g, s, u, v, n);
  }

  // ------------------------------------------------------- subtrees are finite

  function Vertices(g: Links): set<Node> {
    (set l | l in g :: l.0) + (set l | l in g :: l.1)
  }

  lemma LinkVertices(g: Links, u: Node, v: Node)
    requires (u, v) in g
    ensures u in Vertices(g) && v in Vertices(g)
  {
    assert (u, v).0 == u && (u, v).1 == v;
  }

  /** The nodes of the subtree of u. */
  ghost function Subtree(g: Links, u: Node): set<Node> {
    set v | v in Vertices(g) + {u} && Reaches(g, u, v)
  }

  lemma SubtreeIs(g: Links, u: Node, v: Node)
    ensures v in Subtree(g, u) <==> Reaches(g, u, v)
  {
    if Reaches(g, u, v) {
      var s := Vertices(g) + {u};
      forall a, b | (a, b) in g && a in s ensures b in s { LinkVertices(g, a, b); }
      ClosedReaches(g, s, u, v);
    }
  }

  lemma SubtreeClosed(g: Links, u: Node)
    ensures Closed(g, Subtree(g, u)) && u in Subtree(g, u)
  {
    ReachesSelf(g, u);
    forall a, b | (a, b) in g && a in Subtree(g, u) ensures b in Subtree(g, u) {
      ReachesSelf(g, b);
      ReachesLink(g, a, b, b);
      ReachesTrans(g, u, a, b);
      SubtreeIs(g, u, b);
    }
  }

  /** In an acyclic graph subtrees shrink downwards. */
  lemma SubtreeShrinks(g: Links, u: Node, v: Node)
    requires Acyclic(g) && (u, v) in g
    ensures Subtree(g, v) < Subtree(g, u) && |Subtree(g, v)| < |Subtree(g, u)|
  {
    forall x | x in Subtree(g, v) ensures x in Subtree(g, u) {
      ReachesLink(g, u, v, x);
      SubtreeIs(g, u, x);
    }
    SubtreeClosed(g, u);
    SubtreeIs(g, v, u);
    ProperSubsetSmaller(Subtree(g, v), Subtree(g, u));
  }

  lemma {:induction false} ProperSubsetSmaller<T>(a: set<T>, b: set<T>)
    requires a < b
    ensures |a| < |b|
  {
    var x :| x in b && x !in a;
    SubsetSize(a, b - {x});
  }

  // ------------------------------------------- new links into an unreached place

  /** Every new link leads to `to` and does not start in the subtree of `to`. */
  ghost predicate RedirectedTo(g: Links, g': Links, to: Node) {
    forall u, v :: (u, v) in g' ==> (u, v) in g || (v == to && !Reaches(g, to, u))
  }

  lemma {:induction false} RedirectReachesIn(g: Links, g': Links, to: Node, a: Node, b: Node, n: nat)
    requires RedirectedTo(g, g', to) && ReachesIn(g', a, b, n)
    ensures Reaches(g, a, b) || (Reaches(g, to, b) && !Reaches(g, to, a))
    decreases n
  {
    if n == 0 {
      ReachesSelf(g, a);
    } else {
      var w :| (a, w) in g' && ReachesIn(g', w, b, n - 1);
      RedirectReachesIn(g, g', to, w, b, n - 1);
      if (a, w) in g {
        if Reaches(g, w, b) {
          ReachesLink(g, a, w, b);
        } else if Reaches(g, to, a) {
          ReachesSelf(g, w);
          ReachesLink(g, a, w, w);
          ReachesTrans(g, to, a, w);
        }
      } else {
        ReachesSelf(g, to);
      }
    }
  }

  /** What is reached in the new graph was reached before, or is reached through `to`. */
  lemma RedirectReaches(g: Links, g': Links, to: Node, a: Node, b: Node)
    requires RedirectedTo(g, g', to) && Reaches(g', a, b)
    ensures Reaches(g, a, b) || (Reaches(g, to, b) && !Reaches(g, to, a))
  {
    var n: nat :| ReachesIn(g', a, b, n);
    RedirectReachesIn(g, g', to, a, b, n);
  }

  /** Links to `to` from outside its subtree close no cycle. */
  lemma RedirectKeepsAcyclic(g: Links, g': Links, to: Node)
    requires Acyclic(g) && RedirectedTo(g, g', to)
    ensures Acyclic(g')
  {
    forall u, v | (u, v) in g' ensures !Reaches(g', v, u) {
      if Reaches(g', v, u) {
        RedirectReaches(g, g', to, v, u);
        if (u, v) in g {
          ReachesSelf(g, v);
          ReachesLink(g, u, v, v);
          if Reaches(g, to, u) { ReachesTrans(g, to, u, v); }
        } else {
          ReachesSelf(g, to);
        }
        assert false;
      }
    }
  }

  lemma {:induction false} KeptReachesIn(g: Links, g': Links, s: set<Node>, a: Node, b: Node, n: nat)
    requires Closed(g, s) && a in s && ReachesIn(g, a, b, n)
    requires forall u, v :: (u, v) in g && u in s ==> (u, v) in g'
    ensures Reaches(g', a, b)
    decreases n
  {
    if n == 0 {
      ReachesSelf(g', a);
    } else {
      var w :| (a, w) in g && ReachesIn(g, w, b, n - 1);
      KeptReachesIn(g, g', s, w, b, n - 1);
      ReachesLink(g', a, w, b);
    }
  }

  /** No link of the subtree of `to` was taken away. */
  ghost predicate SubtreeLinksKept(g: Links, g': Links, to: Node) {
    forall u, v :: (u, v) in g && Reaches(g, to, u) ==> (u, v) in g'
  }

  /** Redirecting links from outside the subtree of `to` leaves this subtree as it is. */
  lemma RedirectKeepsSubtree(g: Links, g': Links, to: Node, x: Node)
    requires RedirectedTo(g, g', to) && SubtreeLinksKept(g, g', to)
    ensures Reaches(g', to, x) <==> Reaches(g, to, x)
  {
    ReachesSelf(g, to);
    if Reaches(g', to, x) { RedirectReaches(g, g', to, to, x); }
    if Reaches(g, to, x) {
      SubtreeClosed(g, to);
      var n: nat :| ReachesIn(g, to, x, n);
      forall u, v | (u, v) in g && u in Subtree(g, to) ensures (u, v) in g' { SubtreeIs(g, to, u); }
      KeptReachesIn(g, g', Subtree(g, to), to, x, n);
    }
  }

  lemma MoreLinksReach(g: Links, g': Links, a: Node, b: Node)
    requires g <= g' && Reaches(g, a, b)
    ensures Reaches(g', a, b)
  {
    var n: nat :| ReachesIn(g, a, b, n);
    SubtreeClosed(g, a);
    KeptReachesIn(g, g', Subtree(g, a), a, b, n);
  }
}
