/** Finite directed graphs given by successor lists, and reachability in them. */
module Graphs {

  type Graph = map<string, seq<string>>

  predicate Edge(g: Graph, a: string, b: string) {
    a in g && b in g[a]
  }

  /** Every successor is a node. */
  predicate Closed(g: Graph) {
    forall a <- g :: forall b <- g[a] :: b in g
  }

  predicate Hop(g: Graph, p: seq<string>, i: nat)
    requires i + 1 < |p|
  {
    Edge(g, p[i], p[i + 1])
  }

  predicate Path(g: Graph, p: seq<string>) {
    && p != []
    && forall i: nat | i + 1 < |p| :: Hop(g, p, i)
  }

  lemma PathPrepend(g: Graph, a: string, p: seq<string>)
    requires Path(g, p) && Edge(g, a, p[0])
    ensures Path(g, [a] + p)
  {
    forall i: nat | i + 1 < |[a] + p| ensures Hop(g, [a] + p, i) {
      if i > 0 {
        assert Hop(g, p, i - 1);
      }
    }
  }

  lemma PathAppend(g: Graph, p: seq<string>, b: string)
    requires Path(g, p) && Edge(g, p[|p| - 1], b)
    ensures Path(g, p + [b])
  {
    forall i: nat | i + 1 < |p + [b]| ensures Hop(g, p + [b], i) {
      if i + 1 < |p| {
        assert Hop(g, p, i);
      }
    }
  }

  /** Any nonempty stretch of a path is a path. */
  lemma PathSlice(g: Graph, p: seq<string>, lo: nat, hi: nat)
    requires Path(g, p) && lo < hi <= |p|
    ensures Path(g, p[lo..hi])
  {
    forall i: nat | i + 1 < hi - lo ensures Hop(g, p[lo..hi], i) {
      assert Hop(g, p, lo + i);
    }
  }

  ghost predicate Reaches(g: Graph, a: string, b: string) {
    exists p :: Path(g, p) && p[0] == a && p[|p| - 1] == b
  }

  predicate Cycle(g: Graph, p: seq<string>) {
    |p| >= 2 && Path(g, p) && p[0] == p[|p| - 1]
  }

  ghost predicate Acyclic(g: Graph) {
    forall p :: !Cycle(g, p)
  }

  /** Everything reachable from a node, the node included. */
  ghost function Closure(g: Graph, a: string): set<string> {
    set b | b in g.Keys && Reaches(g, a, b)
  }

  lemma ReachesSelf(g: Graph, a: string)
    ensures Reaches(g, a, a)
  {
    var p := [a];
    assert Path(g, p) && p[0] == a && p[|p| - 1] == a;
  }

  lemma ReachesStep(g: Graph, a: string, b: string, c: string)
    requires Edge(g, a, b) && Reaches(g, b, c)
    ensures Reaches(g, a, c)
  {
    var p :| Path(g, p) && p[0] == b && p[|p| - 1] == c;
    var q := [a] + p;
    PathPrepend(g, a, p);
    assert Path(g, q) && q[0] == a && q[|q| - 1] == c;
  }

  lemma ReachesFirst(g: Graph, a: string, c: string) returns (b: string)
    requires Reaches(g, a, c) && a != c
    ensures Edge(g, a, b) && Reaches(g, b, c)
  {
    var p :| Path(g, p) && p[0] == a && p[|p| - 1] == c;
    b := p[1];
    var q := p[1..|p|];
    assert Hop(g, p, 0);
    PathSlice(g, p, 1, |p|);
    assert Path(g, q) && q[0] == b && q[|q| - 1] == c;
  }

  lemma ReachesTransitive(g: Graph, a: string, b: string, c: string)
    requires Reaches(g, a, b) && Reaches(g, b, c)
    ensures Reaches(g, a, c)
  {
    var p :| Path(g, p) && p[0] == a && p[|p| - 1] == b;
    var q :| Path(g, q) && q[0] == b && q[|q| - 1] == c;
    var pq := p + q[1..];
    forall i: nat | i + 1 < |pq| ensures Hop(g, pq, i) {
      if i + 1 < |p| {
        assert Hop(g, p, i);
      } else {
        assert Hop(g, q, i + 1 - |p|);
      }
    }
    assert Path(g, pq) && pq[0] == a && pq[|pq| - 1] == c;
  }

  /** A node's closure is the node and its successors' closures. */
  lemma ClosureUnfolds(g: Graph, a: string)
    requires a in g && Closed(g)
    ensures a in Closure(g, a)
    ensures forall b <- g[a] :: Closure(g, b) <= Closure(g, a)
    ensures forall c <- Closure(g, a) :: c == a || exists b <- g[a] :: c in Closure(g, b)
  {
    ReachesSelf(g, a);
    forall b, c | b in g[a] && c in Closure(g, b) ensures c in Closure(g, a) {
      ReachesStep(g, a, b, c);
    }
    forall c | c in Closure(g, a) && c != a ensures exists b <- g[a] :: c in Closure(g, b) {
      var b := ReachesFirst(g, a, c);
    }
  }

  /** In an acyclic graph each step strictly shrinks the closure, so recursion over successors terminates. */
  lemma StepShrinks(g: Graph, a: string, b: string)
    requires Closed(g) && Acyclic(g) && Edge(g, a, b)
    ensures Closure(g, b) < Closure(g, a)
  {
    ClosureUnfolds(g, a);
    if a in Closure(g, b) {
      var p :| Path(g, p) && p[0] == b && p[|p| - 1] == a;
      PathPrepend(g, a, p);
      assert Cycle(g, [a] + p);
    }
  }

  /** A set closed under successors holds the closure of each of its nodes. */
  lemma ClosedSetHolds(g: Graph, s: set<string>, a: string)
    requires a in s && forall x <- s, y: string | Edge(g, x, y) :: y in s
    ensures Closure(g, a) <= s
  {
    forall c | c in Closure(g, a) ensures c in s {
      var p :| Path(g, p) && p[0] == a && p[|p| - 1] == c;
      PathStays(g, s, p, |p| - 1);
    }
  }

  lemma {:induction false} PathStays(g: Graph, s: set<string>, p: seq<string>, i: nat)
    requires Path(g, p) && p[0] in s && i < |p|
    requires forall x <- s, y: string | Edge(g, x, y) :: y in s
    ensures p[i] in s
  {
    if i > 0 {
      PathStays(g, s, p, i - 1);
      assert Hop(g, p, i - 1);
    }
  }

  /** Ranks that fall along every edge exclude cycles. */
  lemma RankedIsAcyclic(g: Graph, rank: map<string, nat>)
    requires forall a <- g :: a in rank && forall b <- g[a] :: b in rank && rank[b] < rank[a]
    ensures Acyclic(g)
  {
    forall p ensures !Cycle(g, p) {
      if Cycle(g, p) {
        RankFalls(g, rank, p, |p| - 1);
      }
    }
  }

  lemma {:induction false} RankFalls(g: Graph, rank: map<string, nat>, p: seq<string>, i: nat)
    requires forall a <- g :: a in rank && forall b <- g[a] :: b in rank && rank[b] < rank[a]
    requires Path(g, p) && 0 < i < |p|
    ensures p[0] in rank && p[i] in rank && rank[p[i]] < rank[p[0]]
  {
    assert Hop(g, p, i - 1);
    if i > 1 {
      RankFalls(g, rank, p, i - 1);
    }
  }

  /** Dropping edges keeps a graph acyclic. */
  lemma SubgraphIsAcyclic(g: Graph, h: Graph)
    requires Acyclic(g) && forall a, b | Edge(h, a, b) :: Edge(g, a, b)
    ensures Acyclic(h)
  {
    forall p ensures !Cycle(h, p) {
      if Cycle(h, p) {
        assert forall i: nat | i + 1 < |p| :: Hop(h, p, i) ==> Hop(g, p, i);
        assert Cycle(g, p);
      }
    }
  }
}
