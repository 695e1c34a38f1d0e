/**
 Recursion over the dependencies of an acyclic graph: computed with a cache, it is the plain recursion; a property that
 holds one level at a time is a property of the whole closure; and a change at one node stays above that node.
 */
module DependencyRecursion {
  import opened Graphs

  datatype Network<D> = Network(nodes: map<string, D>, graph: Graph)

  ghost predicate WellFounded<D>(n: Network<D>) {
    n.graph.Keys == n.nodes.Keys && Closed(n.graph) && Acyclic(n.graph)
  }

  lemma NextIsSmaller<D>(n: Network<D>, id: string, i: nat)
    requires WellFounded(n) && id in n.nodes && i < |n.graph[id]|
    ensures n.graph[id][i] in n.nodes
    ensures Closure(n.graph, n.graph[id][i]) < Closure(n.graph, id)
  {
    assert Edge(n.graph, id, n.graph[id][i]);
    StepShrinks(n.graph, id, n.graph[id][i]);
  }

  /** The value of a node from its own data and the values of its successors, in order. */
  function Fold<D, T>(n: Network<D>, step: (D, seq<T>) -> T, id: string): T
    requires WellFounded(n) && id in n.nodes
    decreases Closure(n.graph, id)
  {
    step(n.nodes[id], FoldFirst(n, step, id, |n.graph[id]|))
  }

  function FoldFirst<D, T>(n: Network<D>, step: (D, seq<T>) -> T, id: string, k: nat): (values: seq<T>)
    requires WellFounded(n) && id in n.nodes && k <= |n.graph[id]|
    ensures |values| == k
    decreases Closure(n.graph, id), k
  {
    if k == 0 then []
    else
      NextIsSmaller(n, id, k - 1);
      FoldFirst(n, step, id, k - 1) + [Fold(n, step, n.graph[id][k - 1])]
  }

  lemma {:induction false} FoldFirstAt<D, T>(n: Network<D>, step: (D, seq<T>) -> T, id: string, k: nat, i: nat)
    requires WellFounded(n) && id in n.nodes && i < k <= |n.graph[id]|
    ensures n.graph[id][i] in n.nodes
    ensures FoldFirst(n, step, id, k)[i] == Fold(n, step, n.graph[id][i])
  {
    NextIsSmaller(n, id, i);
    if i < k - 1 {
      FoldFirstAt(n, step, id, k - 1, i);
    }
  }

  // ---------------------------------------------------------------- with a cache

  /** The recursion of the source, which fills the map `resolved` as it goes. */
  class Resolver<D, T> {
    const network: Network<D>
    const step: (D, seq<T>) -> T
    var resolved: map<string, T>

    constructor (network: Network<D>, step: (D, seq<T>) -> T)
      ensures this.network == network && this.step == step && Valid()
    {
      this.network, this.step := network, step;
      resolved := map[];
    }

    /** The cache agrees with the plain recursion. */
    ghost predicate Valid()
      reads this
    {
      WellFounded(network) ==> forall id <- resolved :: id in network.nodes && resolved[id] == Fold(network, step, id)
    }

    method Resolve(id: string) returns (value: T)
      requires Valid() && WellFounded(network) && id in network.nodes
      modifies this
      ensures Valid() && value == Fold(network, step, id)
      decreases Closure(network.graph, id)
    {
      if id in resolved {
        return resolved[id];
      }
      var dependencies: seq<T> := [];
      for i := 0 to |network.graph[id]|
        invariant Valid() && dependencies == FoldFirst(network, step, id, i)
      {
        NextIsSmaller(network, id, i);
        var dependency := Resolve(network.graph[id][i]);
        dependencies := dependencies + [dependency];
      }
      value := step(network.nodes[id], dependencies);
      resolved := resolved[id := value];
    }

    /** One value for each node asked for, in order. */
    method ResolveAll(ids: seq<string>) returns (values: seq<T>)
      requires Valid() && WellFounded(network) && forall id <- ids :: id in network.nodes
      modifies this
      ensures Valid() && |values| == |ids|
      ensures forall i | 0 <= i < |ids| :: ids[i] in network.nodes && values[i] == Fold(network, step, ids[i])
    {
      values := [];
      for i := 0 to |ids|
        invariant Valid() && |values| == i
        invariant forall j | 0 <= j < i :: ids[j] in network.nodes && values[j] == Fold(network, step, ids[j])
      {
        assert ids[i] in ids;
        var value := Resolve(ids[i]);
        values := values + [value];
      }
    }
  }

  // ---------------------------------------------------------------- the closure

  ghost predicate OneLevel<D(!new), T(!new)>(step: (D, seq<T>) -> T, good: T -> bool, alone: D -> bool) {
    forall d: D, values: seq<T> {:trigger step(d, values)} ::
      good(step(d, values)) <==> alone(d) && forall x <- values :: good(x)
  }

  lemma OneLevelDown<D(!new), T(!new)>(n: Network<D>, step: (D, seq<T>) -> T, good: T -> bool, alone: D -> bool,
      id: string)
    requires WellFounded(n) && id in n.nodes && OneLevel(step, good, alone)
    ensures forall b <- n.graph[id] :: b in n.nodes
    ensures good(Fold(n, step, id)) <==> alone(n.nodes[id]) && forall b <- n.graph[id] :: good(Fold(n, step, b))
  {
    var k := |n.graph[id]|;
    var values := FoldFirst(n, step, id, k);
    forall i | 0 <= i < k ensures n.graph[id][i] in n.nodes && values[i] == Fold(n, step, n.graph[id][i]) {
      FoldFirstAt(n, step, id, k, i);
    }
    assert good(step(n.nodes[id], values)) <==> alone(n.nodes[id]) && forall x <- values :: good(x);
    assert (forall x <- values :: good(x)) <==> forall b <- n.graph[id] :: good(Fold(n, step, b)) by {
      if forall x <- values :: good(x) {
        forall b | b in n.graph[id] ensures good(Fold(n, step, b)) {
          var i :| 0 <= i < k && n.graph[id][i] == b;
          assert values[i] in values;
        }
      } else {
        var x :| x in values && !good(x);
        var i :| 0 <= i < k && values[i] == x;
        assert n.graph[id][i] in n.graph[id] && !good(Fold(n, step, n.graph[id][i]));
      }
    }
  }

  /** What holds of a value exactly when it holds one level down, holds exactly when it holds all over the closure. */
  lemma {:induction false} FoldClosure<D(!new), T(!new)>(n: Network<D>, step: (D, seq<T>) -> T, good: T -> bool,
                                                        alone: D -> bool, id: string)
    requires WellFounded(n) && id in n.nodes && OneLevel(step, good, alone)
    ensures good(Fold(n, step, id)) <==> forall c <- Closure(n.graph, id) :: alone(n.nodes[c])
    decreases Closure(n.graph, id)
  {
    ClosureUnfolds(n.graph, id);
    OneLevelDown(n, step, good, alone, id);
    forall b | b in n.graph[id]
      ensures good(Fold(n, step, b)) <==> forall c <- Closure(n.graph, b) :: alone(n.nodes[c])
    {
      StepShrinks(n.graph, id, b);
      FoldClosure(n, step, good, alone, b);
    }
  }

  ghost predicate AgreeExcept<D(!new), T(!new)>(
    n: Network<D>, step: (D, seq<T>) -> T, step': (D, seq<T>) -> T, c: string)
  {
    forall id <- n.nodes, values: seq<T> {:trigger step(n.nodes[id], values)} | id != c ::
      step(n.nodes[id], values) == step'(n.nodes[id], values)
  }

  /** A change at node c leaves every value outside c's dependants as it was. */
  lemma {:induction false} FoldElsewhere<D(!new), T(!new)>(
    n: Network<D>, step: (D, seq<T>) -> T, step': (D, seq<T>) -> T, c: string, id: string)
    requires WellFounded(n) && id in n.nodes && AgreeExcept(n, step, step', c)
    requires c !in Closure(n.graph, id)
    ensures Fold(n, step, id) == Fold(n, step', id)
    decreases Closure(n.graph, id)
  {
    ClosureUnfolds(n.graph, id);
    var k := |n.graph[id]|;
    var values, values' := FoldFirst(n, step, id, k), FoldFirst(n, step', id, k);
    forall i | 0 <= i < k ensures values[i] == values'[i] {
      NextIsSmaller(n, id, i);
      assert n.graph[id][i] in n.graph[id];
      FoldElsewhere(n, step, step', c, n.graph[id][i]);
      FoldFirstAt(n, step, id, k, i);
      FoldFirstAt(n, step', id, k, i);
    }
    assert values == values';
  }
}
