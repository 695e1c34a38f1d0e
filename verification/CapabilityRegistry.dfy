/**
 The capability registry: descriptors are accepted exactly when they are well formed, every dependency exists and
 the dependency graph has no cycle.
 */
module CapabilityRegistries {
  import opened Graphs

  datatype Environment = Development | Qualification | Production
  datatype Preference = Enabled | Disabled

  datatype Descriptor = Descriptor(
    id: string, version: string, name: string, owningSystem: string, description: string,
    dependencies: seq<string>, alternatives: seq<string>, environments: seq<Environment>,
    permissions: seq<string>, setup: seq<string>, qualification: seq<string>, ordinaryDefault: Preference)

  datatype Registry = Registry(version: string, capabilities: seq<Descriptor>)

  predicate White(c: char) {
    c in " \t\r\n"
  }

  /** The text has something left when trimmed. */
  predicate Filled(text: string) {
    exists c <- text :: !White(c)
  }

  predicate Identifier(id: string) {
    && id != [] && 'a' <= id[0] <= 'z'
    && forall c <- id :: 'a' <= c <= 'z' || '0' <= c <= '9' || c in ".-"
  }

  predicate Distinct<T(==)>(s: seq<T>) {
    forall i, j | 0 <= i < j < |s| :: s[i] != s[j]
  }

  predicate FilledList(entries: seq<string>) {
    Distinct(entries) && forall e <- entries :: Filled(e)
  }

  predicate WellFormed(d: Descriptor) {
    && Identifier(d.id)
    && Filled(d.version) && Filled(d.name) && Filled(d.owningSystem) && Filled(d.description)
    && FilledList(d.dependencies) && FilledList(d.alternatives) && FilledList(d.permissions)
    && FilledList(d.setup) && FilledList(d.qualification)
    && d.environments != [] && Distinct(d.environments)
  }

  /** Nonempty, each descriptor well formed, identifiers distinct. */
  predicate WellFormedRegistry(r: Registry) {
    && Filled(r.version) && r.capabilities != []
    && (forall d <- r.capabilities :: WellFormed(d))
    && forall i, j | 0 <= i < j < |r.capabilities| :: r.capabilities[i].id != r.capabilities[j].id
  }

  /** The later of two descriptors with one id wins; an accepted registry has no two. */
  function ById(descriptors: seq<Descriptor>): map<string, Descriptor> {
    if descriptors == [] then map[]
    else
      var last := descriptors[|descriptors| - 1];
      ById(descriptors[..|descriptors| - 1])[last.id := last]
  }

  lemma {:induction false} ByIdHolds(descriptors: seq<Descriptor>)
    ensures forall d <- descriptors :: d.id in ById(descriptors)
    ensures forall id <- ById(descriptors) :: ById(descriptors)[id] in descriptors && ById(descriptors)[id].id == id
  {
    if descriptors != [] {
      var n := |descriptors| - 1;
      ByIdHolds(descriptors[..n]);
      assert descriptors == descriptors[..n] + [descriptors[n]];
    }
  }

  /** With distinct identifiers, the map finds each descriptor again. */
  lemma {:induction false} ByIdFinds(descriptors: seq<Descriptor>, i: nat)
    requires i < |descriptors|
    requires forall j, k | 0 <= j < k < |descriptors| :: descriptors[j].id != descriptors[k].id
    ensures descriptors[i].id in ById(descriptors) && ById(descriptors)[descriptors[i].id] == descriptors[i]
  {
    if i < |descriptors| - 1 {
      ByIdFinds(descriptors[..|descriptors| - 1], i);
    }
  }

  function IdsOf(descriptors: seq<Descriptor>): (ids: seq<string>)
    ensures |ids| == |descriptors| && forall i | 0 <= i < |ids| :: ids[i] == descriptors[i].id
  {
    if descriptors == [] then []
    else IdsOf(descriptors[..|descriptors| - 1]) + [descriptors[|descriptors| - 1].id]
  }

  /** Dependencies first, then the alternatives. */
  function EdgesOf(byId: map<string, Descriptor>): Graph {
    map id | id in byId :: byId[id].dependencies + byId[id].alternatives
  }

  /** What acceptance promises about the graph. */
  ghost predicate Accepted(r: Registry) {
    && WellFormedRegistry(r)
    && Closed(EdgesOf(ById(r.capabilities)))
    && Acyclic(EdgesOf(ById(r.capabilities)))
  }

  /** A reference to nothing, or a cycle. */
  ghost predicate Broken(g: Graph) {
    !Closed(g) || exists p :: Cycle(g, p)
  }

  /** The visiting nodes form a path. */
  predicate Descent(g: Graph, visiting: set<string>, stack: seq<string>) {
    && (forall id <- visiting :: id in stack)
    && (forall id <- stack :: id in visiting && id in g)
    && (stack != [] ==> Path(g, stack))
  }

  /** A node may be visited from the top of the stack, or from outside when the stack is empty. */
  predicate MayVisit(g: Graph, stack: seq<string>, id: string) {
    if stack == [] then id in g else Edge(g, stack[|stack| - 1], id)
  }

  predicate MayVisitAll(g: Graph, stack: seq<string>, ids: seq<string>) {
    forall i | 0 <= i < |ids| :: MayVisit(g, stack, ids[i])
  }

  predicate AllDone(ids: seq<string>, n: nat, done: set<string>)
    requires n <= |ids|
  {
    forall i | 0 <= i < n :: ids[i] in done
  }

  lemma AllDoneGrows(ids: seq<string>, i: nat, done: set<string>, done': set<string>)
    requires i < |ids| && AllDone(ids, i, done) && done <= done' && ids[i] in done'
    ensures AllDone(ids, i + 1, done')
  {
  }

  /** Successors of done nodes finished earlier. */
  predicate Finished(g: Graph, done: set<string>, rank: map<string, nat>) {
    && done <= g.Keys && done == rank.Keys
    && forall a <- done :: rank[a] < |done| && Below(g[a], rank, rank[a])
  }

  predicate Below(nodes: seq<string>, rank: map<string, nat>, limit: nat) {
    forall b <- nodes :: b in rank && rank[b] < limit
  }

  lemma Finish(g: Graph, done: set<string>, rank: map<string, nat>, id: string)
    requires Finished(g, done, rank) && id in g && id !in done
    requires forall b <- g[id] :: b in done
    ensures Finished(g, done + {id}, rank[id := |done|])
  {
    forall a | a in done ensures Below(g[a], rank[id := |done|], rank[a]) {
      assert Below(g[a], rank, rank[a]);
    }
  }

  lemma DescentPop(g: Graph, visiting: set<string>, stack: seq<string>, id: string)
    requires Descent(g, visiting, stack) && stack != [] && stack[|stack| - 1] == id && id !in stack[..|stack| - 1]
    ensures Descent(g, visiting - {id}, stack[..|stack| - 1])
  {
    var rest := stack[..|stack| - 1];
    assert stack == rest + [id];
    if rest != [] {
      PathSlice(g, stack, 0, |stack| - 1);
    }
  }

  /** When every node is done, the graph is closed and acyclic. */
  lemma AllFinished(g: Graph, done: set<string>, rank: map<string, nat>)
    requires Finished(g, done, rank) && g.Keys <= done
    ensures Closed(g) && Acyclic(g)
  {
    forall a | a in g ensures Below(g[a], rank, rank[a]) {
      assert a in done;
    }
    RankedIsAcyclic(g, rank);
  }

  /** The depth-first check, with the sets `done` and `visiting` of the source. */
  class CycleCheck {
    const byId: map<string, Descriptor>
    ghost const graph: Graph
    var done: set<string>
    var visiting: set<string>
    ghost var stack: seq<string>             // the visiting nodes, in order of descent
    ghost var rank: map<string, nat>         // finishing order of the done nodes

    constructor (descriptors: seq<Descriptor>)
      ensures Drawn() && Valid() && byId == ById(descriptors) && graph == EdgesOf(ById(descriptors))
      ensures done == {} && visiting == {} && stack == []
    {
      byId := ById(descriptors);
      graph := EdgesOf(ById(descriptors));
      done, visiting, stack, rank := {}, {}, [], map[];
    }

    /** The graph is that of the descriptors. */
    ghost predicate Drawn() {
      && graph.Keys == byId.Keys
      && forall id <- byId :: graph[id] == byId[id].dependencies + byId[id].alternatives
    }

    ghost predicate Valid()
      reads this
    {
      && Descent(graph, visiting, stack) && Finished(graph, done, rank)
      && forall id <- visiting :: id !in done
    }

    twostate predicate Returned()
      reads this
    {
      Valid() && visiting == old(visiting) && stack == old(stack) && old(done) <= done
    }

    method Visit(id: string) returns (ok: bool)
      requires Drawn() && Valid() && MayVisit(graph, stack, id)
      modifies this
      ensures ok ==> Returned() && id in done
      ensures !ok ==> Broken(graph)
      decreases byId.Keys - visiting, 0
    {
      if id in done {
        return true;
      }
      if id !in byId || id in visiting {
        FoundBroken(id);
        return false;
      }
      var item := byId[id];
      Enter(id);
      ok := VisitEach(item.dependencies);
      if ok {
        ok := VisitEach(item.alternatives);
        if ok {
          Leave(id);
        }
      }
    }

    method Enter(id: string)
      requires Drawn() && Valid() && MayVisit(graph, stack, id) && id in byId && id !in visiting && id !in done
      modifies this
      ensures Valid() && visiting == old(visiting) + {id} && stack == old(stack) + [id] && done == old(done)
    {
      if stack != [] {
        PathAppend(graph, stack, id);
      }
      visiting := visiting + {id};
      stack := stack + [id];
    }

    method Leave(id: string)
      requires Valid() && stack != [] && stack[|stack| - 1] == id && id !in stack[..|stack| - 1]
      requires forall b <- graph[id] :: b in done
      modifies this
      ensures Valid() && visiting == old(visiting) - {id} && stack == old(stack)[..|old(stack)| - 1]
              && done == old(done) + {id}
    {
      Finish(graph, done, rank, id);
      DescentPop(graph, visiting, stack, id);
      visiting := visiting - {id};
      stack := stack[..|stack| - 1];
      rank := rank[id := |done|];
      done := done + {id};
    }

    method VisitEach(ids: seq<string>) returns (ok: bool)
      requires Drawn() && Valid() && MayVisitAll(graph, stack, ids)
      modifies this
      ensures ok ==> Returned() && AllDone(ids, |ids|, done)
      ensures !ok ==> Broken(graph)
      decreases byId.Keys - visiting, 1
    {
      ghost var path, under := stack, visiting;
      for i := 0 to |ids|
        invariant Valid() && visiting == under && stack == path && old(done) <= done
        invariant AllDone(ids, i, done)
      {
        ghost var before := done;
        ok := Visit(ids[i]);
        if !ok {
          return false;
        }
        AllDoneGrows(ids, i, before, done);
      }
      return true;
    }

    /** A missing successor, or one already on the stack, breaks the graph. */
    lemma FoundBroken(id: string)
      requires Drawn() && Valid() && MayVisit(graph, stack, id)
      requires id !in byId || id in visiting
      ensures Broken(graph)
    {
      if id in byId {
        var i :| 0 <= i < |stack| && stack[i] == id;
        PathSlice(graph, stack, i, |stack|);
        PathAppend(graph, stack[i..|stack|], id);
        assert Cycle(graph, stack[i..|stack|] + [id]);
      }
    }
  }

  method CheckDescriptors(version: string, descriptors: seq<Descriptor>) returns (ok: bool)
    ensures ok <==> WellFormedRegistry(Registry(version, descriptors))
  {
    if !Filled(version) || descriptors == [] {
      return false;
    }
    var ids: set<string> := {};
    for i := 0 to |descriptors|
      invariant forall id :: id in ids <==> exists j | 0 <= j < i :: descriptors[j].id == id
      invariant forall j | 0 <= j < i :: WellFormed(descriptors[j])
      invariant forall j, k | 0 <= j < k < i :: descriptors[j].id != descriptors[k].id
    {
      var item := descriptors[i];
      if !WellFormed(item) || item.id in ids {
        assert item in descriptors;
        return false;
      }
      ids := ids + {item.id};
    }
    return true;
  }

  /** The registry is accepted exactly when it is well formed and its graph is closed and acyclic. */
  method CreateRegistry(version: string, descriptors: seq<Descriptor>) returns (accepted: bool)
    ensures accepted <==> Accepted(Registry(version, descriptors))
  {
    accepted := CheckDescriptors(version, descriptors);
    if !accepted {
      return;
    }
    ByIdHolds(descriptors);
    var check := new CycleCheck(descriptors);
    var ids := IdsOf(descriptors);
    accepted := check.VisitEach(ids);
    if accepted {
      forall id | id in check.graph ensures id in check.done {
        var j :| 0 <= j < |descriptors| && descriptors[j] == ById(descriptors)[id];
        assert ids[j] == id;
      }
      AllFinished(check.graph, check.done, check.rank);
    }
  }
}
