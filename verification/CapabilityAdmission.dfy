/**
 Admission of one Work under capability policy: the required closure is collected in place, and each of its
 capabilities is checked against policy, pending controls, the agent's grants and the budgets.
 */
module CapabilityAdmission {
  import opened Primitives
  import opened Graphs
  import opened CapabilityRegistries
  import opened CapabilityResolvers
  import DependencyRecursion

  /** What the admission reads beside the snapshot. */
  datatype Policy = Policy(controls: set<string>, allowed: set<string>, budgets: map<string, int>)

  datatype Denial =
    | UnknownCapability
    | ControlPending(id: string)
    | PolicyBlocked(id: string)
    | AgentDenied(id: string)
    | BudgetExceeded(id: string)

  /** The set `required`, filled by a recursion that stops at what it holds already. */
  class Requirements {
    const graph: Graph
    var required: set<string>

    constructor (graph: Graph)
      ensures this.graph == graph && required == {}
    {
      this.graph, required := graph, {};
    }

    /** Whatever this call adds is needed by `id`, and comes with everything it needs in turn. */
    twostate predicate Added(id: string)
      reads this
    {
      && old(required) <= required
      && forall x <- required - old(required) :: x in Closure(graph, id) && Surrounded(graph, required, x)
    }

    method Include(id: string)
      requires Closed(graph) && id in graph
      modifies this
      ensures Added(id) && id in required
      decreases graph.Keys - required
    {
      if id in required {
        return;
      }
      ghost var before := required;
      required := required + {id};
      ClosureUnfolds(graph, id);
      for i := 0 to |graph[id]|
        invariant before + {id} <= required
        invariant forall x <- required - before ::
                    x in Closure(graph, id) && (x == id || Surrounded(graph, required, x))
        invariant forall j | 0 <= j < i :: graph[id][j] in required
      {
        assert graph[id][i] in graph[id];
        ghost var mid := required;
        Include(graph[id][i]);
        forall x | x in required - before
          ensures x in Closure(graph, id) && (x == id || Surrounded(graph, required, x))
        {
          assert x in mid || x in Closure(graph, graph[id][i]);
        }
      }
    }
  }

  /** Every successor of x is in the set. */
  predicate Surrounded(g: Graph, s: set<string>, x: string) {
    x in g ==> forall y <- g[x] :: y in s
  }

  /** Collecting from two starting points gives exactly their two closures. */
  method Collect(g: Graph, first: string, second: string) returns (required: set<string>)
    requires Closed(g) && first in g && second in g
    ensures required == Closure(g, first) + Closure(g, second)
  {
    var requirements := new Requirements(g);
    requirements.Include(first);
    ghost var early := requirements.required;
    requirements.Include(second);
    required := requirements.required;
    forall x, y | x in required && Edge(g, x, y) ensures y in required {
      assert Surrounded(g, early, x) || Surrounded(g, required, x);
    }
    ClosedSetHolds(g, required, first);
    ClosedSetHolds(g, required, second);
  }

  /** The first objection to one required capability. */
  function Objection(x: Resolution, p: Policy, amount: int): Option<Denial> {
    if x.id in p.controls then Some(ControlPending(x.id))
    else if !PolicyReady(x) then Some(PolicyBlocked(x.id))
    else if x.id !in p.allowed then Some(AgentDenied(x.id))
    else if x.id in p.budgets && amount > p.budgets[x.id] then Some(BudgetExceeded(x.id))
    else None
  }

  method CheckRequired(items: seq<Resolution>, required: set<string>, p: Policy, amount: int)
    returns (why: Option<Denial>)
    ensures why.None? <==> NoneObjected(items, required, p, amount)
    ensures why.Some? ==>
              exists i :: 0 <= i < |items| && items[i].id in required && why == Objection(items[i], p, amount)
                && forall j | 0 <= j < i && items[j].id in required :: Objection(items[j], p, amount).None?
  {
    for i := 0 to |items|
      invariant forall j | 0 <= j < i && items[j].id in required :: Objection(items[j], p, amount).None?
    {
      if items[i].id in required {
        why := Objection(items[i], p, amount);
        if why.Some? {
          return;
        }
      }
    }
    return None;
  }

  /** What the caller of an admission is promised of every capability involved. */
  predicate Cleared(r: Catalog, s: Snapshot, now: int, p: Policy, amount: int, id: string)
    requires id in r.byId
  {
    && ReadyAlone(r, s, now, r.byId[id])
    && id !in p.controls && id in p.allowed
    && (id in p.budgets ==> amount <= p.budgets[id])
  }

  ghost function RequiredFor(r: Catalog, s: Snapshot, id: string): set<string> {
    Closure(RequiredGraph(r, s.facts), "work") + Closure(RequiredGraph(r, s.facts), id)
  }

  /** There is no objection to a resolution exactly when its whole closure is ready and it is otherwise cleared. */
  lemma ObjectionMeans(r: Catalog, s: Snapshot, now: int, p: Policy, amount: int, c: string)
    requires Grounded(r) && c in r.byId
    ensures ResolutionOf(r, s, now, c).id == c
    ensures Objection(ResolutionOf(r, s, now, c), p, amount).None? <==>
            && (forall d <- Closure(RequiredGraph(r, s.facts), c) :: ReadyAlone(r, s, now, r.byId[d]))
            && c !in p.controls && c in p.allowed && (c in p.budgets ==> amount <= p.budgets[c])
  {
    RequiredIsWellFounded(r, s.facts);
    ReadyClosure(r, s, now, c);
  }

  predicate Unobjected(r: Catalog, s: Snapshot, now: int, p: Policy, amount: int, c: string)
    requires Grounded(r) && c in r.byId
  {
    Objection(ResolutionOf(r, s, now, c), p, amount).None?
  }

  ghost predicate AllCleared(r: Catalog, s: Snapshot, now: int, p: Policy, amount: int, id: string) {
    forall c <- RequiredFor(r, s, id) :: c in r.byId && Cleared(r, s, now, p, amount, c)
  }

  /** Over a set that holds the closures of its members, no objection to any is the same as each cleared on its own. */
  lemma UnobjectedAll(r: Catalog, s: Snapshot, now: int, p: Policy, amount: int, id: string)
    requires Grounded(r) && "work" in r.byId && id in r.byId
    ensures forall c <- RequiredFor(r, s, id) :: c in r.byId
    ensures (forall c <- RequiredFor(r, s, id) :: Unobjected(r, s, now, p, amount, c)) <==>
            AllCleared(r, s, now, p, amount, id)
  {
    var g := RequiredGraph(r, s.facts);
    forall c | c in RequiredFor(r, s, id)
      ensures c in r.byId && c in Closure(g, c) && Closure(g, c) <= RequiredFor(r, s, id)
      ensures Unobjected(r, s, now, p, amount, c) <==>
              && (forall d <- Closure(g, c) :: ReadyAlone(r, s, now, r.byId[d]))
              && c !in p.controls && c in p.allowed && (c in p.budgets ==> amount <= p.budgets[c])
    {
      ReachesSelf(g, c);
      RequiredTogether(r, s, id, c);
      ObjectionMeans(r, s, now, p, amount, c);
    }
  }

  predicate NoneObjected(items: seq<Resolution>, required: set<string>, p: Policy, amount: int) {
    forall i | 0 <= i < |items| && items[i].id in required :: Objection(items[i], p, amount).None?
  }

  /** The items of the registry are the resolutions of all its capabilities. */
  lemma ItemsCover(r: Registry, s: Snapshot, now: int, p: Policy, amount: int, items: seq<Resolution>,
      required: set<string>)
    requires Grounded(CatalogOf(r)) && |items| == |r.capabilities|
    requires forall i | 0 <= i < |items| :: Resolved(CatalogOf(r), s, now, r.capabilities[i].id, items[i])
    requires forall c <- required :: c in CatalogOf(r).byId
    ensures NoneObjected(items, required, p, amount) <==>
            forall c <- required :: Unobjected(CatalogOf(r), s, now, p, amount, c)
  {
    var catalog := CatalogOf(r);
    forall i | 0 <= i < |items|
      ensures items[i].id == r.capabilities[i].id && items[i] == ResolutionOf(catalog, s, now, items[i].id)
    {
      ObjectionMeans(catalog, s, now, p, amount, r.capabilities[i].id);
    }
    if NoneObjected(items, required, p, amount) {
      forall c | c in required ensures Unobjected(catalog, s, now, p, amount, c) {
        var i := IndexOfCapability(r, c);
      }
    }
  }

  lemma IndexOfCapability(r: Registry, c: string) returns (i: nat)
    requires c in CatalogOf(r).byId
    ensures i < |r.capabilities| && r.capabilities[i].id == c
  {
    ByIdHolds(r.capabilities);
    i :| 0 <= i < |r.capabilities| && r.capabilities[i] == CatalogOf(r).byId[c];
  }

  /** What a required capability needs is required too. */
  lemma RequiredTogether(r: Catalog, s: Snapshot, id: string, c: string)
    requires c in RequiredFor(r, s, id)
    ensures Closure(RequiredGraph(r, s.facts), c) <= RequiredFor(r, s, id)
  {
    var g := RequiredGraph(r, s.facts);
    forall d | d in Closure(g, c) ensures d in RequiredFor(r, s, id) {
      if c in Closure(g, id) {
        ReachesTransitive(g, id, c, d);
      } else {
        ReachesTransitive(g, "work", c, d);
      }
    }
  }

  /**
   Admission succeeds exactly when every capability in the closures of `work` and of the requested one is ready on its
   own, free of pending controls, granted to the agent and within its budget; and it reports that set.
   */
  method AssertCapabilityAdmission(r: Registry, s: Snapshot, now: int, p: Policy, id: string, amount: int)
    returns (out: Outcome<set<string>, Denial>)
    requires Accepted(r) && "work" in CatalogOf(r).byId
    ensures out.Done? <==>
            id in CatalogOf(r).byId && AllCleared(CatalogOf(r), s, now, p, amount, id)
    ensures out.Done? ==> out.value == RequiredFor(CatalogOf(r), s, id)
  {
    var catalog := CatalogOf(r);
    if id !in catalog.byId {
      return Denied(UnknownCapability);
    }
    AcceptedIsGrounded(r);
    RequiredIsWellFounded(catalog, s.facts);
    var required := Collect(RequiredGraph(catalog, s.facts), "work", id);
    var items := ResolveCapabilities(r, s, now);
    var why := CheckRequired(items, required, p, amount);
    UnobjectedAll(catalog, s, now, p, amount, id);
    ItemsCover(r, s, now, p, amount, items, required);
    if why.Some? {
      return Denied(why.value);
    }
    return Done(required);
  }

  /** The owner's disabling of a capability denies exactly the admissions that require it. */
  lemma DisableDeniesExactly(r: Catalog, s: Snapshot, now: int, p: Policy, amount: int, id: string, c: string)
    requires Grounded(r) && id in r.byId && "work" in r.byId
    ensures AllCleared(r, Disable(s, c), now, p, amount, id) <==>
            AllCleared(r, s, now, p, amount, id) && c !in RequiredFor(r, s, id)
  {
    var required := RequiredFor(r, s, id);
    assert RequiredFor(r, Disable(s, c), id) == required;
    forall d | d in required
      ensures d in r.byId
      ensures Cleared(r, Disable(s, c), now, p, amount, d) <==> Cleared(r, s, now, p, amount, d) && d != c
    {
      DisableAlone(r, s, now, c, r.byId[d]);
    }
  }
}
