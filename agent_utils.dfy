/**
 * Analysis of instantiated agent objects: the per-type statistics of an
 * agent tree, and the execution steps a depth-first walk over the agent
 * object graph collects, one per distinct object even when sub-agent lists
 * share objects or form cycles.
 */
module AgentUtils {
  import opened Wrappers
  import opened Text
  import Dicts

  // ---------------------------------------------------------------------
  // Statistics over an agent tree
  // ---------------------------------------------------------------------

  /** An agent object as `get_agent_statistics` sees it. */
  datatype Agent = Agent(
    typeName: string,
    hasInstruction: bool,
    hasTools: bool,
    subAgents: seq<Agent>)

  /** The three class names counted as composite agents. */
  predicate IsComposite(typeName: string)
  {
    typeName == "SequentialAgent" || typeName == "ParallelAgent" || typeName == "LoopAgent"
  }

  /** The `stats` dictionary. */
  datatype Stats = Stats(
    totalAgents: nat,
    agentsWithInstructions: nat,
    agentsWithTools: nat,
    compositeAgents: nat,
    agentTypes: seq<(string, nat)>)

  /** What `count_recursive` adds for one agent before visiting its sub-agents. */
  function CountOne(s: Stats, a: Agent): Stats
  {
    Stats(
      s.totalAgents + 1,
      s.agentsWithInstructions + (if a.hasInstruction then 1 else 0),
      s.agentsWithTools + (if a.hasTools then 1 else 0),
      s.compositeAgents + (if IsComposite(a.typeName) then 1 else 0),
      Dicts.Increment(s.agentTypes, a.typeName))
  }

  /** The statistics after counting `nodes` one after the other. */
  function CountNodes(s: Stats, nodes: seq<Agent>): Stats
  {
    if nodes == [] then s else CountOne(CountNodes(s, nodes[..|nodes| - 1]), nodes[|nodes| - 1])
  }

  /** The agents of a tree in pre-order. */
  function Preorder(a: Agent): (r: seq<Agent>)
    ensures |r| >= 1 && r[0] == a
    decreases a, 1
  {
    [a] + PreorderAll(a.subAgents)
  }

  function PreorderAll(as_: seq<Agent>): seq<Agent>
    decreases as_, 0
  {
    if as_ == [] then [] else Preorder(as_[0]) + PreorderAll(as_[1..])
  }

  lemma {:induction false} PreorderAllAppend(xs: seq<Agent>, ys: seq<Agent>)
    ensures PreorderAll(xs + ys) == PreorderAll(xs) + PreorderAll(ys)
    decreases |xs|
  {
    if xs == [] {
      assert xs + ys == ys;
    } else {
      assert (xs + ys)[1..] == xs[1..] + ys;
      PreorderAllAppend(xs[1..], ys);
    }
  }

  lemma {:induction false} CountNodesAppend(s: Stats, xs: seq<Agent>, ys: seq<Agent>)
    ensures CountNodes(s, xs + ys) == CountNodes(CountNodes(s, xs), ys)
    decreases |ys|
  {
    if ys == [] {
      assert xs + ys == xs;
    } else {
      assert (xs + ys)[..|xs + ys| - 1] == xs + ys[..|ys| - 1];
      CountNodesAppend(s, xs, ys[..|ys| - 1]);
    }
  }

  lemma PreorderAllSingle(a: Agent)
    ensures PreorderAll([a]) == Preorder(a)
  {
    assert [a][1..] == [];
  }

  /** Counting one more sub-agent's tree extends the count of the earlier ones. */
  lemma CountNextSubAgent(s: Stats, a: Agent, i: nat)
    requires i < |a.subAgents|
    ensures CountNodes(s, [a] + PreorderAll(a.subAgents[..i + 1]))
         == CountNodes(CountNodes(s, [a] + PreorderAll(a.subAgents[..i])), Preorder(a.subAgents[i]))
  {
    var sub := a.subAgents[i];
    PrefixSnoc(a.subAgents, i);
    PreorderAllAppend(a.subAgents[..i], [sub]);
    PreorderAllSingle(sub);
    CountNodesAppend(s, [a] + PreorderAll(a.subAgents[..i]), Preorder(sub));
    AppendAssoc([a], PreorderAll(a.subAgents[..i]), Preorder(sub));
  }

  /** `count_recursive`: the agent, then each sub-agent's tree, left to right. */
  method CountRecursive(a: Agent, s: Stats) returns (r: Stats)
    ensures r == CountNodes(s, Preorder(a))
    decreases a
  {
    r := CountOne(s, a);
    assert [a] + PreorderAll(a.subAgents[..0]) == [a];
    assert CountNodes(s, [a]) == r by {
      assert [a][..0] == [];
    }
    var i := 0;
    while i < |a.subAgents|
      invariant 0 <= i <= |a.subAgents|
      invariant r == CountNodes(s, [a] + PreorderAll(a.subAgents[..i]))
    {
      r := CountRecursive(a.subAgents[i], r);
      CountNextSubAgent(s, a, i);
      i := i + 1;
    }
    assert a.subAgents[..|a.subAgents|] == a.subAgents;
  }

  function EmptyStats(): Stats
  {
    Stats(0, 0, 0, 0, [])
  }

  /** `get_agent_statistics`. */
  method GetAgentStatistics(a: Agent) returns (s: Stats)
    ensures s == CountNodes(EmptyStats(), Preorder(a))
  {
    s := CountRecursive(a, EmptyStats());
  }

  function TypeNames(nodes: seq<Agent>): (r: seq<string>)
    ensures |r| == |nodes|
    ensures forall i :: 0 <= i < |nodes| ==> r[i] == nodes[i].typeName
  {
    seq(|nodes|, i requires 0 <= i < |nodes| => nodes[i].typeName)
  }

  /** How many of `nodes` have a composite type. */
  function CompositeCount(nodes: seq<Agent>): nat
  {
    if nodes == [] then 0
    else CompositeCount(nodes[..|nodes| - 1]) + (if IsComposite(nodes[|nodes| - 1].typeName) then 1 else 0)
  }

  lemma {:induction false} CountNodesFromEmpty(nodes: seq<Agent>)
    ensures CountNodes(EmptyStats(), nodes).totalAgents == |nodes|
    ensures CountNodes(EmptyStats(), nodes).compositeAgents == CompositeCount(nodes)
    ensures CountNodes(EmptyStats(), nodes).agentTypes == Dicts.Tally(TypeNames(nodes))
    ensures CountNodes(EmptyStats(), nodes).agentsWithInstructions <= |nodes|
    ensures CountNodes(EmptyStats(), nodes).agentsWithTools <= |nodes|
  {
    if nodes != [] {
      CountNodesFromEmpty(nodes[..|nodes| - 1]);
      assert TypeNames(nodes)[..|nodes| - 1] == TypeNames(nodes[..|nodes| - 1]);
    }
  }

  /**
   * The statistics count every agent of the tree once: the total is the
   * number of agents, the per-type counts add up to it, and composites are
   * the agents of the three composite types.
   */
  lemma StatisticsSpec(a: Agent)
    ensures var s := CountNodes(EmptyStats(), Preorder(a));
      && s.totalAgents == |Preorder(a)|
      && s.agentTypes == Dicts.Tally(TypeNames(Preorder(a)))
      && Dicts.SumValues(s.agentTypes) == s.totalAgents
      && s.compositeAgents == CompositeCount(Preorder(a))
      && s.agentsWithInstructions <= s.totalAgents
      && s.agentsWithTools <= s.totalAgents
  {
    CountNodesFromEmpty(Preorder(a));
    Dicts.TallySum(TypeNames(Preorder(a)));
  }

  // ---------------------------------------------------------------------
  // The agent object graph and reachability
  // ---------------------------------------------------------------------

  /** The identity of an agent object, `id(agent)`. */
  type AgentId = nat

  /** An agent object as the step collector sees it: sub-agents are references to objects. */
  datatype AgentObject = AgentObject(name: Option<string>, typeName: string, subAgents: seq<AgentId>)

  /** The objects by identity. */
  type AgentGraph = map<AgentId, AgentObject>

  /** Every referenced sub-agent is an object of the graph. */
  predicate WellFormed(g: AgentGraph)
  {
    forall id :: id in g ==> forall k :: 0 <= k < |g[id].subAgents| ==> g[id].subAgents[k] in g
  }

  /** `getattr(agent, 'name', 'Unknown Agent')`. */
  function NameOf(a: AgentObject): string
  {
    a.name.GetOr("Unknown Agent")
  }

  /** A chain of objects each listing the next as a sub-agent. */
  predicate IsPath(g: AgentGraph, p: seq<AgentId>)
  {
    && |p| >= 1
    && (forall i :: 0 <= i < |p| ==> p[i] in g)
    && (forall i :: 0 <= i < |p| - 1 ==> p[i + 1] in g[p[i]].subAgents)
  }

  ghost predicate Reachable(g: AgentGraph, a: AgentId, b: AgentId)
  {
    exists p :: IsPath(g, p) && p[0] == a && p[|p| - 1] == b
  }

  lemma ReachableSelf(g: AgentGraph, a: AgentId)
    requires a in g
    ensures Reachable(g, a, a)
  {
    assert IsPath(g, [a]);
  }

  lemma ReachableThrough(g: AgentGraph, a: AgentId, b: AgentId, x: AgentId)
    requires a in g && b in g[a].subAgents && Reachable(g, b, x)
    ensures Reachable(g, a, x)
  {
    var p :| IsPath(g, p) && p[0] == b && p[|p| - 1] == x;
    var q := [a] + p;
    assert forall i :: 1 <= i < |q| ==> q[i] == p[i - 1];
    assert IsPath(g, q);
  }

  // ---------------------------------------------------------------------
  // The depth-first walk
  // ---------------------------------------------------------------------

  /** Who the walk met, at which depth and under which parent name. */
  datatype Visit = Visit(id: AgentId, agent: AgentObject, depth: nat, parentName: string)

  lemma RemoveFromMissing(keys: set<AgentId>, visited: set<AgentId>, id: AgentId)
    requires id in keys && id !in visited
    ensures |keys - (visited + {id})| < |keys - visited|
  {
    assert keys - (visited + {id}) == (keys - visited) - {id};
  }

  lemma MissingShrinks(keys: set<AgentId>, visited: set<AgentId>, more: set<AgentId>)
    requires visited <= more
    ensures |keys - more| <= |keys - visited|
  {
    var big, small := keys - visited, keys - more;
    assert small <= big;
    assert big == small + (big - small);
    assert small * (big - small) == {};
  }

  /**
   * `_dfs_collect_agents` as a value: the visits made from `id`, in the order
   * the steps are appended, and the visited set afterwards.
   */
  function VisitFrom(g: AgentGraph, id: AgentId, depth: nat, parentName: string, visited: set<AgentId>)
    : (r: (seq<Visit>, set<AgentId>))
    requires WellFormed(g) && id in g && visited <= g.Keys
    ensures visited <= r.1 <= g.Keys
    ensures forall i :: 0 <= i < |r.0| ==> r.0[i].id in g && r.0[i].agent == g[r.0[i].id]
    decreases |g.Keys - visited|, 0, 0
  {
    if id in visited then ([], visited)
    else
      RemoveFromMissing(g.Keys, visited, id);
      var (rest, after) := VisitAll(g, g[id].subAgents, depth + 1, NameOf(g[id]), visited + {id});
      ([Visit(id, g[id], depth, parentName)] + rest, after)
  }

  /** The walk over a sub-agent list, left to right, threading the visited set. */
  function VisitAll(g: AgentGraph, ids: seq<AgentId>, depth: nat, parentName: string, visited: set<AgentId>)
    : (r: (seq<Visit>, set<AgentId>))
    requires WellFormed(g) && visited <= g.Keys
    requires forall k :: 0 <= k < |ids| ==> ids[k] in g
    ensures visited <= r.1 <= g.Keys
    ensures forall i :: 0 <= i < |r.0| ==> r.0[i].id in g && r.0[i].agent == g[r.0[i].id]
    decreases |g.Keys - visited|, 1, |ids|
  {
    if ids == [] then ([], visited)
    else
      var (first, mid) := VisitFrom(g, ids[0], depth, parentName, visited);
      MissingShrinks(g.Keys, visited, mid);
      var (rest, after) := VisitAll(g, ids[1..], depth, parentName, mid);
      (first + rest, after)
  }

  lemma {:induction false} VisitAllAppend(g: AgentGraph, xs: seq<AgentId>, ys: seq<AgentId>, depth: nat,
                                          parentName: string, visited: set<AgentId>)
    requires WellFormed(g) && visited <= g.Keys
    requires forall k :: 0 <= k < |xs| ==> xs[k] in g
    requires forall k :: 0 <= k < |ys| ==> ys[k] in g
    ensures var (r1, v1) := VisitAll(g, xs, depth, parentName, visited);
      var (r2, v2) := VisitAll(g, ys, depth, parentName, v1);
      VisitAll(g, xs + ys, depth, parentName, visited) == (r1 + r2, v2)
    decreases |xs|
  {
    if xs == [] {
      assert xs + ys == ys;
      var r2 := VisitAll(g, ys, depth, parentName, visited).0;
      assert [] + r2 == r2;
    } else {
      var (first, mid) := VisitFrom(g, xs[0], depth, parentName, visited);
      MissingShrinks(g.Keys, visited, mid);
      VisitAllUnfold(g, xs, depth, parentName, visited, first, mid);
      VisitAllAppend(g, xs[1..], ys, depth, parentName, mid);
      AppendHeadTail(xs, ys);
      VisitAllUnfold(g, xs + ys, depth, parentName, visited, first, mid);
      var r1 := VisitAll(g, xs[1..], depth, parentName, mid);
      var r2 := VisitAll(g, ys, depth, parentName, r1.1);
      AppendAssoc(first, r1.0, r2.0);
    }
  }

  /** The walk over a non-empty list: the first sub-agent's walk, then the rest's from where it left off. */
  lemma VisitAllUnfold(g: AgentGraph, ids: seq<AgentId>, depth: nat, parentName: string, visited: set<AgentId>,
                       first: seq<Visit>, mid: set<AgentId>)
    requires WellFormed(g) && visited <= g.Keys
    requires forall k :: 0 <= k < |ids| ==> ids[k] in g
    requires ids != [] && (first, mid) == VisitFrom(g, ids[0], depth, parentName, visited)
    ensures mid <= g.Keys && forall k :: 0 <= k < |ids[1..]| ==> ids[1..][k] in g
    ensures VisitAll(g, ids, depth, parentName, visited) ==
      (first + VisitAll(g, ids[1..], depth, parentName, mid).0, VisitAll(g, ids[1..], depth, parentName, mid).1)
  {
  }

  function IdsOf(vs: seq<Visit>): (r: seq<AgentId>)
    ensures |r| == |vs|
    ensures forall i :: 0 <= i < |vs| ==> r[i] == vs[i].id
  {
    seq(|vs|, i requires 0 <= i < |vs| => vs[i].id)
  }

  lemma IdsOfAppend(a: seq<Visit>, b: seq<Visit>)
    ensures IdsOf(a + b) == IdsOf(a) + IdsOf(b)
  {
    assert forall i :: 0 <= i < |a| + |b| ==> (a + b)[i] == if i < |a| then a[i] else b[i - |a|];
  }

  predicate Distinct(xs: seq<AgentId>)
  {
    forall i, j :: 0 <= i < j < |xs| ==> xs[i] != xs[j]
  }

  /** The visits are exactly the objects newly added to the visited set, each once. */
  ghost predicate VisitsAreNew(vs: seq<Visit>, before: set<AgentId>, after: set<AgentId>)
  {
    && Distinct(IdsOf(vs))
    && (forall x :: x in IdsOf(vs) <==> x in after && x !in before)
  }

  lemma VisitsAreNewAppend(a: seq<Visit>, b: seq<Visit>, v0: set<AgentId>, v1: set<AgentId>, v2: set<AgentId>)
    requires v0 <= v1 <= v2
    requires VisitsAreNew(a, v0, v1) && VisitsAreNew(b, v1, v2)
    ensures VisitsAreNew(a + b, v0, v2)
  {
    IdsOfAppend(a, b);
    var ia, ib := IdsOf(a), IdsOf(b);
    forall i, j | 0 <= i < j < |ia + ib| ensures (ia + ib)[i] != (ia + ib)[j] {
      if j >= |ia| && i < |ia| {
        assert (ia + ib)[i] == ia[i] && (ia + ib)[j] == ib[j - |ia|];
        assert ia[i] in ia;
        assert ib[j - |ia|] in ib;
      } else if i >= |ia| {
        assert (ia + ib)[i] == ib[i - |ia|] && (ia + ib)[j] == ib[j - |ia|];
      }
    }
  }

  /** Each object is visited at most once, and the visits are exactly the objects the walk newly marks. */
  lemma {:induction false} VisitFromNew(g: AgentGraph, id: AgentId, depth: nat, parentName: string, visited: set<AgentId>)
    requires WellFormed(g) && id in g && visited <= g.Keys
    ensures VisitsAreNew(VisitFrom(g, id, depth, parentName, visited).0, visited, VisitFrom(g, id, depth, parentName, visited).1)
    decreases |g.Keys - visited|, 0, 0
  {
    if id !in visited {
      RemoveFromMissing(g.Keys, visited, id);
      var v1 := visited + {id};
      VisitAllNew(g, g[id].subAgents, depth + 1, NameOf(g[id]), v1);
      var (rest, after) := VisitAll(g, g[id].subAgents, depth + 1, NameOf(g[id]), v1);
      var here := [Visit(id, g[id], depth, parentName)];
      assert VisitsAreNew(here, visited, v1) by {
        assert IdsOf(here) == [id];
      }
      VisitsAreNewAppend(here, rest, visited, v1, after);
    }
  }

  lemma {:induction false} VisitAllNew(g: AgentGraph, ids: seq<AgentId>, depth: nat, parentName: string, visited: set<AgentId>)
    requires WellFormed(g) && visited <= g.Keys
    requires forall k :: 0 <= k < |ids| ==> ids[k] in g
    ensures VisitsAreNew(VisitAll(g, ids, depth, parentName, visited).0, visited, VisitAll(g, ids, depth, parentName, visited).1)
    decreases |g.Keys - visited|, 1, |ids|
  {
    if ids != [] {
      var (first, mid) := VisitFrom(g, ids[0], depth, parentName, visited);
      VisitFromNew(g, ids[0], depth, parentName, visited);
      MissingShrinks(g.Keys, visited, mid);
      VisitAllNew(g, ids[1..], depth, parentName, mid);
      var (rest, after) := VisitAll(g, ids[1..], depth, parentName, mid);
      VisitsAreNewAppend(first, rest, visited, mid, after);
    }
  }

  /** Every newly marked object has all its sub-agents marked. */
  predicate NewlyClosed(g: AgentGraph, before: set<AgentId>, after: set<AgentId>)
    requires after <= g.Keys
  {
    forall x :: x in after && x !in before ==> forall c :: c in g[x].subAgents ==> c in after
  }

  /** The walk marks its start object and leaves every object it marks with all sub-agents marked. */
  lemma {:induction false} VisitFromClosed(g: AgentGraph, id: AgentId, depth: nat, parentName: string, visited: set<AgentId>)
    requires WellFormed(g) && id in g && visited <= g.Keys
    ensures id in VisitFrom(g, id, depth, parentName, visited).1
    ensures NewlyClosed(g, visited, VisitFrom(g, id, depth, parentName, visited).1)
    decreases |g.Keys - visited|, 0, 0
  {
    if id !in visited {
      RemoveFromMissing(g.Keys, visited, id);
      VisitAllClosed(g, g[id].subAgents, depth + 1, NameOf(g[id]), visited + {id});
    }
  }

  lemma {:induction false} VisitAllClosed(g: AgentGraph, ids: seq<AgentId>, depth: nat, parentName: string, visited: set<AgentId>)
    requires WellFormed(g) && visited <= g.Keys
    requires forall k :: 0 <= k < |ids| ==> ids[k] in g
    ensures forall k :: 0 <= k < |ids| ==> ids[k] in VisitAll(g, ids, depth, parentName, visited).1
    ensures NewlyClosed(g, visited, VisitAll(g, ids, depth, parentName, visited).1)
    decreases |g.Keys - visited|, 1, |ids|
  {
    if ids != [] {
      var (first, mid) := VisitFrom(g, ids[0], depth, parentName, visited);
      VisitFromClosed(g, ids[0], depth, parentName, visited);
      MissingShrinks(g.Keys, visited, mid);
      VisitAllClosed(g, ids[1..], depth, parentName, mid);
      var after := VisitAll(g, ids, depth, parentName, visited).1;
      assert forall k :: 1 <= k < |ids| ==> ids[k] == ids[1..][k - 1];
    }
  }

  /** Every object the walk marks is reachable from where it started. */
  lemma {:induction false} VisitFromSound(g: AgentGraph, id: AgentId, depth: nat, parentName: string, visited: set<AgentId>)
    requires WellFormed(g) && id in g && visited <= g.Keys
    ensures forall x :: x in VisitFrom(g, id, depth, parentName, visited).1 && x !in visited ==> Reachable(g, id, x)
    decreases |g.Keys - visited|, 0, 0
  {
    if id !in visited {
      RemoveFromMissing(g.Keys, visited, id);
      var subs := g[id].subAgents;
      VisitAllSound(g, subs, depth + 1, NameOf(g[id]), visited + {id});
      forall x | x in VisitFrom(g, id, depth, parentName, visited).1 && x !in visited
        ensures Reachable(g, id, x)
      {
        if x == id {
          ReachableSelf(g, id);
        } else {
          var k :| 0 <= k < |subs| && Reachable(g, subs[k], x);
          ReachableThrough(g, id, subs[k], x);
        }
      }
    }
  }

  lemma {:induction false} VisitAllSound(g: AgentGraph, ids: seq<AgentId>, depth: nat, parentName: string, visited: set<AgentId>)
    requires WellFormed(g) && visited <= g.Keys
    requires forall k :: 0 <= k < |ids| ==> ids[k] in g
    ensures forall x :: x in VisitAll(g, ids, depth, parentName, visited).1 && x !in visited ==>
      exists k :: 0 <= k < |ids| && Reachable(g, ids[k], x)
    decreases |g.Keys - visited|, 1, |ids|
  {
    if ids != [] {
      var (first, mid) := VisitFrom(g, ids[0], depth, parentName, visited);
      VisitFromSound(g, ids[0], depth, parentName, visited);
      MissingShrinks(g.Keys, visited, mid);
      VisitAllSound(g, ids[1..], depth, parentName, mid);
      forall x | x in VisitAll(g, ids, depth, parentName, visited).1 && x !in visited
        ensures exists k :: 0 <= k < |ids| && Reachable(g, ids[k], x)
      {
        if x !in mid {
          var k :| 0 <= k < |ids[1..]| && Reachable(g, ids[1..][k], x);
          assert ids[1..][k] == ids[k + 1];
        }
      }
    }
  }

  /** A set closed under sub-agents that holds the start of a path holds its end. */
  lemma {:induction false} ClosedHoldsPath(g: AgentGraph, s: set<AgentId>, p: seq<AgentId>)
    requires s <= g.Keys && IsPath(g, p) && p[0] in s
    requires forall x :: x in s ==> forall c :: c in g[x].subAgents ==> c in s
    ensures p[|p| - 1] in s
    decreases |p|
  {
    if |p| > 1 {
      var q := p[..|p| - 1];
      assert IsPath(g, q);
      ClosedHoldsPath(g, s, q);
    }
  }

  /**
   * Starting from nothing visited, the walk from the root visits every
   * object reachable from it exactly once, and nothing else: cycles and
   * shared sub-agents add no second visit.
   */
  lemma VisitsAreReachable(g: AgentGraph, root: AgentId)
    requires WellFormed(g) && root in g
    ensures var vs := VisitFrom(g, root, 0, "", {}).0;
      && Distinct(IdsOf(vs))
      && (forall x :: x in IdsOf(vs) <==> Reachable(g, root, x))
  {
    var (vs, after) := VisitFrom(g, root, 0, "", {});
    VisitFromNew(g, root, 0, "", {});
    VisitFromClosed(g, root, 0, "", {});
    VisitFromSound(g, root, 0, "", {});
    forall x | Reachable(g, root, x) ensures x in after {
      var p :| IsPath(g, p) && p[0] == root && p[|p| - 1] == x;
      ClosedHoldsPath(g, after, p);
    }
  }

  /**
   * After the first visit, every visit is one level below an earlier visit
   * whose object lists it as a sub-agent, and carries that object's name as
   * its parent name.
   */
  predicate UnderEarlier(g: AgentGraph, vs: seq<Visit>, i: int)
    requires 0 <= i < |vs|
  {
    exists j :: 0 <= j < i && Below(g, vs[j], vs[i])
  }

  /** `child` is a sub-agent of `parent`'s object, one level deeper, under its name. */
  predicate Below(g: AgentGraph, parent: Visit, child: Visit)
  {
    parent.id in g && child.id in g[parent.id].subAgents &&
    child.depth == parent.depth + 1 && child.parentName == NameOf(g[parent.id])
  }

  /** Each visit is one of the listed objects at the given depth and parent name, or lies under an earlier visit. */
  predicate Linked(g: AgentGraph, vs: seq<Visit>, ids: seq<AgentId>, depth: nat, parentName: string)
  {
    forall i :: 0 <= i < |vs| ==> Listed(vs[i], ids, depth, parentName) || UnderEarlier(g, vs, i)
  }

  predicate Listed(v: Visit, ids: seq<AgentId>, depth: nat, parentName: string)
  {
    v.id in ids && v.depth == depth && v.parentName == parentName
  }

  lemma UnderEarlierLeft(g: AgentGraph, a: seq<Visit>, b: seq<Visit>, i: nat)
    requires i < |a| && UnderEarlier(g, a, i)
    ensures UnderEarlier(g, a + b, i)
  {
    var j :| 0 <= j < i && Below(g, a[j], a[i]);
    assert (a + b)[j] == a[j] && (a + b)[i] == a[i];
  }

  lemma UnderEarlierRight(g: AgentGraph, a: seq<Visit>, b: seq<Visit>, i: nat)
    requires i < |b| && UnderEarlier(g, b, i)
    ensures UnderEarlier(g, a + b, |a| + i)
  {
    var j :| 0 <= j < i && Below(g, b[j], b[i]);
    assert (a + b)[|a| + j] == b[j] && (a + b)[|a| + i] == b[i];
  }

  lemma LinkedAppend(g: AgentGraph, a: seq<Visit>, b: seq<Visit>, ids: seq<AgentId>, depth: nat, parentName: string)
    requires Linked(g, a, ids, depth, parentName) && Linked(g, b, ids, depth, parentName)
    ensures Linked(g, a + b, ids, depth, parentName)
  {
    var ab := a + b;
    forall i | 0 <= i < |ab| ensures Listed(ab[i], ids, depth, parentName) || UnderEarlier(g, ab, i) {
      if i < |a| {
        assert ab[i] == a[i];
        if !Listed(a[i], ids, depth, parentName) {
          UnderEarlierLeft(g, a, b, i);
        }
      } else {
        assert ab[i] == b[i - |a|];
        if !Listed(b[i - |a|], ids, depth, parentName) {
          UnderEarlierRight(g, a, b, i - |a|);
        }
      }
    }
  }

  /** Visits linked to a head's sub-agents lie, after the head, each under an earlier visit. */
  lemma HeadLinked(g: AgentGraph, head: Visit, rest: seq<Visit>)
    requires head.id in g
    requires Linked(g, rest, g[head.id].subAgents, head.depth + 1, NameOf(g[head.id]))
    ensures forall i :: 1 <= i < |[head] + rest| ==> UnderEarlier(g, [head] + rest, i)
  {
    forall i | 1 <= i < |[head] + rest| ensures UnderEarlier(g, [head] + rest, i) {
      HeadLinkedAt(g, head, rest, i - 1);
    }
  }

  lemma HeadLinkedAt(g: AgentGraph, head: Visit, rest: seq<Visit>, k: nat)
    requires head.id in g && k < |rest|
    requires Listed(rest[k], g[head.id].subAgents, head.depth + 1, NameOf(g[head.id])) || UnderEarlier(g, rest, k)
    ensures UnderEarlier(g, [head] + rest, k + 1)
  {
    var vs := [head] + rest;
    if Listed(rest[k], g[head.id].subAgents, head.depth + 1, NameOf(g[head.id])) {
      assert vs[0] == head && vs[k + 1] == rest[k];
      assert Below(g, vs[0], vs[k + 1]);
    } else {
      UnderEarlierRight(g, [head], rest, k);
    }
  }

  lemma {:induction false} VisitFromLinked(g: AgentGraph, id: AgentId, depth: nat, parentName: string, visited: set<AgentId>)
    requires WellFormed(g) && id in g && visited <= g.Keys
    ensures var vs := VisitFrom(g, id, depth, parentName, visited).0;
      && (vs != [] ==> vs[0] == Visit(id, g[id], depth, parentName))
      && forall i :: 1 <= i < |vs| ==> UnderEarlier(g, vs, i)
    decreases |g.Keys - visited|, 0, 0
  {
    if id !in visited {
      RemoveFromMissing(g.Keys, visited, id);
      var subs := g[id].subAgents;
      var name := NameOf(g[id]);
      VisitAllLinked(g, subs, depth + 1, name, visited + {id});
      var rest := VisitAll(g, subs, depth + 1, name, visited + {id}).0;
      assert VisitFrom(g, id, depth, parentName, visited).0 == [Visit(id, g[id], depth, parentName)] + rest;
      HeadLinked(g, Visit(id, g[id], depth, parentName), rest);
    }
  }

  lemma {:induction false} VisitAllLinked(g: AgentGraph, ids: seq<AgentId>, depth: nat, parentName: string, visited: set<AgentId>)
    requires WellFormed(g) && visited <= g.Keys
    requires forall k :: 0 <= k < |ids| ==> ids[k] in g
    ensures Linked(g, VisitAll(g, ids, depth, parentName, visited).0, ids, depth, parentName)
    decreases |g.Keys - visited|, 1, |ids|
  {
    if ids != [] {
      var (first, mid) := VisitFrom(g, ids[0], depth, parentName, visited);
      VisitFromLinked(g, ids[0], depth, parentName, visited);
      MissingShrinks(g.Keys, visited, mid);
      VisitAllLinked(g, ids[1..], depth, parentName, mid);
      var rest := VisitAll(g, ids[1..], depth, parentName, mid).0;
      assert Linked(g, first, ids, depth, parentName);
      assert Linked(g, rest, ids, depth, parentName) by {
        forall i | 0 <= i < |rest| && rest[i].id in ids[1..] ensures rest[i].id in ids {
          var k :| 0 <= k < |ids[1..]| && ids[1..][k] == rest[i].id;
          assert ids[k + 1] == rest[i].id;
        }
      }
      LinkedAppend(g, first, rest, ids, depth, parentName);
    }
  }

  // ---------------------------------------------------------------------
  // Execution steps
  // ---------------------------------------------------------------------

  /** An `ExecutionStep`; the two times are clock readings, absent until the step runs. */
  datatype ExecutionStep = ExecutionStep(
    stepId: string,
    agentName: string,
    agentType: string,
    description: string,
    status: string,
    startTime: Option<real>,
    endTime: Option<real>,
    eventsGenerated: nat,
    outputPreview: string)

  /** `f"{step_id_prefix}_{n:03d}"`. */
  function StepId(prefix: string, n: nat): string
  {
    prefix + "_" + ZeroPad3(n)
  }

  /** Different counters give different step ids. */
  lemma StepIdsDiffer(prefix: string, m: nat, n: nat)
    requires m != n
    ensures StepId(prefix, m) != StepId(prefix, n)
  {
    ZeroPad3Value(m);
    ZeroPad3Value(n);
    var k := |prefix| + 1;
    assert StepId(prefix, m)[k..] == ZeroPad3(m);
    assert StepId(prefix, n)[k..] == ZeroPad3(n);
  }

  /** The depth and parent part of a step's description. */
  function DescriptionSuffix(depth: nat, parentName: string): string
  {
    var level :=
      if depth == 0 then " - Main Agent"
      else if depth == 1 then " - Sub-agent"
      else " - Nested (depth " + NatToString(depth) + ")";
    if parentName != "" then level + " under " + parentName else level
  }

  /** `_create_execution_step`. */
  function CreateExecutionStep(a: AgentObject, stepId: string, suffix: string): ExecutionStep
  {
    ExecutionStep(stepId, NameOf(a), a.typeName,
                  "Execute " + NameOf(a) + " (" + a.typeName + ")" + suffix,
                  "pending", None, None, 0, "")
  }

  /** The step for one visit, numbered `n`. */
  function StepFor(prefix: string, v: Visit, n: nat): ExecutionStep
  {
    CreateExecutionStep(v.agent, StepId(prefix, n), DescriptionSuffix(v.depth, v.parentName))
  }

  /** `_create_execution_step` for a visit and the counter's value, as a function value. */
  function StepMaker(prefix: string): (Visit, nat) -> ExecutionStep
  {
    (v: Visit, n: nat) => StepFor(prefix, v, n)
  }

  /** The steps for a list of visits, numbered from `start`. */
  function StepsOf(prefix: string, vs: seq<Visit>, start: nat): seq<ExecutionStep>
  {
    MapNumbered(vs, start, StepMaker(prefix))
  }

  /** `f` applied to each element and its number, counting from `start`. */
  function MapNumbered<T, R>(xs: seq<T>, start: nat, f: (T, nat) -> R): seq<R>
  {
    if xs == [] then [] else [f(xs[0], start)] + MapNumbered(xs[1..], start + 1, f)
  }

  lemma {:induction false} MapNumberedAt<T, R>(xs: seq<T>, start: nat, f: (T, nat) -> R)
    ensures |MapNumbered(xs, start, f)| == |xs|
    ensures forall i :: 0 <= i < |xs| ==> MapNumbered(xs, start, f)[i] == f(xs[i], start + i)
    decreases |xs|
  {
    if xs != [] {
      MapNumberedAt(xs[1..], start + 1, f);
    }
  }

  lemma {:induction false} MapNumberedAppend<T, R>(a: seq<T>, b: seq<T>, start: nat, f: (T, nat) -> R)
    ensures MapNumbered(a + b, start, f) == MapNumbered(a, start, f) + MapNumbered(b, start + |a|, f)
    decreases |a|
  {
    if a == [] {
      assert a + b == b;
    } else {
      assert (a + b)[0] == a[0];
      assert (a + b)[1..] == a[1..] + b;
      MapNumberedAppend(a[1..], b, start + 1, f);
    }
  }

  lemma StepsOfAppend(prefix: string, a: seq<Visit>, b: seq<Visit>, start: nat)
    ensures StepsOf(prefix, a + b, start) == StepsOf(prefix, a, start) + StepsOf(prefix, b, start + |a|)
  {
    MapNumberedAppend(a, b, start, StepMaker(prefix));
  }

  lemma StepsOfAt(prefix: string, vs: seq<Visit>, start: nat)
    ensures |StepsOf(prefix, vs, start)| == |vs|
    ensures forall i :: 0 <= i < |vs| ==> StepsOf(prefix, vs, start)[i] == StepFor(prefix, vs[i], start + i)
  {
    MapNumberedAt(vs, start, StepMaker(prefix));
  }

  /** Walking one more sub-agent extends the walk over the earlier ones. */
  lemma WalkNextSubAgent(g: AgentGraph, subs: seq<AgentId>, i: nat, depth: nat, parentName: string, visited: set<AgentId>)
    requires WellFormed(g) && visited <= g.Keys
    requires forall k :: 0 <= k < |subs| ==> subs[k] in g
    requires i < |subs|
    ensures var before := VisitAll(g, subs[..i], depth, parentName, visited);
      var next := VisitFrom(g, subs[i], depth, parentName, before.1);
      VisitAll(g, subs[..i + 1], depth, parentName, visited) == (before.0 + next.0, next.1)
  {
    assert subs[..i + 1] == subs[..i] + [subs[i]];
    VisitAllAppend(g, subs[..i], [subs[i]], depth, parentName, visited);
    var before := VisitAll(g, subs[..i], depth, parentName, visited);
    var next := VisitFrom(g, subs[i], depth, parentName, before.1);
    assert [subs[i]][1..] == [];
    assert VisitAll(g, [subs[i]], depth, parentName, before.1) == (next.0 + [], next.1);
    assert next.0 + [] == next.0;
  }

  /** Steps numbered on from where the earlier ones stopped extend them. */
  lemma StepsExtend(before: seq<ExecutionStep>, after: seq<ExecutionStep>, steps: seq<ExecutionStep>,
                    a: seq<Visit>, b: seq<Visit>, whole: seq<Visit>, counter: nat, next: nat,
                    createStep: (Visit, nat) -> ExecutionStep)
    requires before == steps + MapNumbered(a, counter, createStep)
    requires next == counter + |a| && after == before + MapNumbered(b, next, createStep)
    requires whole == a + b
    ensures after == steps + MapNumbered(whole, counter, createStep)
  {
    MapNumberedAppend(a, b, counter, createStep);
    AppendAssoc(steps, MapNumbered(a, counter, createStep), MapNumbered(b, next, createStep));
  }

  /**
   * `_dfs_collect_agents`: the walk with its three pieces of mutable state
   * (the step list, the visited set and the step counter) passed in and
   * out, and `_create_execution_step` passed in as `createStep`.
   */
  method DfsCollectAgents(g: AgentGraph, createStep: (Visit, nat) -> ExecutionStep, current: AgentId, depth: nat,
                          parentName: string, steps: seq<ExecutionStep>, visited: set<AgentId>, counter: nat)
    returns (steps': seq<ExecutionStep>, visited': set<AgentId>, counter': nat)
    requires WellFormed(g) && current in g && visited <= g.Keys
    ensures visited' == VisitFrom(g, current, depth, parentName, visited).1
    ensures steps' == steps + MapNumbered(VisitFrom(g, current, depth, parentName, visited).0, counter, createStep)
    ensures counter' == counter + |VisitFrom(g, current, depth, parentName, visited).0|
    decreases |g.Keys - visited|, 0
  {
    if current in visited {
      return steps, visited, counter;
    }
    RemoveFromMissing(g.Keys, visited, current);
    var here := Visit(current, g[current], depth, parentName);
    var step := createStep(here, counter);
    MapNumberedAt([here], counter, createStep);
    assert [step] == MapNumbered([here], counter, createStep);
    var name := NameOf(g[current]);
    steps', visited', counter' :=
      DfsCollectSubAgents(g, createStep, g[current].subAgents, depth + 1, name, steps + [step], visited + {current}, counter + 1);
    ghost var rest := VisitAll(g, g[current].subAgents, depth + 1, name, visited + {current}).0;
    assert VisitFrom(g, current, depth, parentName, visited).0 == [here] + rest;
    StepsExtend(steps + [step], steps', steps, [here], rest, VisitFrom(g, current, depth, parentName, visited).0,
                counter, counter + 1, createStep);
  }

  /** The loop of `_dfs_collect_agents` over the current agent's sub-agents. */
  method DfsCollectSubAgents(g: AgentGraph, createStep: (Visit, nat) -> ExecutionStep, subs: seq<AgentId>, depth: nat,
                             parentName: string, steps: seq<ExecutionStep>, visited: set<AgentId>, counter: nat)
    returns (steps': seq<ExecutionStep>, visited': set<AgentId>, counter': nat)
    requires WellFormed(g) && visited <= g.Keys
    requires forall k :: 0 <= k < |subs| ==> subs[k] in g
    ensures visited' == VisitAll(g, subs, depth, parentName, visited).1
    ensures steps' == steps + MapNumbered(VisitAll(g, subs, depth, parentName, visited).0, counter, createStep)
    ensures counter' == counter + |VisitAll(g, subs, depth, parentName, visited).0|
    decreases |g.Keys - visited|, 1
  {
    steps', visited', counter' := steps, visited, counter;
    var i := 0;
    while i < |subs|
      invariant 0 <= i <= |subs|
      invariant visited <= visited' <= g.Keys
      invariant visited' == VisitAll(g, subs[..i], depth, parentName, visited).1
      invariant counter' == counter + |VisitAll(g, subs[..i], depth, parentName, visited).0|
      invariant steps' == steps + MapNumbered(VisitAll(g, subs[..i], depth, parentName, visited).0, counter, createStep)
    {
      MissingShrinks(g.Keys, visited, visited');
      ghost var before := VisitAll(g, subs[..i], depth, parentName, visited);
      ghost var stepsBefore, visitedBefore, counterBefore := steps', visited', counter';
      steps', visited', counter' := DfsCollectAgents(g, createStep, subs[i], depth, parentName, steps', visited', counter');
      WalkNextSubAgent(g, subs, i, depth, parentName, visited);
      StepsExtend(stepsBefore, steps', steps, before.0, VisitFrom(g, subs[i], depth, parentName, visitedBefore).0,
                  VisitAll(g, subs[..i + 1], depth, parentName, visited).0, counter, counterBefore, createStep);
      i := i + 1;
    }
    assert subs[..|subs|] == subs;
  }

  /** `collect_agent_execution_steps`: the steps of the walk from the root, numbered from 1. */
  method CollectAgentExecutionSteps(g: AgentGraph, root: AgentId, prefix: string)
    returns (steps: seq<ExecutionStep>)
    requires WellFormed(g) && root in g
    ensures steps == StepsOf(prefix, VisitFrom(g, root, 0, "", {}).0, 1)
  {
    var visited, counter;
    steps, visited, counter := DfsCollectAgents(g, StepMaker(prefix), root, 0, "", [], {}, 1);
  }

  /**
   * The collected steps: one per visit, with ids `prefix_001`, `prefix_002`,
   * ... in order, each naming its agent and type, pending with no events and
   * no times yet.
   */
  lemma ExecutionStepsSpec(prefix: string, vs: seq<Visit>)
    ensures var steps := StepsOf(prefix, vs, 1);
      && |steps| == |vs|
      && forall i :: 0 <= i < |steps| ==>
           && steps[i].stepId == StepId(prefix, i + 1)
           && steps[i].agentName == NameOf(vs[i].agent)
           && steps[i].agentType == vs[i].agent.typeName
           && steps[i].status == "pending" && steps[i].eventsGenerated == 0
           && steps[i].startTime == None && steps[i].endTime == None
  {
    StepsOfAt(prefix, vs, 1);
  }

  /** No two collected steps share a step id. */
  lemma StepIdsDistinct(prefix: string, vs: seq<Visit>)
    ensures var steps := StepsOf(prefix, vs, 1);
      forall i, j :: 0 <= i < j < |steps| ==> steps[i].stepId != steps[j].stepId
  {
    var steps := StepsOf(prefix, vs, 1);
    ExecutionStepsSpec(prefix, vs);
    forall i, j | 0 <= i < j < |steps| ensures steps[i].stepId != steps[j].stepId {
      StepIdsDiffer(prefix, i + 1, j + 1);
    }
  }

  /** The first step is the root's, marked as the main agent. */
  lemma RootStepIsMain(g: AgentGraph, root: AgentId, prefix: string)
    requires WellFormed(g) && root in g
    ensures var vs := VisitFrom(g, root, 0, "", {}).0;
      var steps := StepsOf(prefix, vs, 1);
      && |vs| >= 1 && vs[0].id == root
      && steps[0].agentName == NameOf(g[root])
      && steps[0].description == "Execute " + NameOf(g[root]) + " (" + g[root].typeName + ")" + " - Main Agent"
  {
    VisitFromLinked(g, root, 0, "", {});
    var vs := VisitFrom(g, root, 0, "", {}).0;
    StepsOfAt(prefix, vs, 1);
    assert DescriptionSuffix(0, "") == " - Main Agent";
  }
}
