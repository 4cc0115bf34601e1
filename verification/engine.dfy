/** The workflow-graph executor the two workflows rely on: a graph given as
    immutable data (nodes, static edges, conditional edges with label maps,
    an entry node and the END marker) and a sequential executor that runs one
    node at a time, merges its partial update into the state, and follows the
    static edge or routes through the label map until it reaches END.

    The executor carries a fuel budget so that every run is a total function;
    the budget is a verification device, not a feature of the workflows. */
module Engine {

  import opened Wrappers

  /** Where an edge leads: a node of the graph or the END marker. */
  datatype Dest<N> = To(node: N) | End

  /** An outgoing edge: a fixed destination, or a routing function whose
      label is looked up in a label-to-destination map. */
  datatype Edge<N, !S> =
    | Static(dest: Dest<N>)
    | Conditional(route: S -> string, branches: map<string, Dest<N>>)

  /** What a node body does: return a partial update, or raise. */
  datatype NodeResult<U> = Update(update: U) | Raise(fault: string)

  datatype Graph<N(==), !S, U> = Graph(
    nodes: map<N, S -> NodeResult<U>>,
    edges: map<N, Edge<N, S>>,
    entry: N)

  /** One executed node and the update it produced, as a streaming run
      yields them. */
  datatype Step<N, U> = Step(node: N, update: U)

  datatype RunError<N> =
    | UnknownNode(node: N)
    | NoOutgoingEdge(node: N)
    | UnmappedLabel(node: N, returned: string)
    | NodeRaised(node: N, fault: string)
    | FuelExhausted

  /** The end of a run: the state merged so far and the steps taken, with an
      error when the run did not reach END. */
  datatype Outcome<N, S, U> =
    | Finished(state: S, trace: seq<Step<N, U>>)
    | Aborted(error: RunError<N>, state: S, trace: seq<Step<N, U>>)

  /** Every destination an edge can lead to. */
  function Destinations<N(==), S>(e: Edge<N, S>): set<Dest<N>> {
    match e
    case Static(d) => {d}
    case Conditional(_, branches) => branches.Values
  }

  /** The well-formedness a compiled graph has: the entry is a node, every
      node has exactly one outgoing edge (static or conditional), every edge
      leads to a declared node or END, and every label a routing function can
      return is a key of its label map. */
  ghost predicate Closed<N(!new), S(!new), U>(g: Graph<N, S, U>) {
    && g.entry in g.nodes
    && g.nodes.Keys == g.edges.Keys
    && (forall n, m :: n in g.edges && To(m) in Destinations(g.edges[n]) ==> m in g.nodes)
    && (forall n, s :: n in g.edges && g.edges[n].Conditional? ==>
          g.edges[n].route(s) in g.edges[n].branches)
  }

  /** `rank` strictly decreases along every edge, so the graph is acyclic. */
  ghost predicate Ranked<N(!new), S, U>(g: Graph<N, S, U>, rank: N -> nat) {
    forall n, m :: n in g.edges && To(m) in Destinations(g.edges[n]) ==> rank(m) < rank(n)
  }

  /** The node that follows `n` once the state `s` (which already includes
      `n`'s own update) is known. */
  function Next<N(==), S, U>(g: Graph<N, S, U>, n: N, s: S): (r: Result<Dest<N>, RunError<N>>)
    ensures r.Ok? ==> n in g.edges && r.value in Destinations(g.edges[n])
    ensures n !in g.edges ==> r == Err(NoOutgoingEdge(n))
    ensures n in g.edges && g.edges[n].Static? ==> r == Ok(g.edges[n].dest)
    ensures n in g.edges && g.edges[n].Conditional? && g.edges[n].route(s) in g.edges[n].branches ==>
              r == Ok(g.edges[n].branches[g.edges[n].route(s)])
    ensures r.Err? ==> (n !in g.edges && r.error == NoOutgoingEdge(n)) ||
                       (n in g.edges && g.edges[n].Conditional? &&
                        r.error == UnmappedLabel(n, g.edges[n].route(s)) &&
                        g.edges[n].route(s) !in g.edges[n].branches)
  {
    if n !in g.edges then Err(NoOutgoingEdge(n))
    else
      match g.edges[n]
      case Static(d) => Ok(d)
      case Conditional(route, branches) =>
        var chosen := route(s);
        if chosen in branches then Ok(branches[chosen]) else Err(UnmappedLabel(n, chosen))
  }

  function Prepend<N, S, U>(st: Step<N, U>, o: Outcome<N, S, U>): Outcome<N, S, U> {
    match o
    case Finished(s, tr) => Finished(s, [st] + tr)
    case Aborted(e, s, tr) => Aborted(e, s, [st] + tr)
  }

  /** Folds the updates of a trace into a state, one merge per step. */
  function Replay<N, S, U>(merge: (S, U) -> S, s: S, trace: seq<Step<N, U>>): S
    decreases |trace|
  {
    if |trace| == 0 then s else Replay(merge, merge(s, trace[0].update), trace[1..])
  }

  /** The nodes a trace visits, in order. */
  function Visited<N, U>(trace: seq<Step<N, U>>): (ns: seq<N>)
    ensures |ns| == |trace|
    ensures forall i :: 0 <= i < |trace| ==> ns[i] == trace[i].node
  {
    if |trace| == 0 then [] else [trace[0].node] + Visited(trace[1..])
  }

  /** Runs the graph from node `n` on state `s`: call the node, merge its
      update, then follow the static edge or route by label, until END. */
  function Run<N(==), S, U>(g: Graph<N, S, U>, merge: (S, U) -> S, n: N, s: S, fuel: nat)
    : (o: Outcome<N, S, U>)
    ensures |o.trace| <= fuel
    ensures |o.trace| > 0 ==> o.trace[0].node == n
    ensures forall i :: 0 <= i < |o.trace| ==> o.trace[i].node in g.nodes
    ensures o.Finished? ==> |o.trace| > 0
    decreases fuel
  {
    if fuel == 0 then Aborted(FuelExhausted, s, [])
    else if n !in g.nodes then Aborted(UnknownNode(n), s, [])
    else
      match g.nodes[n](s)
      case Raise(fault) => Aborted(NodeRaised(n, fault), s, [])
      case Update(u) =>
        var s' := merge(s, u);
        var st := Step(n, u);
        match Next(g, n, s')
        case Err(e) => Aborted(e, s', [st])
        case Ok(End) => Finished(s', [st])
        case Ok(To(m)) => Prepend(st, Run(g, merge, m, s', fuel - 1))
  }

  /** A run's state is its start state with the updates of its trace merged
      in one at a time: nothing but the steps it records changes the state. */
  lemma {:induction false} RunStateIsReplay<N, S, U>(g: Graph<N, S, U>, merge: (S, U) -> S, n: N, s: S, fuel: nat)
    ensures Run(g, merge, n, s, fuel).state == Replay(merge, s, Run(g, merge, n, s, fuel).trace)
    decreases fuel
  {
    if fuel > 0 && n in g.nodes && g.nodes[n](s).Update? {
      var u := g.nodes[n](s).update;
      var s' := merge(s, u);
      var st := Step(n, u);
      assert Replay(merge, s, [st]) == Replay<N, S, U>(merge, s', []);
      match Next(g, n, s')
      case Err(_) =>
      case Ok(End) =>
      case Ok(To(m)) =>
        RunStateIsReplay(g, merge, m, s', fuel - 1);
        var rest := Run(g, merge, m, s', fuel - 1);
        assert ([st] + rest.trace)[1..] == rest.trace;
    }
  }

  /** Each step of a run leads to the next one along the edge table: the
      edge out of the `i`-th node, read on the state merged up to and
      including that node's update, gives the node of the step after it. */
  lemma {:induction false} RunFollowsEdges<N, S, U>(g: Graph<N, S, U>, merge: (S, U) -> S, n: N, s: S, fuel: nat, i: nat)
    requires i + 1 < |Run(g, merge, n, s, fuel).trace|
    ensures var tr := Run(g, merge, n, s, fuel).trace;
            Next(g, tr[i].node, Replay(merge, s, tr[..i + 1])) == Ok(To(tr[i + 1].node))
    decreases fuel
  {
    var u := g.nodes[n](s).update;
    var s' := merge(s, u);
    var st := Step(n, u);
    var m := Next(g, n, s').value.node;
    var rest := Run(g, merge, m, s', fuel - 1);
    var tr := Run(g, merge, n, s, fuel).trace;
    assert tr == [st] + rest.trace;
    if i == 0 {
      assert tr[..1] == [st];
      assert Replay(merge, s, [st]) == Replay<N, S, U>(merge, s', []);
    } else {
      RunFollowsEdges(g, merge, m, s', fuel - 1, i - 1);
      assert tr[..i + 1] == [st] + rest.trace[..i];
      assert ([st] + rest.trace[..i])[1..] == rest.trace[..i];
    }
  }

  /** Each step of a run records what its node's body returned on the state
      merged up to, but not including, that step. */
  lemma {:induction false} RunStepsAreBodies<N, S, U>(g: Graph<N, S, U>, merge: (S, U) -> S, n: N, s: S, fuel: nat, i: nat)
    requires i < |Run(g, merge, n, s, fuel).trace|
    ensures var tr := Run(g, merge, n, s, fuel).trace;
            tr[i].node in g.nodes && g.nodes[tr[i].node](Replay(merge, s, tr[..i])) == Update(tr[i].update)
    decreases fuel
  {
    var u := g.nodes[n](s).update;
    var s' := merge(s, u);
    var st := Step(n, u);
    var tr := Run(g, merge, n, s, fuel).trace;
    if i == 0 {
      assert tr[0] == st;
      assert tr[..0] == [];
    } else {
      var m := Next(g, n, s').value.node;
      var rest := Run(g, merge, m, s', fuel - 1);
      assert tr == [st] + rest.trace;
      RunStepsAreBodies(g, merge, m, s', fuel - 1, i - 1);
      assert tr[..i] == [st] + rest.trace[..i - 1];
      assert ([st] + rest.trace[..i - 1])[1..] == rest.trace[..i - 1];
    }
  }

  /** A finished run stopped because the edge out of its last node, read on
      its final state, leads to END. */
  lemma {:induction false} FinishedRunsEndAtEnd<N, S, U>(g: Graph<N, S, U>, merge: (S, U) -> S, n: N, s: S, fuel: nat)
    requires Run(g, merge, n, s, fuel).Finished?
    ensures var o := Run(g, merge, n, s, fuel);
            Next(g, o.trace[|o.trace| - 1].node, o.state) == Ok(End)
    decreases fuel
  {
    var u := g.nodes[n](s).update;
    var s' := merge(s, u);
    match Next(g, n, s')
    case Err(_) =>
    case Ok(End) =>
    case Ok(To(m)) =>
      FinishedRunsEndAtEnd(g, merge, m, s', fuel - 1);
      var rest := Run(g, merge, m, s', fuel - 1);
      assert Run(g, merge, n, s, fuel).trace == [Step(n, u)] + rest.trace;
  }

  /** One step of a run: the node's update is merged and the run continues
      at the destination the edge table gives. */
  lemma RunStep<N, S, U>(g: Graph<N, S, U>, merge: (S, U) -> S, n: N, s: S, fuel: nat, u: U, d: Dest<N>)
    requires fuel > 0 && n in g.nodes && g.nodes[n](s) == Update(u)
    requires Next(g, n, merge(s, u)) == Ok(d)
    ensures Run(g, merge, n, s, fuel) ==
            if d.End? then Finished(merge(s, u), [Step(n, u)])
            else Prepend(Step(n, u), Run(g, merge, d.node, merge(s, u), fuel - 1))
  {
  }

  /** A run from the entry node: LangGraph's `invoke`, with `stream`'s steps
      kept in the trace. */
  function Invoke<N(==), S, U>(g: Graph<N, S, U>, merge: (S, U) -> S, init: S, fuel: nat)
    : (o: Outcome<N, S, U>)
    ensures |o.trace| <= fuel
    ensures |o.trace| > 0 ==> o.trace[0].node == g.entry
    ensures o.Finished? ==> |o.trace| > 0
    ensures g.entry !in g.nodes ==> o.Aborted? && o.state == init
  {
    Run(g, merge, g.entry, init, fuel)
  }

  /** On a closed graph the only ways a run can stop short of END are a node
      raising and the fuel running out: no unknown node, missing edge or
      unmapped label ever arises. */
  lemma {:induction false} ClosedRunsAreWellRouted<N(!new), S(!new), U>(
    g: Graph<N, S, U>, merge: (S, U) -> S, n: N, s: S, fuel: nat)
    requires Closed(g) && n in g.nodes
    ensures Run(g, merge, n, s, fuel).Aborted? ==>
              Run(g, merge, n, s, fuel).error.FuelExhausted? ||
              Run(g, merge, n, s, fuel).error.NodeRaised?
    decreases fuel
  {
    if fuel > 0 {
      match g.nodes[n](s)
      case Raise(_) =>
      case Update(u) =>
        var s' := merge(s, u);
        assert n in g.edges;
        match Next(g, n, s')
        case Err(e) =>
          assert false;
        case Ok(End) =>
        case Ok(To(m)) =>
          ClosedRunsAreWellRouted(g, merge, m, s', fuel - 1);
    }
  }

  /** On a closed, ranked graph a run from `n` with more fuel than `n`'s rank
      never exhausts it, and visits at most rank + 1 nodes. */
  lemma {:induction false} RankedRunsTerminate<N(!new), S(!new), U>(
    g: Graph<N, S, U>, rank: N -> nat, merge: (S, U) -> S, n: N, s: S, fuel: nat)
    requires Closed(g) && Ranked(g, rank) && n in g.nodes
    requires fuel > rank(n)
    ensures Run(g, merge, n, s, fuel).Aborted? ==> Run(g, merge, n, s, fuel).error.NodeRaised?
    ensures |Run(g, merge, n, s, fuel).trace| <= rank(n) + 1
    decreases fuel
  {
    ClosedRunsAreWellRouted(g, merge, n, s, fuel);
    match g.nodes[n](s)
    case Raise(_) =>
    case Update(u) =>
      var s' := merge(s, u);
      match Next(g, n, s')
      case Err(e) =>
      case Ok(End) =>
      case Ok(To(m)) =>
        assert rank(m) < rank(n);
        RankedRunsTerminate(g, rank, merge, m, s', fuel - 1);
  }

  /** Extra fuel changes nothing once a run has reached an outcome other
      than running out of fuel: the result does not depend on the budget. */
  lemma {:induction false} FuelMonotone<N, S, U>(
    g: Graph<N, S, U>, merge: (S, U) -> S, n: N, s: S, fuel: nat, more: nat)
    requires fuel <= more
    requires !(Run(g, merge, n, s, fuel).Aborted? && Run(g, merge, n, s, fuel).error.FuelExhausted?)
    ensures Run(g, merge, n, s, more) == Run(g, merge, n, s, fuel)
    decreases fuel
  {
    if fuel > 0 && n in g.nodes {
      match g.nodes[n](s)
      case Raise(_) =>
      case Update(u) =>
        var s' := merge(s, u);
        match Next(g, n, s')
        case Err(e) =>
        case Ok(End) =>
        case Ok(To(m)) =>
          FuelMonotone(g, merge, m, s', fuel - 1, more - 1);
    }
  }
}
