/**
 * What the graph nodes hand back to the graph runtime, as plain values: a message to
 * a node (`Send`), a command naming where to go next and how to update the state,
 * and the static wiring of a graph. The runtime that executes them is not modelled.
 */
module Graph {
  import opened Wrappers

  /** The runtime's terminal node. */
  function End(): string {
    "__end__"
  }

  /** `Send(node, arg)`: run `node` once with `arg` as its input. */
  datatype Send<A> = Send(node: string, arg: A)

  /** The `goto` of a command: nowhere, one node, or a list of sends. */
  datatype Goto<A> = Stay | GotoNode(node: string) | GotoSends(sends: seq<Send<A>>)

  /** `Command(goto=..., update=...)`. */
  datatype Command<U, A> = Command(goto: Goto<A>, update: Option<U>)

  /**
   * The static wiring a `build` method sets up: the entry point, the nodes, plain
   * edges, conditional edges (source and a map from the router's answer to a target),
   * and whether a checkpointer is attached.
   */
  datatype Topology = Topology(
    entry: string,
    nodes: seq<string>,
    edges: seq<(string, string)>,
    conditional: seq<(string, seq<(string, string)>)>,
    checkpointer: bool)
  {
    /** Every edge starts at a node and ends at a node or at `End`, and the entry is a node. */
    ghost predicate WellFormed() {
      && entry in nodes
      && (forall e :: e in edges ==> e.0 in nodes && (e.1 in nodes || e.1 == End()))
      && (forall c :: c in conditional ==> c.0 in nodes && forall t :: t in c.1 ==> t.1 in nodes || t.1 == End())
    }

    /** The targets reachable in one step from `n`: plain edges first, then every answer of its routers, in declaration order. */
    function Successors(n: string): seq<string> {
      EdgeTargets(edges, n) + RouteTargets(conditional, n)
    }
  }

  function EdgeTargets(edges: seq<(string, string)>, n: string): seq<string> {
    if edges == [] then []
    else (if edges[0].0 == n then [edges[0].1] else []) + EdgeTargets(edges[1..], n)
  }

  function RouteTargets(conditional: seq<(string, seq<(string, string)>)>, n: string): seq<string> {
    if conditional == [] then []
    else (if conditional[0].0 == n then Targets(conditional[0].1) else []) + RouteTargets(conditional[1..], n)
  }

  /** The targets of a router's answer map, in order. */
  function Targets(routes: seq<(string, string)>): seq<string> {
    if routes == [] then [] else [routes[0].1] + Targets(routes[1..])
  }
}
