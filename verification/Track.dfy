/** The track server's storage: the static track plus the scratch fields of route planning. */
module TrackState {
  import opened TrackGraph

  class Track {
    const nodes: array<Node>
    const edges: array<Edge>
    // reserved_train_num of each edge record
    const owner: array<int>
    // curr_dist, in_queue, route_previous and safe_reverse_dist of each node
    const currDist: array<int>
    const inQueue: array<bool>
    const routePrevious: array<int>
    const safeReverseDist: array<int>

    /** Room for n nodes and the two edge records each of them holds. */
    constructor (n: nat, blankNode: Node, blankEdge: Edge)
      ensures Valid() && nodes.Length == n
      ensures fresh(nodes) && fresh(edges) && fresh(owner) && fresh(currDist) && fresh(inQueue)
      ensures fresh(routePrevious) && fresh(safeReverseDist)
    {
      nodes := new Node[n](_ => blankNode);
      edges := new Edge[2 * n](_ => blankEdge);
      owner := new int[2 * n](_ => UNRESERVED);
      currDist := new int[n];
      inQueue := new bool[n];
      routePrevious := new int[n];
      safeReverseDist := new int[n];
    }

    ghost predicate Valid()
    {
      && edges.Length == 2 * nodes.Length && owner.Length == edges.Length
      && currDist.Length == nodes.Length && inQueue.Length == nodes.Length
      && routePrevious.Length == nodes.Length && safeReverseDist.Length == nodes.Length
      && owner != currDist && owner != routePrevious && owner != safeReverseDist
      && currDist != routePrevious && currDist != safeReverseDist && routePrevious != safeReverseDist
    }

    /** The graph as a value. */
    ghost function G(): (g: Graph)
      reads nodes, edges
    {
      Graph(nodes[..], edges[..])
    }

    /** Who has reserved each edge. */
    ghost function Owners(): (s: seq<int>)
      reads owner
    {
      owner[..]
    }
  }
}
