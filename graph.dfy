/**
 * The entities the large-graph component works on: real and aggregated
 * nodes, dataset edges, the cluster partition produced by community
 * detection, and the records of expanded and collapsed nodes.
 */
module Graph {
  import opened Wrappers

  /**
   * A real node (level 0 once aggregated data is built): its id, the id of the
   * cluster that owns it, its level and the index of its colour set in the
   * palette.
   */
  datatype RealNode = RealNode(id: string, clusterId: string, level: int, colorSet: nat)

  /**
   * The node standing for a collapsed cluster: the cluster id, the member
   * count, level 1, the palette index, the cluster's index and whether the
   * cluster is currently shown expanded.
   */
  datatype AggNode = AggNode(id: string, count: nat, level: int, colorSet: nat, idx: nat, expanded: bool)

  /** A dataset edge, or a virtual edge made while composing the view. */
  datatype Edge = Edge(id: Option<string>, source: string, target: string, labelText: string)

  /** An inter-cluster aggregate: `count` dataset edges from cluster `source` to cluster `target`. */
  datatype ClusterEdge = ClusterEdge(source: string, target: string, count: nat)

  /** A detected community: its id, its member nodes and its edge total `sumTot`. */
  datatype Cluster = Cluster(id: string, nodes: seq<RealNode>, sumTot: nat)

  /** The partition returned by community detection. */
  datatype ClusterData = ClusterData(clusters: seq<Cluster>, clusterEdges: seq<ClusterEdge>)

  /** The raw dataset. */
  datatype GraphData = GraphData(nodes: seq<RealNode>, edges: seq<Edge>)

  /** A node currently shown expanded: `{id, level, parentId}`. */
  datatype ExpandRecord = ExpandRecord(id: string, level: int, parentId: Option<string>)

  /** A node currently shown collapsed; its id is `undefined` when it could not be derived. */
  datatype CollapseRecord = CollapseRecord(id: Option<string>, level: int, parentId: Option<string>)

  /** The ids of the clusters, in a set. */
  function ClusterIds(cs: seq<Cluster>): set<string>
  {
    set c | c in cs :: c.id
  }

  /** The ids the expand records name: the keys of the source's `expandMap`. */
  function ExpandedIds(expand: seq<ExpandRecord>): set<string>
  {
    set r | r in expand :: r.id
  }
}
