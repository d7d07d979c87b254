/**
 * Building the aggregated view (`getAggregatedData`): every member node is
 * set to level 0 with its cluster's colour set and registered in the node
 * map; every cluster gets an aggregated node in the aggregated-node map; and
 * every inter-cluster edge becomes an aggregated edge drawn as a loop or a
 * line.
 */
module Aggregation {
  import opened Graph
  import Ids
  import Compositor

  /** Distance of a self-loop drawn on an aggregated node (`loopCfg.dist`). */
  const LoopDist: int := 20

  /** How an aggregated edge is drawn. */
  datatype EdgeShape = Loop(dist: int) | Line

  /** An aggregated edge: a fresh id, the two cluster ids, the dataset-edge count and the shape. */
  datatype AggEdge = AggEdge(id: string, source: string, target: string, count: nat, shape: EdgeShape)

  /** A member node of the `i`-th cluster as the aggregated view prepares it. */
  function Member(node: RealNode, i: nat): RealNode
  {
    node.(level := 0, colorSet := i)
  }

  /** The `i`-th cluster with its members prepared. */
  function TaggedCluster(c: Cluster, i: nat): (r: Cluster)
    ensures r.id == c.id && |r.nodes| == |c.nodes|
  {
    c.(nodes := seq(|c.nodes|, j requires 0 <= j < |c.nodes| => Member(c.nodes[j], i)))
  }

  /** Every cluster with its members prepared. */
  function TaggedClusters(cs: seq<Cluster>): (r: seq<Cluster>)
    ensures |r| == |cs|
  {
    seq(|cs|, i requires 0 <= i < |cs| => TaggedCluster(cs[i], i))
  }

  /** The aggregated node of the `i`-th cluster. */
  function AggregateOf(c: Cluster, i: nat): AggNode
  {
    AggNode(c.id, |c.nodes|, 1, i, i, false)
  }

  /** The aggregated nodes, one per cluster, in cluster order. */
  function Aggregates(cs: seq<Cluster>): (r: seq<AggNode>)
    ensures |r| == |cs|
  {
    seq(|cs|, i requires 0 <= i < |cs| => AggregateOf(cs[i], i))
  }

  /** The aggregated edge made from a cluster edge with the `uid`-th fresh number. */
  function AggregateEdge(e: ClusterEdge, uid: nat): AggEdge
  {
    AggEdge(Ids.FreshEdgeId(uid), e.source, e.target, e.count,
            if e.source == e.target then Loop(LoopDist) else Line)
  }

  /** The aggregated edges, numbered from `n`. */
  function AggregateEdges(ces: seq<ClusterEdge>, n: nat): (r: seq<AggEdge>)
    ensures |r| == |ces|
  {
    seq(|ces|, k requires 0 <= k < |ces| => AggregateEdge(ces[k], n + k))
  }

  /** The node map after registering `ns` in order (a later node with the same id wins). */
  function RegisterNodes(m: map<string, RealNode>, ns: seq<RealNode>): map<string, RealNode>
  {
    if ns == [] then m
    else
      var last := ns[|ns| - 1];
      RegisterNodes(m, ns[..|ns| - 1])[last.id := last]
  }

  /** The node map after registering the members of every cluster in order. */
  function RegisterClusters(m: map<string, RealNode>, cs: seq<Cluster>): map<string, RealNode>
  {
    if cs == [] then m
    else RegisterNodes(RegisterClusters(m, cs[..|cs| - 1]), cs[|cs| - 1].nodes)
  }

  /** The aggregated-node map after registering the aggregate of every cluster in order. */
  function RegisterAggregates(m: map<string, AggNode>, cs: seq<Cluster>): map<string, AggNode>
  {
    if cs == [] then m
    else
      var i := |cs| - 1;
      RegisterAggregates(m, cs[..i])[cs[i].id := AggregateOf(cs[i], i)]
  }

  /** Ids of all member nodes. */
  function AllMemberIds(cs: seq<Cluster>): set<string>
  {
    set c, v | c in cs && v in c.nodes :: v.id
  }

  // ---------------------------------------------------------------------------
  // Properties
  // ---------------------------------------------------------------------------

  /**
   * Preparing the members keeps the cluster ids and member ids, and every
   * prepared member of the `i`-th cluster has level 0 and colour set `i`.
   */
  lemma TaggedClustersProperties(cs: seq<Cluster>)
    ensures Graph.ClusterIds(TaggedClusters(cs)) == Graph.ClusterIds(cs)
    ensures AllMemberIds(TaggedClusters(cs)) == AllMemberIds(cs)
    ensures forall i, v :: 0 <= i < |cs| && v in TaggedClusters(cs)[i].nodes ==> v.level == 0 && v.colorSet == i
  {
    var ts := TaggedClusters(cs);
    forall x | x in Graph.ClusterIds(cs) ensures x in Graph.ClusterIds(ts) {
      var c :| c in cs && c.id == x;
      var i :| 0 <= i < |cs| && cs[i] == c;
      assert ts[i].id == x;
    }
    forall x | x in AllMemberIds(cs) ensures x in AllMemberIds(ts) {
      var c, v :| c in cs && v in c.nodes && v.id == x;
      var i :| 0 <= i < |cs| && cs[i] == c;
      var j :| 0 <= j < |c.nodes| && c.nodes[j] == v;
      assert ts[i].nodes[j].id == x;
    }
    forall x | x in AllMemberIds(ts) ensures x in AllMemberIds(cs) {
      var c, v :| c in ts && v in c.nodes && v.id == x;
      var i :| 0 <= i < |ts| && ts[i] == c;
      var j :| 0 <= j < |c.nodes| && c.nodes[j] == v;
      assert cs[i].nodes[j].id == x;
    }
  }

  /**
   * Registering nodes adds exactly their ids; every entry is the old one or
   * one of the registered nodes, under its own id, and an id registered
   * once maps to that node.
   */
  lemma {:induction false} RegisteredNodes(m: map<string, RealNode>, ns: seq<RealNode>)
    ensures RegisterNodes(m, ns).Keys == m.Keys + set v | v in ns :: v.id
    ensures forall x :: x in RegisterNodes(m, ns) ==>
      (x in m && RegisterNodes(m, ns)[x] == m[x]) || (RegisterNodes(m, ns)[x] in ns && RegisterNodes(m, ns)[x].id == x)
    ensures forall v :: v in ns ==> RegisterNodes(m, ns)[v.id] in ns
  {
    if ns != [] {
      var init, last := ns[..|ns| - 1], ns[|ns| - 1];
      assert ns == init + [last];
      RegisteredNodes(m, init);
    }
  }

  /** The ids of a list of clusters grown by one. */
  lemma ClusterIdsSnoc(cs: seq<Cluster>)
    requires cs != []
    ensures Graph.ClusterIds(cs) == Graph.ClusterIds(cs[..|cs| - 1]) + {cs[|cs| - 1].id}
  {
    assert cs == cs[..|cs| - 1] + [cs[|cs| - 1]];
  }

  /** The member ids of a list of clusters grown by one. */
  lemma MemberIdsSnoc(cs: seq<Cluster>)
    requires cs != []
    ensures AllMemberIds(cs) == AllMemberIds(cs[..|cs| - 1]) + set v | v in cs[|cs| - 1].nodes :: v.id
  {
    assert cs == cs[..|cs| - 1] + [cs[|cs| - 1]];
  }

  /** Registering the members of every cluster adds exactly the member ids. */
  lemma {:induction false} RegisteredClusterKeys(m: map<string, RealNode>, cs: seq<Cluster>)
    ensures RegisterClusters(m, cs).Keys == m.Keys + AllMemberIds(cs)
  {
    if cs != [] {
      var init := cs[..|cs| - 1];
      RegisteredClusterKeys(m, init);
      RegisteredNodes(RegisterClusters(m, init), cs[|cs| - 1].nodes);
      MemberIdsSnoc(cs);
    }
  }

  /** Each entry the members add is a member, under its own id, of a cluster that lists it. */
  lemma {:induction false} RegisteredClusterValues(m: map<string, RealNode>, cs: seq<Cluster>)
    ensures forall x :: x in RegisterClusters(m, cs) ==>
      (x in m && RegisterClusters(m, cs)[x] == m[x]) ||
      (RegisterClusters(m, cs)[x].id == x && exists i :: 0 <= i < |cs| && RegisterClusters(m, cs)[x] in cs[i].nodes)
  {
    if cs != [] {
      var init, last := cs[..|cs| - 1], cs[|cs| - 1];
      RegisteredClusterValues(m, init);
      RegisteredNodes(RegisterClusters(m, init), last.nodes);
      var r := RegisterClusters(m, cs);
      forall x | x in r
        ensures (x in m && r[x] == m[x]) || (r[x].id == x && exists i :: 0 <= i < |cs| && r[x] in cs[i].nodes)
      {
        if r[x] in last.nodes {
          assert r[x] in cs[|cs| - 1].nodes;
        } else if !(x in m && r[x] == m[x]) {
          var i :| 0 <= i < |init| && r[x] in init[i].nodes;
          assert cs[i] == init[i];
        }
      }
    }
  }

  /** The aggregated-node map gains exactly the cluster ids. */
  lemma {:induction false} RegisteredAggregateKeys(m: map<string, AggNode>, cs: seq<Cluster>)
    ensures RegisterAggregates(m, cs).Keys == m.Keys + Graph.ClusterIds(cs)
  {
    if cs != [] {
      RegisteredAggregateKeys(m, cs[..|cs| - 1]);
      ClusterIdsSnoc(cs);
    }
  }

  /** Every cluster's entry in the aggregated-node map carries the cluster's id. */
  lemma {:induction false} RegisteredAggregatesMatch(m: map<string, AggNode>, cs: seq<Cluster>)
    ensures Compositor.AggregatesMatch(cs, RegisterAggregates(m, cs))
  {
    if cs != [] {
      var k := |cs| - 1;
      var init := cs[..k];
      RegisteredAggregatesMatch(m, init);
      var r := RegisterAggregates(m, cs);
      forall c | c in cs ensures c.id in r && r[c.id].id == c.id {
        if c.id != cs[k].id {
          var i :| 0 <= i < |cs| && cs[i] == c;
          assert c in init by { assert init[i] == c; }
        }
      }
    }
  }

  /**
   * With distinct cluster ids, the entry of the `i`-th cluster is that
   * cluster's aggregate: its member count, level 1, colour set and index `i`,
   * shown collapsed.
   */
  lemma {:induction false} RegisteredAggregateValues(m: map<string, AggNode>, cs: seq<Cluster>)
    requires forall i, j :: 0 <= i < j < |cs| ==> cs[i].id != cs[j].id
    ensures forall i :: 0 <= i < |cs| ==>
      cs[i].id in RegisterAggregates(m, cs) && RegisterAggregates(m, cs)[cs[i].id] == AggregateOf(cs[i], i)
  {
    if cs != [] {
      var k := |cs| - 1;
      var init := cs[..k];
      RegisteredAggregateValues(m, init);
      RegisteredAggregateKeys(m, init);
      var r := RegisterAggregates(m, cs);
      forall i | 0 <= i < |cs| ensures cs[i].id in r && r[cs[i].id] == AggregateOf(cs[i], i) {
        if i < k {
          assert init[i] == cs[i];
        }
      }
    }
  }

  /**
   * The aggregated edges keep the endpoints and counts of the cluster edges,
   * in order; a self-edge is drawn as a loop at distance 20 and any other as
   * a line; their ids begin with the "edge" segment.
   */
  lemma AggregatedEdgeShapes(ces: seq<ClusterEdge>, n: nat, k: nat)
    requires k < |ces|
    ensures var a := AggregateEdges(ces, n)[k];
      && a.source == ces[k].source && a.target == ces[k].target && a.count == ces[k].count
      && (a.shape == Loop(LoopDist) <==> a.source == a.target)
      && (a.shape == Line <==> a.source != a.target)
      && Ids.Split(a.id)[0] == Ids.EdgePrefix
  {
    Ids.FreshEdgeIdPrefix(n + k);
  }

  /** The aggregated edges have pairwise distinct ids. */
  lemma AggregatedEdgeIdsDistinct(ces: seq<ClusterEdge>, n: nat)
    ensures forall k, l :: 0 <= k < l < |ces| ==> AggregateEdges(ces, n)[k].id != AggregateEdges(ces, n)[l].id
  {
    forall k, l | 0 <= k < l < |ces| ensures AggregateEdges(ces, n)[k].id != AggregateEdges(ces, n)[l].id {
      Ids.FreshEdgeIdInjective(n + k, n + l);
    }
  }

  /** Every member lists its own cluster's id as `clusterId`, and every cluster edge joins two clusters. */
  predicate WellFormed(cd: ClusterData)
  {
    && (forall c, v :: c in cd.clusters && v in c.nodes ==> v.clusterId == c.id)
    && (forall e :: e in cd.clusterEdges ==> e.source in Graph.ClusterIds(cd.clusters) && e.target in Graph.ClusterIds(cd.clusters))
  }

  /**
   * Built from empty maps, the aggregated data agrees with itself: each
   * cluster has its aggregate, each node-map entry is a member of the cluster
   * it names, and each cluster edge joins two clusters. This is what the view
   * composition needs for no edge to dangle.
   */
  lemma AggregationConsistent(cd: ClusterData)
    requires WellFormed(cd)
    ensures var ts := TaggedClusters(cd.clusters);
      Compositor.Consistent(ClusterData(ts, cd.clusterEdges),
                            RegisterClusters(map[], ts), RegisterAggregates(map[], cd.clusters))
  {
    var ts := TaggedClusters(cd.clusters);
    var nm := RegisterClusters(map[], ts);
    var agg := RegisterAggregates(map[], cd.clusters);
    TaggedClustersProperties(cd.clusters);
    RegisteredClusterValues(map[], ts);
    RegisteredAggregatesMatch(map[], cd.clusters);
    forall c | c in ts ensures c.id in agg && agg[c.id].id == c.id {
      var i :| 0 <= i < |ts| && ts[i] == c;
      assert cd.clusters[i] in cd.clusters;
    }
    forall x | x in nm
      ensures nm[x].clusterId in Graph.ClusterIds(ts) && x in Compositor.MemberIdsOf(ts, nm[x].clusterId)
    {
      var i :| 0 <= i < |ts| && nm[x] in ts[i].nodes;
      var j :| 0 <= j < |ts[i].nodes| && ts[i].nodes[j] == nm[x];
      assert cd.clusters[i].nodes[j] in cd.clusters[i].nodes;
      assert nm[x].clusterId == ts[i].id;
    }
  }

  // ---------------------------------------------------------------------------
  // The operation
  // ---------------------------------------------------------------------------

  /** The inner `forEach`: prepare each member of cluster `i` and register it. */
  method PrepareMembers(members: seq<RealNode>, i: nat, nodeMap: map<string, RealNode>)
    returns (prepared: seq<RealNode>, nodeMap': map<string, RealNode>)
    ensures prepared == seq(|members|, j requires 0 <= j < |members| => Member(members[j], i))
    ensures nodeMap' == RegisterNodes(nodeMap, prepared)
  {
    prepared, nodeMap' := [], nodeMap;
    for j := 0 to |members|
      invariant prepared == seq(j, k requires 0 <= k < j => Member(members[k], i))
      invariant nodeMap' == RegisterNodes(nodeMap, prepared)
    {
      var node := Member(members[j], i);
      assert (prepared + [node])[..j] == prepared;
      prepared := prepared + [node];
      nodeMap' := nodeMap'[node.id := node];
    }
  }

  /** How the specification of the cluster loop grows by one cluster. */
  lemma AggregateClustersStep(cs: seq<Cluster>, i: nat, m: map<string, RealNode>, am: map<string, AggNode>)
    requires i < |cs|
    ensures TaggedClusters(cs[..i + 1]) == TaggedClusters(cs[..i]) + [TaggedCluster(cs[i], i)]
    ensures Aggregates(cs[..i + 1]) == Aggregates(cs[..i]) + [AggregateOf(cs[i], i)]
    ensures RegisterClusters(m, TaggedClusters(cs[..i + 1])) == RegisterNodes(RegisterClusters(m, TaggedClusters(cs[..i])), TaggedCluster(cs[i], i).nodes)
    ensures RegisterAggregates(am, cs[..i + 1]) == RegisterAggregates(am, cs[..i])[cs[i].id := AggregateOf(cs[i], i)]
  {
    assert cs[..i + 1][..i] == cs[..i];
    var t := TaggedClusters(cs[..i + 1]);
    assert t[..i] == TaggedClusters(cs[..i]);
  }

  /** The `forEach` over clusters: prepare and register the members, register and list the aggregate. */
  method AggregateClusters(cs: seq<Cluster>, nodeMap: map<string, RealNode>, aggregatedNodeMap: map<string, AggNode>)
    returns (clusters: seq<Cluster>, nodeMap': map<string, RealNode>, aggregatedNodeMap': map<string, AggNode>, nodes: seq<AggNode>)
    ensures clusters == TaggedClusters(cs)
    ensures nodeMap' == RegisterClusters(nodeMap, clusters)
    ensures aggregatedNodeMap' == RegisterAggregates(aggregatedNodeMap, cs)
    ensures nodes == Aggregates(cs)
  {
    clusters, nodeMap', aggregatedNodeMap', nodes := [], nodeMap, aggregatedNodeMap, [];
    for i := 0 to |cs|
      invariant clusters == TaggedClusters(cs[..i])
      invariant nodeMap' == RegisterClusters(nodeMap, clusters)
      invariant aggregatedNodeMap' == RegisterAggregates(aggregatedNodeMap, cs[..i])
      invariant nodes == Aggregates(cs[..i])
    {
      var cluster := cs[i];
      var prepared;
      prepared, nodeMap' := PrepareMembers(cluster.nodes, i, nodeMap');
      assert cluster.(nodes := prepared) == TaggedCluster(cluster, i);
      AggregateClustersStep(cs, i, nodeMap, aggregatedNodeMap);
      clusters := clusters + [TaggedCluster(cluster, i)];
      var cnode := AggregateOf(cluster, i);
      aggregatedNodeMap' := aggregatedNodeMap'[cluster.id := cnode];
      nodes := nodes + [cnode];
    }
    assert cs[..|cs|] == cs;
  }

  /** The `forEach` over cluster edges: one aggregated edge each, with a fresh id. */
  method AggregateClusterEdges(ces: seq<ClusterEdge>, n: nat) returns (edges: seq<AggEdge>, n': nat)
    ensures edges == AggregateEdges(ces, n) && n' == n + |ces|
  {
    edges, n' := [], n;
    for k := 0 to |ces|
      invariant edges == AggregateEdges(ces[..k], n) && n' == n + k
    {
      var clusterEdge := ces[k];
      var cedge := AggEdge(Ids.FreshEdgeId(n'), clusterEdge.source, clusterEdge.target, clusterEdge.count, Line);
      if cedge.source == cedge.target {
        cedge := cedge.(shape := Loop(LoopDist));
      }
      edges := edges + [cedge];
      n' := n' + 1;
    }
    assert ces[..|ces|] == ces;
  }

  /**
   * `getAggregatedData`: prepares and registers the members of every
   * cluster, registers and lists one aggregate per cluster, and turns every
   * cluster edge into an aggregated edge with a fresh id numbered from `n`.
   */
  method GetAggregatedData(cd: ClusterData, nodeMap: map<string, RealNode>, aggregatedNodeMap: map<string, AggNode>, n: nat)
    returns (clusters: seq<Cluster>, nodeMap': map<string, RealNode>, aggregatedNodeMap': map<string, AggNode>,
             nodes: seq<AggNode>, edges: seq<AggEdge>, n': nat)
    ensures clusters == TaggedClusters(cd.clusters)
    ensures nodeMap' == RegisterClusters(nodeMap, clusters)
    ensures aggregatedNodeMap' == RegisterAggregates(aggregatedNodeMap, cd.clusters)
    ensures nodes == Aggregates(cd.clusters)
    ensures edges == AggregateEdges(cd.clusterEdges, n) && n' == n + |cd.clusterEdges|
  {
    clusters, nodeMap', aggregatedNodeMap', nodes := AggregateClusters(cd.clusters, nodeMap, aggregatedNodeMap);
    edges, n' := AggregateClusterEdges(cd.clusterEdges, n);
  }
}
