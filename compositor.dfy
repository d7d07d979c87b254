/**
 * Composition of the mixed view (`getMixedGraph`): expanded clusters show
 * their members, the others one aggregated node; dataset edges are kept,
 * re-attached to a cluster (virtual edges) or dropped according to how many
 * of their endpoint clusters are expanded; cluster-level edges are kept only
 * between two collapsed clusters.
 */
module Compositor {
  import opened Wrappers
  import opened Graph
  import Ids

  /** A node of the mixed view. */
  datatype ViewNode = RealView(node: RealNode) | AggView(agg: AggNode)
  {
    function Id(): string
    {
      match this
      case RealView(n) => n.id
      case AggView(a) => a.id
    }
  }

  /** An edge of the mixed view. */
  datatype ViewEdge = DataEdge(edge: Edge) | VirtualEdge(edge: Edge) | ClusterLink(link: ClusterEdge)
  {
    function Source(): string
    {
      match this
      case DataEdge(e) => e.source
      case VirtualEdge(e) => e.source
      case ClusterLink(c) => c.source
    }

    function Target(): string
    {
      match this
      case DataEdge(e) => e.target
      case VirtualEdge(e) => e.target
      case ClusterLink(c) => c.target
    }
  }

  /** The ids of the nodes of a view. */
  function NodeIds(vs: seq<ViewNode>): set<string>
  {
    set v | v in vs :: v.Id()
  }

  /** The members of a cluster as view nodes, in order. */
  function Members(ns: seq<RealNode>): (vs: seq<ViewNode>)
    ensures |vs| == |ns|
    ensures forall i :: 0 <= i < |ns| ==> vs[i] == RealView(ns[i])
  {
    seq(|ns|, i requires 0 <= i < |ns| => RealView(ns[i]))
  }

  /** The id of the virtual edge made with the n-th fresh id. */
  function VirtualEdgeId(n: nat): string
  {
    Ids.FreshEdgeId(n)
  }

  // ---------------------------------------------------------------------------
  // Specification of the composition
  // ---------------------------------------------------------------------------

  /** What one cluster contributes: its members when expanded, else its aggregated node, flagged collapsed. */
  function ClusterView(c: Cluster, agg: map<string, AggNode>, ex: set<string>): seq<ViewNode>
    requires c.id in agg
  {
    if c.id in ex then Members(c.nodes) else [AggView(agg[c.id].(expanded := false))]
  }

  /** The view nodes of the clusters, concatenated in cluster order. */
  function ComposeNodes(cs: seq<Cluster>, agg: map<string, AggNode>, ex: set<string>): seq<ViewNode>
    requires forall c :: c in cs ==> c.id in agg
  {
    if cs == [] then []
    else ComposeNodes(cs[..|cs| - 1], agg, ex) + ClusterView(cs[|cs| - 1], agg, ex)
  }

  /** The aggregated-node map with the `expanded` flag of every listed cluster id set. */
  function Flagged(agg: map<string, AggNode>, ids: set<string>, ex: set<string>): map<string, AggNode>
  {
    map k | k in agg :: if k in ids then agg[k].(expanded := k in ex) else agg[k]
  }

  /** Flagging one more cluster id updates one entry and leaves the other fields of that entry alone. */
  lemma FlaggedStep(agg: map<string, AggNode>, ids: set<string>, ex: set<string>, k: string)
    requires k in agg
    ensures k in Flagged(agg, ids, ex)
    ensures Flagged(agg, ids, ex)[k].(expanded := false) == agg[k].(expanded := false)
    ensures Flagged(agg, ids + {k}, ex) == Flagged(agg, ids, ex)[k := Flagged(agg, ids, ex)[k].(expanded := k in ex)]
  {
    var f, g := Flagged(agg, ids, ex), Flagged(agg, ids + {k}, ex);
    var h := f[k := f[k].(expanded := k in ex)];
    assert g.Keys == h.Keys;
    forall j | j in g ensures g[j] == h[j] {
    }
  }

  /** Every endpoint of the edges has an entry in the node map. */
  predicate Resolvable(es: seq<Edge>, nodeMap: map<string, RealNode>)
  {
    forall e :: e in es ==> e.source in nodeMap && e.target in nodeMap
  }

  function SourceExpanded(e: Edge, nodeMap: map<string, RealNode>, ex: set<string>): bool
    requires e.source in nodeMap
  {
    nodeMap[e.source].clusterId in ex
  }

  function TargetExpanded(e: Edge, nodeMap: map<string, RealNode>, ex: set<string>): bool
    requires e.target in nodeMap
  {
    nodeMap[e.target].clusterId in ex
  }

  /** What one dataset edge contributes; a virtual edge uses fresh id `n`. */
  function EdgeView(e: Edge, nodeMap: map<string, RealNode>, ex: set<string>, n: nat): seq<ViewEdge>
    requires e.source in nodeMap && e.target in nodeMap
  {
    var s := SourceExpanded(e, nodeMap, ex);
    var t := TargetExpanded(e, nodeMap, ex);
    if s && t then [DataEdge(e)]
    else if s then [VirtualEdge(Edge(Some(VirtualEdgeId(n)), e.source, nodeMap[e.target].clusterId, ""))]
    else if t then [VirtualEdge(Edge(Some(VirtualEdgeId(n)), nodeMap[e.source].clusterId, e.target, ""))]
    else []
  }

  /** Exactly one endpoint cluster of `e` is expanded. */
  predicate HalfExpanded(e: Edge, nodeMap: map<string, RealNode>, ex: set<string>)
    requires e.source in nodeMap && e.target in nodeMap
  {
    SourceExpanded(e, nodeMap, ex) != TargetExpanded(e, nodeMap, ex)
  }

  /** The projected dataset edges and the next unused fresh id. */
  datatype Projection = Projection(edges: seq<ViewEdge>, next: nat)

  function ProjectEdges(es: seq<Edge>, nodeMap: map<string, RealNode>, ex: set<string>, n: nat): Projection
    requires Resolvable(es, nodeMap)
  {
    if es == [] then Projection([], n)
    else
      var p := ProjectEdges(es[..|es| - 1], nodeMap, ex, n);
      var e := es[|es| - 1];
      Projection(p.edges + EdgeView(e, nodeMap, ex, p.next),
                 if HalfExpanded(e, nodeMap, ex) then p.next + 1 else p.next)
  }

  /** The cluster edges between two collapsed clusters, in order. */
  function KeepClusterEdges(ces: seq<ClusterEdge>, ex: set<string>): seq<ViewEdge>
  {
    if ces == [] then []
    else
      var c := ces[|ces| - 1];
      KeepClusterEdges(ces[..|ces| - 1], ex) + (if c.source in ex || c.target in ex then [] else [ClusterLink(c)])
  }

  // ---------------------------------------------------------------------------
  // Properties of the composition
  // ---------------------------------------------------------------------------

  /** Ids of the members of expanded clusters. */
  function ShownMemberIds(cs: seq<Cluster>, ex: set<string>): set<string>
  {
    set c, m | c in cs && c.id in ex && m in c.nodes :: m.id
  }

  /** Ids of the collapsed clusters. */
  function CollapsedClusterIds(cs: seq<Cluster>, ex: set<string>): set<string>
  {
    set c | c in cs && c.id !in ex :: c.id
  }

  /** Every cluster has an aggregated node carrying the cluster's id. */
  predicate AggregatesMatch(cs: seq<Cluster>, agg: map<string, AggNode>)
  {
    forall c :: c in cs ==> c.id in agg && agg[c.id].id == c.id
  }

  /**
   * The composed nodes are exactly the nodes contributed cluster by cluster:
   * the members of an expanded cluster, the aggregated node (flagged
   * collapsed) of any other one.
   */
  lemma {:induction false} ComposeNodesContents(cs: seq<Cluster>, agg: map<string, AggNode>, ex: set<string>)
    requires forall c :: c in cs ==> c.id in agg
    ensures forall v :: v in ComposeNodes(cs, agg, ex) <==> exists c :: c in cs && v in ClusterView(c, agg, ex)
  {
    if cs != [] {
      var init, last := cs[..|cs| - 1], cs[|cs| - 1];
      assert cs == init + [last];
      ComposeNodesContents(init, agg, ex);
      assert ComposeNodes(cs, agg, ex) == ComposeNodes(init, agg, ex) + ClusterView(last, agg, ex);
      forall v ensures v in ComposeNodes(cs, agg, ex) <==> exists c :: c in cs && v in ClusterView(c, agg, ex) {
        if v in ComposeNodes(cs, agg, ex) && v !in ClusterView(last, agg, ex) {
          var c :| c in init && v in ClusterView(c, agg, ex);
          assert c in cs;
        }
        if exists c :: c in cs && v in ClusterView(c, agg, ex) {
          var c :| c in cs && v in ClusterView(c, agg, ex);
          if c != last {
            assert c in init;
          }
        }
      }
    }
  }

  /**
   * Every aggregated node in the view is flagged collapsed and belongs to a
   * cluster that is not expanded; every real node in the view is a member of
   * an expanded cluster.
   */
  lemma ComposedNodesKinds(cs: seq<Cluster>, agg: map<string, AggNode>, ex: set<string>)
    requires AggregatesMatch(cs, agg)
    ensures forall v :: v in ComposeNodes(cs, agg, ex) && v.AggView? ==>
              !v.agg.expanded && v.agg.id !in ex && v.agg.id in ClusterIds(cs)
    ensures forall v :: v in ComposeNodes(cs, agg, ex) && v.RealView? ==>
              exists c :: c in cs && c.id in ex && v.node in c.nodes
  {
    ComposeNodesContents(cs, agg, ex);
    forall v | v in ComposeNodes(cs, agg, ex)
      ensures v.AggView? ==> !v.agg.expanded && v.agg.id !in ex && v.agg.id in ClusterIds(cs)
      ensures v.RealView? ==> exists c :: c in cs && c.id in ex && v.node in c.nodes
    {
      var c :| c in cs && v in ClusterView(c, agg, ex);
      if c.id in ex {
        var i :| 0 <= i < |c.nodes| && Members(c.nodes)[i] == v;
      }
    }
  }

  /** The node ids of the view: members of expanded clusters and ids of collapsed clusters. */
  lemma ComposedNodeIds(cs: seq<Cluster>, agg: map<string, AggNode>, ex: set<string>)
    requires AggregatesMatch(cs, agg)
    ensures NodeIds(ComposeNodes(cs, agg, ex)) == ShownMemberIds(cs, ex) + CollapsedClusterIds(cs, ex)
  {
    var vs := ComposeNodes(cs, agg, ex);
    ComposeNodesContents(cs, agg, ex);
    forall x | x in NodeIds(vs) ensures x in ShownMemberIds(cs, ex) + CollapsedClusterIds(cs, ex) {
      var v :| v in vs && v.Id() == x;
      var c :| c in cs && v in ClusterView(c, agg, ex);
      if c.id in ex {
        var i :| 0 <= i < |c.nodes| && Members(c.nodes)[i] == v;
        assert c.nodes[i] in c.nodes;
      }
    }
    forall x | x in ShownMemberIds(cs, ex) ensures x in NodeIds(vs) {
      var c, m :| c in cs && c.id in ex && m in c.nodes && m.id == x;
      var i :| 0 <= i < |c.nodes| && c.nodes[i] == m;
      var v := Members(c.nodes)[i];
      assert v in ClusterView(c, agg, ex);
      assert v in vs;
      assert v.Id() == x;
    }
    forall x | x in CollapsedClusterIds(cs, ex) ensures x in NodeIds(vs) {
      var c :| c in cs && c.id !in ex && c.id == x;
      var v := AggView(agg[c.id].(expanded := false));
      assert v in ClusterView(c, agg, ex);
      assert v in vs;
      assert v.Id() == x;
    }
  }

  /** How many of the edges have at least one expanded endpoint cluster. */
  function CountTouching(es: seq<Edge>, nodeMap: map<string, RealNode>, ex: set<string>): nat
    requires Resolvable(es, nodeMap)
  {
    if es == [] then 0
    else
      var e := es[|es| - 1];
      CountTouching(es[..|es| - 1], nodeMap, ex)
        + (if SourceExpanded(e, nodeMap, ex) || TargetExpanded(e, nodeMap, ex) then 1 else 0)
  }

  /** How many of the edges have exactly one expanded endpoint cluster. */
  function CountHalf(es: seq<Edge>, nodeMap: map<string, RealNode>, ex: set<string>): nat
    requires Resolvable(es, nodeMap)
  {
    if es == [] then 0
    else CountHalf(es[..|es| - 1], nodeMap, ex) + (if HalfExpanded(es[|es| - 1], nodeMap, ex) then 1 else 0)
  }

  /** The virtual edge made for `e`: the unexpanded endpoint replaced by its cluster id. */
  predicate ReattachedFrom(v: Edge, e: Edge, nodeMap: map<string, RealNode>, ex: set<string>)
    requires e.source in nodeMap && e.target in nodeMap
  {
    && (SourceExpanded(e, nodeMap, ex) ==> v.source == e.source && v.target == nodeMap[e.target].clusterId)
    && (TargetExpanded(e, nodeMap, ex) ==> v.source == nodeMap[e.source].clusterId && v.target == e.target)
  }

  /**
   * Each dataset edge yields itself when both endpoint clusters are expanded,
   * one virtual edge re-attached to the collapsed cluster when exactly one
   * is, and nothing otherwise; each virtual edge takes one fresh id.
   */
  lemma {:induction false} ProjectedEdgeOutcomes(es: seq<Edge>, nodeMap: map<string, RealNode>, ex: set<string>, n: nat)
    requires Resolvable(es, nodeMap)
    ensures var p := ProjectEdges(es, nodeMap, ex, n);
      && |p.edges| == CountTouching(es, nodeMap, ex)
      && p.next == n + CountHalf(es, nodeMap, ex)
      && (forall v :: v in p.edges ==> v.DataEdge? || v.VirtualEdge?)
      && (forall e :: DataEdge(e) in p.edges <==>
            e in es && SourceExpanded(e, nodeMap, ex) && TargetExpanded(e, nodeMap, ex))
      && (forall v :: VirtualEdge(v) in p.edges ==>
            exists e :: e in es && HalfExpanded(e, nodeMap, ex) && ReattachedFrom(v, e, nodeMap, ex))
  {
    if es != [] {
      var init, e := es[..|es| - 1], es[|es| - 1];
      assert es == init + [e];
      ProjectedEdgeOutcomes(init, nodeMap, ex, n);
      var p0 := ProjectEdges(init, nodeMap, ex, n);
      var p := ProjectEdges(es, nodeMap, ex, n);
      assert p.edges == p0.edges + EdgeView(e, nodeMap, ex, p0.next);
      forall d ensures DataEdge(d) in p.edges <==>
          d in es && SourceExpanded(d, nodeMap, ex) && TargetExpanded(d, nodeMap, ex) {
        if d in es && d != e {
          assert d in init;
        }
      }
      forall v | VirtualEdge(v) in p.edges
        ensures exists d :: d in es && HalfExpanded(d, nodeMap, ex) && ReattachedFrom(v, d, nodeMap, ex)
      {
        if VirtualEdge(v) in p0.edges {
          var d :| d in init && HalfExpanded(d, nodeMap, ex) && ReattachedFrom(v, d, nodeMap, ex);
          assert d in es;
        } else {
          assert HalfExpanded(e, nodeMap, ex) && ReattachedFrom(v, e, nodeMap, ex);
        }
      }
    }
  }

  /** A cluster edge survives exactly when neither of its endpoint clusters is expanded. */
  lemma {:induction false} KeptClusterEdges(ces: seq<ClusterEdge>, ex: set<string>)
    ensures forall v :: v in KeepClusterEdges(ces, ex) ==> v.ClusterLink?
    ensures forall c :: ClusterLink(c) in KeepClusterEdges(ces, ex) <==>
              c in ces && c.source !in ex && c.target !in ex
    ensures |KeepClusterEdges(ces, ex)| <= |ces|
  {
    if ces != [] {
      var init, last := ces[..|ces| - 1], ces[|ces| - 1];
      assert ces == init + [last];
      KeptClusterEdges(init, ex);
      forall c ensures ClusterLink(c) in KeepClusterEdges(ces, ex) <==> c in ces && c.source !in ex && c.target !in ex {
        if c in ces && c != last {
          assert c in init;
        }
      }
    }
  }

  /** Ids of the members, in any cluster with id `cid`. */
  function MemberIdsOf(cs: seq<Cluster>, cid: string): set<string>
  {
    set c, m | c in cs && c.id == cid && m in c.nodes :: m.id
  }

  /**
   * The inputs agree with each other: each cluster has its aggregated node,
   * each node-map entry names a cluster that lists the node, and each cluster
   * edge joins two clusters.
   */
  predicate Consistent(cd: ClusterData, nodeMap: map<string, RealNode>, agg: map<string, AggNode>)
  {
    && AggregatesMatch(cd.clusters, agg)
    && (forall x :: x in nodeMap ==>
          nodeMap[x].clusterId in ClusterIds(cd.clusters) && x in MemberIdsOf(cd.clusters, nodeMap[x].clusterId))
    && (forall c :: c in cd.clusterEdges ==>
          c.source in ClusterIds(cd.clusters) && c.target in ClusterIds(cd.clusters))
  }

  lemma EndpointShown(cd: ClusterData, nodeMap: map<string, RealNode>, agg: map<string, AggNode>, ex: set<string>, x: string)
    requires Consistent(cd, nodeMap, agg) && x in nodeMap
    ensures nodeMap[x].clusterId in ex ==> x in ShownMemberIds(cd.clusters, ex)
    ensures nodeMap[x].clusterId !in ex ==> nodeMap[x].clusterId in CollapsedClusterIds(cd.clusters, ex)
  {
    var cid := nodeMap[x].clusterId;
    var c, m :| c in cd.clusters && c.id == cid && m in c.nodes && m.id == x;
  }

  /**
   * No dangling edge: with consistent inputs, both endpoints of every edge of
   * the composed view are nodes of the composed view.
   */
  lemma NoDanglingEdges(cd: ClusterData, es: seq<Edge>, nodeMap: map<string, RealNode>,
                        agg: map<string, AggNode>, ex: set<string>, n: nat)
    requires Consistent(cd, nodeMap, agg) && Resolvable(es, nodeMap)
    ensures var ids := NodeIds(ComposeNodes(cd.clusters, agg, ex));
      forall v :: v in ProjectEdges(es, nodeMap, ex, n).edges + KeepClusterEdges(cd.clusterEdges, ex) ==>
        v.Source() in ids && v.Target() in ids
  {
    var ids := NodeIds(ComposeNodes(cd.clusters, agg, ex));
    ComposedNodeIds(cd.clusters, agg, ex);
    ProjectedEdgeOutcomes(es, nodeMap, ex, n);
    KeptClusterEdges(cd.clusterEdges, ex);
    var p := ProjectEdges(es, nodeMap, ex, n);
    forall v | v in p.edges + KeepClusterEdges(cd.clusterEdges, ex)
      ensures v.Source() in ids && v.Target() in ids
    {
      if v in p.edges {
        if v.DataEdge? {
          EndpointShown(cd, nodeMap, agg, ex, v.edge.source);
          EndpointShown(cd, nodeMap, agg, ex, v.edge.target);
        } else {
          var e :| e in es && HalfExpanded(e, nodeMap, ex) && ReattachedFrom(v.edge, e, nodeMap, ex);
          EndpointShown(cd, nodeMap, agg, ex, e.source);
          EndpointShown(cd, nodeMap, agg, ex, e.target);
        }
      } else {
        assert v in KeepClusterEdges(cd.clusterEdges, ex);
      }
    }
  }

  // ---------------------------------------------------------------------------
  // The operation
  // ---------------------------------------------------------------------------

  /** The `expandMap` of the source: every expand-record id mapped to true. */
  method BuildExpandMap(expand: seq<ExpandRecord>) returns (expandMap: map<string, bool>)
    ensures expandMap.Keys == ExpandedIds(expand)
  {
    expandMap := map[];
    for i := 0 to |expand|
      invariant expandMap.Keys == ExpandedIds(expand[..i])
    {
      assert expand[..i + 1] == expand[..i] + [expand[i]];
      expandMap := expandMap[expand[i].id := true];
    }
    assert expand[..|expand|] == expand;
  }

  /** The cluster loop: pushes members or the aggregated node, and sets each cluster's flag. */
  method PushClusterNodes(clusters: seq<Cluster>, aggMap: map<string, AggNode>, expandMap: map<string, bool>)
    returns (nodes: seq<ViewNode>, aggMap': map<string, AggNode>)
    requires forall c :: c in clusters ==> c.id in aggMap
    ensures nodes == ComposeNodes(clusters, aggMap, expandMap.Keys)
    ensures aggMap' == Flagged(aggMap, ClusterIds(clusters), expandMap.Keys)
  {
    ghost var ex := expandMap.Keys;
    nodes, aggMap' := [], aggMap;
    for i := 0 to |clusters|
      invariant nodes == ComposeNodes(clusters[..i], aggMap, ex)
      invariant aggMap' == Flagged(aggMap, ClusterIds(clusters[..i]), ex)
    {
      var c := clusters[i];
      assert clusters[..i + 1] == clusters[..i] + [c];
      assert clusters[..i + 1][..i] == clusters[..i];
      assert ClusterIds(clusters[..i + 1]) == ClusterIds(clusters[..i]) + {c.id};
      FlaggedStep(aggMap, ClusterIds(clusters[..i]), ex, c.id);
      var view;
      view, aggMap' := PushCluster(c, aggMap', expandMap);
      nodes := nodes + view;
    }
    assert clusters[..|clusters|] == clusters;
  }

  /** One round of the cluster loop: the nodes pushed for `c` and the flag written for it. */
  method PushCluster(c: Cluster, aggMap: map<string, AggNode>, expandMap: map<string, bool>)
    returns (view: seq<ViewNode>, aggMap': map<string, AggNode>)
    requires c.id in aggMap
    ensures view == ClusterView(c, aggMap, expandMap.Keys)
    ensures aggMap' == aggMap[c.id := aggMap[c.id].(expanded := c.id in expandMap)]
  {
    if c.id in expandMap {
      view := Members(c.nodes);
      aggMap' := aggMap[c.id := aggMap[c.id].(expanded := true)];
    } else {
      view := [AggView(aggMap[c.id].(expanded := false))];
      aggMap' := aggMap[c.id := aggMap[c.id].(expanded := false)];
    }
  }

  /** The dataset-edge loop: keeps, re-attaches or drops each edge; `n` is the next fresh id. */
  method PushDataEdges(originEdges: seq<Edge>, nodeMap: map<string, RealNode>, expandMap: map<string, bool>, n: nat)
    returns (edges: seq<ViewEdge>, n': nat)
    requires Resolvable(originEdges, nodeMap)
    ensures Projection(edges, n') == ProjectEdges(originEdges, nodeMap, expandMap.Keys, n)
  {
    ghost var ex := expandMap.Keys;
    edges, n' := [], n;
    for i := 0 to |originEdges|
      invariant Projection(edges, n') == ProjectEdges(originEdges[..i], nodeMap, ex, n)
    {
      var e := originEdges[i];
      assert originEdges[..i + 1][..i] == originEdges[..i];
      var inSource := nodeMap[e.source].clusterId in expandMap;
      var inTarget := nodeMap[e.target].clusterId in expandMap;
      if inSource && inTarget {
        edges := edges + [DataEdge(e)];
      } else if inSource {
        edges := edges + [VirtualEdge(Edge(Some(VirtualEdgeId(n')), e.source, nodeMap[e.target].clusterId, ""))];
        n' := n' + 1;
      } else if inTarget {
        edges := edges + [VirtualEdge(Edge(Some(VirtualEdgeId(n')), nodeMap[e.source].clusterId, e.target, ""))];
        n' := n' + 1;
      }
    }
    assert originEdges[..|originEdges|] == originEdges;
  }

  /** The cluster-edge loop: an edge touching an expanded cluster is skipped. */
  method PushClusterEdges(clusterEdges: seq<ClusterEdge>, expandMap: map<string, bool>)
    returns (edges: seq<ViewEdge>)
    ensures edges == KeepClusterEdges(clusterEdges, expandMap.Keys)
  {
    edges := [];
    for i := 0 to |clusterEdges|
      invariant edges == KeepClusterEdges(clusterEdges[..i], expandMap.Keys)
    {
      var c := clusterEdges[i];
      assert clusterEdges[..i + 1][..i] == clusterEdges[..i];
      if !(c.source in expandMap || c.target in expandMap) {
        edges := edges + [ClusterLink(c)];
      }
    }
    assert clusterEdges[..|clusterEdges|] == clusterEdges;
  }

  /**
   * `getMixedGraph`: builds `expandMap` from the expand records (and, as the
   * source does, a `collapseMap` that nothing reads), then pushes the nodes
   * cluster by cluster, the dataset edges and the surviving cluster edges.
   * `n` is the next fresh id; `n'` the next one after the virtual edges.
   */
  method GetMixedGraph(cd: ClusterData, originEdges: seq<Edge>, nodeMap: map<string, RealNode>,
                       aggMap: map<string, AggNode>, expand: seq<ExpandRecord>,
                       collapse: seq<CollapseRecord>, n: nat)
    returns (nodes: seq<ViewNode>, edges: seq<ViewEdge>, aggMap': map<string, AggNode>, n': nat)
    requires forall c :: c in cd.clusters ==> c.id in aggMap
    requires Resolvable(originEdges, nodeMap)
    ensures aggMap' == Flagged(aggMap, ClusterIds(cd.clusters), ExpandedIds(expand))
    ensures nodes == ComposeNodes(cd.clusters, aggMap, ExpandedIds(expand))
    ensures var p := ProjectEdges(originEdges, nodeMap, ExpandedIds(expand), n);
            edges == p.edges + KeepClusterEdges(cd.clusterEdges, ExpandedIds(expand)) && n' == p.next
  {
    var expandMap := BuildExpandMap(expand);
    var collapseMap: map<Option<string>, bool> := map[];
    for i := 0 to |collapse| {
      collapseMap := collapseMap[collapse[i].id := true];
    }
    nodes, aggMap' := PushClusterNodes(cd.clusters, aggMap, expandMap);
    var dataEdges;
    dataEdges, n' := PushDataEdges(originEdges, nodeMap, expandMap, n);
    var linkEdges := PushClusterEdges(cd.clusterEdges, expandMap);
    edges := dataEdges + linkEdges;
  }
}
