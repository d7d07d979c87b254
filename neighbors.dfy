/**
 * Neighbour exploration (`generateNeighbors`, `getNeighborMixedGraph`): a
 * random tree of synthetic nodes grown around a centre node, `step` levels
 * deep, and its merge into the dataset, the node map, the centre's cluster
 * and the current view.
 *
 * `Math.random()` is a supplied stream `rand` read at a cursor `t`, and
 * `uniqueId()` is the counter `n` rendered by `Ids.UniqueId`.
 */
module Neighbors {
  import opened Wrappers
  import opened Graph
  import Ids
  import Compositor
  import Aggregation

  /** The default `maxNeighborNumPerNode`. */
  const DefaultMaxNeighbors: int := 5

  /** `Math.ceil`. */
  function Ceil(x: real): (r: int)
    ensures r as real - 1.0 < x <= r as real
  {
    -((-x).Floor)
  }

  /** The number of children of one node: `ceil(random * max)`. */
  function NeighborNum(r: real, max: int): int
  {
    Ceil(r * max as real)
  }

  /**
   * A draw in [0, 1) gives between 0 and `max` children; 0 only for a draw of
   * exactly 0 (or `max` <= 0).
   */
  lemma NeighborNumBounds(r: real, max: int)
    requires 0.0 <= r < 1.0 && max >= 0
    ensures 0 <= NeighborNum(r, max) <= max
    ensures NeighborNum(r, max) == 0 <==> r == 0.0 || max == 0
  {
    var x := r * max as real;
    assert 0.0 <= x;
    if max > 0 {
      assert x < max as real;
      if r > 0.0 {
        assert x > 0.0;
      }
    }
  }

  /** A generated sub-graph and the positions of the two counters after it. */
  datatype Sub = Sub(nodes: seq<RealNode>, edges: seq<Edge>, t: nat, n: nat)

  /** The synthetic neighbour made with the `n`-th fresh number. */
  function NeighborNode(center: RealNode, n: nat): RealNode
  {
    RealNode(Ids.UniqueId(n), center.clusterId, 0, center.colorSet)
  }

  /** The edge between the centre and a new neighbour; the draw decides the direction. */
  function NeighborEdge(centerId: string, nodeId: string, dire: bool, n: nat): Edge
  {
    var source := if dire then centerId else nodeId;
    var target := if dire then nodeId else centerId;
    Edge(Some(Ids.UniqueId(n)), source, target, source + "-" + target)
  }

  /** Joins a sub-graph after the part built so far. */
  function Append(acc: Sub, sub: Sub): Sub
  {
    Sub(acc.nodes + sub.nodes, acc.edges + sub.edges, sub.t, sub.n)
  }

  /** `generateNeighbors`: None (`undefined`) when `step` <= 0. */
  function Generate(center: RealNode, step: int, max: int, rand: nat -> real, t: nat, n: nat): Option<Sub>
    decreases step, 1
  {
    if step <= 0 then None
    else Some(Children(center, step, max, rand, NeighborNum(rand(t), max), 0, Sub([], [], t + 1, n)))
  }

  /**
   * The loop over the `k` children, from child `i` on, after `acc`: each
   * child is a node, its edge to the centre and the sub-tree grown from it
   * one step shallower.
   */
  function Children(center: RealNode, step: int, max: int, rand: nat -> real, k: int, i: nat, acc: Sub): Sub
    requires step > 0
    decreases step, 0, if i < k then k - i else 0
  {
    if i >= k then acc
    else Children(center, step, max, rand, k, i + 1, NextChild(center, step, max, rand, acc))
  }

  /** One child after `acc`: its node, its edge to the centre, then the sub-tree grown from it. */
  function NextChild(center: RealNode, step: int, max: int, rand: nat -> real, acc: Sub): Sub
    requires step > 0
    decreases step, 0, 0
  {
    var node := NeighborNode(center, acc.n);
    var edge := NeighborEdge(center.id, node.id, rand(acc.t) > 0.5, acc.n + 1);
    var acc1 := Sub(acc.nodes + [node], acc.edges + [edge], acc.t + 1, acc.n + 2);
    match Generate(node, step - 1, max, rand, acc1.t, acc1.n)
    case None => acc1
    case Some(sub) => Append(acc1, sub)
  }

  // ---------------------------------------------------------------------------
  // The shape of a generated sub-graph
  // ---------------------------------------------------------------------------

  /** Edge `e` joins the node `id` to `parent`, in either direction, and is labelled "source-target". */
  predicate Joins(e: Edge, id: string, parent: string)
  {
    && ((e.source == id && e.target == parent) || (e.source == parent && e.target == id))
    && e.labelText == e.source + "-" + e.target
  }

  /** `parent` is the centre or one of the nodes before position `k`. */
  predicate EarlierOrCenter(center: RealNode, nodes: seq<RealNode>, k: nat, parent: string)
    requires k <= |nodes|
  {
    parent == center.id || exists j :: 0 <= j < k && nodes[j].id == parent
  }

  /** Node `k` has id number n + 2k, the centre's cluster and colour set, and level 0. */
  ghost predicate NodesFresh(center: RealNode, n: nat, nodes: seq<RealNode>)
  {
    forall k :: 0 <= k < |nodes| ==> nodes[k] == RealNode(Ids.UniqueId(n + 2 * k), center.clusterId, 0, center.colorSet)
  }

  /** Edge `k` has id number n + 2k + 1. */
  ghost predicate EdgeIdsFresh(n: nat, edges: seq<Edge>)
  {
    forall k :: 0 <= k < |edges| ==> edges[k].id == Some(Ids.UniqueId(n + 2 * k + 1))
  }

  /** Edge `k` joins node `k` to the centre or to a node before it. */
  ghost predicate LinkAt(center: RealNode, nodes: seq<RealNode>, edges: seq<Edge>, k: nat)
    requires k < |edges| == |nodes|
  {
    exists p :: EarlierOrCenter(center, nodes, k, p) && Joins(edges[k], nodes[k].id, p)
  }

  /** Every edge joins its node to the centre or to an earlier node. */
  ghost predicate Linked(center: RealNode, nodes: seq<RealNode>, edges: seq<Edge>)
    requires |edges| == |nodes|
  {
    forall k: nat :: k < |edges| ==> LinkAt(center, nodes, edges, k)
  }

  /**
   * A sub-graph grown around `center` from fresh number `n`: one edge per
   * node, fresh node and edge ids in creation order, each edge hanging the
   * node to the centre or an earlier node, and the counter after the last
   * number used.
   */
  ghost predicate Grown(center: RealNode, n: nat, s: Sub)
  {
    && |s.edges| == |s.nodes|
    && s.n == n + 2 * |s.nodes|
    && NodesFresh(center, n, s.nodes)
    && EdgeIdsFresh(n, s.edges)
    && Linked(center, s.nodes, s.edges)
  }

  /** The empty sub-graph is grown. */
  lemma GrownEmpty(center: RealNode, n: nat, t: nat)
    ensures Grown(center, n, Sub([], [], t, n))
  {
  }

  /** A link to the centre or an earlier node stays one when nodes are added after it. */
  lemma EarlierStays(center: RealNode, nodes: seq<RealNode>, more: seq<RealNode>, k: nat, p: string)
    requires k <= |nodes| && EarlierOrCenter(center, nodes, k, p)
    ensures EarlierOrCenter(center, nodes + more, k, p)
  {
    if p != center.id {
      var j :| 0 <= j < k && nodes[j].id == p;
      assert (nodes + more)[j].id == p;
    }
  }

  /** Adding one child with its edge keeps a sub-graph grown. */
  lemma GrownChild(center: RealNode, n: nat, acc: Sub, dire: bool, t: nat)
    requires Grown(center, n, acc)
    ensures var node := NeighborNode(center, acc.n);
      Grown(center, n, Sub(acc.nodes + [node], acc.edges + [NeighborEdge(center.id, node.id, dire, acc.n + 1)], t, acc.n + 2))
  {
    var node := NeighborNode(center, acc.n);
    var edge := NeighborEdge(center.id, node.id, dire, acc.n + 1);
    var s := Sub(acc.nodes + [node], acc.edges + [edge], t, acc.n + 2);
    var m := |acc.nodes|;
    assert s.nodes[m] == node && acc.n == n + 2 * m;
    assert NodesFresh(center, n, s.nodes) by {
      forall k | 0 <= k < |s.nodes| ensures s.nodes[k] == RealNode(Ids.UniqueId(n + 2 * k), center.clusterId, 0, center.colorSet) {
        if k < m { assert s.nodes[k] == acc.nodes[k]; }
      }
    }
    assert EdgeIdsFresh(n, s.edges) by {
      forall k | 0 <= k < |s.edges| ensures s.edges[k].id == Some(Ids.UniqueId(n + 2 * k + 1)) {
        if k < m { assert s.edges[k] == acc.edges[k]; }
      }
    }
    forall k: nat | k < |s.edges|
      ensures LinkAt(center, s.nodes, s.edges, k)
    {
      if k < m {
        assert LinkAt(center, acc.nodes, acc.edges, k);
        var p :| EarlierOrCenter(center, acc.nodes, k, p) && Joins(acc.edges[k], acc.nodes[k].id, p);
        EarlierStays(center, acc.nodes, [node], k, p);
        assert s.edges[k] == acc.edges[k] && s.nodes[k] == acc.nodes[k];
      } else {
        assert EarlierOrCenter(center, s.nodes, k, center.id);
        assert Joins(s.edges[k], s.nodes[k].id, center.id);
      }
    }
  }

  /** The ids of a sub-tree started where `acc` stopped continue `acc`'s numbering. */
  lemma GrownAppendIds(center: RealNode, n: nat, acc: Sub, sub: Sub)
    requires Grown(center, n, acc) && |acc.nodes| > 0
    requires Grown(acc.nodes[|acc.nodes| - 1], acc.n, sub)
    ensures NodesFresh(center, n, acc.nodes + sub.nodes)
    ensures EdgeIdsFresh(n, acc.edges + sub.edges)
  {
    var m := |acc.nodes|;
    var root := acc.nodes[m - 1];
    var ns := acc.nodes + sub.nodes;
    var es := acc.edges + sub.edges;
    forall k | 0 <= k < |ns|
      ensures ns[k] == RealNode(Ids.UniqueId(n + 2 * k), center.clusterId, 0, center.colorSet)
    {
      if k >= m {
        assert ns[k] == sub.nodes[k - m];
        assert acc.n + 2 * (k - m) == n + 2 * k;
      } else {
        assert ns[k] == acc.nodes[k];
      }
    }
    forall k | 0 <= k < |es|
      ensures es[k].id == Some(Ids.UniqueId(n + 2 * k + 1))
    {
      if k >= m {
        assert es[k] == sub.edges[k - m];
        assert acc.n + 2 * (k - m) + 1 == n + 2 * k + 1;
      } else {
        assert es[k] == acc.edges[k];
      }
    }
  }

  /** The links of a sub-tree hung off the last node of `acc` stay links after joining. */
  lemma GrownAppendLinks(center: RealNode, acc: Sub, sub: Sub)
    requires |acc.edges| == |acc.nodes| > 0 && |sub.edges| == |sub.nodes|
    requires Linked(center, acc.nodes, acc.edges)
    requires Linked(acc.nodes[|acc.nodes| - 1], sub.nodes, sub.edges)
    ensures Linked(center, acc.nodes + sub.nodes, acc.edges + sub.edges)
  {
    var m := |acc.nodes|;
    var root := acc.nodes[m - 1];
    var ns := acc.nodes + sub.nodes;
    var es := acc.edges + sub.edges;
    forall k: nat | k < |es|
      ensures LinkAt(center, ns, es, k)
    {
      if k < m {
        assert LinkAt(center, acc.nodes, acc.edges, k);
        var p :| EarlierOrCenter(center, acc.nodes, k, p) && Joins(acc.edges[k], acc.nodes[k].id, p);
        EarlierStays(center, acc.nodes, sub.nodes, k, p);
        assert es[k] == acc.edges[k] && ns[k] == acc.nodes[k];
      } else {
        var k' := k - m;
        assert es[k] == sub.edges[k'] && ns[k] == sub.nodes[k'];
        assert LinkAt(root, sub.nodes, sub.edges, k');
        var p :| EarlierOrCenter(root, sub.nodes, k', p) && Joins(sub.edges[k'], sub.nodes[k'].id, p);
        if p == root.id {
          assert ns[m - 1].id == p;
        } else {
          var j :| 0 <= j < k' && sub.nodes[j].id == p;
          assert ns[m + j].id == p;
        }
        assert EarlierOrCenter(center, ns, k, p);
      }
    }
  }

  /**
   * A sub-tree grown around the last node of `acc`, from where `acc`'s
   * counter stopped, joins `acc` into one grown sub-graph.
   */
  lemma GrownAppend(center: RealNode, n: nat, acc: Sub, sub: Sub)
    requires Grown(center, n, acc) && |acc.nodes| > 0
    requires Grown(acc.nodes[|acc.nodes| - 1], acc.n, sub)
    ensures Grown(center, n, Append(acc, sub))
  {
    GrownAppendIds(center, n, acc, sub);
    GrownAppendLinks(center, acc, sub);
  }

  /** Whatever the draws, the generated sub-graph is grown around the centre. */
  lemma {:induction false} GenerateGrown(center: RealNode, step: int, max: int, rand: nat -> real, t: nat, n: nat)
    requires step > 0
    ensures Grown(center, n, Generate(center, step, max, rand, t, n).value)
    decreases step, 1
  {
    GrownEmpty(center, n, t + 1);
    ChildrenGrown(center, step, max, rand, NeighborNum(rand(t), max), 0, Sub([], [], t + 1, n), n);
  }

  lemma {:induction false} ChildrenGrown(center: RealNode, step: int, max: int, rand: nat -> real, k: int, i: nat, acc: Sub, n: nat)
    requires step > 0 && Grown(center, n, acc)
    ensures Grown(center, n, Children(center, step, max, rand, k, i, acc))
    decreases step, 0, if i < k then k - i else 0
  {
    if i < k {
      NextChildGrown(center, step, max, rand, acc, n);
      ChildrenGrown(center, step, max, rand, k, i + 1, NextChild(center, step, max, rand, acc), n);
    }
  }

  lemma {:induction false} NextChildGrown(center: RealNode, step: int, max: int, rand: nat -> real, acc: Sub, n: nat)
    requires step > 0 && Grown(center, n, acc)
    ensures Grown(center, n, NextChild(center, step, max, rand, acc))
    decreases step, 0, 0
  {
    var node := NeighborNode(center, acc.n);
    var dire := rand(acc.t) > 0.5;
    var acc1 := Sub(acc.nodes + [node], acc.edges + [NeighborEdge(center.id, node.id, dire, acc.n + 1)], acc.t + 1, acc.n + 2);
    GrownChild(center, n, acc, dire, acc.t + 1);
    assert acc1.nodes[|acc1.nodes| - 1] == node;
    if step - 1 > 0 {
      GenerateGrown(node, step - 1, max, rand, acc1.t, acc1.n);
      GrownAppend(center, n, acc1, Generate(node, step - 1, max, rand, acc1.t, acc1.n).value);
    }
  }

  /**
   * The generated sub-graph is a tree hanging off the centre: as many edges
   * as nodes, each new node joined to the centre or to a node made before it,
   * every node in the centre's cluster with its colour set at level 0, every
   * label "source-target", and all node and edge ids pairwise distinct
   * fresh numbers from `n` up to the returned counter.
   */
  lemma GeneratedTree(center: RealNode, step: int, max: int, rand: nat -> real, t: nat, n: nat)
    requires step > 0
    ensures Generate(center, step, max, rand, t, n).Some?
    ensures var s := Generate(center, step, max, rand, t, n).value;
      && |s.edges| == |s.nodes| && s.n == n + 2 * |s.nodes|
      && (forall k :: 0 <= k < |s.nodes| ==>
            s.nodes[k].clusterId == center.clusterId && s.nodes[k].colorSet == center.colorSet && s.nodes[k].level == 0)
      && (forall k: nat :: k < |s.edges| ==> LinkAt(center, s.nodes, s.edges, k))
      && (forall k, l :: 0 <= k < l < |s.nodes| ==> s.nodes[k].id != s.nodes[l].id)
      && (forall k, l :: 0 <= k < l < |s.edges| ==> s.edges[k].id != s.edges[l].id)
      && (forall k, l :: 0 <= k < |s.nodes| && 0 <= l < |s.edges| ==> Some(s.nodes[k].id) != s.edges[l].id)
  {
    var s := Generate(center, step, max, rand, t, n).value;
    GenerateGrown(center, step, max, rand, t, n);
    forall k, l | 0 <= k < l < |s.nodes| ensures s.nodes[k].id != s.nodes[l].id {
      Ids.UniqueIdInjective(n + 2 * k, n + 2 * l);
    }
    forall k, l | 0 <= k < l < |s.edges| ensures s.edges[k].id != s.edges[l].id {
      Ids.UniqueIdInjective(n + 2 * k + 1, n + 2 * l + 1);
    }
    forall k, l | 0 <= k < |s.nodes| && 0 <= l < |s.edges| ensures Some(s.nodes[k].id) != s.edges[l].id {
      Ids.UniqueIdInjective(n + 2 * k, n + 2 * l + 1);
    }
  }

  /** No sub-graph (the source's `undefined`) for a non-positive step. */
  lemma NoStepNoNeighbors(center: RealNode, step: int, max: int, rand: nat -> real, t: nat, n: nat)
    requires step <= 0
    ensures Generate(center, step, max, rand, t, n).None?
  {
  }

  // ---------------------------------------------------------------------------
  // Merging the sub-graph (`getNeighborMixedGraph`)
  // ---------------------------------------------------------------------------

  /** The clusters after the centre's cluster `cid` absorbs the new nodes and edge count. */
  function GrowClusters(clusters: seq<Cluster>, cid: string, s: Sub): (r: seq<Cluster>)
    ensures |r| == |clusters|
  {
    seq(|clusters|, i requires 0 <= i < |clusters| =>
      if clusters[i].id == cid
      then clusters[i].(nodes := clusters[i].nodes + s.nodes, sumTot := clusters[i].sumTot + |s.edges|)
      else clusters[i])
  }

  /** The dataset edges shown as they are. */
  function DataEdges(es: seq<Edge>): (r: seq<Compositor.ViewEdge>)
    ensures |r| == |es| && forall k :: 0 <= k < |es| ==> r[k] == Compositor.DataEdge(es[k])
  {
    seq(|es|, k requires 0 <= k < |es| => Compositor.DataEdge(es[k]))
  }

  /** Everything `getNeighborMixedGraph` updates, and the two counters after it. */
  datatype Merged = Merged(origin: GraphData, nodeMap: map<string, RealNode>, clusters: seq<Cluster>,
                           aggregatedNodeMap: map<string, AggNode>,
                           nodes: seq<Compositor.ViewNode>, edges: seq<Compositor.ViewEdge>, t: nat, n: nat)

  /** The state after merging a generated sub-graph `s` around `center`. */
  function Merge(center: RealNode, s: Sub, origin: GraphData, nodeMap: map<string, RealNode>, clusters: seq<Cluster>,
                 aggregatedNodeMap: map<string, AggNode>, nodes: seq<Compositor.ViewNode>, edges: seq<Compositor.ViewEdge>): Merged
    requires center.clusterId in aggregatedNodeMap
  {
    var cid := center.clusterId;
    var a := aggregatedNodeMap[cid];
    Merged(GraphData(origin.nodes + s.nodes, origin.edges + s.edges),
           Aggregation.RegisterNodes(nodeMap, s.nodes),
           GrowClusters(clusters, cid, s),
           aggregatedNodeMap[cid := a.(count := a.count + |s.nodes|)],
           nodes + Compositor.Members(s.nodes), edges + DataEdges(s.edges), s.t, s.n)
  }

  /**
   * The member count of the centre's aggregate keeps matching the size of
   * its cluster, and the cluster's edge total grows by the number of new
   * edges; the other clusters are untouched.
   */
  lemma MergeKeepsCounts(center: RealNode, s: Sub, origin: GraphData, nodeMap: map<string, RealNode>, clusters: seq<Cluster>,
                         aggregatedNodeMap: map<string, AggNode>, nodes: seq<Compositor.ViewNode>, edges: seq<Compositor.ViewEdge>, i: nat)
    requires center.clusterId in aggregatedNodeMap && i < |clusters|
    ensures var m := Merge(center, s, origin, nodeMap, clusters, aggregatedNodeMap, nodes, edges);
      && (clusters[i].id == center.clusterId && aggregatedNodeMap[center.clusterId].count == |clusters[i].nodes| ==>
            m.aggregatedNodeMap[center.clusterId].count == |m.clusters[i].nodes|)
      && (clusters[i].id == center.clusterId ==> m.clusters[i].sumTot == clusters[i].sumTot + |s.edges|)
      && (clusters[i].id != center.clusterId ==> m.clusters[i] == clusters[i])
  {
  }

  /** Growing a cluster keeps the cluster ids. */
  lemma GrowClustersIds(clusters: seq<Cluster>, cid: string, s: Sub)
    ensures ClusterIds(GrowClusters(clusters, cid, s)) == ClusterIds(clusters)
  {
    var gs := GrowClusters(clusters, cid, s);
    forall x | x in ClusterIds(clusters) ensures x in ClusterIds(gs) {
      var c :| c in clusters && c.id == x;
      var i :| 0 <= i < |clusters| && clusters[i] == c;
      assert gs[i].id == x;
    }
    forall x | x in ClusterIds(gs) ensures x in ClusterIds(clusters) {
      var c :| c in gs && c.id == x;
      var i :| 0 <= i < |gs| && gs[i] == c;
      assert clusters[i].id == x;
    }
  }

  /** After growing, the members of a cluster still include every earlier member, and the centre's cluster the new nodes. */
  lemma GrowClustersMembers(clusters: seq<Cluster>, cid: string, s: Sub)
    ensures forall c, x :: x in Compositor.MemberIdsOf(clusters, c) ==> x in Compositor.MemberIdsOf(GrowClusters(clusters, cid, s), c)
    ensures cid in ClusterIds(clusters) ==>
      forall v :: v in s.nodes ==> v.id in Compositor.MemberIdsOf(GrowClusters(clusters, cid, s), cid)
  {
    var gs := GrowClusters(clusters, cid, s);
    forall c, x | x in Compositor.MemberIdsOf(clusters, c) ensures x in Compositor.MemberIdsOf(gs, c) {
      var cl, v :| cl in clusters && cl.id == c && v in cl.nodes && v.id == x;
      var i :| 0 <= i < |clusters| && clusters[i] == cl;
      assert v in gs[i].nodes && gs[i].id == c;
    }
    if cid in ClusterIds(clusters) {
      var cl :| cl in clusters && cl.id == cid;
      var i :| 0 <= i < |clusters| && clusters[i] == cl;
      forall v | v in s.nodes ensures v.id in Compositor.MemberIdsOf(gs, cid) {
        assert v in gs[i].nodes && gs[i].id == cid;
      }
    }
  }

  /**
   * Merging keeps the inputs consistent with each other: every node-map
   * entry is still a member of the cluster it names (the new nodes join the
   * centre's cluster), every cluster still has its aggregate, and every
   * cluster edge still joins two clusters.
   */
  lemma MergeKeepsConsistent(center: RealNode, s: Sub, origin: GraphData, nodeMap: map<string, RealNode>, cd: ClusterData,
                             aggregatedNodeMap: map<string, AggNode>, nodes: seq<Compositor.ViewNode>, edges: seq<Compositor.ViewEdge>)
    requires center.clusterId in aggregatedNodeMap && center.clusterId in ClusterIds(cd.clusters)
    requires Compositor.Consistent(cd, nodeMap, aggregatedNodeMap)
    requires forall v :: v in s.nodes ==> v.clusterId == center.clusterId
    ensures var m := Merge(center, s, origin, nodeMap, cd.clusters, aggregatedNodeMap, nodes, edges);
      Compositor.Consistent(ClusterData(m.clusters, cd.clusterEdges), m.nodeMap, m.aggregatedNodeMap)
  {
    var cs := cd.clusters;
    var cid := center.clusterId;
    var gs := GrowClusters(cs, cid, s);
    var nm := Aggregation.RegisterNodes(nodeMap, s.nodes);
    var a := aggregatedNodeMap[cid];
    var agg := aggregatedNodeMap[cid := a.(count := a.count + |s.nodes|)];
    GrowClustersIds(cs, cid, s);
    MergedAggregatesMatch(cs, cid, s, aggregatedNodeMap);
    var cd' := ClusterData(gs, cd.clusterEdges);
    forall x | x in nm
      ensures nm[x].clusterId in ClusterIds(cd'.clusters) && x in Compositor.MemberIdsOf(cd'.clusters, nm[x].clusterId)
    {
      MergedNodeMapEntry(cid, s, nodeMap, cs, x);
    }
    assert Compositor.Consistent(cd', nm, agg);
    assert Merge(center, s, origin, nodeMap, cs, aggregatedNodeMap, nodes, edges).clusters == gs;
    assert Merge(center, s, origin, nodeMap, cs, aggregatedNodeMap, nodes, edges).nodeMap == nm;
    assert Merge(center, s, origin, nodeMap, cs, aggregatedNodeMap, nodes, edges).aggregatedNodeMap == agg;
  }

  lemma MergedAggregatesMatch(cs: seq<Cluster>, cid: string, s: Sub, aggregatedNodeMap: map<string, AggNode>)
    requires cid in aggregatedNodeMap && Compositor.AggregatesMatch(cs, aggregatedNodeMap)
    ensures var a := aggregatedNodeMap[cid];
      Compositor.AggregatesMatch(GrowClusters(cs, cid, s), aggregatedNodeMap[cid := a.(count := a.count + |s.nodes|)])
  {
    var gs := GrowClusters(cs, cid, s);
    forall c | c in gs ensures c.id in aggregatedNodeMap && aggregatedNodeMap[c.id].id == c.id {
      var i :| 0 <= i < |gs| && gs[i] == c;
      assert cs[i] in cs;
    }
  }

  lemma MergedNodeMapEntry(cid: string, s: Sub, nodeMap: map<string, RealNode>, cs: seq<Cluster>, x: string)
    requires cid in ClusterIds(cs)
    requires forall v :: v in s.nodes ==> v.clusterId == cid
    requires forall y :: y in nodeMap ==> nodeMap[y].clusterId in ClusterIds(cs) && y in Compositor.MemberIdsOf(cs, nodeMap[y].clusterId)
    requires x in Aggregation.RegisterNodes(nodeMap, s.nodes)
    ensures var gs := GrowClusters(cs, cid, s);
      var v := Aggregation.RegisterNodes(nodeMap, s.nodes)[x];
      v.clusterId in ClusterIds(gs) && x in Compositor.MemberIdsOf(gs, v.clusterId)
  {
    var nm := Aggregation.RegisterNodes(nodeMap, s.nodes);
    GrowClustersIds(cs, cid, s);
    GrowClustersMembers(cs, cid, s);
    Aggregation.RegisteredNodes(nodeMap, s.nodes);
    if !(x in nodeMap && nm[x] == nodeMap[x]) {
      assert nm[x] in s.nodes;
    }
  }

  /** Every new edge joins two of: the centre and the new nodes. */
  lemma NewEdgeEndpoints(center: RealNode, n: nat, s: Sub)
    requires Grown(center, n, s)
    ensures forall e :: e in s.edges ==>
      (e.source == center.id || e.source in NodeIdsOf(s.nodes)) && (e.target == center.id || e.target in NodeIdsOf(s.nodes))
  {
    forall e | e in s.edges
      ensures (e.source == center.id || e.source in NodeIdsOf(s.nodes)) && (e.target == center.id || e.target in NodeIdsOf(s.nodes))
    {
      var k :| 0 <= k < |s.edges| && s.edges[k] == e;
      assert LinkAt(center, s.nodes, s.edges, k);
      var p :| EarlierOrCenter(center, s.nodes, k, p) && Joins(s.edges[k], s.nodes[k].id, p);
      assert s.nodes[k] in s.nodes;
      if p != center.id {
        var j :| 0 <= j < k && s.nodes[j].id == p;
        assert s.nodes[j] in s.nodes;
      }
    }
  }

  /** The ids of some nodes. */
  function NodeIdsOf(ns: seq<RealNode>): set<string>
  {
    set v | v in ns :: v.id
  }

  /**
   * With the centre in the node map, merging keeps every dataset edge
   * resolvable: both endpoints of each new edge are the centre or new nodes.
   */
  lemma MergeKeepsResolvable(center: RealNode, step: int, max: int, rand: nat -> real, t: nat, n: nat,
                             origin: GraphData, nodeMap: map<string, RealNode>, clusters: seq<Cluster>,
                             aggregatedNodeMap: map<string, AggNode>, nodes: seq<Compositor.ViewNode>, edges: seq<Compositor.ViewEdge>)
    requires step > 0 && center.clusterId in aggregatedNodeMap
    requires Compositor.Resolvable(origin.edges, nodeMap) && center.id in nodeMap
    ensures var m := Merge(center, Generate(center, step, max, rand, t, n).value, origin, nodeMap, clusters, aggregatedNodeMap, nodes, edges);
      Compositor.Resolvable(m.origin.edges, m.nodeMap)
  {
    var s := Generate(center, step, max, rand, t, n).value;
    GenerateGrown(center, step, max, rand, t, n);
    NewEdgeEndpoints(center, n, s);
    Aggregation.RegisteredNodes(nodeMap, s.nodes);
    var nm := Aggregation.RegisterNodes(nodeMap, s.nodes);
    assert nm.Keys == nodeMap.Keys + NodeIdsOf(s.nodes);
    forall e | e in origin.edges + s.edges ensures e.source in nm && e.target in nm {
      if e !in origin.edges {
        assert e in s.edges;
      }
    }
  }

  // ---------------------------------------------------------------------------
  // The operations
  // ---------------------------------------------------------------------------

  /** `generateNeighbors`, drawing from `rand` at `t` and numbering from `n`. */
  method GenerateNeighbors(center: RealNode, step: int, max: int, rand: nat -> real, t: nat, n: nat) returns (r: Option<Sub>)
    ensures r == Generate(center, step, max, rand, t, n)
    decreases step, 1
  {
    if step <= 0 {
      return None;
    }
    var neighborNum := NeighborNum(rand(t), max);
    var nodes: seq<RealNode>, edges: seq<Edge>, t': nat, n': nat := [], [], t + 1, n;
    var i: nat := 0;
    while i < neighborNum
      invariant Children(center, step, max, rand, neighborNum, 0, Sub([], [], t + 1, n))
             == Children(center, step, max, rand, neighborNum, i, Sub(nodes, edges, t', n'))
      decreases neighborNum - i
    {
      var acc := GrowChild(center, step, max, rand, Sub(nodes, edges, t', n'));
      nodes, edges, t', n' := acc.nodes, acc.edges, acc.t, acc.n;
      i := i + 1;
    }
    return Some(Sub(nodes, edges, t', n'));
  }

  /** One round of the loop: a new node, its edge in the drawn direction, and its own neighbours one step shallower. */
  method GrowChild(center: RealNode, step: int, max: int, rand: nat -> real, acc: Sub) returns (acc': Sub)
    requires step > 0
    ensures acc' == NextChild(center, step, max, rand, acc)
    decreases step, 0
  {
    var nodes, edges, t', n' := acc.nodes, acc.edges, acc.t, acc.n;
    var neighborNode := RealNode(Ids.UniqueId(n'), center.clusterId, 0, center.colorSet);
    nodes := nodes + [neighborNode];
    var dire := rand(t') > 0.5;
    var source := if dire then center.id else neighborNode.id;
    var target := if dire then neighborNode.id else center.id;
    var neighborEdge := Edge(Some(Ids.UniqueId(n' + 1)), source, target, source + "-" + target);
    edges := edges + [neighborEdge];
    t', n' := t' + 1, n' + 2;
    var subNeighbors := GenerateNeighbors(neighborNode, step - 1, max, rand, t', n');
    if subNeighbors.Some? {
      var sub := subNeighbors.value;
      nodes, edges, t', n' := nodes + sub.nodes, edges + sub.edges, sub.t, sub.n;
    }
    acc' := Sub(nodes, edges, t', n');
  }

  /** The `forEach` registering the new nodes in the node map. */
  method RegisterNeighbors(nodeMap: map<string, RealNode>, nodes: seq<RealNode>) returns (nodeMap': map<string, RealNode>)
    ensures nodeMap' == Aggregation.RegisterNodes(nodeMap, nodes)
  {
    nodeMap' := nodeMap;
    for k := 0 to |nodes|
      invariant nodeMap' == Aggregation.RegisterNodes(nodeMap, nodes[..k])
    {
      assert nodes[..k + 1][..k] == nodes[..k];
      nodeMap' := nodeMap'[nodes[k].id := nodes[k]];
    }
    assert nodes[..|nodes|] == nodes;
  }

  /** The `forEach` over clusters: the centre's cluster absorbs the new nodes and edge count. */
  method GrowCenterCluster(clusters: seq<Cluster>, clusterId: string, s: Sub) returns (clusters': seq<Cluster>)
    ensures clusters' == GrowClusters(clusters, clusterId, s)
  {
    clusters' := [];
    for i := 0 to |clusters|
      invariant |clusters'| == i
      invariant forall j :: 0 <= j < i ==> clusters'[j] == GrowClusters(clusters, clusterId, s)[j]
    {
      var cluster := clusters[i];
      if cluster.id == clusterId {
        cluster := cluster.(nodes := cluster.nodes + s.nodes, sumTot := cluster.sumTot + |s.edges|);
      }
      clusters' := clusters' + [cluster];
    }
  }

  /**
   * `getNeighborMixedGraph`: grow the sub-graph and merge it into the
   * dataset, the node map, the centre's cluster, its aggregate's count and
   * the current view. None for a non-positive step, where the source reads a
   * property of `undefined` before changing anything.
   */
  method GetNeighborMixedGraph(center: RealNode, step: int, origin: GraphData, clusters: seq<Cluster>,
                               nodes: seq<Compositor.ViewNode>, edges: seq<Compositor.ViewEdge>,
                               nodeMap: map<string, RealNode>, aggregatedNodeMap: map<string, AggNode>,
                               max: int, rand: nat -> real, t: nat, n: nat) returns (r: Option<Merged>)
    requires step > 0 ==> center.clusterId in aggregatedNodeMap
    ensures step <= 0 ==> r.None?
    ensures step > 0 ==> r == Some(Merge(center, Generate(center, step, max, rand, t, n).value, origin, nodeMap, clusters,
                                         aggregatedNodeMap, nodes, edges))
  {
    var neighborSubGraph := GenerateNeighbors(center, step, max, rand, t, n);
    if neighborSubGraph.None? {
      return None;
    }
    var s := neighborSubGraph.value;
    var origin' := GraphData(origin.nodes + s.nodes, origin.edges + s.edges);
    var nodeMap' := RegisterNeighbors(nodeMap, s.nodes);
    var clusterId := center.clusterId;
    var clusters' := GrowCenterCluster(clusters, clusterId, s);
    var a := aggregatedNodeMap[clusterId];
    var aggregatedNodeMap' := aggregatedNodeMap[clusterId := a.(count := a.count + |s.nodes|)];
    r := Some(Merged(origin', nodeMap', clusters', aggregatedNodeMap',
                     nodes + Compositor.Members(s.nodes), edges + DataEdges(s.edges), s.t, s.n));
  }
}
