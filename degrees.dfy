/**
 * The degree counting and edge-id normalisation of `processNodesEdges`:
 * every shown node starts at degree 0; every edge gets an id in the "edge-"
 * namespace; an edge whose ends are both shown adds one to the degree of
 * each end, one to the out-degree of its source and one to the in-degree of
 * its target, while an edge with a missing end is left in the list but not
 * counted.
 */
module Degrees {
  import opened Wrappers
  import Ids
  import opened Compositor

  /** The three counters of a node. */
  datatype Degree = Degree(degree: nat, inDegree: nat, outDegree: nat)

  /** An edge of the view with the id it is shown under. */
  datatype ShownEdge = ShownEdge(id: string, edge: ViewEdge)

  /** The result of the counting pass, and the fresh-id counter after it. */
  datatype Processed = Processed(edges: seq<ShownEdge>, degrees: map<string, Degree>, n: nat)

  /** The id an edge of the view carries; cluster links carry none. */
  function IdOf(v: ViewEdge): Option<string>
  {
    match v
    case DataEdge(e) => e.id
    case VirtualEdge(e) => e.id
    case ClusterLink(_) => None
  }

  /** An edge is counted when both its ends are shown nodes. */
  predicate Counted(v: ViewEdge, ids: set<string>)
  {
    v.Source() in ids && v.Target() in ids
  }

  /** The number of counted edges leaving `x`. */
  function OutCount(es: seq<ViewEdge>, ids: set<string>, x: string): nat
  {
    if es == [] then 0
    else
      var e := es[|es| - 1];
      OutCount(es[..|es| - 1], ids, x) + (if Counted(e, ids) && e.Source() == x then 1 else 0)
  }

  /** The number of counted edges entering `x`. */
  function InCount(es: seq<ViewEdge>, ids: set<string>, x: string): nat
  {
    if es == [] then 0
    else
      var e := es[|es| - 1];
      InCount(es[..|es| - 1], ids, x) + (if Counted(e, ids) && e.Target() == x then 1 else 0)
  }

  /** The counters of node `x` after the pass: a self-loop counts twice towards the degree. */
  function DegreeOf(es: seq<ViewEdge>, ids: set<string>, x: string): Degree
  {
    Degree(OutCount(es, ids, x) + InCount(es, ids, x), InCount(es, ids, x), OutCount(es, ids, x))
  }

  /** The number of counted edges. */
  function CountedEdges(es: seq<ViewEdge>, ids: set<string>): nat
  {
    if es == [] then 0
    else CountedEdges(es[..|es| - 1], ids) + (if Counted(es[|es| - 1], ids) then 1 else 0)
  }

  /** The edges with their normalised ids, numbering fresh ids from `n`, and the counter after them. */
  function Normalized(es: seq<ViewEdge>, n: nat): (r: (seq<ShownEdge>, nat))
    ensures |r.0| == |es| && r.1 >= n
  {
    if es == [] then ([], n)
    else
      var p := Normalized(es[..|es| - 1], n);
      var e := es[|es| - 1];
      (p.0 + [ShownEdge(Ids.NormalizeEdgeId(IdOf(e), p.1), e)], if Ids.MissingId(IdOf(e)) then p.1 + 1 else p.1)
  }

  /** How many of the edges have no usable id. */
  function MissingCount(es: seq<ViewEdge>): nat
  {
    if es == [] then 0
    else MissingCount(es[..|es| - 1]) + (if Ids.MissingId(IdOf(es[|es| - 1])) then 1 else 0)
  }

  /** The result the pass computes for non-empty `nodes`. */
  function Process(nodes: seq<ViewNode>, edges: seq<ViewEdge>, n: nat): Processed
  {
    var ids := NodeIds(nodes);
    var p := Normalized(edges, n);
    Processed(p.0, map x | x in ids :: DegreeOf(edges, ids, x), p.1)
  }

  // ---------------------------------------------------------------------------
  // Properties
  // ---------------------------------------------------------------------------

  /** The edge at position `k` keeps its place and is shown under its id normalised with the counter it meets there. */
  lemma {:induction false} NormalizedAt(es: seq<ViewEdge>, n: nat, k: nat)
    requires k < |es|
    ensures Normalized(es, n).0[k] == ShownEdge(Ids.NormalizeEdgeId(IdOf(es[k]), n + MissingCount(es[..k])), es[k])
  {
    var init := es[..|es| - 1];
    if k < |init| {
      assert init[k] == es[k] && init[..k] == es[..k];
      NormalizedAt(init, n, k);
    } else {
      assert es[..k] == init;
      NormalizedCounter(init, n);
    }
  }

  /** One fresh number is drawn per edge without an id. */
  lemma {:induction false} NormalizedCounter(es: seq<ViewEdge>, n: nat)
    ensures Normalized(es, n).1 == n + MissingCount(es)
  {
    if es != [] {
      NormalizedCounter(es[..|es| - 1], n);
    }
  }

  /**
   * Every edge stays in the list, dangling or not, in order; each is shown
   * under an id whose first segment is "edge"; an edge whose id already has
   * that segment keeps it; and one fresh number is drawn per edge without an id.
   */
  lemma NormalizedEdges(es: seq<ViewEdge>, n: nat)
    ensures var r := Normalized(es, n);
      && (forall k :: 0 <= k < |es| ==> r.0[k].edge == es[k])
      && (forall k :: 0 <= k < |es| ==> Ids.Split(r.0[k].id)[0] == Ids.EdgePrefix)
      && (forall k :: 0 <= k < |es| && !Ids.MissingId(IdOf(es[k])) && Ids.Split(IdOf(es[k]).value)[0] == Ids.EdgePrefix ==>
            r.0[k].id == IdOf(es[k]).value)
      && r.1 == n + MissingCount(es)
  {
    forall k | 0 <= k < |es| {
      NormalizedEdgeAt(es, n, k);
    }
    NormalizedCounter(es, n);
  }

  lemma NormalizedEdgeAt(es: seq<ViewEdge>, n: nat, k: nat)
    requires k < |es|
    ensures var s := Normalized(es, n).0[k];
      && s.edge == es[k]
      && Ids.Split(s.id)[0] == Ids.EdgePrefix
      && (!Ids.MissingId(IdOf(es[k])) && Ids.Split(IdOf(es[k]).value)[0] == Ids.EdgePrefix ==> s.id == IdOf(es[k]).value)
  {
    NormalizedAt(es, n, k);
    var uid := n + MissingCount(es[..k]);
    Ids.NormalizeEdgeIdProperties(IdOf(es[k]), uid, 0);
  }

  /** A node that no counted edge touches keeps all three counters at 0. */
  lemma {:induction false} IsolatedNodeDegree(es: seq<ViewEdge>, ids: set<string>, x: string)
    requires forall e :: e in es && Counted(e, ids) ==> e.Source() != x && e.Target() != x
    ensures DegreeOf(es, ids, x) == Degree(0, 0, 0)
  {
    if es != [] {
      var init := es[..|es| - 1];
      assert forall e :: e in init ==> e in es;
      IsolatedNodeDegree(init, ids, x);
      assert es[|es| - 1] in es;
    }
  }

  /** A counted edge raises the degree of each of its ends. */
  lemma {:induction false} CountedEdgeRaisesDegree(es: seq<ViewEdge>, ids: set<string>, k: nat)
    requires k < |es| && Counted(es[k], ids)
    ensures OutCount(es, ids, es[k].Source()) >= 1 && InCount(es, ids, es[k].Target()) >= 1
  {
    if k < |es| - 1 {
      var init := es[..|es| - 1];
      assert init[k] == es[k];
      CountedEdgeRaisesDegree(init, ids, k);
    }
  }

  /** Sum of a per-node count over a list of node ids. */
  function SumOut(xs: seq<string>, es: seq<ViewEdge>, ids: set<string>): nat
  {
    if xs == [] then 0 else SumOut(xs[..|xs| - 1], es, ids) + OutCount(es, ids, xs[|xs| - 1])
  }

  function SumIn(xs: seq<string>, es: seq<ViewEdge>, ids: set<string>): nat
  {
    if xs == [] then 0 else SumIn(xs[..|xs| - 1], es, ids) + InCount(es, ids, xs[|xs| - 1])
  }

  /** How often `x` occurs in `xs`. */
  function Occurrences(xs: seq<string>, x: string): nat
  {
    if xs == [] then 0 else Occurrences(xs[..|xs| - 1], x) + (if xs[|xs| - 1] == x then 1 else 0)
  }

  lemma {:induction false} OccurrencesOfDistinct(xs: seq<string>, x: string)
    requires forall i, j :: 0 <= i < j < |xs| ==> xs[i] != xs[j]
    ensures Occurrences(xs, x) == (if x in xs then 1 else 0)
  {
    if xs != [] {
      var init := xs[..|xs| - 1];
      OccurrencesOfDistinct(init, x);
      assert xs == init + [xs[|xs| - 1]];
      if xs[|xs| - 1] == x {
        assert x !in init by {
          forall i | 0 <= i < |init| ensures init[i] != x {
            assert init[i] == xs[i];
          }
        }
      }
    }
  }

  /** Adding one edge adds, to the summed out-counts, one per listed occurrence of its source when it is counted. */
  lemma {:induction false} SumOutSnoc(xs: seq<string>, es: seq<ViewEdge>, e: ViewEdge, ids: set<string>)
    ensures SumOut(xs, es + [e], ids) == SumOut(xs, es, ids) + (if Counted(e, ids) then Occurrences(xs, e.Source()) else 0)
  {
    if xs != [] {
      SumOutSnoc(xs[..|xs| - 1], es, e, ids);
      assert (es + [e])[..|es|] == es;
    } else {
      assert (es + [e])[..|es|] == es;
    }
  }

  lemma {:induction false} SumInSnoc(xs: seq<string>, es: seq<ViewEdge>, e: ViewEdge, ids: set<string>)
    ensures SumIn(xs, es + [e], ids) == SumIn(xs, es, ids) + (if Counted(e, ids) then Occurrences(xs, e.Target()) else 0)
  {
    if xs != [] {
      SumInSnoc(xs[..|xs| - 1], es, e, ids);
      assert (es + [e])[..|es|] == es;
    } else {
      assert (es + [e])[..|es|] == es;
    }
  }

  /**
   * Summed over the shown nodes (listed once each), the out-counts and the
   * in-counts each equal the number of counted edges, so the degrees add up
   * to twice that number.
   */
  lemma {:induction false} DegreeSum(xs: seq<string>, es: seq<ViewEdge>)
    requires forall i, j :: 0 <= i < j < |xs| ==> xs[i] != xs[j]
    ensures SumOut(xs, es, set x | x in xs) == CountedEdges(es, set x | x in xs)
    ensures SumIn(xs, es, set x | x in xs) == CountedEdges(es, set x | x in xs)
    ensures SumOut(xs, es, set x | x in xs) + SumIn(xs, es, set x | x in xs) == 2 * CountedEdges(es, set x | x in xs)
  {
    var ids := set x | x in xs;
    if es == [] {
      ZeroSums(xs, ids);
    } else {
      var init, e := es[..|es| - 1], es[|es| - 1];
      assert es == init + [e];
      DegreeSum(xs, init);
      SumOutSnoc(xs, init, e, ids);
      SumInSnoc(xs, init, e, ids);
      OccurrencesOfDistinct(xs, e.Source());
      OccurrencesOfDistinct(xs, e.Target());
    }
  }

  lemma {:induction false} ZeroSums(xs: seq<string>, ids: set<string>)
    ensures SumOut(xs, [], ids) == 0 && SumIn(xs, [], ids) == 0
  {
    if xs != [] {
      ZeroSums(xs[..|xs| - 1], ids);
    }
  }

  // ---------------------------------------------------------------------------
  // The operation
  // ---------------------------------------------------------------------------

  /**
   * `processNodesEdges`, counting part: None (the source's `{}`) when there
   * are no nodes; otherwise the normalised edges, the counters of every
   * shown node, and the fresh-id counter.
   */
  method ProcessNodesEdges(nodes: seq<ViewNode>, edges: seq<ViewEdge>, n: nat) returns (r: Option<Processed>)
    ensures nodes == [] <==> r.None?
    ensures r.Some? ==> r.value == Process(nodes, edges, n)
  {
    if |nodes| == 0 {
      return None;
    }
    ghost var ids := NodeIds(nodes);
    var currentNodeMap: map<string, Degree> := map[];
    for i := 0 to |nodes|
      invariant currentNodeMap.Keys == NodeIds(nodes[..i])
      invariant forall x :: x in currentNodeMap ==> currentNodeMap[x] == Degree(0, 0, 0)
    {
      assert NodeIds(nodes[..i + 1]) == NodeIds(nodes[..i]) + {nodes[i].Id()} by {
        assert nodes[..i + 1] == nodes[..i] + [nodes[i]];
      }
      currentNodeMap := currentNodeMap[nodes[i].Id() := Degree(0, 0, 0)];
    }
    assert nodes[..|nodes|] == nodes;
    var shown, n' := CountEdges(edges, ids, currentNodeMap, n);
    r := Some(Processed(shown, n'.0, n'.1));
  }

  /** The `forEach` over edges: normalise each id and count the edges whose ends are shown. */
  method CountEdges(edges: seq<ViewEdge>, ghost ids: set<string>, start: map<string, Degree>, n: nat)
    returns (shown: seq<ShownEdge>, after: (map<string, Degree>, nat))
    requires start.Keys == ids && forall x :: x in start ==> start[x] == Degree(0, 0, 0)
    ensures shown == Normalized(edges, n).0 && after.1 == Normalized(edges, n).1
    ensures after.0 == map x | x in ids :: DegreeOf(edges, ids, x)
  {
    var currentNodeMap := start;
    var n' := n;
    shown := [];
    for k := 0 to |edges|
      invariant (shown, n') == Normalized(edges[..k], n)
      invariant currentNodeMap.Keys == ids
      invariant forall x :: x in ids ==> currentNodeMap[x] == DegreeOf(edges[..k], ids, x)
    {
      var edge := edges[k];
      assert edges[..k + 1] == edges[..k] + [edge];
      assert edges[..k + 1][..k] == edges[..k];
      var newId;
      newId, n' := NextEdgeId(IdOf(edge), n');
      shown := shown + [ShownEdge(newId, edge)];
      currentNodeMap := CountEdge(currentNodeMap, edge, edges[..k], ids);
    }
    assert edges[..|edges|] == edges;
    after := (currentNodeMap, n');
  }

  /** One edge id: a fresh "edge-<uid>" when missing, "edge-" in front when the first segment is not "edge". */
  method NextEdgeId(id: Option<string>, n: nat) returns (newId: string, n': nat)
    ensures newId == Ids.NormalizeEdgeId(id, n)
    ensures n' == if Ids.MissingId(id) then n + 1 else n
  {
    n' := n;
    if Ids.MissingId(id) {
      newId := Ids.FreshEdgeId(n');
      n' := n' + 1;
    } else if Ids.Split(id.value)[0] != Ids.EdgePrefix {
      newId := Ids.EdgePrefix + "-" + id.value;
    } else {
      newId := id.value;
    }
  }

  /** The counters after `es` and one more edge: both ends shown adds to the source's out-count and the target's in-count. */
  lemma DegreeOfSnoc(es: seq<ViewEdge>, e: ViewEdge, ids: set<string>, x: string)
    ensures var d, d' := DegreeOf(es, ids, x), DegreeOf(es + [e], ids, x);
      var o, i := (if Counted(e, ids) && e.Source() == x then 1 else 0), (if Counted(e, ids) && e.Target() == x then 1 else 0);
      d' == Degree(d.degree + o + i, d.inDegree + i, d.outDegree + o)
  {
    assert (es + [e])[..|es|] == es;
  }

  /** The counter update for one edge; a dangling edge changes nothing. */
  method CountEdge(currentNodeMap: map<string, Degree>, edge: ViewEdge, ghost es: seq<ViewEdge>, ghost ids: set<string>)
    returns (m: map<string, Degree>)
    requires currentNodeMap.Keys == ids
    requires forall x :: x in ids ==> currentNodeMap[x] == DegreeOf(es, ids, x)
    ensures m.Keys == ids
    ensures forall x :: x in ids ==> m[x] == DegreeOf(es + [edge], ids, x)
  {
    m := currentNodeMap;
    if edge.Source() in m && edge.Target() in m {
      var sourceNode := m[edge.Source()];
      m := m[edge.Source() := sourceNode.(degree := sourceNode.degree + 1, outDegree := sourceNode.outDegree + 1)];
      var targetNode := m[edge.Target()];
      m := m[edge.Target() := targetNode.(degree := targetNode.degree + 1, inDegree := targetNode.inDegree + 1)];
    }
    forall x | x in ids ensures m[x] == DegreeOf(es + [edge], ids, x) {
      DegreeOfSnoc(es, edge, ids, x);
    }
  }
}
