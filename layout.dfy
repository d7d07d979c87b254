/**
 * The force-layout configuration (`getForceLayoutConfig`): the four base
 * values with their defaults, and the per-edge and per-node functions that
 * scale them by whether the endpoints are aggregated nodes and whether a
 * node is isolated.
 */
module Layout {
  import opened Wrappers
  import opened Graph

  const DefaultLinkDistance: real := 225.0
  const DefaultEdgeStrength: real := 50.0
  const DefaultNodeStrength: real := 200.0
  const DefaultNodeSpacing: real := 5.0
  /** The node size used when neither the settings nor the node give one. */
  const DefaultNodeSize: real := 50.0
  /** The strength of a node without edges, which pulls isolated nodes together. */
  const IsolatedStrength: real := -10.0

  /** The numeric settings a caller may pass; None is `undefined`. */
  datatype Settings = Settings(linkDistance: Option<real>, edgeStrength: Option<real>, nodeStrength: Option<real>,
                               nodeSpacing: Option<real>, nodeSize: Option<real>, preventOverlap: Option<bool>)

  /** The base values in force after defaults are applied. */
  datatype Config = Config(linkDistance: real, edgeStrength: real, nodeStrength: real, nodeSpacing: real,
                           nodeSize: Option<real>, preventOverlap: bool)

  /** A setting left unset takes the default; an explicit value, 0 included, is kept. */
  function OrDefault(v: Option<real>, default: real): real
  {
    match v
    case None => default
    case Some(x) => x
  }

  /** A number is truthy unless it is 0. */
  predicate Truthy(x: real)
  {
    x != 0.0
  }

  /**
   * The base values: no settings at all means "prevent overlap" and every
   * default; otherwise each unset numeric setting takes its default.
   */
  function BaseConfig(settings: Option<Settings>): Config
  {
    match settings
    case None => Config(DefaultLinkDistance, DefaultEdgeStrength, DefaultNodeStrength, DefaultNodeSpacing, None, true)
    case Some(s) =>
      Config(OrDefault(s.linkDistance, DefaultLinkDistance), OrDefault(s.edgeStrength, DefaultEdgeStrength),
             OrDefault(s.nodeStrength, DefaultNodeStrength), OrDefault(s.nodeSpacing, DefaultNodeSpacing),
             s.nodeSize, s.preventOverlap == Some(true))
  }

  /** Defaults fill exactly the unset values, and 0 is a value, not a gap. */
  lemma BaseConfigDefaults(s: Settings)
    ensures s.linkDistance.None? ==> BaseConfig(Some(s)).linkDistance == 225.0
    ensures s.edgeStrength.None? ==> BaseConfig(Some(s)).edgeStrength == 50.0
    ensures s.nodeStrength.None? ==> BaseConfig(Some(s)).nodeStrength == 200.0
    ensures s.nodeSpacing.None? ==> BaseConfig(Some(s)).nodeSpacing == 5.0
    ensures s.linkDistance == Some(0.0) ==> BaseConfig(Some(s)).linkDistance == 0.0
    ensures s.linkDistance.Some? ==> BaseConfig(Some(s)).linkDistance == s.linkDistance.value
    ensures s.edgeStrength.Some? ==> BaseConfig(Some(s)).edgeStrength == s.edgeStrength.value
    ensures s.nodeStrength.Some? ==> BaseConfig(Some(s)).nodeStrength == s.nodeStrength.value
    ensures s.nodeSpacing.Some? ==> BaseConfig(Some(s)).nodeSpacing == s.nodeSpacing.value
  {
  }

  /**
   * The level of the node an edge end names: the real node if the node map
   * has it, else the aggregated node; None when neither has it (the source
   * then reads `level` of `undefined`).
   */
  function LevelOf(id: string, nodeMap: map<string, RealNode>, aggregatedNodeMap: map<string, AggNode>): (r: Option<int>)
    ensures r.Some? <==> id in nodeMap || id in aggregatedNodeMap
    ensures id in nodeMap ==> r == Some(nodeMap[id].level)
  {
    if id in nodeMap then Some(nodeMap[id].level)
    else if id in aggregatedNodeMap then Some(aggregatedNodeMap[id].level)
    else None
  }

  /** The ideal length of an edge whose ends have levels `s` and `t`. */
  function LinkDistance(base: real, s: int, t: int): real
  {
    var dist := if s != 0 && t != 0 then base * 3.0 else if s != 0 || t != 0 then base * 1.5 else base;
    if s == 0 && t == 0 then base * 0.3 else dist
  }

  /** The attraction along an edge whose ends have levels `s` and `t`. */
  function EdgeStrength(base: real, s: int, t: int): real
  {
    if s != 0 && t != 0 then base / 2.0
    else base
  }

  /** The repulsion of a node of the given degree and level. */
  function NodeStrength(base: real, degree: nat, level: int): real
  {
    if degree == 0 then IsolatedStrength
    else if level != 0 then base * 2.0
    else base
  }

  /** The collision size of a node: the configured size, else the node's own, else 50. */
  function NodeSize(configured: Option<real>, size: Option<real>): real
  {
    if configured.Some? && Truthy(configured.value) then configured.value
    else if size.Some? && Truthy(size.value) then size.value
    else DefaultNodeSize
  }

  /** The spacing kept around a node of the given degree. */
  function NodeSpacing(base: real, degree: nat, level: int): real
  {
    if degree == 0 then base * 2.0
    else base
  }

  /**
   * The link distance for a dataset edge, looked up through the two maps;
   * None when an end is in neither.
   */
  function EdgeLinkDistance(c: Config, e: Edge, nodeMap: map<string, RealNode>, aggregatedNodeMap: map<string, AggNode>): Option<real>
  {
    var s := LevelOf(e.source, nodeMap, aggregatedNodeMap);
    var t := LevelOf(e.target, nodeMap, aggregatedNodeMap);
    if s.Some? && t.Some? then Some(LinkDistance(c.linkDistance, s.value, t.value)) else None
  }

  /** The edge strength for a dataset edge, looked up through the two maps. */
  function EdgeEdgeStrength(c: Config, e: Edge, nodeMap: map<string, RealNode>, aggregatedNodeMap: map<string, AggNode>): Option<real>
  {
    var s := LevelOf(e.source, nodeMap, aggregatedNodeMap);
    var t := LevelOf(e.target, nodeMap, aggregatedNodeMap);
    if s.Some? && t.Some? then Some(EdgeStrength(c.edgeStrength, s.value, t.value)) else None
  }

  // ---------------------------------------------------------------------------
  // Properties
  // ---------------------------------------------------------------------------

  /**
   * The link distance is three times the base between two aggregated nodes,
   * one and a half times between an aggregated and a real node, and 0.3 times
   * between two real nodes; it does not depend on the edge's direction; and
   * for a positive base the three cases are strictly ordered.
   */
  lemma LinkDistanceCases(base: real, s: int, t: int)
    ensures s != 0 && t != 0 ==> LinkDistance(base, s, t) == 3.0 * base
    ensures (s != 0) != (t != 0) ==> LinkDistance(base, s, t) == 1.5 * base
    ensures s == 0 && t == 0 ==> LinkDistance(base, s, t) == 0.3 * base
    ensures LinkDistance(base, s, t) == LinkDistance(base, t, s)
    ensures base > 0.0 ==> LinkDistance(base, 0, 0) < LinkDistance(base, 1, 0) < LinkDistance(base, 1, 1)
  {
  }

  /**
   * Attraction is weak between two aggregated nodes and strong wherever a real
   * node is involved: for a positive base, one edge pulls less than another
   * exactly when the first joins two aggregated nodes and the second has a
   * real end. Every strength is positive, at most the base, and the same in
   * both directions; two aggregated ends get half the base.
   */
  lemma EdgeStrengthOrder(base: real, s: int, t: int, s2: int, t2: int)
    requires base > 0.0
    ensures EdgeStrength(base, s, t) < EdgeStrength(base, s2, t2) <==> (s != 0 && t != 0) && (s2 == 0 || t2 == 0)
    ensures 0.0 < EdgeStrength(base, s, t) <= base
    ensures EdgeStrength(base, s, t) == EdgeStrength(base, t, s)
    ensures s != 0 && t != 0 ==> EdgeStrength(base, s, t) == base / 2.0
    ensures s == 0 || t == 0 ==> EdgeStrength(base, s, t) == base
  {
  }

  /** An end of an edge that names an aggregated node only. */
  predicate AggregatedEnd(id: string, nodeMap: map<string, RealNode>, aggregatedNodeMap: map<string, AggNode>)
  {
    id !in nodeMap && id in aggregatedNodeMap && aggregatedNodeMap[id].level != 0
  }

  /** An end of an edge that names a real node of level 0. */
  predicate RealEnd(id: string, nodeMap: map<string, RealNode>)
  {
    id in nodeMap && nodeMap[id].level == 0
  }

  /** An end of an edge that names a node of either map. */
  predicate KnownEnd(id: string, nodeMap: map<string, RealNode>, aggregatedNodeMap: map<string, AggNode>)
  {
    id in nodeMap || id in aggregatedNodeMap
  }

  /**
   * Looked up through the two maps, an edge between two aggregated nodes
   * pulls strictly less than any edge with a real end, for a positive base.
   */
  lemma AggregatedEdgesPullLess(c: Config, agg: Edge, mixed: Edge, nodeMap: map<string, RealNode>, aggregatedNodeMap: map<string, AggNode>)
    requires c.edgeStrength > 0.0
    requires AggregatedEnd(agg.source, nodeMap, aggregatedNodeMap) && AggregatedEnd(agg.target, nodeMap, aggregatedNodeMap)
    requires (RealEnd(mixed.source, nodeMap) && KnownEnd(mixed.target, nodeMap, aggregatedNodeMap))
          || (KnownEnd(mixed.source, nodeMap, aggregatedNodeMap) && RealEnd(mixed.target, nodeMap))
    ensures EdgeEdgeStrength(c, agg, nodeMap, aggregatedNodeMap).Some?
    ensures EdgeEdgeStrength(c, mixed, nodeMap, aggregatedNodeMap).Some?
    ensures EdgeEdgeStrength(c, agg, nodeMap, aggregatedNodeMap).value < EdgeEdgeStrength(c, mixed, nodeMap, aggregatedNodeMap).value
  {
    var s := LevelOf(mixed.source, nodeMap, aggregatedNodeMap).value;
    var t := LevelOf(mixed.target, nodeMap, aggregatedNodeMap).value;
    EdgeStrengthOrder(c.edgeStrength, aggregatedNodeMap[agg.source].level, aggregatedNodeMap[agg.target].level, s, t);
  }

  /**
   * For a positive base, a node attracts (negative strength, -10) exactly when
   * it is isolated and repels otherwise; a connected aggregated node repels
   * twice as hard as a connected real node.
   */
  lemma NodeStrengthOrder(base: real, degree: nat, level: int)
    requires base > 0.0
    ensures NodeStrength(base, degree, level) < 0.0 <==> degree == 0
    ensures degree == 0 ==> NodeStrength(base, degree, level) == IsolatedStrength
    ensures degree > 0 && level != 0 ==> NodeStrength(base, degree, level) == 2.0 * NodeStrength(base, degree, 0)
    ensures degree > 0 && level != 0 ==> NodeStrength(base, degree, level) > NodeStrength(base, degree, 0)
    ensures degree > 0 && level == 0 ==> NodeStrength(base, degree, level) == base
  {
  }

  /**
   * For a positive base, a node keeps more spacing than the base exactly when
   * it is isolated (twice the base); the level plays no part.
   */
  lemma NodeSpacingOrder(base: real, degree: nat, level: int, level2: int)
    requires base > 0.0
    ensures NodeSpacing(base, degree, level) > base <==> degree == 0
    ensures degree == 0 ==> NodeSpacing(base, degree, level) == 2.0 * base
    ensures degree > 0 ==> NodeSpacing(base, degree, level) == base
    ensures NodeSpacing(base, degree, level) == NodeSpacing(base, degree, level2)
  {
  }

  /** A configured size wins; otherwise a node's non-zero size; otherwise 50. The result is never 0. */
  lemma NodeSizeChoice(configured: Option<real>, size: Option<real>)
    ensures configured.Some? && configured.value != 0.0 ==> NodeSize(configured, size) == configured.value
    ensures (configured.None? || configured.value == 0.0) && size.Some? && size.value != 0.0 ==> NodeSize(configured, size) == size.value
    ensures NodeSize(configured, size) != 0.0
  {
  }

  /**
   * An edge whose ends are both real nodes of the node map is scaled by the
   * real nodes' levels, even when an aggregated node shares an id with one of
   * them.
   */
  lemma NodeMapTakesPrecedence(c: Config, e: Edge, nodeMap: map<string, RealNode>, aggregatedNodeMap: map<string, AggNode>)
    requires e.source in nodeMap && e.target in nodeMap
    ensures EdgeLinkDistance(c, e, nodeMap, aggregatedNodeMap)
         == Some(LinkDistance(c.linkDistance, nodeMap[e.source].level, nodeMap[e.target].level))
  {
  }

  /** The per-edge functions are defined exactly when both ends are in one of the maps. */
  lemma EdgeFunctionsDefined(c: Config, e: Edge, nodeMap: map<string, RealNode>, aggregatedNodeMap: map<string, AggNode>)
    ensures EdgeLinkDistance(c, e, nodeMap, aggregatedNodeMap).Some? <==>
      (e.source in nodeMap || e.source in aggregatedNodeMap) && (e.target in nodeMap || e.target in aggregatedNodeMap)
    ensures EdgeEdgeStrength(c, e, nodeMap, aggregatedNodeMap).Some? <==> EdgeLinkDistance(c, e, nodeMap, aggregatedNodeMap).Some?
  {
  }
}
