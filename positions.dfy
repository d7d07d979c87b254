/**
 * The position cache kept across re-layouts: `cacheNodePositions` records
 * the place and level of every node on the canvas, and the layout's mass
 * function makes a cached node five times as heavy as a new one, so that
 * nodes already on screen move less.
 */
module Positions {
  import opened Wrappers

  /** The model of a node on the canvas, as far as the cache reads it. */
  datatype PlacedNode = PlacedNode(id: string, x: real, y: real, level: int)

  /** A cache entry. */
  datatype Position = Position(x: real, y: real, level: int)

  const CachedMass := 5
  const NewMass := 1

  function PositionOf(node: PlacedNode): Position
  {
    Position(node.x, node.y, node.level)
  }

  function IdsOf(nodes: seq<PlacedNode>): set<string>
  {
    set node | node in nodes :: node.id
  }

  /** The cache built from the nodes in order: a later node with the same id overwrites an earlier one. */
  function Cached(nodes: seq<PlacedNode>): map<string, Position>
  {
    if nodes == [] then map[]
    else Cached(nodes[..|nodes| - 1])[nodes[|nodes| - 1].id := PositionOf(nodes[|nodes| - 1])]
  }

  /**
   * `cacheNodePositions`: an empty cache when there is no graph yet,
   * otherwise one entry per node id holding the position of the node.
   */
  method CacheNodePositions(graph: Option<seq<PlacedNode>>) returns (positionMap: map<string, Position>)
    ensures graph.None? ==> positionMap == map[]
    ensures graph.Some? ==> positionMap == Cached(graph.value)
  {
    positionMap := map[];
    if graph.None? {
      return;
    }
    var nodes := graph.value;
    for i := 0 to |nodes|
      invariant positionMap == Cached(nodes[..i])
    {
      assert nodes[..i + 1][..i] == nodes[..i];
      var node := nodes[i];
      positionMap := positionMap[node.id := PositionOf(node)];
    }
    assert nodes[..|nodes|] == nodes;
  }

  /** The cache has exactly one key per node id. */
  lemma {:induction false} CachedKeys(nodes: seq<PlacedNode>)
    ensures Cached(nodes).Keys == IdsOf(nodes)
  {
    if nodes != [] {
      var init := nodes[..|nodes| - 1];
      CachedKeys(init);
      assert nodes == init + [nodes[|nodes| - 1]];
      assert IdsOf(nodes) == IdsOf(init) + {nodes[|nodes| - 1].id};
    }
  }

  /** The entry of an id is the position of the last node carrying it. */
  lemma {:induction false} CachedLast(nodes: seq<PlacedNode>, k: nat)
    requires k < |nodes|
    requires forall j :: k < j < |nodes| ==> nodes[j].id != nodes[k].id
    ensures nodes[k].id in Cached(nodes) && Cached(nodes)[nodes[k].id] == PositionOf(nodes[k])
  {
    var init := nodes[..|nodes| - 1];
    if k < |init| {
      assert init[k] == nodes[k];
      assert nodes[|nodes| - 1].id != nodes[k].id;
      CachedLast(init, k);
    }
  }

  /** When node ids are distinct every node finds its own position in the cache. */
  lemma CachedDistinct(nodes: seq<PlacedNode>, k: nat)
    requires forall i, j :: 0 <= i < j < |nodes| ==> nodes[i].id != nodes[j].id
    requires k < |nodes|
    ensures nodes[k].id in Cached(nodes) && Cached(nodes)[nodes[k].id] == PositionOf(nodes[k])
  {
    CachedLast(nodes, k);
  }

  /** `getMass`: five for a node with a cached position, one otherwise. */
  function Mass(cachePositions: map<string, Position>, id: string): (m: nat)
    ensures m == CachedMass <==> id in cachePositions
    ensures m == NewMass <==> id !in cachePositions
  {
    if id in cachePositions then CachedMass else NewMass
  }

  /**
   * After a re-layout, every node that was on the canvas weighs five and
   * every node that was not weighs one.
   */
  lemma MassAfterCaching(nodes: seq<PlacedNode>, id: string)
    ensures Mass(Cached(nodes), id) == (if exists node :: node in nodes && node.id == id then CachedMass else NewMass)
  {
    CachedKeys(nodes);
  }
}
