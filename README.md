# Large-Graph mixed-view engine, modelled in Dafny

Large-Graph shows a graph too large to draw in full as a *mixed view*. Some
communities (clusters) are collapsed into one aggregated node each, while
others are expanded into their real member nodes. This project models the
engine behind that view, as found in `packages/largegraph/components/test.tsx`,
together with the colour validator of the example page:

- **Aggregation** (`getAggregatedData`): every cluster member gets level 0 and
  the cluster's colour set and is registered in the node map. Each cluster
  becomes one aggregated node of level 1. Each cluster edge becomes an
  aggregated edge with a fresh `edge-<uid>` id, drawn as a loop (distance 20)
  when both ends are the same cluster.
- **Mixed-view composition** (`getMixedGraph`): an expanded cluster shows its
  members, a collapsed one its aggregated node, and the `expanded` flag is
  written back. A dataset edge is kept when both ends are expanded. It is
  re-attached to the collapsed cluster with a fresh id when one end is
  expanded, and dropped when neither is. A cluster edge is kept only when
  neither end is expanded.
- **Expansion tracking** (`examAncestors`, `manageExpandCollapseArray`, and the
  `expand`, `collapse` and `collapseAll` menu cases): an ordered expand list
  and collapse list. Over the budget of 20 nodes, the first record that is not
  an ancestor of the expanded node is evicted. A level-2 record gives way to
  its first level-1 child. A collapse record with the truncated id is pushed.
- **Neighbour synthesis** (`generateNeighbors`, `getNeighborMixedGraph`): a
  random tree of new nodes around a centre, merged into the dataset, the node
  map, the centre's cluster and the current view.
- **Degree counting and edge-id normalisation** (`processNodesEdges`), **layout
  rules** (`getForceLayoutConfig`, `getMass`), the **position cache**
  (`cacheNodePositions`), **label shortening** (`formatText`,
  `labelFormatter`), the **descending comparator** (`descendCompare`), and the
  **hex colour check** (`checkValidColorCode`, `onBorderColorChange` in
  `packages/example/pages/LargeGraphTestPage.tsx`).

`Math.random` is a parameter `rand: nat -> real` read at a counter `t`.
`uniqueId` is a counter `n` whose `n`-th id is `n` written in decimal. Each
operation that draws ids returns the next counter.

Behaviours of the code that a reader might not expect, which the model keeps:

- The `collapse` menu case (test.tsx:730-740) pushes the aggregated node onto
  the collapse list unconditionally, so collapsing a cluster twice pushes a
  second record (`Expansion.CollapseTwice`); only the expand list is unchanged.
- `processNodesEdges` skips an edge with a missing end only when counting
  degrees (the early `return` at test.tsx:1148-1151); the edge stays in the
  returned list (`Degrees.NormalizedEdges`).
- The neighbour count `Math.ceil(Math.random() * max)` (test.tsx:424) is 0
  when the draw is 0 (`Neighbors.NeighborNumBounds`).
- The node budget (test.tsx:467) is checked against the node count before the
  expansion, so the view can exceed 20 nodes afterwards.
- `getMixedGraph` builds a map of the collapse list (test.tsx:331-333) that
  nothing reads.

## Model

| member | source | states |
|---|---|---|
| Ids.Split | packages/largegraph/components/test.tsx:503 | the segments of `id.split('-')`: at least one, none containing '-' |
| Ids.JoinSplit | packages/largegraph/components/test.tsx:503 | joining the segments with '-' gives the id back |
| Ids.CollapseIdRoundTrip | packages/largegraph/components/test.tsx:503-510 | corrected truncation: no id when the id has no '-'; otherwise the truncated id, '-' and the last segment give the id back |
| Ids.CollapseIdAsWrittenAgrees | packages/largegraph/components/test.tsx:506-510 | the truncation as written agrees with the corrected one unless the id starts with '-' |
| Ids.CollapseIdAsWrittenLosesLeadingSegment | packages/largegraph/components/test.tsx:506-510 | as written, "-a-b" truncates to "a" instead of "-a", and "a-b" is not the evicted id |
| Ids.DecimalInjective | packages/largegraph/components/test.tsx:354 | distinct counters give distinct decimal ids |
| Ids.UniqueIdInjective | packages/largegraph/components/test.tsx:354 | the fresh-id oracle never repeats an id |
| Ids.FreshEdgeIdPrefix | packages/largegraph/components/test.tsx:354 | a fresh edge id `edge-<uid>` has "edge" as its first segment |
| Ids.FreshEdgeIdInjective | packages/largegraph/components/test.tsx:354 | fresh edge ids from distinct counters differ |
| Ids.NormalizeEdgeIdProperties | packages/largegraph/components/test.tsx:1145-1146 | a normalised edge id starts with "edge"; normalising again changes nothing; only a missing id depends on the counter; an id already starting with "edge" is kept |
| Expansion.FirstMatchFrom | packages/largegraph/components/test.tsx:453-455 | the index found is the first untagged record at or after `i` whose id is the parent, and None means there is none |
| Expansion.ExamAncestors | packages/largegraph/components/test.tsx:452-461 | the tags after the walk are `AncestorTags` of the old tags; the walk terminates because each call tags one more record |
| Expansion.AncestorTagsStep | packages/largegraph/components/test.tsx:455-457 | tagging the first match leaves one untagged record fewer, and the walk continues from that record's parent |
| Expansion.AncestorTagsMonotone | packages/largegraph/components/test.tsx:456 | a tag once set is never cleared |
| Expansion.ParentTagged | packages/largegraph/components/test.tsx:455-457 | after the walk, the record named by the parent id carries a tag |
| Expansion.WalkTagsClosed | packages/largegraph/components/test.tsx:455-457 | the parent of every record the walk tags is tagged too, when it is in the list |
| Expansion.WalkTagsAncestors | packages/largegraph/components/test.tsx:452-461 | every record the walk tags is an ancestor of the expanded node, some number of `parentId` hops up |
| Expansion.AncestorsTagged | packages/largegraph/components/test.tsx:452-461 | with distinct ids, every ancestor of the expanded node is tagged |
| Expansion.ProtectedAreAncestors | packages/largegraph/components/test.tsx:469-472 | with distinct ids, a record is protected if and only if it is an ancestor of the expanded node |
| Expansion.FirstUntagged | packages/largegraph/components/test.tsx:474-480 | the index found is the first untagged one; None means every record is tagged |
| Expansion.FirstUnprotected | packages/largegraph/components/test.tsx:474-480 | the loop returns the first untagged index, or -1 |
| Expansion.FirstLevel1Child | packages/largegraph/components/test.tsx:487-489 | the index found is the first level-1 record whose parent is the given id; None means there is none |
| Expansion.FindLevel1Child | packages/largegraph/components/test.tsx:485-495 | the loop returns that first level-1 child, or -1 |
| Expansion.CollapseNodeId | packages/largegraph/components/test.tsx:503-510 | the truncation loop, with its truthiness test, computes the collapse id as written; it is the corrected one (every segment but the last, joined by '-') whenever the id does not start with '-' |
| Expansion.RemoveAt | packages/largegraph/components/test.tsx:492 | `splice(i, 1)`: one element fewer; the others keep their order |
| Expansion.EvictedIndex | packages/largegraph/components/test.tsx:483-501 | the evicted index is inside the list |
| Expansion.ExpandWithinBudget | packages/largegraph/components/test.tsx:467-527 | at most 20 nodes: the collapse list is unchanged and the model's record is appended to the expand list |
| Expansion.ExpandAllProtected | packages/largegraph/components/test.tsx:482-527 | every record protected: nothing is evicted and only the model's record is appended |
| Expansion.ExpandEvicts | packages/largegraph/components/test.tsx:482-517 | over budget with an unprotected record: exactly one record is removed (the others keep their order), the model is appended, and one collapse record is pushed, pointing at the evicted record one level up; it has no id exactly when the evicted id has no '-', and when the evicted id does not start with '-' its id, '-' and the last segment give the evicted id back |
| Expansion.EvictionDropsLeadingSegment | packages/largegraph/components/test.tsx:503-516 | evicting a record with id "-a-b" pushes a collapse record with id "a", not the intended "-a" |
| Expansion.EvictionChoice | packages/largegraph/components/test.tsx:483-501 | a level-2 record gives way to its first level-1 child; any other record, or a level-2 record without such a child, is itself removed |
| Expansion.EvictionSparesAncestors | packages/largegraph/components/test.tsx:469-501 | with distinct ids the evicted record is not an ancestor of the expanded node, and every ancestor survives |
| Expansion.ExpandKeepsDistinctIds | packages/largegraph/components/test.tsx:463-527 | expanding a node with a new id keeps the expand ids distinct and records that id |
| Expansion.FirstWithId | packages/largegraph/components/test.tsx:735-736 | the index found is the first record with the id; None if and only if the id is not expanded |
| Expansion.IndexOfExpanded | packages/largegraph/components/test.tsx:735-740 | the loop returns the first record with the cluster id, or -1 |
| Expansion.CollapseRemovesCluster | packages/largegraph/components/test.tsx:730-740 | collapsing removes the cluster id from the expanded ids, keeps them distinct, and pushes the aggregated node's record |
| Expansion.RemoveAtIds | packages/largegraph/components/test.tsx:737 | with distinct ids, removing a record removes exactly its id |
| Expansion.CollapseTwice | packages/largegraph/components/test.tsx:730-740 | a second collapse leaves the expand list alone but pushes another collapse record |
| Expansion.ExpandThenCollapse | packages/largegraph/components/test.tsx:735-740 | within budget, expanding a new node and then collapsing it restores the expand list |
| Expansion.ExpansionTracker.constructor | packages/largegraph/components/test.tsx:757-758 | both lists start empty |
| Expansion.ExpansionTracker.Expand | packages/largegraph/components/test.tsx:463-531 | the new lists are `ExpandStep` of the old ones |
| Expansion.ExpansionTracker.Collapse | packages/largegraph/components/test.tsx:730-740 | the new lists are `CollapseStep` of the old ones, with the aggregated node of the model's cluster |
| Expansion.ExpansionTracker.CollapseAll | packages/largegraph/components/test.tsx:756-758 | both lists become empty |
| Compositor.BuildExpandMap | packages/largegraph/components/test.tsx:328-330 | the keys of `expandMap` are exactly the expanded ids |
| Compositor.PushCluster | packages/largegraph/components/test.tsx:336-342 | an expanded cluster contributes its members, a collapsed one its aggregated node; the flag is set to whether it is expanded |
| Compositor.PushClusterNodes | packages/largegraph/components/test.tsx:335-343 | the nodes are the clusters' contributions in order, and every cluster's flag is set |
| Compositor.PushDataEdges | packages/largegraph/components/test.tsx:344-368 | the edges and the next fresh id are the projection of the dataset edges |
| Compositor.PushClusterEdges | packages/largegraph/components/test.tsx:369-372 | the cluster edges kept are those with neither end expanded, in order |
| Compositor.GetMixedGraph | packages/largegraph/components/test.tsx:315-374 | nodes, edges, flags and the next fresh id are those of the composition of the expanded ids |
| Compositor.ComposeNodesContents | packages/largegraph/components/test.tsx:335-343 | a node is in the view if and only if one cluster contributes it |
| Compositor.ComposedNodesKinds | packages/largegraph/components/test.tsx:336-342 | every aggregated node shown is a collapsed cluster flagged not expanded; every real node shown is a member of an expanded cluster |
| Compositor.ComposedNodeIds | packages/largegraph/components/test.tsx:335-343 | the view's node ids are the members of expanded clusters plus the ids of collapsed clusters |
| Compositor.ProjectedEdgeOutcomes | packages/largegraph/components/test.tsx:344-368 | a dataset edge is kept if and only if both ends are expanded; every virtual edge comes from a half-expanded edge re-attached to the collapsed cluster; one fresh id per half-expanded edge |
| Compositor.KeptClusterEdges | packages/largegraph/components/test.tsx:369-372 | a cluster edge is kept if and only if neither end is expanded |
| Compositor.NoDanglingEdges | packages/largegraph/components/test.tsx:315-374 | with consistent maps, both ends of every edge of the view are nodes of the view |
| Aggregation.TaggedClustersProperties | packages/largegraph/components/test.tsx:896-903 | preparing members keeps cluster and member ids; every member of cluster `i` gets level 0 and colour set `i` |
| Aggregation.RegisteredNodes | packages/largegraph/components/test.tsx:902 | registering nodes adds exactly their ids; every entry is old or a registered node with that id |
| Aggregation.RegisteredClusterKeys | packages/largegraph/components/test.tsx:896-903 | the node map gains exactly the member ids |
| Aggregation.RegisteredClusterValues | packages/largegraph/components/test.tsx:896-903 | every node-map entry is old or a member of some cluster with that id |
| Aggregation.RegisteredAggregateKeys | packages/largegraph/components/test.tsx:913 | the aggregated-node map gains exactly the cluster ids |
| Aggregation.RegisteredAggregatesMatch | packages/largegraph/components/test.tsx:904-913 | every cluster's aggregated node carries the cluster's id and its member count |
| Aggregation.RegisteredAggregateValues | packages/largegraph/components/test.tsx:904-913 | with distinct cluster ids, cluster `i` maps to its aggregated node of level 1 with index and colour set `i` |
| Aggregation.AggregatedEdgeShapes | packages/largegraph/components/test.tsx:917-936 | each aggregated edge keeps its cluster edge's ends and count, is a loop if and only if its ends agree, and has an "edge" id |
| Aggregation.AggregatedEdgeIdsDistinct | packages/largegraph/components/test.tsx:919 | the aggregated edges have distinct ids |
| Aggregation.AggregationConsistent | packages/largegraph/components/test.tsx:893-939 | from empty maps, aggregation yields maps consistent with the clusters, as the composition needs |
| Aggregation.PrepareMembers | packages/largegraph/components/test.tsx:897-903 | the inner loop prepares each member and registers it |
| Aggregation.AggregateClusters | packages/largegraph/components/test.tsx:896-915 | the cluster loop yields the prepared clusters, both maps and the aggregated nodes |
| Aggregation.AggregateClusterEdges | packages/largegraph/components/test.tsx:917-937 | the edge loop yields one aggregated edge per cluster edge and draws one fresh id each |
| Aggregation.GetAggregatedData | packages/largegraph/components/test.tsx:893-939 | the whole aggregation step |
| Neighbors.Ceil | packages/largegraph/components/test.tsx:424 | `Math.ceil`: the least integer not below `x` |
| Neighbors.NeighborNumBounds | packages/largegraph/components/test.tsx:424 | the neighbour count lies in 0..max, and is 0 if and only if the draw is 0 or max is 0 |
| Neighbors.NoStepNoNeighbors | packages/largegraph/components/test.tsx:419 | no sub-graph when `step` <= 0 |
| Neighbors.GeneratedTree | packages/largegraph/components/test.tsx:414-450 | the sub-graph is a tree: one edge per node, each joining a new node to the centre or an earlier node; every node in the centre's cluster with its colour set at level 0; all node and edge ids distinct |
| Neighbors.GenerateGrown | packages/largegraph/components/test.tsx:414-450 | the generated sub-graph is grown around the centre with fresh ids from the counter |
| Neighbors.ChildrenGrown | packages/largegraph/components/test.tsx:425-448 | the child loop keeps the grown-around-the-centre invariant |
| Neighbors.NextChildGrown | packages/largegraph/components/test.tsx:426-447 | one child, its edge and its sub-tree keep that invariant |
| Neighbors.GrownChild | packages/largegraph/components/test.tsx:426-442 | a new node with its edge in the drawn direction keeps that invariant |
| Neighbors.GrownAppend | packages/largegraph/components/test.tsx:444-447 | appending a child's sub-tree keeps that invariant |
| Neighbors.GenerateNeighbors | packages/largegraph/components/test.tsx:414-450 | the method computes `Generate`, draw by draw and id by id |
| Neighbors.GrowChild | packages/largegraph/components/test.tsx:426-447 | one round of the loop computes `NextChild` |
| Neighbors.RegisterNeighbors | packages/largegraph/components/test.tsx:396-398 | the new nodes are registered in the node map |
| Neighbors.GrowCenterCluster | packages/largegraph/components/test.tsx:400-405 | only the centre's cluster grows |
| Neighbors.GetNeighborMixedGraph | packages/largegraph/components/test.tsx:376-412 | when `step` <= 0 the source throws (it reads `.nodes` of the undefined sub-graph) and the model gives no result; otherwise the merge of the generated sub-graph into the dataset, node map, cluster and view |
| Neighbors.MergeKeepsCounts | packages/largegraph/components/test.tsx:400-407 | the centre's cluster gains the new edges in `sumTot`; its aggregated count still equals its member count; other clusters are unchanged |
| Neighbors.GrowClustersIds | packages/largegraph/components/test.tsx:401-405 | growing keeps the cluster ids |
| Neighbors.GrowClustersMembers | packages/largegraph/components/test.tsx:401-405 | old members stay; every new node becomes a member of the centre's cluster |
| Neighbors.MergeKeepsConsistent | packages/largegraph/components/test.tsx:393-407 | merging keeps the maps consistent with the clusters |
| Neighbors.MergedAggregatesMatch | packages/largegraph/components/test.tsx:403-407 | after the merge every aggregated count equals its member count |
| Neighbors.NewEdgeEndpoints | packages/largegraph/components/test.tsx:434-435 | every new edge joins the centre or new nodes |
| Neighbors.MergeKeepsResolvable | packages/largegraph/components/test.tsx:393-398 | every dataset edge still resolves in the node map after the merge |
| Layout.BaseConfigDefaults | packages/largegraph/components/test.tsx:1024-1029 | missing settings default to 225, 50, 200 and 5; a given value, 0 included, is kept |
| Layout.LevelOf | packages/largegraph/components/test.tsx:1039-1040 | the node map is consulted before the aggregated-node map; no level when the id is in neither |
| Layout.LinkDistanceCases | packages/largegraph/components/test.tsx:1037-1047 | ×3 when both ends are aggregated, ×1.5 when one is, ×0.3 when neither; symmetric and increasing with the number of aggregated ends |
| Layout.EdgeStrengthOrder | packages/largegraph/components/test.tsx:1048-1056 | attraction between aggregated nodes is small: for a positive base, one edge pulls less than another exactly when it joins two aggregated nodes and the other has a real end; every strength is positive, at most the base, and symmetric |
| Layout.AggregatedEdgesPullLess | packages/largegraph/components/test.tsx:1048-1056 | looked up through the node maps, an edge between two aggregated nodes pulls strictly less than any edge with a real end |
| Layout.NodeStrengthOrder | packages/largegraph/components/test.tsx:1057-1063 | isolated nodes are drawn together: for a positive base a node's strength is negative (-10) exactly when it has no edges; a connected aggregated node repels twice as hard as a connected real node |
| Layout.NodeSpacingOrder | packages/largegraph/components/test.tsx:1068-1072 | an isolated node keeps more than the base spacing (twice it), a connected node exactly the base; the level plays no part |
| Layout.NodeSizeChoice | packages/largegraph/components/test.tsx:1064-1088 | a configured size wins, then the node's own size, then 50; never 0 |
| Layout.NodeMapTakesPrecedence | packages/largegraph/components/test.tsx:1039-1040 | an edge between real nodes uses their levels from the node map |
| Layout.EdgeFunctionsDefined | packages/largegraph/components/test.tsx:1037-1056 | the edge rules are defined exactly when both ends are known to one of the maps |
| Positions.Mass | packages/largegraph/components/test.tsx:1003-1007 | mass 5 if and only if the node has a cached position, 1 otherwise |
| Positions.MassAfterCaching | packages/largegraph/components/test.tsx:1003-1007 | after caching, a node that was on the canvas weighs 5 and any other node weighs 1 |
| Positions.CacheNodePositions | packages/largegraph/components/test.tsx:1323-1340 | an empty cache without a graph; otherwise the cache built from the nodes in order |
| Positions.CachedKeys | packages/largegraph/components/test.tsx:1330-1337 | the cache has exactly one key per node id |
| Positions.CachedLast | packages/largegraph/components/test.tsx:1330-1337 | an id's entry is the position and level of the last node with that id |
| Positions.CachedDistinct | packages/largegraph/components/test.tsx:1330-1337 | with distinct ids every node finds its own position |
| Degrees.ProcessNodesEdges | packages/largegraph/components/test.tsx:1097-1165 | no result if and only if there are no nodes; otherwise the normalised edges, the counters of every node and the next fresh id |
| Degrees.CountEdges | packages/largegraph/components/test.tsx:1143-1165 | the edge loop yields the normalised edges and, for every node, its counted out- and in-edges |
| Degrees.NextEdgeId | packages/largegraph/components/test.tsx:1145-1146 | one edge id is normalised, drawing a fresh number only when it is missing |
| Degrees.CountEdge | packages/largegraph/components/test.tsx:1148-1161 | one edge raises its source's degree and out-degree and its target's degree and in-degree, unless an end is missing |
| Degrees.Normalized | packages/largegraph/components/test.tsx:1145-1146 | one shown edge per edge, and the counter never goes back |
| Degrees.NormalizedAt | packages/largegraph/components/test.tsx:1145-1146 | the edge at position `k` keeps its place and gets its id normalised with the counter reached there |
| Degrees.NormalizedEdges | packages/largegraph/components/test.tsx:1143-1151 | every edge stays in order, dangling or not; every id starts with "edge"; an id already starting with "edge" is kept; one fresh number per missing id |
| Degrees.IsolatedNodeDegree | packages/largegraph/components/test.tsx:1115-1161 | a node no counted edge touches keeps all three counters at 0 |
| Degrees.CountedEdgeRaisesDegree | packages/largegraph/components/test.tsx:1158-1161 | a counted edge gives its source an out-edge and its target an in-edge |
| Degrees.DegreeSum | packages/largegraph/components/test.tsx:1158-1161 | summed over the nodes, out-degrees and in-degrees each equal the number of counted edges, so degrees add up to twice that number |
| Labels.FormatText | packages/largegraph/components/test.tsx:1353-1359 | a text within the length is returned unchanged; a longer one is its first `length` characters followed by the ellipsis |
| Labels.FormatTextUnchanged | packages/largegraph/components/test.tsx:1353-1359 | the text comes back unchanged if and only if it is short enough or already ends in the ellipsis at that position |
| Labels.FormatTextIdempotent | packages/largegraph/components/test.tsx:1353-1359 | shortening twice is shortening once |
| Labels.LabelFormatter | packages/largegraph/components/test.tsx:1389-1398 | a label within the length is unchanged; a longer one is its first `minLength` characters followed by "..." |
| Labels.LabelFormatterIsFormatText | packages/largegraph/components/test.tsx:1389-1398 | the two shorteners agree when the ellipsis is "..." |
| Labels.DescendCompare | packages/largegraph/components/test.tsx:1400-1407 | defined when both models have the property; negative if and only if the first is larger, 0 if and only if they are equal |
| Labels.DescendCompareAntisymmetric | packages/largegraph/components/test.tsx:1400-1407 | swapping the arguments negates the result |
| Labels.InCompareOrderIsDescending | packages/largegraph/components/test.tsx:1400-1407 | a list in comparator order is exactly a list in non-increasing order of the property |
| Color.CheckValidColorCode | packages/example/pages/LargeGraphTestPage.tsx:67-77 | returns true if and only if the code has length 7, starts with '#' and has lower-case hex digits at positions 1 to 6 |
| Color.WrongLengthRejected | packages/example/pages/LargeGraphTestPage.tsx:68 | a code whose length is not 7 is rejected |
| Color.MissingHashRejected | packages/example/pages/LargeGraphTestPage.tsx:68 | a code not starting with '#' is rejected |
| Color.UpperCaseRejected | packages/example/pages/LargeGraphTestPage.tsx:71-73 | "#FFFFFF" is rejected, "#ffffff" accepted |
| Color.RenderIsValid | packages/example/pages/LargeGraphTestPage.tsx:67-77 | every 24-bit colour written as '#' and six lower-case digits is accepted and reads back as that colour |
| Color.ValidIsRendered | packages/example/pages/LargeGraphTestPage.tsx:67-77 | every accepted code is the rendering of a 24-bit colour |
| Color.HexValueOfHex | packages/example/pages/LargeGraphTestPage.tsx:71-73 | reading back the digits of a value that fits gives the value |
| Color.HexOfHexValue | packages/example/pages/LargeGraphTestPage.tsx:71-73 | writing out the value of a digit string gives the string |
| Color.BorderColorPage.OnBorderColorChange | packages/example/pages/LargeGraphTestPage.tsx:79-87 | the handler body as a validating setter: the stored border colour becomes the value exactly when the value is a valid colour code, and is otherwise left as it was |

## Left out

- Community detection (`louvain`) is not modelled: the cluster partition is an input.
- `uniqueId` is not part of this model. It is a counter rendered in decimal; only freshness is relied on.
- `Math.random` is an input stream `rand`. The model does not require its values to lie in [0, 1); `Neighbors.NeighborNumBounds` assumes it.
- The colour palette `colorSets` is not modelled: a member and an aggregated node carry the cluster index `i` in place of `colorSets[i]`.
- Labels, shape types, styles and the `Math.log` edge size of `getAggregatedData` are not modelled; they only feed the renderer.
- Compositor.GetMixedGraph: the source writes the `expanded` flag into objects shared with the dataset; the model returns a new map, so aliasing between views is not captured. The `collapseMap` is built, as in the source, but nothing reads it. The source throws when a dataset edge names a node missing from the node map (it reads `clusterId` of `undefined`); the model requires every end to resolve (`Compositor.Resolvable`), so that crash is not modelled.
- Neighbors.GetNeighborMixedGraph: the source mutates the dataset, node map, clusters and view in place; the model returns the merged values. The source crashes when the centre's cluster has no aggregated node; the model requires it. The `manipulatePosition` update is not modelled. With `step` <= 0 `generateNeighbors` returns `undefined` and the source throws reading its `nodes` (test.tsx:393); the model returns None there. The component's own callers pass a positive step (the guard at test.tsx:293, the menu at test.tsx:771).
- Expansion.ExpansionTracker.Expand: follows the code as written, so an evicted id that starts with '-' yields a collapse record whose id has lost its empty first segment (see Findings); the corrected truncation `Ids.CollapseId` is stated and proved, but the tracker does not use it. The `manipulatePosition` update and the cursor change are not modelled. The node count is a parameter, as the source takes it from the canvas.
- Expansion.ExpansionTracker.Collapse: the source crashes when the model's cluster has no aggregated node; the model requires it. `manipulatePosition` is not modelled.
- Degrees.ProcessNodesEdges: only the degree counting and edge-id normalisation are modelled. Duplicate node ids are renamed with `Math.random` in the source; the model keeps one counter entry per id. The label, type and placement fields, the cache seeding of positions, the `maxCount`/`minCount` tracking, the sort by size and the styling after it are left out. The source writes the normalised id back into the edge objects it is given, and the view's cluster edges are the shared objects of the clustering result, so a cluster edge keeps its id across later views; the model's cluster edges (`Compositor.ClusterLink`) carry no id, so this write-back and the id reuse it causes are not captured.
- The sort itself (`Array.prototype.sort`) is not modelled; `Labels.InCompareOrderIsDescending` states what order the comparator asks for.
- Labels.DescendCompare: a missing property gives `NaN` in the source; the model returns None.
- Labels.FormatText: `null` and `undefined` texts, and negative lengths, are not modelled; text is a sequence of characters, as `length` and `split('')` count UTF-16 code units.
- Layout: `getForceLayoutConfig` passes `collideStrength`, `alpha`, `alphaDecay`, `alphaMin` and fixed simulation constants to the layout library; these, the `onLayoutEnd` and `tick` callbacks, and the layout run itself are not modelled. Lengths and forces are `real`.
- Positions.CacheNodePositions: node coordinates are `real`; a node without coordinates is not modelled.
- Color.BorderColorPage.OnBorderColorChange: the model is the handler body as a validating setter on a stored colour. The page declares no `borderColor` property, so the immediate watcher call passes `undefined` and `checkValidColorCode` throws reading its `length`; that crash is not modelled. A watcher runs after the property has changed, so it cannot undo a rejected value; the model's "otherwise unchanged" describes the handler's own assignment, not the page's state. The console output is not modelled.
- Rendering, menus, event wiring, canvas sizing, hiding and focus handling are outside the modelled core.

## Findings

| source | as written | input that shows it | evidently intended | confidence | as-written member | corrected member |
|---|---|---|---|---|---|---|
| packages/largegraph/components/test.tsx:506-510 | the collapse id is accumulated with `if (collapseNodeId)`, so an empty first segment is dropped instead of joined | evicted id "-a-b" gives collapse id "a" | "-a", the id without its last segment | not executed | Ids.CollapseIdAsWrittenLosesLeadingSegment | Ids.CollapseIdRoundTrip |
