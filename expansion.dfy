/**
 * Expansion tracking (`examAncestors`, `manageExpandCollapseArray` and the
 * `collapse` / `collapseAll` menu cases): the ordered lists of expand and
 * collapse records, and the node-budget eviction that spares the ancestors
 * of the node being expanded.
 */
module Expansion {
  import opened Wrappers
  import opened Graph
  import Ids

  /** The node budget (`NODE_LIMIT`) of the canvas. */
  const NodeLimit: int := 20

  // ---------------------------------------------------------------------------
  // Ancestor tagging (`examAncestors`)
  // ---------------------------------------------------------------------------

  /** Record `r`, untagged, is the one named by `parent`. */
  predicate Matches(parent: Option<string>, r: ExpandRecord, tag: bool)
  {
    !tag && parent == Some(r.id)
  }

  /** The first untagged record, at or after `i`, whose id is `parent`. */
  function FirstMatchFrom(parent: Option<string>, recs: seq<ExpandRecord>, tags: seq<bool>, i: nat): (r: Option<nat>)
    requires |tags| == |recs| && i <= |recs|
    ensures r.Some? ==> i <= r.value < |recs| && Matches(parent, recs[r.value], tags[r.value])
    ensures r.Some? ==> forall j :: i <= j < r.value ==> !Matches(parent, recs[j], tags[j])
    ensures r.None? ==> forall j :: i <= j < |recs| ==> !Matches(parent, recs[j], tags[j])
    decreases |recs| - i
  {
    if i == |recs| then None
    else if Matches(parent, recs[i], tags[i]) then Some(i)
    else FirstMatchFrom(parent, recs, tags, i + 1)
  }

  /** The number of untagged records. */
  function Untagged(tags: seq<bool>): nat
  {
    multiset(tags)[false]
  }

  /**
   * The tags after the ancestor walk: tag the first untagged record whose id
   * is `parent`, then continue from that record's `parentId`; stop when no
   * untagged record matches.
   */
  function AncestorTags(parent: Option<string>, recs: seq<ExpandRecord>, tags: seq<bool>): (r: seq<bool>)
    requires |tags| == |recs|
    ensures |r| == |recs|
    decreases Untagged(tags)
  {
    match FirstMatchFrom(parent, recs, tags, 0)
    case None => tags
    case Some(j) =>
      assert multiset(tags[j := true]) == multiset(tags) - multiset{false} + multiset{true};
      AncestorTags(recs[j].parentId, recs, tags[j := true])
  }

  /** Some record with id `id` carries a tag. */
  ghost predicate IdTagged(recs: seq<ExpandRecord>, tags: seq<bool>, id: string)
    requires |tags| == |recs|
  {
    exists k :: 0 <= k < |recs| && recs[k].id == id && tags[k]
  }

  /** Some record has id `id`. */
  ghost predicate IdPresent(recs: seq<ExpandRecord>, id: string)
  {
    exists k :: 0 <= k < |recs| && recs[k].id == id
  }

  /** The walk only sets tags: a tag set before stays set. */
  lemma {:induction false} AncestorTagsMonotone(parent: Option<string>, recs: seq<ExpandRecord>, tags: seq<bool>, k: nat)
    requires |tags| == |recs| && k < |recs| && tags[k]
    ensures AncestorTags(parent, recs, tags)[k]
    decreases Untagged(tags)
  {
    match FirstMatchFrom(parent, recs, tags, 0)
    case None =>
    case Some(j0) =>
      assert multiset(tags[j0 := true]) == multiset(tags) - multiset{false} + multiset{true};
      AncestorTagsMonotone(recs[j0].parentId, recs, tags[j0 := true], k);
  }

  /** After the walk, the record `parent` names (if any) has a tagged record with its id. */
  lemma ParentTagged(parent: Option<string>, recs: seq<ExpandRecord>, tags: seq<bool>)
    requires |tags| == |recs| && parent.Some? && IdPresent(recs, parent.value)
    ensures IdTagged(recs, AncestorTags(parent, recs, tags), parent.value)
  {
    var k :| 0 <= k < |recs| && recs[k].id == parent.value;
    match FirstMatchFrom(parent, recs, tags, 0)
    case None =>
      assert !Matches(parent, recs[k], tags[k]);
      AncestorTagsMonotone(parent, recs, tags, k);
    case Some(j0) =>
      assert multiset(tags[j0 := true]) == multiset(tags) - multiset{false} + multiset{true};
      AncestorTagsMonotone(recs[j0].parentId, recs, tags[j0 := true], j0);
  }

  /**
   * The parent of every record the walk tags, when it is in the list, has a
   * tagged record with its id afterwards: the tags are closed under
   * `parentId` links.
   */
  lemma {:induction false} WalkTagsClosed(parent: Option<string>, recs: seq<ExpandRecord>, tags: seq<bool>, j: nat)
    requires |tags| == |recs| && j < |recs|
    requires AncestorTags(parent, recs, tags)[j] && !tags[j]
    requires recs[j].parentId.Some? && IdPresent(recs, recs[j].parentId.value)
    ensures IdTagged(recs, AncestorTags(parent, recs, tags), recs[j].parentId.value)
    decreases Untagged(tags)
  {
    match FirstMatchFrom(parent, recs, tags, 0)
    case None =>
    case Some(j0) =>
      var tags1 := tags[j0 := true];
      assert multiset(tags1) == multiset(tags) - multiset{false} + multiset{true};
      if j == j0 {
        ParentTagged(recs[j0].parentId, recs, tags1);
      } else {
        WalkTagsClosed(recs[j0].parentId, recs, tags1, j);
      }
  }

  /**
   * `examAncestors`: scans the records in order for the first untagged one
   * whose id is `parent`, tags it, recurses on its `parentId` and stops.
   * Terminates because every recursive call has one untagged record fewer.
   */
  method ExamAncestors(parent: Option<string>, recs: seq<ExpandRecord>, keepTags: array<bool>)
    requires keepTags.Length == |recs|
    modifies keepTags
    ensures keepTags[..] == AncestorTags(parent, recs, old(keepTags[..]))
    decreases Untagged(keepTags[..])
  {
    for i := 0 to |recs|
      invariant keepTags[..] == old(keepTags[..])
      invariant forall j :: 0 <= j < i ==> !Matches(parent, recs[j], keepTags[j])
    {
      var expandedNode := recs[i];
      if !keepTags[i] && parent == Some(expandedNode.id) {
        ghost var before := keepTags[..];
        AncestorTagsStep(parent, recs, before, i);
        keepTags[i] := true;
        assert keepTags[..] == before[i := true];
        ExamAncestors(expandedNode.parentId, recs, keepTags);
        break;
      }
    }
  }

  /** When record `i` is the first match, the walk tags it and goes on from its parent, with one untagged record fewer. */
  lemma AncestorTagsStep(parent: Option<string>, recs: seq<ExpandRecord>, tags: seq<bool>, i: nat)
    requires |tags| == |recs| && i < |recs| && Matches(parent, recs[i], tags[i])
    requires forall j :: 0 <= j < i ==> !Matches(parent, recs[j], tags[j])
    ensures Untagged(tags[i := true]) < Untagged(tags)
    ensures AncestorTags(parent, recs, tags) == AncestorTags(recs[i].parentId, recs, tags[i := true])
  {
    assert FirstMatchFrom(parent, recs, tags, 0) == Some(i);
    assert multiset(tags[i := true]) == multiset(tags) - multiset{false} + multiset{true};
  }

  // ---------------------------------------------------------------------------
  // Ancestors in the record list
  // ---------------------------------------------------------------------------

  /** No two expand records share an id. */
  ghost predicate DistinctIds(recs: seq<ExpandRecord>)
  {
    forall i, j :: 0 <= i < j < |recs| ==> recs[i].id != recs[j].id
  }

  /**
   * Record `k` is reached from `parent` by following `parentId` links through
   * the records in `steps` further hops: an ancestor of the node whose parent
   * is `parent`.
   */
  ghost predicate AncestorAt(recs: seq<ExpandRecord>, parent: Option<string>, k: nat, steps: nat)
    requires k < |recs|
    decreases steps
  {
    if steps == 0 then parent == Some(recs[k].id)
    else exists j :: 0 <= j < |recs| && AncestorAt(recs, parent, j, steps - 1) && recs[j].parentId == Some(recs[k].id)
  }

  /** All tags off: the array the source allocates with `fill(false)`. */
  function NoTags(n: nat): (t: seq<bool>)
    ensures |t| == n && forall i :: 0 <= i < n ==> !t[i]
  {
    seq(n, _ => false)
  }

  /** The protection tags of the ancestor walk started from the expanded node's `parentId`. */
  function Protected(parent: Option<string>, recs: seq<ExpandRecord>): (t: seq<bool>)
    ensures |t| == |recs|
  {
    AncestorTags(parent, recs, NoTags(|recs|))
  }

  /**
   * With distinct ids, the walk protects exactly the ancestors: every record
   * reached from `parent` through `parentId` links is tagged, and every
   * tagged record is reached that way.
   */
  lemma {:induction false} ProtectedAreAncestors(parent: Option<string>, recs: seq<ExpandRecord>, k: nat)
    requires DistinctIds(recs) && k < |recs|
    ensures Protected(parent, recs)[k] <==> exists steps: nat :: AncestorAt(recs, parent, k, steps)
  {
    var t := Protected(parent, recs);
    if exists steps: nat :: AncestorAt(recs, parent, k, steps) {
      var steps: nat :| AncestorAt(recs, parent, k, steps);
      AncestorsTagged(parent, recs, k, steps);
    }
    if t[k] {
      WalkTagsAncestors(parent, recs, NoTags(|recs|), k);
    }
  }

  lemma {:induction false} AncestorsTagged(parent: Option<string>, recs: seq<ExpandRecord>, k: nat, steps: nat)
    requires DistinctIds(recs) && k < |recs| && AncestorAt(recs, parent, k, steps)
    ensures Protected(parent, recs)[k]
    decreases steps
  {
    var t := Protected(parent, recs);
    var k' :| 0 <= k' < |recs| && recs[k'].id == recs[k].id && t[k'] by {
      if steps == 0 {
        ParentTagged(parent, recs, NoTags(|recs|));
      } else {
        var j :| 0 <= j < |recs| && AncestorAt(recs, parent, j, steps - 1) && recs[j].parentId == Some(recs[k].id);
        AncestorsTagged(parent, recs, j, steps - 1);
        WalkTagsClosed(parent, recs, NoTags(|recs|), j);
      }
    }
    assert k' == k;
  }

  /** A chain from `parent1` extends by one hop to a chain from the record's own parent. */
  lemma {:induction false} AncestorShift(recs: seq<ExpandRecord>, parent: Option<string>, j0: nat, k: nat, steps: nat)
    requires j0 < |recs| && k < |recs| && parent == Some(recs[j0].id)
    requires AncestorAt(recs, recs[j0].parentId, k, steps)
    ensures AncestorAt(recs, parent, k, steps + 1)
    decreases steps
  {
    assert AncestorAt(recs, parent, j0, 0);
    if steps > 0 {
      var i :| 0 <= i < |recs| && AncestorAt(recs, recs[j0].parentId, i, steps - 1) && recs[i].parentId == Some(recs[k].id);
      AncestorShift(recs, parent, j0, i, steps - 1);
    }
  }

  /** Every record the walk tags is an ancestor reached from `parent`. */
  lemma {:induction false} WalkTagsAncestors(parent: Option<string>, recs: seq<ExpandRecord>, tags: seq<bool>, k: nat)
    requires |tags| == |recs| && k < |recs|
    requires AncestorTags(parent, recs, tags)[k] && !tags[k]
    ensures exists steps: nat :: AncestorAt(recs, parent, k, steps)
    decreases Untagged(tags)
  {
    match FirstMatchFrom(parent, recs, tags, 0)
    case None =>
    case Some(j0) =>
      var tags1 := tags[j0 := true];
      assert multiset(tags1) == multiset(tags) - multiset{false} + multiset{true};
      if k == j0 {
        assert AncestorAt(recs, parent, k, 0);
      } else {
        WalkTagsAncestors(recs[j0].parentId, recs, tags1, k);
        var steps: nat :| AncestorAt(recs, recs[j0].parentId, k, steps);
        AncestorShift(recs, parent, j0, k, steps);
      }
  }

  // ---------------------------------------------------------------------------
  // Lookups used by the eviction
  // ---------------------------------------------------------------------------

  /** Index of the first untagged record. */
  function FirstUntagged(tags: seq<bool>): (r: Option<nat>)
    ensures r.Some? ==> r.value < |tags| && !tags[r.value] && forall j :: 0 <= j < r.value ==> tags[j]
    ensures r.None? ==> forall j :: 0 <= j < |tags| ==> tags[j]
  {
    if tags == [] then None
    else if !tags[0] then Some(0)
    else match FirstUntagged(tags[1..])
      case None => None
      case Some(k) => Some(k + 1)
  }

  /** Index of the first record of level 1 whose `parentId` is `id`. */
  function FirstLevel1Child(recs: seq<ExpandRecord>, id: string): (r: Option<nat>)
    ensures r.Some? ==> r.value < |recs| && recs[r.value].parentId == Some(id) && recs[r.value].level == 1
    ensures r.Some? ==> forall j :: 0 <= j < r.value ==> !(recs[j].parentId == Some(id) && recs[j].level == 1)
    ensures r.None? ==> forall j :: 0 <= j < |recs| ==> !(recs[j].parentId == Some(id) && recs[j].level == 1)
  {
    if recs == [] then None
    else if recs[0].parentId == Some(id) && recs[0].level == 1 then Some(0)
    else match FirstLevel1Child(recs[1..], id)
      case None => None
      case Some(k) => Some(k + 1)
  }

  /** Index of the first record whose id is `id`. */
  function FirstWithId(recs: seq<ExpandRecord>, id: string): (r: Option<nat>)
    ensures r.Some? ==> r.value < |recs| && recs[r.value].id == id
    ensures r.Some? ==> forall j :: 0 <= j < r.value ==> recs[j].id != id
    ensures r.None? <==> id !in ExpandedIds(recs)
  {
    if recs == [] then None
    else if recs[0].id == id then Some(0)
    else match FirstWithId(recs[1..], id)
      case None =>
        assert ExpandedIds(recs) == {recs[0].id} + ExpandedIds(recs[1..]) by {
          assert recs == [recs[0]] + recs[1..];
        }
        None
      case Some(k) => Some(k + 1)
  }

  /** Sentinel form of an optional index, as the source's loops report it. */
  function IndexOrMinusOne(r: Option<nat>): int
  {
    match r
    case None => -1
    case Some(k) => k
  }

  /** `splice(i, 1)`: the list without its `i`-th element, the others in order. */
  function RemoveAt<T>(s: seq<T>, i: nat): (r: seq<T>)
    requires i < |s|
    ensures |r| == |s| - 1
    ensures forall j :: 0 <= j < i ==> r[j] == s[j]
    ensures forall j :: i <= j < |r| ==> r[j] == s[j + 1]
  {
    s[..i] + s[i + 1..]
  }

  // ---------------------------------------------------------------------------
  // The expand / collapse lists
  // ---------------------------------------------------------------------------

  /** The two ordered lists the tracker keeps. */
  datatype Lists = Lists(expand: seq<ExpandRecord>, collapse: seq<CollapseRecord>)

  /**
   * The record to evict when the first unprotected record is at `k`: a
   * level-2 record gives way to its first level-1 child in the list (whether
   * or not that child is protected); otherwise the record itself goes.
   */
  function EvictedIndex(expand: seq<ExpandRecord>, k: nat): (v: nat)
    requires k < |expand|
    ensures v < |expand|
  {
    if expand[k].level == 2 then
      match FirstLevel1Child(expand, expand[k].id)
      case Some(i) => i
      case None => k
    else k
  }

  /**
   * The collapse record pushed for an evicted record, with the collapse id as
   * the source computes it (`Ids.CollapseIdAsWritten`).
   */
  function EvictionRecord(found: ExpandRecord): CollapseRecord
  {
    CollapseRecord(Ids.CollapseIdAsWritten(found.id), found.level - 1, Some(found.id))
  }

  /** The lists after expanding `model` while `nodeNumber` nodes are on the canvas. */
  function ExpandStep(nodeNumber: int, model: ExpandRecord, s: Lists): Lists
  {
    var pushed := s.expand + [model];
    if nodeNumber <= NodeLimit then Lists(pushed, s.collapse)
    else
      match FirstUntagged(Protected(model.parentId, s.expand))
      case None => Lists(pushed, s.collapse)
      case Some(k) =>
        var v := EvictedIndex(s.expand, k);
        Lists(RemoveAt(s.expand, v) + [model], s.collapse + [EvictionRecord(s.expand[v])])
  }

  /** The expand list without its first record whose id is `id`. */
  function RemoveFirstWithId(recs: seq<ExpandRecord>, id: string): seq<ExpandRecord>
  {
    match FirstWithId(recs, id)
    case None => recs
    case Some(i) => RemoveAt(recs, i)
  }

  /** The collapse record pushed for the aggregated node of the collapsed cluster. */
  function AggregateRecord(aggregated: AggNode): CollapseRecord
  {
    CollapseRecord(Some(aggregated.id), aggregated.level, None)
  }

  /** The lists after collapsing the cluster `clusterId`, whose aggregated node is `aggregated`. */
  function CollapseStep(clusterId: string, aggregated: AggNode, s: Lists): Lists
  {
    Lists(RemoveFirstWithId(s.expand, clusterId), s.collapse + [AggregateRecord(aggregated)])
  }

  // ---------------------------------------------------------------------------
  // Properties of the lists
  // ---------------------------------------------------------------------------

  /** Within the node budget, expanding only appends the model's record. */
  lemma ExpandWithinBudget(nodeNumber: int, model: ExpandRecord, s: Lists)
    requires nodeNumber <= NodeLimit
    ensures ExpandStep(nodeNumber, model, s) == Lists(s.expand + [model], s.collapse)
  {
  }

  /** Over budget with every record protected, nothing is evicted. */
  lemma ExpandAllProtected(nodeNumber: int, model: ExpandRecord, s: Lists)
    requires forall j :: 0 <= j < |s.expand| ==> Protected(model.parentId, s.expand)[j]
    ensures ExpandStep(nodeNumber, model, s) == Lists(s.expand + [model], s.collapse)
  {
  }

  /**
   * Over budget with an unprotected record, exactly one record is evicted
   * (the others keep their order), the model's record is appended, and one
   * collapse record is pushed: it points at the evicted record, is one level
   * up, has no id exactly when the evicted id has no '-', and, when the
   * evicted id does not start with '-', its id followed by '-' and the
   * evicted id's last segment gives the evicted id back.
   */
  lemma ExpandEvicts(nodeNumber: int, model: ExpandRecord, s: Lists)
    requires nodeNumber > NodeLimit
    requires exists j :: 0 <= j < |s.expand| && !Protected(model.parentId, s.expand)[j]
    ensures var s' := ExpandStep(nodeNumber, model, s);
      exists v :: 0 <= v < |s.expand|
        && s'.expand == RemoveAt(s.expand, v) + [model]
        && |s'.collapse| == |s.collapse| + 1 && s'.collapse[..|s.collapse|] == s.collapse
        && var c := s'.collapse[|s.collapse|];
           && c.parentId == Some(s.expand[v].id)
           && c.level == s.expand[v].level - 1
           && (c.id.None? <==> Ids.Dash !in s.expand[v].id)
           && (c.id.Some? && (s.expand[v].id == [] || s.expand[v].id[0] != Ids.Dash) ==>
                 c.id.value + "-" + Ids.LastSegment(s.expand[v].id) == s.expand[v].id)
  {
    var k := FirstUntagged(Protected(model.parentId, s.expand)).value;
    var v := EvictedIndex(s.expand, k);
    var id := s.expand[v].id;
    Ids.CollapseIdRoundTrip(id);
    if id == [] || id[0] != Ids.Dash {
      Ids.CollapseIdAsWrittenAgrees(id);
    }
    var s' := ExpandStep(nodeNumber, model, s);
    assert s'.collapse[..|s.collapse|] == s.collapse;
  }

  /**
   * As written, evicting a record whose id starts with '-' pushes a collapse
   * id that has lost the leading empty segment: "-a-b" yields "a", not "-a".
   */
  lemma EvictionDropsLeadingSegment(level: int, parentId: Option<string>)
    ensures EvictionRecord(ExpandRecord("-a-b", level, parentId)).id == Some("a")
    ensures EvictionRecord(ExpandRecord("-a-b", level, parentId)).id != Ids.CollapseId("-a-b")
  {
    Ids.CollapseIdAsWrittenLosesLeadingSegment();
  }

  /**
   * The eviction candidate is the first unprotected record, except that a
   * level-2 candidate is replaced by its first level-1 child when one is in
   * the list.
   */
  lemma EvictionChoice(nodeNumber: int, model: ExpandRecord, s: Lists, k: nat)
    requires nodeNumber > NodeLimit
    requires FirstUntagged(Protected(model.parentId, s.expand)) == Some(k)
    ensures k < |s.expand|
    ensures s.expand[k].level != 2 || FirstLevel1Child(s.expand, s.expand[k].id).None? ==>
      ExpandStep(nodeNumber, model, s).expand == RemoveAt(s.expand, k) + [model]
    ensures s.expand[k].level == 2 && FirstLevel1Child(s.expand, s.expand[k].id).Some? ==>
      var i := FirstLevel1Child(s.expand, s.expand[k].id).value;
      ExpandStep(nodeNumber, model, s).expand == RemoveAt(s.expand, i) + [model] &&
      s.expand[i].level == 1 && s.expand[i].parentId == Some(s.expand[k].id)
  {
  }

  /**
   * The eviction never removes an ancestor of the expanded node: with
   * distinct ids in the expand list, the evicted record is not reachable
   * from the model's `parentId` through `parentId` links, and every record
   * that is stays in the list.
   */
  lemma EvictionSparesAncestors(nodeNumber: int, model: ExpandRecord, s: Lists, k: nat, v: nat)
    requires DistinctIds(s.expand)
    requires nodeNumber > NodeLimit
    requires FirstUntagged(Protected(model.parentId, s.expand)) == Some(k)
    requires v == EvictedIndex(s.expand, k)
    ensures forall steps: nat :: !AncestorAt(s.expand, model.parentId, v, steps)
    ensures forall j, steps: nat :: 0 <= j < |s.expand| && AncestorAt(s.expand, model.parentId, j, steps) ==>
      s.expand[j] in ExpandStep(nodeNumber, model, s).expand
  {
    var t := Protected(model.parentId, s.expand);
    assert !t[v] by {
      if v != k {
        var i := FirstLevel1Child(s.expand, s.expand[k].id).value;
        assert i == v;
        if t[v] {
          assert t[v] && !NoTags(|s.expand|)[v];
          WalkTagsClosed(model.parentId, s.expand, NoTags(|s.expand|), v);
        }
      }
    }
    forall steps: nat ensures !AncestorAt(s.expand, model.parentId, v, steps) {
      ProtectedAreAncestors(model.parentId, s.expand, v);
    }
    forall j, steps: nat | 0 <= j < |s.expand| && AncestorAt(s.expand, model.parentId, j, steps)
      ensures s.expand[j] in ExpandStep(nodeNumber, model, s).expand
    {
      ProtectedAreAncestors(model.parentId, s.expand, j);
      var r := RemoveAt(s.expand, v);
      assert j != v;
      if j < v {
        assert r[j] == s.expand[j];
      } else {
        assert r[j - 1] == s.expand[j];
      }
    }
  }

  /**
   * Expanding a node whose id is new keeps the expand ids distinct, and
   * records exactly that id on top of those that survive.
   */
  lemma ExpandKeepsDistinctIds(nodeNumber: int, model: ExpandRecord, s: Lists)
    requires DistinctIds(s.expand) && model.id !in ExpandedIds(s.expand)
    ensures DistinctIds(ExpandStep(nodeNumber, model, s).expand)
    ensures model.id in ExpandedIds(ExpandStep(nodeNumber, model, s).expand)
  {
    if nodeNumber > NodeLimit && FirstUntagged(Protected(model.parentId, s.expand)).Some? {
      var v := EvictedIndex(s.expand, FirstUntagged(Protected(model.parentId, s.expand)).value);
      RemoveAtIds(s.expand, v);
      AppendFreshId(RemoveAt(s.expand, v), model);
    } else {
      AppendFreshId(s.expand, model);
    }
  }

  /** Appending a record with a new id keeps the ids distinct. */
  lemma AppendFreshId(recs: seq<ExpandRecord>, model: ExpandRecord)
    requires DistinctIds(recs) && model.id !in ExpandedIds(recs)
    ensures DistinctIds(recs + [model]) && model.id in ExpandedIds(recs + [model])
  {
    var e' := recs + [model];
    assert model in e';
    forall a, b | 0 <= a < b < |e'| ensures e'[a].id != e'[b].id {
      if b == |recs| {
        assert e'[a] in recs;
      }
    }
  }

  /** Collapsing removes the first record of the cluster (if any) and pushes the aggregate's record. */
  lemma CollapseRemovesCluster(clusterId: string, aggregated: AggNode, s: Lists)
    requires DistinctIds(s.expand)
    ensures var s' := CollapseStep(clusterId, aggregated, s);
      && ExpandedIds(s'.expand) == ExpandedIds(s.expand) - {clusterId}
      && DistinctIds(s'.expand)
      && s'.collapse == s.collapse + [CollapseRecord(Some(aggregated.id), aggregated.level, None)]
  {
    match FirstWithId(s.expand, clusterId)
    case None =>
    case Some(i) => RemoveAtIds(s.expand, i);
  }

  /** Removing one record of a list with distinct ids removes exactly its id. */
  lemma RemoveAtIds(recs: seq<ExpandRecord>, i: nat)
    requires DistinctIds(recs) && i < |recs|
    ensures ExpandedIds(RemoveAt(recs, i)) == ExpandedIds(recs) - {recs[i].id}
    ensures DistinctIds(RemoveAt(recs, i))
  {
    var e' := RemoveAt(recs, i);
    forall x | x in ExpandedIds(e') ensures x in ExpandedIds(recs) - {recs[i].id} {
      var r :| r in e' && r.id == x;
      var j :| 0 <= j < |e'| && e'[j] == r;
      if j < i { assert e'[j] == recs[j]; } else { assert e'[j] == recs[j + 1]; }
    }
    forall x | x in ExpandedIds(recs) - {recs[i].id} ensures x in ExpandedIds(e') {
      var r :| r in recs && r.id == x;
      var j :| 0 <= j < |recs| && recs[j] == r;
      if j < i { assert e'[j] == r; } else { assert j > i && e'[j - 1] == r; }
    }
    forall a, b | 0 <= a < b < |e'| ensures e'[a].id != e'[b].id {
      var a' := if a < i then a else a + 1;
      var b' := if b < i then b else b + 1;
      assert e'[a] == recs[a'] && e'[b] == recs[b'];
    }
  }

  /**
   * A second collapse of the same cluster leaves the expand list as the first
   * left it, but pushes a second collapse record.
   */
  lemma CollapseTwice(clusterId: string, aggregated: AggNode, s: Lists)
    requires DistinctIds(s.expand)
    ensures var once := CollapseStep(clusterId, aggregated, s);
      var twice := CollapseStep(clusterId, aggregated, once);
      twice.expand == once.expand && |twice.collapse| == |once.collapse| + 1
  {
    var once := CollapseStep(clusterId, aggregated, s);
    CollapseRemovesCluster(clusterId, aggregated, s);
    assert clusterId !in ExpandedIds(once.expand);
  }

  /**
   * Within the budget, expanding a cluster that was not expanded and then
   * collapsing it gives the expand list back.
   */
  lemma ExpandThenCollapse(nodeNumber: int, model: ExpandRecord, aggregated: AggNode, s: Lists)
    requires nodeNumber <= NodeLimit && model.id !in ExpandedIds(s.expand)
    ensures CollapseStep(model.id, aggregated, ExpandStep(nodeNumber, model, s)).expand == s.expand
  {
    var e := s.expand + [model];
    assert FirstWithId(s.expand, model.id).None?;
    assert FirstWithId(e, model.id) == Some(|s.expand|) by {
      assert forall j :: 0 <= j < |s.expand| ==> e[j].id != model.id by {
        forall j | 0 <= j < |s.expand| ensures e[j].id != model.id {
          assert e[j] in s.expand;
        }
      }
    }
    assert RemoveAt(e, |s.expand|) == s.expand;
  }

  // ---------------------------------------------------------------------------
  // Loops of `manageExpandCollapseArray`
  // ---------------------------------------------------------------------------

  /** The scan for the first record `examAncestors` left untagged. */
  method FirstUnprotected(keepTags: array<bool>) returns (shiftNodeIdx: int)
    ensures shiftNodeIdx == IndexOrMinusOne(FirstUntagged(keepTags[..]))
  {
    shiftNodeIdx := -1;
    for i := 0 to keepTags.Length
      invariant forall j :: 0 <= j < i ==> keepTags[j]
    {
      if !keepTags[i] {
        shiftNodeIdx := i;
        break;
      }
    }
  }

  /** The scan for the first level-1 record whose `parentId` is `id`. */
  method FindLevel1Child(expandArray: seq<ExpandRecord>, id: string) returns (idx: int)
    ensures idx == IndexOrMinusOne(FirstLevel1Child(expandArray, id))
  {
    idx := -1;
    for i := 0 to |expandArray|
      invariant forall j :: 0 <= j < i ==> !(expandArray[j].parentId == Some(id) && expandArray[j].level == 1)
    {
      var eNode := expandArray[i];
      if eNode.parentId == Some(id) && eNode.level == 1 {
        idx := i;
        break;
      }
    }
  }

  /**
   * The collapse id of an evicted record: its segments but the last, each
   * appended after a '-' only when the id built so far is non-empty (the
   * source's truthiness test), so it is the corrected collapse id unless the
   * id starts with '-'.
   */
  method CollapseNodeId(id: string) returns (collapseNodeId: Option<string>)
    ensures collapseNodeId == Ids.CollapseIdAsWritten(id)
    ensures id == [] || id[0] != Ids.Dash ==> collapseNodeId == Ids.CollapseId(id)
  {
    var idSplits := Ids.Split(id);
    collapseNodeId := None;
    for i := 0 to |idSplits| - 1
      invariant collapseNodeId == Ids.TruthyJoin(idSplits[..i])
    {
      var str := idSplits[i];
      assert idSplits[..i + 1][..i] == idSplits[..i];
      if collapseNodeId.Some? && collapseNodeId.value != "" {
        collapseNodeId := Some(collapseNodeId.value + "-" + str);
      } else {
        collapseNodeId := Some(str);
      }
    }
    if id == [] || id[0] != Ids.Dash {
      Ids.CollapseIdAsWrittenAgrees(id);
    }
  }

  /** The scan for the first record of the collapsed cluster. */
  method IndexOfExpanded(expandArray: seq<ExpandRecord>, id: string) returns (idx: int)
    ensures idx == IndexOrMinusOne(FirstWithId(expandArray, id))
  {
    idx := -1;
    for i := 0 to |expandArray|
      invariant forall j :: 0 <= j < i ==> expandArray[j].id != id
    {
      if expandArray[i].id == id {
        idx := i;
        break;
      }
    }
  }

  // ---------------------------------------------------------------------------
  // The tracker
  // ---------------------------------------------------------------------------

  /** The component's `expandArray` and `collapseArray`, updated by the menu actions. */
  class ExpansionTracker {
    var expand: seq<ExpandRecord>
    var collapse: seq<CollapseRecord>

    /** Both lists start empty. */
    constructor ()
      ensures expand == [] && collapse == []
    {
      expand := [];
      collapse := [];
    }

    function State(): Lists
      reads this
    {
      Lists(expand, collapse)
    }

    /** `manageExpandCollapseArray`: evict over budget, then record the expanded node. */
    method Expand(nodeNumber: int, model: ExpandRecord)
      modifies this
      ensures State() == ExpandStep(nodeNumber, model, old(State()))
    {
      if nodeNumber > NodeLimit {
        var expandLen := |expand|;
        var keepTags := new bool[expandLen](_ => false);
        assert keepTags[..] == NoTags(expandLen);
        ExamAncestors(model.parentId, expand, keepTags);
        var shiftNodeIdx := FirstUnprotected(keepTags);
        if shiftNodeIdx != -1 {
          var foundNode := expand[shiftNodeIdx];
          var removeIdx := shiftNodeIdx;
          if foundNode.level == 2 {
            var i := FindLevel1Child(expand, foundNode.id);
            if i != -1 {
              foundNode := expand[i];
              removeIdx := i;
            }
          }
          expand := RemoveAt(expand, removeIdx);
          var collapseNodeId := CollapseNodeId(foundNode.id);
          collapse := collapse + [CollapseRecord(collapseNodeId, foundNode.level - 1, Some(foundNode.id))];
        }
      }
      expand := expand + [ExpandRecord(model.id, model.level, model.parentId)];
    }

    /**
     * The `collapse` menu action on a member node: push the record of its
     * cluster's aggregated node and drop the cluster's first expand record.
     */
    method Collapse(model: RealNode, aggregatedNodeMap: map<string, AggNode>)
      requires model.clusterId in aggregatedNodeMap
      modifies this
      ensures State() == CollapseStep(model.clusterId, aggregatedNodeMap[model.clusterId], old(State()))
    {
      var aggregatedNode := aggregatedNodeMap[model.clusterId];
      collapse := collapse + [AggregateRecord(aggregatedNode)];
      var i := IndexOfExpanded(expand, model.clusterId);
      if i != -1 {
        expand := RemoveAt(expand, i);
      }
    }

    /** The `collapseAll` menu action: both lists emptied. */
    method CollapseAll()
      modifies this
      ensures State() == Lists([], [])
    {
      expand := [];
      collapse := [];
    }
  }
}
