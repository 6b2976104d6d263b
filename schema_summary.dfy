/** The schema summary: which modified nodes are listed because their
    column sets differ between the base and current environments. */
module SchemaSummary {
  import opened Wrappers
  import opened LineageTypes

  /** A column's diff status as the key-merge library reports it; the
      library itself is not part of this model. */
  datatype KeyStatus = KeyStatus(status: string)

  /** `mergeKeysWithStatus(baseKeys, currentKeys)`: one entry per merged
      key, in the order `Object.values` reports them, with an absent status
      for a key unchanged between the two sides. */
  type MergeKeys = (seq<string>, seq<string>) -> seq<(string, Option<KeyStatus>)>

  /** `Object.keys(side?.columns || {})`: the column names of a side, none
      for an absent side or a side without a schema. */
  function ColumnKeys(side: Option<NodeData>): (keys: seq<string>)
    ensures side.None? || side.value.columns.None? ==> keys == []
    ensures side.Some? && side.value.columns.Some? ==>
      |keys| == |side.value.columns.value|
      && forall i :: 0 <= i < |keys| ==> keys[i] == side.value.columns.value[i].name
  {
    if side.None? || side.value.columns.None? then []
    else seq(|side.value.columns.value|, i requires 0 <= i < |side.value.columns.value| => side.value.columns.value[i].name)
  }

  /** Some merged key carries a status. */
  predicate SchemaChanged(merge: MergeKeys, node: LineageGraphNode) {
    var statuses := merge(ColumnKeys(node.data.base), ColumnKeys(node.data.current));
    exists i :: 0 <= i < |statuses| && statuses[i].1.Some?
  }

  /** The nodes the summary lists: for each modified id, in order, the node
      stored under it when its schema changed. */
  function ChangedNodes(merge: MergeKeys, nodes: seq<NodeEntry>, ids: seq<string>): seq<LineageGraphNode>
  {
    if ids == [] then []
    else
      var rest := ChangedNodes(merge, nodes, ids[..|ids| - 1]);
      var node := Lookup(nodes, ids[|ids| - 1]);
      if node.Some? && SchemaChanged(merge, node.value) then rest + [node.value] else rest
  }

  /** Listing a modified set in two parts lists the two parts one after
      the other. */
  lemma {:induction false} ChangedNodesConcat(merge: MergeKeys, nodes: seq<NodeEntry>, a: seq<string>, b: seq<string>)
    ensures ChangedNodes(merge, nodes, a + b) == ChangedNodes(merge, nodes, a) + ChangedNodes(merge, nodes, b)
    decreases |b|
  {
    if b == [] {
      assert a + b == a;
    } else {
      assert (a + b)[..|a + b| - 1] == a + b[..|b| - 1];
      ChangedNodesConcat(merge, nodes, a, b[..|b| - 1]);
    }
  }

  /** Some modified id has no node, which makes the listing throw. */
  predicate SomeIdMissing(nodes: seq<NodeEntry>, ids: seq<string>) {
    exists i :: 0 <= i < |ids| && Lookup(nodes, ids[i]).None?
  }

  /** `listChangedNodes`: walks the modified set and keeps the nodes whose
      schema changed; `None` when an id has no node, where the source reads
      a property of `undefined` and throws. */
  method ListChangedNodes(merge: MergeKeys, sets: LineageGraphSets) returns (r: Option<seq<LineageGraphNode>>)
    ensures r.None? <==> SomeIdMissing(sets.all.nodes, sets.modifiedSet)
    ensures r.Some? ==> r.value == ChangedNodes(merge, sets.all.nodes, sets.modifiedSet)
  {
    var changedNodes: seq<LineageGraphNode> := [];
    var allNodes := sets.all.nodes;
    var ids := sets.modifiedSet;
    var k := 0;
    while k < |ids|
      invariant 0 <= k <= |ids|
      invariant !SomeIdMissing(allNodes, ids[..k])
      invariant changedNodes == ChangedNodes(merge, allNodes, ids[..k])
    {
      assert ids[..k + 1][..k] == ids[..k];
      var node := Lookup(allNodes, ids[k]);
      if node.None? {
        return None;
      }
      if SchemaChanged(merge, node.value) {
        changedNodes := changedNodes + [node.value];
      }
      k := k + 1;
    }
    assert ids[..k] == ids;
    return Some(changedNodes);
  }

  /** Every listed node is the node of some modified id and its schema
      changed; every such node is listed. */
  lemma {:induction false} ChangedNodesMembership(merge: MergeKeys, nodes: seq<NodeEntry>, ids: seq<string>, n: LineageGraphNode)
    ensures n in ChangedNodes(merge, nodes, ids) <==>
      SchemaChanged(merge, n) && exists i :: 0 <= i < |ids| && Lookup(nodes, ids[i]) == Some(n)
    decreases |ids|
  {
    if ids != [] {
      var init := ids[..|ids| - 1];
      ChangedNodesMembership(merge, nodes, init, n);
      if exists i :: 0 <= i < |ids| && Lookup(nodes, ids[i]) == Some(n) {
        var i :| 0 <= i < |ids| && Lookup(nodes, ids[i]) == Some(n);
        if i < |init| {
          assert init[i] == ids[i];
        }
      }
      if exists i :: 0 <= i < |init| && Lookup(nodes, init[i]) == Some(n) {
        var i :| 0 <= i < |init| && Lookup(nodes, init[i]) == Some(n);
        assert ids[i] == init[i];
      }
    }
  }

  /** At most one listed node per modified id. */
  lemma {:induction false} ChangedNodesLength(merge: MergeKeys, nodes: seq<NodeEntry>, ids: seq<string>)
    ensures |ChangedNodes(merge, nodes, ids)| <= |ids|
    decreases |ids|
  {
    if ids != [] {
      ChangedNodesLength(merge, nodes, ids[..|ids| - 1]);
    }
  }

  /** The summary shows "No schema changes detected." exactly when no
      modified node has a schema change. */
  lemma NoSchemaChanges(merge: MergeKeys, nodes: seq<NodeEntry>, ids: seq<string>)
    ensures ChangedNodes(merge, nodes, ids) == [] <==>
      forall i :: 0 <= i < |ids| && Lookup(nodes, ids[i]).Some? ==> !SchemaChanged(merge, Lookup(nodes, ids[i]).value)
  {
  }

  /** Nodes with no column information on either side never count as
      changed when the merge of two empty key lists reports no status. */
  lemma NoColumnsNoChange(merge: MergeKeys, node: LineageGraphNode)
    requires forall e :: e in merge([], []) ==> e.1.None?
    requires node.data.base.None? || node.data.base.value.columns.None?
    requires node.data.current.None? || node.data.current.value.columns.None?
    ensures !SchemaChanged(merge, node)
  {
  }

  /** The summary's body: the empty-state text, or one card per listed node
      keyed by its id and titled by its name. */
  datatype SummaryBody = NoChangesText | Cards(cards: seq<(string, string)>)

  function SummaryBodyFor(changedNodes: seq<LineageGraphNode>): (b: SummaryBody)
    ensures b.NoChangesText? <==> |changedNodes| == 0
    ensures b.Cards? ==>
      && |b.cards| == |changedNodes|
      && forall i :: 0 <= i < |changedNodes| ==> b.cards[i] == (changedNodes[i].id, changedNodes[i].name)
  {
    if |changedNodes| == 0 then NoChangesText
    else Cards(seq(|changedNodes|, i requires 0 <= i < |changedNodes| => (changedNodes[i].id, changedNodes[i].name)))
  }
}
