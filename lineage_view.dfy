/** The interactive session of the lineage view: which selection operation
    a click dispatches to, when the context menu and upstream/downstream
    selection act, the select-mode and view-mode transitions, the node-data
    replacement after an action, the node filter and the screen chosen. */
module LineageView {
  import opened Wrappers
  import opened LineageTypes
  import Seqs

  /** How a click on a node behaves. */
  datatype SelectMode = Detail | Action | ActionResult

  datatype ViewMode = All | ChangedModels

  /** A node of the rendered flow graph; `data` is the lineage node. */
  datatype FlowNode = FlowNode(id: string, nodeType: string, data: LineageGraphNode)

  datatype FlowEdge = FlowEdge(id: string, source: string, target: string)

  /** Where the context menu was opened and on which node. */
  datatype MenuPosition = MenuPosition(x: int, y: int, selectedNode: Option<FlowNode>)

  const ClosedMenu := MenuPosition(0, 0, None)

  /** The selection, traversal and conversion helpers of the lineage library.
      Their source is not part of this model, so they are parameters with no
      assumed behaviour. An argument a call leaves out is `None`. */
  datatype LineageOps = LineageOps(
    selectNode: (string, seq<FlowNode>) -> seq<FlowNode>,
    selectSingleNode: (string, seq<FlowNode>) -> seq<FlowNode>,
    selectNodes: (seq<string>, seq<FlowNode>) -> seq<FlowNode>,
    cleanUpNodes: (seq<FlowNode>, Option<bool>) -> seq<FlowNode>,
    selectUpstream: (LineageGraph, seq<string>) -> seq<string>,
    selectDownstream: (LineageGraph, seq<string>) -> seq<string>,
    highlightPath: (LineageGraph, seq<string>, seq<FlowNode>, seq<FlowEdge>, Option<string>)
      -> (seq<FlowNode>, seq<FlowEdge>),
    toReactflow: (LineageGraph, seq<string>) -> (seq<FlowNode>, seq<FlowEdge>))

  /** The component's properties; absent ones take their defaults. */
  datatype Props = Props(
    viewMode: Option<ViewMode>,
    interactive: Option<bool>,
    filterNodes: Option<(string, LineageGraphNode) -> bool>)

  /** Every field the event handlers overwrite. */
  datatype SessionState = SessionState(
    selectMode: SelectMode,
    viewMode: ViewMode,
    nodes: seq<FlowNode>,
    edges: seq<FlowEdge>,
    lineageGraph: Option<LineageGraph>,
    modifiedSet: Option<seq<string>>,
    detailViewSelected: Option<LineageGraphNode>,
    isDetailViewShown: bool,
    isContextMenuRendered: bool,
    contextMenuPosition: MenuPosition)

  /** What every handler keeps true: the context menu is rendered exactly
      when a target node is recorded, the detail view is shown only with a
      selected node, and no node is in the detail view while models are
      being selected for an action. */
  ghost predicate Consistent(s: SessionState) {
    && (s.isContextMenuRendered <==> s.contextMenuPosition.selectedNode.Some?)
    && (s.isDetailViewShown ==> s.detailViewSelected.Some?)
    && (s.selectMode == Action ==> s.detailViewSelected.None? && !s.isDetailViewShown)
  }

  /** The "No change detected" condition. */
  predicate NoChange(viewMode: ViewMode, modifiedSet: Option<seq<string>>) {
    viewMode == ChangedModels && (modifiedSet.None? || |modifiedSet.value| == 0)
  }

  /** JavaScript truthiness of an optional error text. */
  predicate Truthy(error: Option<string>) {
    error.Some? && error.value != ""
  }

  datatype Screen = Spinner | LoadError(message: string) | NoChangeDetected | GraphCanvas

  /** The screen the view renders: the spinner while loading, then the load
      error, then the "No change detected" screen, otherwise the graph. */
  function ScreenFor(isLoading: bool, error: Option<string>, viewMode: ViewMode,
                     modifiedSet: Option<seq<string>>): (s: Screen)
    ensures s == Spinner <==> isLoading
    ensures s.LoadError? <==> !isLoading && Truthy(error)
    ensures s == NoChangeDetected <==> !isLoading && !Truthy(error) && NoChange(viewMode, modifiedSet)
  {
    if isLoading then Spinner
    else if Truthy(error) then LoadError(error.value)
    else if NoChange(viewMode, modifiedSet) then NoChangeDetected
    else GraphCanvas
  }

  /** The node list after an action reports `node`: the entry with the same
      id gets `node` as its data; every entry keeps its place, id and type. */
  function ReplaceNodeData(nodes: seq<FlowNode>, node: LineageGraphNode): (r: seq<FlowNode>)
    ensures |r| == |nodes|
    ensures forall i :: 0 <= i < |nodes| ==>
      r[i].id == nodes[i].id && r[i].nodeType == nodes[i].nodeType &&
      r[i].data == (if nodes[i].id == node.id then node else nodes[i].data)
  {
    if nodes == [] then []
    else
      var n := nodes[0];
      [if n.id == node.id then n.(data := node) else n] + ReplaceNodeData(nodes[1..], node)
  }

  /** Reporting the same node twice has the effect of reporting it once. */
  lemma ReplaceNodeDataIdempotent(nodes: seq<FlowNode>, node: LineageGraphNode)
    ensures ReplaceNodeData(ReplaceNodeData(nodes, node), node) == ReplaceNodeData(nodes, node)
  {
  }

  /** A report about a node that is not displayed leaves the list as it is. */
  lemma ReplaceNodeDataAbsent(nodes: seq<FlowNode>, node: LineageGraphNode)
    requires forall i :: 0 <= i < |nodes| ==> nodes[i].id != node.id
    ensures ReplaceNodeData(nodes, node) == nodes
  {
  }

  /** The entry test built from the `filterNodes` property. */
  function EntryTest(f: (string, LineageGraphNode) -> bool): (t: NodeEntry -> bool)
    ensures forall e :: t(e) == f(e.0, e.1)
  {
    (e: NodeEntry) => f(e.0, e.1)
  }

  /** The graph with its node entries restricted by `filterNodes`, when that
      property is a function: exactly the entries the predicate accepts stay,
      in order; the edges are not touched. */
  function FilterGraph(g: LineageGraph, filterNodes: Option<(string, LineageGraphNode) -> bool>)
    : (r: LineageGraph)
    ensures r.edges == g.edges
    ensures filterNodes.None? ==> r == g
    ensures filterNodes.Some? ==> r.nodes == Seqs.Filter(g.nodes, EntryTest(filterNodes.value))
    ensures filterNodes.Some? ==>
      forall e :: e in r.nodes <==> e in g.nodes && filterNodes.value(e.0, e.1)
  {
    if filterNodes.None? then g
    else
      var test := EntryTest(filterNodes.value);
      assert forall e :: e in Seqs.Filter(g.nodes, test) <==> e in g.nodes && test(e) by {
        forall e ensures e in Seqs.Filter(g.nodes, test) <==> e in g.nodes && test(e) {
          Seqs.FilterMembership(g.nodes, test, e);
        }
      }
      g.(nodes := Seqs.Filter(g.nodes, test))
  }

  /** Filtering a second time with the same predicate changes nothing. */
  lemma FilterGraphIdempotent(g: LineageGraph, filterNodes: Option<(string, LineageGraphNode) -> bool>)
    ensures FilterGraph(FilterGraph(g, filterNodes), filterNodes) == FilterGraph(g, filterNodes)
  {
    if filterNodes.Some? {
      var once := FilterGraph(g, filterNodes).nodes;
      forall i | 0 <= i < |once| ensures EntryTest(filterNodes.value)(once[i]) {
        Seqs.FilterMembership(g.nodes, EntryTest(filterNodes.value), once[i]);
      }
      Seqs.FilterAll(once, EntryTest(filterNodes.value));
    }
  }

  class Session {
    const ops: LineageOps
    const interactive: bool
    const filterNodes: Option<(string, LineageGraphNode) -> bool>

    var selectMode: SelectMode
    var viewMode: ViewMode
    var nodes: seq<FlowNode>
    var edges: seq<FlowEdge>
    var lineageGraph: Option<LineageGraph>
    var modifiedSet: Option<seq<string>>
    var detailViewSelected: Option<LineageGraphNode>
    var isDetailViewShown: bool
    var isContextMenuRendered: bool
    var contextMenuPosition: MenuPosition

    function State(): SessionState
      reads this
    {
      SessionState(selectMode, viewMode, nodes, edges, lineageGraph, modifiedSet,
                   detailViewSelected, isDetailViewShown, isContextMenuRendered, contextMenuPosition)
    }

    ghost predicate Valid()
      reads this
    {
      Consistent(State())
    }

    /** A fresh view: `interactive` defaults to true and the view mode to
        changed models; nothing is loaded or selected. */
    constructor (props: Props, ops: LineageOps)
      ensures Valid()
      ensures this.ops == ops && filterNodes == props.filterNodes
      ensures interactive == (props.interactive != Some(false))
      ensures State() == SessionState(
        Detail, if props.viewMode.Some? then props.viewMode.value else ChangedModels,
        [], [], None, None, None, false, false, ClosedMenu)
    {
      this.ops := ops;
      this.interactive := props.interactive != Some(false);
      this.filterNodes := props.filterNodes;
      selectMode := Detail;
      viewMode := if props.viewMode.Some? then props.viewMode.value else ChangedModels;
      nodes, edges := [], [];
      lineageGraph, modifiedSet := None, None;
      detailViewSelected, isDetailViewShown := None, false;
      isContextMenuRendered, contextMenuPosition := false, ClosedMenu;
    }

    /** The effect that runs when graph sets arrive or the view mode changes:
        it picks the changed or the full graph, applies the node filter,
        converts the result to flow nodes and edges and stores it. */
    method Rebuild(sets: Option<LineageGraphSets>)
      requires Valid()
      modifies this
      ensures Valid()
      ensures sets.None? ==> State() == old(State())
      ensures sets.Some? ==>
        var g := FilterGraph(if old(viewMode) == ChangedModels then sets.value.changed else sets.value.all,
                             filterNodes);
        var flow := ops.toReactflow(g, sets.value.modifiedSet);
        State() == old(State()).(lineageGraph := Some(g), modifiedSet := Some(sets.value.modifiedSet),
                                 nodes := flow.0, edges := flow.1)
    {
      if sets.None? {
        return;
      }
      var graph := if viewMode == ChangedModels then sets.value.changed else sets.value.all;
      graph := FilterGraph(graph, filterNodes);
      var flow := ops.toReactflow(graph, sets.value.modifiedSet);
      lineageGraph := Some(graph);
      modifiedSet := Some(sets.value.modifiedSet);
      nodes, edges := flow.0, flow.1;
    }

    method CloseContextMenu()
      requires Valid()
      modifies this
      ensures Valid()
      ensures State() == old(State()).(isContextMenuRendered := false, contextMenuPosition := ClosedMenu)
    {
      isContextMenuRendered := false;
      contextMenuPosition := ClosedMenu;
    }

    /** A click on a node. A non-interactive view ignores it. Otherwise the
        context menu closes; in detail and action-result mode the node is
        shown in the detail view and becomes the only selected node; in
        action mode its selection is toggled. */
    method OnNodeClick(node: FlowNode)
      requires Valid()
      modifies this
      ensures Valid()
      ensures !interactive ==> State() == old(State())
      ensures interactive && old(selectMode) != Action ==>
        State() == old(State()).(
          isContextMenuRendered := false, contextMenuPosition := ClosedMenu,
          detailViewSelected := Some(node.data), isDetailViewShown := true,
          nodes := ops.selectSingleNode(node.id, old(nodes)))
      ensures interactive && old(selectMode) == Action ==>
        State() == old(State()).(
          isContextMenuRendered := false, contextMenuPosition := ClosedMenu,
          nodes := ops.selectNode(node.id, old(nodes)))
    {
      if !interactive {
        return;
      }
      CloseContextMenu();
      if selectMode == Detail || selectMode == ActionResult {
        detailViewSelected := Some(node.data);
        if !isDetailViewShown {
          isDetailViewShown := true;
        }
        nodes := ops.selectSingleNode(node.id, nodes);
      } else {
        nodes := ops.selectNode(node.id, nodes);
      }
    }

    /** A right click opens the context menu on the node, in action mode only. */
    method OnNodeContextMenu(node: FlowNode, clientX: int, clientY: int)
      requires Valid()
      modifies this
      ensures Valid()
      ensures old(selectMode) != Action ==> State() == old(State())
      ensures old(selectMode) == Action ==>
        State() == old(State()).(contextMenuPosition := MenuPosition(clientX, clientY, Some(node)),
                                 isContextMenuRendered := true)
    {
      if selectMode != Action {
        return;
      }
      contextMenuPosition := MenuPosition(clientX, clientY, Some(node));
      isContextMenuRendered := true;
    }

    /** "Select parent nodes": selects exactly the upstream closure of the
        menu's node; a no-op unless in action mode with a recorded node and
        a loaded graph. */
    method SelectParentNodes()
      requires Valid()
      modifies this
      ensures Valid()
      ensures !(old(selectMode) == Action && old(contextMenuPosition.selectedNode).Some? && old(lineageGraph).Some?)
        ==> State() == old(State())
      ensures old(selectMode) == Action && old(contextMenuPosition.selectedNode).Some? && old(lineageGraph).Some? ==>
        var ids := ops.selectUpstream(old(lineageGraph).value, [old(contextMenuPosition.selectedNode).value.id]);
        State() == old(State()).(nodes := ops.selectNodes(ids, old(nodes)))
    {
      var selected := contextMenuPosition.selectedNode;
      if selectMode != Action || selected.None? || lineageGraph.None? {
        return;
      }
      var upstream := ops.selectUpstream(lineageGraph.value, [selected.value.id]);
      nodes := ops.selectNodes(upstream, nodes);
    }

    /** "Select child nodes": the downstream counterpart, with the same guard. */
    method SelectChildNodes()
      requires Valid()
      modifies this
      ensures Valid()
      ensures !(old(selectMode) == Action && old(contextMenuPosition.selectedNode).Some? && old(lineageGraph).Some?)
        ==> State() == old(State())
      ensures old(selectMode) == Action && old(contextMenuPosition.selectedNode).Some? && old(lineageGraph).Some? ==>
        var ids := ops.selectDownstream(old(lineageGraph).value, [old(contextMenuPosition.selectedNode).value.id]);
        State() == old(State()).(nodes := ops.selectNodes(ids, old(nodes)))
    {
      var selected := contextMenuPosition.selectedNode;
      if selectMode != Action || selected.None? || lineageGraph.None? {
        return;
      }
      var downstream := ops.selectDownstream(lineageGraph.value, [selected.value.id]);
      nodes := ops.selectNodes(downstream, nodes);
    }

    /** Hovering a node highlights its paths to the modified set, once a
        graph and a modified set are loaded. */
    method OnNodeMouseEnter(node: FlowNode)
      requires Valid()
      modifies this
      ensures Valid()
      ensures !(old(lineageGraph).Some? && old(modifiedSet).Some?) ==> State() == old(State())
      ensures old(lineageGraph).Some? && old(modifiedSet).Some? ==>
        var h := ops.highlightPath(old(lineageGraph).value, old(modifiedSet).value, old(nodes), old(edges), Some(node.id));
        State() == old(State()).(nodes := h.0, edges := h.1)
    {
      if lineageGraph.Some? && modifiedSet.Some? {
        var h := ops.highlightPath(lineageGraph.value, modifiedSet.value, nodes, edges, Some(node.id));
        nodes, edges := h.0, h.1;
      }
    }

    /** Leaving a node clears the highlight (a null focus). */
    method OnNodeMouseLeave(node: FlowNode)
      requires Valid()
      modifies this
      ensures Valid()
      ensures !(old(lineageGraph).Some? && old(modifiedSet).Some?) ==> State() == old(State())
      ensures old(lineageGraph).Some? && old(modifiedSet).Some? ==>
        var h := ops.highlightPath(old(lineageGraph).value, old(modifiedSet).value, old(nodes), old(edges), None);
        State() == old(State()).(nodes := h.0, edges := h.1)
    {
      if lineageGraph.Some? && modifiedSet.Some? {
        var h := ops.highlightPath(lineageGraph.value, modifiedSet.value, nodes, edges, None);
        nodes, edges := h.0, h.1;
      }
    }

    /** An action reported a new version of `node`. */
    method HandleActionNodeUpdated(node: LineageGraphNode)
      requires Valid()
      modifies this
      ensures Valid()
      ensures State() == old(State()).(nodes := ReplaceNodeData(old(nodes), node))
    {
      nodes := ReplaceNodeData(nodes, node);
    }

    /** The "Select Models" button, shown in an interactive view and enabled
        only in detail mode: it enters action mode, clears the detail
        selection and hides the detail view. */
    method SelectModels()
      requires Valid()
      requires interactive && selectMode == Detail
      modifies this
      ensures Valid()
      ensures State() == old(State()).(
        selectMode := Action, detailViewSelected := None, isDetailViewShown := false,
        nodes := ops.cleanUpNodes(old(nodes), Some(true)))
    {
      var newMode := Action;
      detailViewSelected := None;
      isDetailViewShown := false;
      nodes := ops.cleanUpNodes(nodes, Some(newMode == Action));
      selectMode := newMode;
    }

    /** Closing the node selector (mounted outside detail mode) returns to
        detail mode with no detail selection. */
    method CloseSelector()
      requires Valid()
      requires selectMode != Detail
      modifies this
      ensures Valid()
      ensures State() == old(State()).(
        selectMode := Detail, detailViewSelected := None, isDetailViewShown := false,
        nodes := ops.cleanUpNodes(old(nodes), None))
    {
      selectMode := Detail;
      var newNodes := ops.cleanUpNodes(nodes, None);
      detailViewSelected := None;
      isDetailViewShown := false;
      nodes := newNodes;
    }

    /** Starting an action from the node selector. */
    method ActionStarted()
      requires Valid()
      requires selectMode != Detail
      modifies this
      ensures Valid()
      ensures State() == old(State()).(selectMode := ActionResult)
    {
      selectMode := ActionResult;
    }

    /** Adding a lineage-diff check finished. */
    method AddCheckFinished()
      requires Valid()
      requires interactive
      modifies this
      ensures Valid()
      ensures State() == old(State()).(selectMode := Detail)
    {
      selectMode := Detail;
    }

    /** The "switch mode" control flips between all nodes and changed models
        and clears the selection flags. The view mode is a dependency of the
        effect that lays the graph out again, so the source then rebuilds
        the nodes and edges; here that is the caller's `Rebuild`. */
    method SwitchViewMode()
      requires Valid()
      requires interactive
      modifies this
      ensures Valid()
      ensures State() == old(State()).(
        viewMode := if old(viewMode) == All then ChangedModels else All,
        nodes := ops.cleanUpNodes(old(nodes), None))
    {
      viewMode := if viewMode == All then ChangedModels else All;
      nodes := ops.cleanUpNodes(nodes, None);
    }

    /** "Show all nodes" on the no-change screen leaves that screen. */
    method ShowAllNodes()
      requires Valid()
      requires NoChange(viewMode, modifiedSet)
      modifies this
      ensures Valid()
      ensures State() == old(State()).(viewMode := All)
      ensures !NoChange(viewMode, modifiedSet)
    {
      viewMode := All;
    }

    /** Closing the detail view (mounted in detail mode with a node). */
    method CloseNodeView()
      requires Valid()
      requires selectMode == Detail && detailViewSelected.Some?
      modifies this
      ensures Valid()
      ensures State() == old(State()).(
        detailViewSelected := None, isDetailViewShown := false,
        nodes := ops.cleanUpNodes(old(nodes), None))
    {
      detailViewSelected := None;
      isDetailViewShown := false;
      nodes := ops.cleanUpNodes(nodes, None);
    }

    /** Closing the run-result view (mounted in action-result mode with a
        node); the selection flags stay. */
    method CloseNodeRunView()
      requires Valid()
      requires selectMode == ActionResult && detailViewSelected.Some?
      modifies this
      ensures Valid()
      ensures State() == old(State()).(detailViewSelected := None, isDetailViewShown := false)
    {
      detailViewSelected := None;
      isDetailViewShown := false;
    }
  }
}
