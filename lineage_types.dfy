/** The lineage-graph values that the view components receive from the
    graph-merge library (whose own source is not part of this model). */
module LineageTypes {
  import opened Wrappers

  /** One column of a node's schema (name and data type). */
  datatype ColumnEntry = ColumnEntry(name: string, columnType: string)

  /** One environment's view of a node; `columns` is absent when the
      catalog has no schema for it. The columns keep their insertion order,
      the order `Object.keys` reports. */
  datatype NodeData = NodeData(columns: Option<seq<ColumnEntry>>)

  /** The base and current sides of a node; a side is absent when the node
      does not exist in that environment. */
  datatype NodeSides = NodeSides(base: Option<NodeData>, current: Option<NodeData>)

  datatype LineageGraphNode = LineageGraphNode(
    id: string,
    name: string,
    resourceType: string,
    data: NodeSides,
    isSelected: bool)

  /** A node-map entry: key and node, in object insertion order. */
  type NodeEntry = (string, LineageGraphNode)

  datatype GraphEdge = GraphEdge(source: string, target: string)

  datatype LineageGraph = LineageGraph(nodes: seq<NodeEntry>, edges: seq<GraphEdge>)

  /** Whether each environment has a catalog; a flag may be undefined. */
  datatype CatalogExistence = CatalogExistence(base: Option<bool>, current: Option<bool>)

  datatype LineageGraphSets = LineageGraphSets(
    all: LineageGraph,
    changed: LineageGraph,
    modifiedSet: seq<string>,
    catalogExistence: CatalogExistence)

  /** `nodes[key]` on the node map: the node stored under `key`, if any.
      The entries stand for an object's properties, whose keys are
      distinct; were a key repeated, the first entry would be found. */
  function Lookup(nodes: seq<NodeEntry>, key: string): (r: Option<LineageGraphNode>)
    ensures r.Some? <==> exists i :: 0 <= i < |nodes| && nodes[i].0 == key
    ensures r.Some? ==> (key, r.value) in nodes
  {
    if nodes == [] then None
    else if nodes[0].0 == key then Some(nodes[0].1)
    else Lookup(nodes[1..], key)
  }
}
