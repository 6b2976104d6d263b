/** `DBTContext.find_resource_by_name`: the first node of the chosen
    manifest with the given name. */
module RecceDbt {
  import opened Wrappers

  /** A manifest node; only its name and type matter here. */
  datatype ManifestNode = ManifestNode(uniqueId: string, name: string, resourceType: string)

  /** A manifest's `nodes`, as (unique id, node) entries in iteration order. */
  datatype Manifest = Manifest(nodes: seq<(string, ManifestNode)>)

  /** The `base` argument: `base is False` holds only for the boolean
      `False`; any other value (`True`, `None`, `0`, a string) is not it. */
  datatype BaseArg = PyBool(b: bool) | OtherValue

  /** The loaded context's two manifests; loading is not part of this model. */
  datatype DbtContext = DbtContext(currManifest: Manifest, baseManifest: Manifest)

  /** `self.curr_manifest if base is False else self.base_manifest` */
  function ChosenManifest(ctx: DbtContext, base: BaseArg): Manifest {
    if base == PyBool(false) then ctx.currManifest else ctx.baseManifest
  }

  /** The node is the first of `nodes` named `name`. */
  predicate FirstNamed(nodes: seq<(string, ManifestNode)>, name: string, node: ManifestNode) {
    exists i :: 0 <= i < |nodes| && nodes[i].1 == node && node.name == name
      && forall j :: 0 <= j < i ==> nodes[j].1.name != name
  }

  /** The lookup itself. The name is optional on the command line; no node's
      name equals an absent one, so an absent name finds nothing. */
  method FindResourceByName(ctx: DbtContext, resourceName: Option<string>, base: BaseArg) returns (r: Option<ManifestNode>)
    ensures resourceName.None? ==> r.None?
    ensures var nodes := ChosenManifest(ctx, base).nodes;
            && (r.None? <==> forall i :: 0 <= i < |nodes| ==> Some(nodes[i].1.name) != resourceName)
            && (r.Some? ==> Some(r.value.name) == resourceName && FirstNamed(nodes, resourceName.value, r.value))
  {
    var manifest := ChosenManifest(ctx, base);
    var k := 0;
    while k < |manifest.nodes|
      invariant 0 <= k <= |manifest.nodes|
      invariant forall j :: 0 <= j < k ==> Some(manifest.nodes[j].1.name) != resourceName
    {
      var node := manifest.nodes[k].1;
      if Some(node.name) == resourceName {
        return Some(node);
      }
      k := k + 1;
    }
    return None;
  }

  /** At most one node is the first with a given name. */
  lemma FirstNamedUnique(nodes: seq<(string, ManifestNode)>, name: string, a: ManifestNode, b: ManifestNode)
    requires FirstNamed(nodes, name, a) && FirstNamed(nodes, name, b)
    ensures a == b
  {
  }

  /** Nodes added after the first match do not change which node is found. */
  lemma FirstNamedStable(nodes: seq<(string, ManifestNode)>, more: seq<(string, ManifestNode)>, name: string, node: ManifestNode)
    requires FirstNamed(nodes, name, node)
    ensures FirstNamed(nodes + more, name, node)
  {
    var i :| 0 <= i < |nodes| && nodes[i].1 == node && node.name == name
      && forall j :: 0 <= j < i ==> nodes[j].1.name != name;
    assert (nodes + more)[i] == nodes[i];
    assert forall j :: 0 <= j < i ==> (nodes + more)[j] == nodes[j];
  }
}
