/** The `piti` command line: the five-way impact status of `analyze`, the
    per-impact report lines, and the not-found and empty-side defaults of
    `inspect` and `diff`. */
module PitiCli {
  import opened Wrappers
  import Text

  /** A dbt resource as `piti.dbt` returns it (that module is not part of
      this model). */
  datatype Resource = Resource(name: string, resourceType: string)

  /** The inspector `get_inspector(resource_type, method)` returns, applied
      to the loaded context: the text it renders for a resource, or `None`
      when it renders nothing. */
  type Inspector = Resource -> Option<string>

  /** The loaded dbt context as the commands use it: the lookup by name in
      the current (`false`) or base (`true`) manifest, and the inspector
      registry. Both are outside this model. */
  datatype Context = Context(
    findResourceByName: (Option<string>, bool) -> Option<Resource>,
    getInspector: (string, string) -> Inspector)

  /** One entry of the `impacts` list; a key missing from the entry is absent. */
  datatype Impact = Impact(name: Option<string>, resourceName: Option<string>, methodName: Option<string>)

  datatype ImpactStatus = Unknown | Added | Removed | Unchanged | Changed

  function Symbol(s: ImpactStatus): string {
    match s
    case Unknown => "?"
    case Added => "+"
    case Removed => "-"
    case Unchanged => "="
    case Changed => "!"
  }

  /** The if / elif chain on the two inspected texts. */
  function Classify(before: Option<string>, after: Option<string>): (s: ImpactStatus)
    ensures s == Unknown <==> before.None? && after.None?
    ensures s == Added <==> before.None? && after.Some?
    ensures s == Removed <==> before.Some? && after.None?
    ensures s == Unchanged <==> before.Some? && after.Some? && before.value == after.value
    ensures s == Changed <==> before.Some? && after.Some? && before.value != after.value
  {
    if before.None? && after.None? then Unknown
    else if before.None? then Added
    else if after.None? then Removed
    else if before == after then Unchanged
    else Changed
  }

  /** Swapping the two states swaps added and removed and keeps the rest. */
  lemma ClassifyMirror(before: Option<string>, after: Option<string>)
    ensures Classify(after, before) == match Classify(before, after)
      case Added => Removed
      case Removed => Added
      case other => other
  {
  }

  /** Distinct statuses print distinct symbols. */
  lemma SymbolInjective(s: ImpactStatus, t: ImpactStatus)
    requires Symbol(s) == Symbol(t)
    ensures s == t
  {
  }

  /** `impact.get("method", "summary")` */
  function MethodOf(impact: Impact): string {
    if impact.methodName.Some? then impact.methodName.value else "summary"
  }

  /** The inspected text of a resource: absent for an absent resource, and
      whatever the inspector returns for a present one. */
  function Inspect(inspector: Inspector, resource: Option<Resource>): (text: Option<string>)
    ensures text.Some? ==> resource.Some?
  {
    if resource.Some? then inspector(resource.value) else None
  }

  /** The line `analyze` prints for one impact, as written: the inspector is
      chosen by `node.resource_type` before the absence checks, so an
      impact whose resource is missing from the current manifest raises
      (`None` here) instead of printing a line. */
  function ImpactLineAsWritten(ctx: Context, impact: Impact): (line: Option<string>)
    ensures line.None? <==> ctx.findResourceByName(impact.resourceName, false).None?
  {
    var node := ctx.findResourceByName(impact.resourceName, false);
    var baseNode := ctx.findResourceByName(impact.resourceName, true);
    if node.None? then None
    else
      var inspector := ctx.getInspector(node.value.resourceType, MethodOf(impact));
      var status := Classify(Inspect(inspector, baseNode), Inspect(inspector, node));
      Some(Symbol(status) + " " + Text.PyStr(impact.name))
  }

  /** As written, `analyze` never reports an impact as unknown or removed
      when the inspector renders text for the current resource: the only
      line it prints for a missing current side is none at all. */
  lemma AsWrittenNeverUnknownOrRemoved(ctx: Context, impact: Impact)
    ensures var line := ImpactLineAsWritten(ctx, impact);
            var node := ctx.findResourceByName(impact.resourceName, false);
            line.Some? ==>
              (ctx.getInspector(node.value.resourceType, MethodOf(impact))(node.value).Some? ==>
                 line.value[0] != '?' && line.value[0] != '-')
  {
  }

  /** The concrete case: a resource that exists only in the base manifest
      makes the as-written line raise, where a "-" line is meant. */
  lemma AsWrittenRemovedResourceRaises(ctx: Context, impact: Impact, base: Resource)
    requires ctx.findResourceByName(impact.resourceName, false).None?
    requires ctx.findResourceByName(impact.resourceName, true) == Some(base)
    requires ctx.getInspector(base.resourceType, MethodOf(impact))(base).Some?
    ensures ImpactLineAsWritten(ctx, impact).None?
    ensures ImpactLine(ctx, impact) == "- " + Text.PyStr(impact.name)
  {
  }

  /** The line `analyze` evidently means to print: the inspector is chosen
      by the resource type of whichever side exists. A side is reported
      present when it exists and its inspector renders text. */
  function ImpactLine(ctx: Context, impact: Impact): (line: string)
    ensures var node := ctx.findResourceByName(impact.resourceName, false);
            var baseNode := ctx.findResourceByName(impact.resourceName, true);
            && (node.None? && baseNode.None? ==> line == "? " + Text.PyStr(impact.name))
            && (node.Some? && baseNode.None? ==>
                  var inspector := ctx.getInspector(node.value.resourceType, MethodOf(impact));
                  line == (if inspector(node.value).Some? then "+ " else "? ") + Text.PyStr(impact.name))
            && (node.None? && baseNode.Some? ==>
                  var inspector := ctx.getInspector(baseNode.value.resourceType, MethodOf(impact));
                  line == (if inspector(baseNode.value).Some? then "- " else "? ") + Text.PyStr(impact.name))
  {
    var node := ctx.findResourceByName(impact.resourceName, false);
    var baseNode := ctx.findResourceByName(impact.resourceName, true);
    var resourceType :=
      if node.Some? then node.value.resourceType
      else if baseNode.Some? then baseNode.value.resourceType
      else "";
    var inspector := ctx.getInspector(resourceType, MethodOf(impact));
    var status := Classify(Inspect(inspector, baseNode), Inspect(inspector, node));
    Symbol(status) + " " + Text.PyStr(impact.name)
  }

  /** Wherever the written code prints a line, the corrected one prints
      the same line. */
  lemma ImpactLineAgrees(ctx: Context, impact: Impact)
    requires ImpactLineAsWritten(ctx, impact).Some?
    ensures ImpactLineAsWritten(ctx, impact) == Some(ImpactLine(ctx, impact))
  {
  }

  /** When both sides exist, the line is "=" exactly when the inspector
      renders text for both and the two texts agree. */
  lemma ImpactLineUnchanged(ctx: Context, impact: Impact, node: Resource, baseNode: Resource)
    requires ctx.findResourceByName(impact.resourceName, false) == Some(node)
    requires ctx.findResourceByName(impact.resourceName, true) == Some(baseNode)
    ensures var inspector := ctx.getInspector(node.resourceType, MethodOf(impact));
            ImpactLine(ctx, impact)[0] == '=' <==> inspector(node).Some? && inspector(baseNode) == inspector(node)
  {
  }

  /** Whether the resource of an impact is in the current manifest, the
      one lookup the written loop cannot survive without. */
  predicate InCurrent(ctx: Context, impact: Impact) {
    ctx.findResourceByName(impact.resourceName, false).Some?
  }

  /** `analyze` as written: the loop prints the lines of the impacts before
      the first one whose resource is missing from the current manifest, and
      raises there. */
  method AnalyzeAsWritten(ctx: Context, impacts: Option<seq<Impact>>) returns (lines: seq<string>, raised: bool)
    ensures impacts.None? ==> lines == [] && !raised
    ensures impacts.Some? ==>
      && (raised <==> exists i :: 0 <= i < |impacts.value| && !InCurrent(ctx, impacts.value[i]))
      && |lines| <= |impacts.value|
      && (!raised ==> |lines| == |impacts.value|)
      && (raised ==> |lines| < |impacts.value| && !InCurrent(ctx, impacts.value[|lines|]))
      && forall i :: 0 <= i < |lines| ==>
           && InCurrent(ctx, impacts.value[i])
           && Some(lines[i]) == ImpactLineAsWritten(ctx, impacts.value[i])
           && lines[i] == ImpactLine(ctx, impacts.value[i])
  {
    var list := if impacts.Some? then impacts.value else [];
    lines := [];
    raised := false;
    var k := 0;
    while k < |list|
      invariant 0 <= k <= |list|
      invariant |lines| == k
      invariant forall i :: 0 <= i < k ==>
        && InCurrent(ctx, list[i])
        && Some(lines[i]) == ImpactLineAsWritten(ctx, list[i])
        && lines[i] == ImpactLine(ctx, list[i])
    {
      var line := ImpactLineAsWritten(ctx, list[k]);
      if line.None? {
        raised := true;
        return;
      }
      ImpactLineAgrees(ctx, list[k]);
      lines := lines + [line.value];
      k := k + 1;
    }
  }

  /** `analyze` as evidently meant: one status line per impact, in file
      order; a file without an `impacts` key prints nothing. Where every
      resource is in the current manifest, the lines are those the written
      loop prints. */
  method Analyze(ctx: Context, impacts: Option<seq<Impact>>) returns (lines: seq<string>)
    ensures impacts.None? ==> lines == []
    ensures impacts.Some? ==>
      && |lines| == |impacts.value|
      && forall i :: 0 <= i < |lines| ==> lines[i] == ImpactLine(ctx, impacts.value[i])
    ensures impacts.Some? && (forall i :: 0 <= i < |impacts.value| ==> InCurrent(ctx, impacts.value[i])) ==>
      forall i :: 0 <= i < |lines| ==> Some(lines[i]) == ImpactLineAsWritten(ctx, impacts.value[i])
  {
    var list := if impacts.Some? then impacts.value else [];
    lines := [];
    var k := 0;
    while k < |list|
      invariant 0 <= k <= |list|
      invariant |lines| == k
      invariant forall i :: 0 <= i < k ==> lines[i] == ImpactLine(ctx, list[i])
      invariant forall i :: 0 <= i < k && InCurrent(ctx, list[i]) ==>
        Some(lines[i]) == ImpactLineAsWritten(ctx, list[i])
    {
      if InCurrent(ctx, list[k]) {
        ImpactLineAgrees(ctx, list[k]);
      }
      lines := lines + [ImpactLine(ctx, list[k])];
      k := k + 1;
    }
  }

  /** What `inspect` does without `--sql`: the not-found message, or the
      inspector's output. The method argument arrives with its command-line
      default "summary" already applied. */
  datatype InspectResult = NotFound(message: string, exitCode: int) | Printed(output: string)

  function InspectCommand(ctx: Context, resourceName: Option<string>, methodName: string): (r: InspectResult)
    ensures r.NotFound? <==> ctx.findResourceByName(resourceName, false).None?
    ensures r.NotFound? ==> r.message == "resource not found: " + Text.PyStr(resourceName) && r.exitCode == 0
    ensures r.Printed? ==>
      var resource := ctx.findResourceByName(resourceName, false).value;
      r.output == Text.PyStr(ctx.getInspector(resource.resourceType, methodName)(resource))
  {
    var resource := ctx.findResourceByName(resourceName, false);
    if resource.None? then NotFound("resource not found: " + Text.PyStr(resourceName), 0)
    else
      var inspector := ctx.getInspector(resource.value.resourceType, methodName);
      Printed(Text.PyStr(inspector(resource.value)))
  }

  /** The two texts `diff` hands to the text differ without `--sql`, as
      written: `None` when the resource is missing from the current
      manifest, where `node.resource_type` raises before the absence
      checks. */
  function DiffTextsAsWritten(ctx: Context, resourceName: Option<string>, methodName: string): (r: Option<(Option<string>, Option<string>)>)
    ensures r.None? <==> ctx.findResourceByName(resourceName, false).None?
  {
    var node := ctx.findResourceByName(resourceName, false);
    var baseNode := ctx.findResourceByName(resourceName, true);
    if node.None? then None
    else
      var inspector := ctx.getInspector(node.value.resourceType, methodName);
      var before := if baseNode.Some? then inspector(baseNode.value) else Some("");
      Some((before, inspector(node.value)))
  }

  /** As written, `diff` never shows a removed resource as an empty current
      side: it raises instead. */
  lemma AsWrittenDiffRemovedRaises(ctx: Context, resourceName: Option<string>, methodName: string, base: Resource)
    requires ctx.findResourceByName(resourceName, false).None?
    requires ctx.findResourceByName(resourceName, true) == Some(base)
    ensures DiffTextsAsWritten(ctx, resourceName, methodName).None?
    ensures DiffTexts(ctx, resourceName, methodName)
      == (ctx.getInspector(base.resourceType, methodName)(base), Some(""))
  {
  }

  /** The texts `diff` evidently means to compare: an absent side is the
      empty text, a present one whatever its inspector returns, and the
      inspector is chosen by the resource type of whichever side exists. */
  function DiffTexts(ctx: Context, resourceName: Option<string>, methodName: string): (r: (Option<string>, Option<string>))
    ensures ctx.findResourceByName(resourceName, true).None? ==> r.0 == Some("")
    ensures ctx.findResourceByName(resourceName, false).None? ==> r.1 == Some("")
    ensures var node := ctx.findResourceByName(resourceName, false);
            var baseNode := ctx.findResourceByName(resourceName, true);
            var side := if node.Some? then node else baseNode;
            side.Some? ==>
              var inspector := ctx.getInspector(side.value.resourceType, methodName);
              && (baseNode.Some? ==> r.0 == inspector(baseNode.value))
              && (node.Some? ==> r.1 == inspector(node.value))
  {
    var node := ctx.findResourceByName(resourceName, false);
    var baseNode := ctx.findResourceByName(resourceName, true);
    var resourceType :=
      if node.Some? then node.value.resourceType
      else if baseNode.Some? then baseNode.value.resourceType
      else "";
    var inspector := ctx.getInspector(resourceType, methodName);
    (if baseNode.Some? then inspector(baseNode.value) else Some(""),
     if node.Some? then inspector(node.value) else Some(""))
  }

  /** Wherever the written `diff` compares two texts, the corrected one
      compares the same two. */
  lemma DiffTextsAgree(ctx: Context, resourceName: Option<string>, methodName: string)
    requires DiffTextsAsWritten(ctx, resourceName, methodName).Some?
    ensures DiffTextsAsWritten(ctx, resourceName, methodName) == Some(DiffTexts(ctx, resourceName, methodName))
  {
  }

  /** With both sides present, `diff` compares exactly the two texts `analyze`
      classifies. */
  lemma DiffMatchesAnalyze(ctx: Context, impact: Impact, node: Resource, baseNode: Resource)
    requires ctx.findResourceByName(impact.resourceName, false) == Some(node)
    requires ctx.findResourceByName(impact.resourceName, true) == Some(baseNode)
    ensures var texts := DiffTexts(ctx, impact.resourceName, MethodOf(impact));
            ImpactLine(ctx, impact)[0] == '=' <==> texts.1.Some? && texts.0 == texts.1
  {
  }
}
