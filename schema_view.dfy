/** The schema view of one node: the warning it shows when a catalog or a
    schema is missing, and whether it shows the merged column grid. */
module SchemaView {
  import opened Wrappers
  import opened LineageTypes

  const CatalogMissingBoth := "catalog.json is missing on both current and base environments."
  const CatalogMissingBase := "catalog.json is missing on base environment."
  const CatalogMissingCurrent := "catalog.json is missing on current environment."
  const SchemaMissingBoth := "Schema information is missing on both current and base environments."
  const SchemaMissingBase := "Schema information is missing on base environment."
  const SchemaMissingCurrent := "Schema information is missing on current environment."

  /** The catalog flag is exactly `false`; an undefined flag or an absent
      graph does not count as missing. */
  predicate CatalogMissing(flag: Option<bool>) {
    flag == Some(false)
  }

  /** `base && base.columns === undefined`: a present side without a schema. */
  predicate SchemaMissing(side: Option<NodeData>) {
    side.Some? && side.value.columns.None?
  }

  /** The if / else-if chain both messages use: one text when both sides
      miss, one per side otherwise, none when neither does. */
  function Choose(missingBase: bool, missingCurrent: bool, both: string, base: string, current: string): (m: Option<string>)
    ensures m.None? <==> !missingBase && !missingCurrent
    ensures m == Some(both) <== missingBase && missingCurrent
    ensures m == Some(base) <== missingBase && !missingCurrent
    ensures m == Some(current) <== !missingBase && missingCurrent
  {
    if missingBase && missingCurrent then Some(both)
    else if missingBase then Some(base)
    else if missingCurrent then Some(current)
    else None
  }

  function CatalogMissingMessage(existence: Option<CatalogExistence>): Option<string> {
    Choose(existence.Some? && CatalogMissing(existence.value.base),
           existence.Some? && CatalogMissing(existence.value.current),
           CatalogMissingBoth, CatalogMissingBase, CatalogMissingCurrent)
  }

  function SchemaMissingMessage(base: Option<NodeData>, current: Option<NodeData>): Option<string> {
    Choose(SchemaMissing(base), SchemaMissing(current),
           SchemaMissingBoth, SchemaMissingBase, SchemaMissingCurrent)
  }

  /** Which sides a warning text reports missing: the inverse of the
      message choice. */
  function SidesOf(m: Option<string>, both: string, base: string, current: string): (bool, bool) {
    if m == Some(both) then (true, true)
    else if m == Some(base) then (true, false)
    else if m == Some(current) then (false, true)
    else (false, false)
  }

  /** The catalog warning names exactly the environments whose catalog is
      missing. */
  lemma CatalogMessageReportsSides(existence: Option<CatalogExistence>)
    ensures SidesOf(CatalogMissingMessage(existence), CatalogMissingBoth, CatalogMissingBase, CatalogMissingCurrent)
      == (existence.Some? && CatalogMissing(existence.value.base),
          existence.Some? && CatalogMissing(existence.value.current))
  {
  }

  /** The schema warning names exactly the present sides without a schema. */
  lemma SchemaMessageReportsSides(base: Option<NodeData>, current: Option<NodeData>)
    ensures SidesOf(SchemaMissingMessage(base, current), SchemaMissingBoth, SchemaMissingBase, SchemaMissingCurrent)
      == (SchemaMissing(base), SchemaMissing(current))
  {
  }

  /** `toDataGrid(mergeColumns(base?.columns, current?.columns))`, of which
      only the number of rows matters here; the column merge is not part of
      this model. */
  type SchemaGridRows = (Option<seq<ColumnEntry>>, Option<seq<ColumnEntry>>) -> nat

  datatype Screen = Screen(alert: Option<string>, showGrid: bool)

  function Columns(side: Option<NodeData>): Option<seq<ColumnEntry>> {
    if side.Some? then side.value.columns else None
  }

  /** The rendered view: the catalog warning takes precedence over the
      schema warning, and the grid shows when the merge has rows. */
  function View(base: Option<NodeData>, current: Option<NodeData>, graphSets: Option<LineageGraphSets>, gridRows: SchemaGridRows): (v: Screen)
    ensures v.showGrid <==> gridRows(Columns(base), Columns(current)) > 0
    ensures CatalogMissingMessage(if graphSets.Some? then Some(graphSets.value.catalogExistence) else None).Some? ==>
      v.alert == CatalogMissingMessage(if graphSets.Some? then Some(graphSets.value.catalogExistence) else None)
    ensures CatalogMissingMessage(if graphSets.Some? then Some(graphSets.value.catalogExistence) else None).None? ==>
      v.alert == SchemaMissingMessage(base, current)
  {
    var existence := if graphSets.Some? then Some(graphSets.value.catalogExistence) else None;
    var catalogMessage := CatalogMissingMessage(existence);
    var alert := if catalogMessage.Some? then catalogMessage else SchemaMissingMessage(base, current);
    Screen(alert, gridRows(Columns(base), Columns(current)) > 0)
  }

  /** No warning shows exactly when no catalog flag is `false` and every
      present side has a schema. */
  lemma NoWarning(base: Option<NodeData>, current: Option<NodeData>, graphSets: Option<LineageGraphSets>, gridRows: SchemaGridRows)
    ensures View(base, current, graphSets, gridRows).alert.None? <==>
      && (graphSets.None? || (!CatalogMissing(graphSets.value.catalogExistence.base) && !CatalogMissing(graphSets.value.catalogExistence.current)))
      && !SchemaMissing(base) && !SchemaMissing(current)
  {
  }

  /** A missing catalog hides the schema warning. */
  lemma CatalogWarningFirst(base: Option<NodeData>, current: Option<NodeData>, existence: CatalogExistence, sets: LineageGraphSets, gridRows: SchemaGridRows)
    requires sets.catalogExistence == existence && (CatalogMissing(existence.base) || CatalogMissing(existence.current))
    ensures var alert := View(base, current, Some(sets), gridRows).alert;
            alert.Some? && alert.value in {CatalogMissingBoth, CatalogMissingBase, CatalogMissingCurrent}
  {
  }
}
