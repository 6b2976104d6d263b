/** The profile-diff result view: the primary key it passes to the diff
    grid, the pinned columns it reads from and writes back to its view
    options, and the empty-grid case. */
module ProfileDiffResultView {
  import opened Wrappers
  import Text

  datatype SchemaField = SchemaField(name: string, fieldType: string)

  /** The part of a profile data frame the view reads: its schema fields. */
  datatype ProfileFrame = ProfileFrame(fields: seq<SchemaField>)

  datatype ProfileDiffResult = ProfileDiffResult(base: Option<ProfileFrame>, current: Option<ProfileFrame>)

  /** The view options the component reads and writes: `pinnedColumns`,
      and any other option, kept as it is by the spread update. */
  datatype ViewOptions = ViewOptions(pinnedColumns: Option<seq<string>>, other: map<string, string>)

  const DefaultPrimaryKey := "column_name"

  /** `viewOptions?.pinnedColumns || []` */
  function PinnedColumnsOf(viewOptions: Option<ViewOptions>): (pins: seq<string>)
    ensures viewOptions.None? || viewOptions.value.pinnedColumns.None? ==> pins == []
    ensures viewOptions.Some? && viewOptions.value.pinnedColumns.Some? ==> pins == viewOptions.value.pinnedColumns.value
  {
    if viewOptions.Some? && viewOptions.value.pinnedColumns.Some? then viewOptions.value.pinnedColumns.value else []
  }

  /** The field test of `find`: the name is "column_name" in lower case. */
  predicate IsColumnNameField(f: SchemaField) {
    Text.AsciiLower(f.name) == DefaultPrimaryKey
  }

  /** The position `fields.find(test)` stops at, or -1. */
  function FindField(fields: seq<SchemaField>): (i: int)
    ensures -1 <= i < |fields|
    ensures 0 <= i ==> IsColumnNameField(fields[i]) && forall j :: 0 <= j < i ==> !IsColumnNameField(fields[j])
    ensures i < 0 ==> forall j :: 0 <= j < |fields| ==> !IsColumnNameField(fields[j])
  {
    if fields == [] then -1
    else if IsColumnNameField(fields[0]) then 0
    else
      var k := FindField(fields[1..]);
      if k < 0 then -1 else k + 1
  }

  /** `field?.name || "column_name"`, the fields taken from the current
      side (none when the result or that side is absent). */
  function PrimaryKey(result: Option<ProfileDiffResult>): (key: string)
    ensures Text.AsciiLower(key) == DefaultPrimaryKey
    ensures result.None? || result.value.current.None? ==> key == DefaultPrimaryKey
  {
    var fields := if result.Some? && result.value.current.Some? then result.value.current.value.fields else [];
    var i := FindField(fields);
    Text.AsciiLowerFixed(DefaultPrimaryKey);
    if i >= 0 && fields[i].name != "" then fields[i].name else DefaultPrimaryKey
  }

  /** The key is the first current field named "column_name" in any
      letter case, and the literal "column_name" when there is none. */
  lemma PrimaryKeyChoice(current: ProfileFrame, base: Option<ProfileFrame>)
    ensures var key := PrimaryKey(Some(ProfileDiffResult(base, Some(current))));
            (exists i :: 0 <= i < |current.fields| && current.fields[i].name == key
                          && forall j :: 0 <= j < i ==> !IsColumnNameField(current.fields[j]))
            || (key == DefaultPrimaryKey && forall i :: 0 <= i < |current.fields| ==> !IsColumnNameField(current.fields[i]))
  {
  }

  /** `handlePinnedColumnsChanged`: `{...viewOptions, pinnedColumns}`. */
  function WithPinnedColumns(viewOptions: Option<ViewOptions>, pins: seq<string>): (r: ViewOptions)
    ensures PinnedColumnsOf(Some(r)) == pins
    ensures r.other == if viewOptions.Some? then viewOptions.value.other else map[]
  {
    var base := if viewOptions.Some? then viewOptions.value else ViewOptions(None, map[]);
    base.(pinnedColumns := Some(pins))
  }

  /** Writing back the pins the view read changes nothing it reads. */
  lemma WritebackStable(viewOptions: ViewOptions)
    requires viewOptions.pinnedColumns.Some?
    ensures WithPinnedColumns(Some(viewOptions), PinnedColumnsOf(Some(viewOptions))) == viewOptions
  {
  }

  /** The options `toDataDiffGrid` receives. */
  datatype DiffGridOptions = DiffGridOptions(primaryKeys: seq<string>, pinnedColumns: seq<string>)

  /** `toDataDiffGrid`: the diff grid builder, of which only the number of
      columns matters here; its source is not part of this model. */
  type DiffGridColumns = (Option<ProfileFrame>, Option<ProfileFrame>, DiffGridOptions) -> nat

  datatype Screen = NoData | Grid(options: DiffGridOptions)

  function View(result: Option<ProfileDiffResult>, viewOptions: Option<ViewOptions>, toDataDiffGrid: DiffGridColumns): (v: Screen)
    ensures var options := DiffGridOptions([PrimaryKey(result)], PinnedColumnsOf(viewOptions));
            && (v.NoData? <==> toDataDiffGrid(if result.Some? then result.value.base else None,
                                               if result.Some? then result.value.current else None, options) == 0)
            && (v.Grid? ==> v.options == options)
  {
    var options := DiffGridOptions([PrimaryKey(result)], PinnedColumnsOf(viewOptions));
    var base := if result.Some? then result.value.base else None;
    var current := if result.Some? then result.value.current else None;
    if toDataDiffGrid(base, current, options) == 0 then NoData else Grid(options)
  }

  /** The grid is keyed by exactly one column, whose name reads
      "column_name" in lower case. */
  lemma GridKeyedByColumnName(result: Option<ProfileDiffResult>, viewOptions: Option<ViewOptions>, toDataDiffGrid: DiffGridColumns)
    ensures var v := View(result, viewOptions, toDataDiffGrid);
            v.Grid? ==> |v.options.primaryKeys| == 1 && Text.AsciiLower(v.options.primaryKeys[0]) == DefaultPrimaryKey
  {
  }
}
