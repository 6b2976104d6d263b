/** The query-result grid: column order with pinned columns first, the
    column keys, the in-place row numbering, the pin and unpin handlers and
    the empty-grid case. */
module QueryResultView {
  import opened Wrappers
  import Seqs
  import Text

  datatype DataFrameColumn = DataFrameColumn(name: string, columnType: string)

  datatype Cell = NumberCell(n: int) | TextCell(s: string) | NullCell

  /** A result row: a record from field name to value. */
  type Row = map<string, Cell>

  datatype DataFrame = DataFrame(columns: seq<DataFrameColumn>, data: array<Row>)

  /** A grid column: the leading row-number column, or a data column whose
      key is the decimal rendering of `keyIndex`, a position in the data
      frame's columns. */
  datatype GridColumn = IndexColumn | DataColumn(keyIndex: nat, name: string)
  {
    /** The header text: empty for the row-number column. */
    function Header(): string {
      if IndexColumn? then "" else name
    }
  }

  datatype DataGrid = DataGrid(columns: seq<GridColumn>, rows: array<Row>)

  /** The `key` the grid receives for a column. */
  function Key(c: GridColumn): string {
    if c.IndexColumn? then "_index" else Text.DecimalString(c.keyIndex)
  }

  function ColumnNames(cols: seq<DataFrameColumn>): (r: seq<string>)
    ensures |r| == |cols| && forall i :: 0 <= i < |cols| ==> r[i] == cols[i].name
  {
    if cols == [] then [] else ColumnNames(cols[..|cols| - 1]) + [cols[|cols| - 1].name]
  }

  /** `_.findIndex(columns, col => col.name === name)`: the first position
      holding `name`, or -1. */
  function FindIndex(cols: seq<DataFrameColumn>, name: string): (i: int)
    ensures -1 <= i < |cols|
    ensures 0 <= i ==> cols[i].name == name && forall j :: 0 <= j < i ==> cols[j].name != name
    ensures i < 0 ==> forall j :: 0 <= j < |cols| ==> cols[j].name != name
  {
    if cols == [] then -1
    else if cols[0].name == name then 0
    else
      var k := FindIndex(cols[1..], name);
      if k < 0 then -1 else k + 1
  }

  /** The column built for the data-frame column at position `i`. */
  function ToColumn(i: nat, name: string): GridColumn {
    DataColumn(i, name)
  }

  /** The pinned pass: one column per pinned name found among the columns,
      in pin order, keyed by the name's first position. */
  function PinnedColumns(cols: seq<DataFrameColumn>, pins: seq<string>): (r: seq<GridColumn>)
    ensures forall k :: 0 <= k < |r| ==>
      && r[k].DataColumn? && r[k].name in pins
      && FindIndex(cols, r[k].name) == r[k].keyIndex
      && r[k].keyIndex < |cols| && cols[r[k].keyIndex].name == r[k].name
    decreases |pins|
  {
    if pins == [] then []
    else
      var rest := PinnedColumns(cols, pins[..|pins| - 1]);
      var name := pins[|pins| - 1];
      var i := FindIndex(cols, name);
      if i < 0 then rest else rest + [ToColumn(i, name)]
  }

  /** The second pass: every column whose name is not pinned, in column
      order, keyed by its own position. */
  function UnpinnedColumns(cols: seq<DataFrameColumn>, pins: seq<string>): (r: seq<GridColumn>)
    ensures forall k :: 0 <= k < |r| ==>
      && r[k].DataColumn? && r[k].name !in pins
      && r[k].keyIndex < |cols| && cols[r[k].keyIndex].name == r[k].name
    ensures forall a, b :: 0 <= a < b < |r| ==> r[a].keyIndex < r[b].keyIndex
    decreases |cols|
  {
    if cols == [] then []
    else
      var rest := UnpinnedColumns(cols[..|cols| - 1], pins);
      var last := |cols| - 1;
      if cols[last].name in pins then rest else rest + [ToColumn(last, cols[last].name)]
  }

  /** The grid's columns: the row-number column, the pinned pass, the rest. */
  function GridColumns(cols: seq<DataFrameColumn>, pins: seq<string>): seq<GridColumn> {
    [IndexColumn] + PinnedColumns(cols, pins) + UnpinnedColumns(cols, pins)
  }

  function NamesOf(gs: seq<GridColumn>): (r: seq<string>)
    ensures |r| == |gs| && forall k :: 0 <= k < |gs| ==> r[k] == gs[k].Header()
  {
    if gs == [] then [] else NamesOf(gs[..|gs| - 1]) + [gs[|gs| - 1].Header()]
  }

  /** The test "some column has this name". */
  function PresentTest(cols: seq<DataFrameColumn>): (t: string -> bool)
    ensures forall x :: t(x) == (FindIndex(cols, x) >= 0)
  {
    x => FindIndex(cols, x) >= 0
  }

  /** The test "this name is not pinned". */
  function NotPinnedTest(pins: seq<string>): (t: string -> bool)
    ensures forall x :: t(x) == (x !in pins)
  {
    x => x !in pins
  }

  /** The test "this name is pinned". */
  function PinnedTest(pins: seq<string>): (t: string -> bool)
    ensures forall x :: t(x) == (x in pins)
  {
    x => x in pins
  }

  lemma FindIndexFound(cols: seq<DataFrameColumn>, x: string)
    ensures FindIndex(cols, x) >= 0 <==> x in ColumnNames(cols)
  {
  }

  /** The pinned pass emits the pinned names that exist, in pin order. */
  lemma {:induction false} PinnedColumnsNames(cols: seq<DataFrameColumn>, pins: seq<string>)
    ensures NamesOf(PinnedColumns(cols, pins)) == Seqs.Filter(pins, PresentTest(cols))
    decreases |pins|
  {
    if pins != [] {
      var rest := pins[..|pins| - 1];
      PinnedColumnsNames(cols, rest);
      var before := PinnedColumns(cols, rest);
      var name := pins[|pins| - 1];
      if FindIndex(cols, name) >= 0 {
        var after := before + [ToColumn(FindIndex(cols, name), name)];
        assert after[..|after| - 1] == before;
      }
    }
  }

  /** The second pass emits the unpinned names, once each, in column order. */
  lemma {:induction false} UnpinnedColumnsNames(cols: seq<DataFrameColumn>, pins: seq<string>)
    ensures NamesOf(UnpinnedColumns(cols, pins)) == Seqs.Filter(ColumnNames(cols), NotPinnedTest(pins))
    decreases |cols|
  {
    if cols != [] {
      var rest := cols[..|cols| - 1];
      UnpinnedColumnsNames(rest, pins);
      var names := ColumnNames(cols);
      assert names[..|names| - 1] == ColumnNames(rest);
      var before := UnpinnedColumns(rest, pins);
      var last := cols[|cols| - 1];
      if last.name !in pins {
        var after := before + [ToColumn(|cols| - 1, last.name)];
        assert after[..|after| - 1] == before;
      }
    }
  }

  lemma NamesOfConcat(a: seq<GridColumn>, b: seq<GridColumn>)
    ensures NamesOf(a + b) == NamesOf(a) + NamesOf(b)
  {
  }

  /** The layout of the grid: the row-number column first, then the pinned
      names that exist in pin order, then every unpinned column in column
      order. */
  lemma GridColumnsLayout(cols: seq<DataFrameColumn>, pins: seq<string>)
    ensures var g := GridColumns(cols, pins);
            var n := |Seqs.Filter(pins, PresentTest(cols))|;
            && 1 + n <= |g| && g[0] == IndexColumn
            && NamesOf(g[1..1 + n]) == Seqs.Filter(pins, PresentTest(cols))
            && NamesOf(g[1 + n..]) == Seqs.Filter(ColumnNames(cols), NotPinnedTest(pins))
            && (forall k :: 1 <= k < |g| ==> g[k].DataColumn?)
  {
    var p, u := PinnedColumns(cols, pins), UnpinnedColumns(cols, pins);
    var g := GridColumns(cols, pins);
    PinnedColumnsNames(cols, pins);
    UnpinnedColumnsNames(cols, pins);
    assert g[1..1 + |p|] == p;
    assert g[1 + |p|..] == u;
  }

  /** The pinned names present in the frame are, without repetition, the
      frame's column names that are pinned. */
  lemma PinnedPresentCount(cols: seq<DataFrameColumn>, pins: seq<string>)
    requires Seqs.Distinct(ColumnNames(cols)) && Seqs.Distinct(pins)
    ensures multiset(Seqs.Filter(pins, PresentTest(cols))) == multiset(Seqs.Filter(ColumnNames(cols), PinnedTest(pins)))
  {
    var names := ColumnNames(cols);
    var fromPins, fromNames := Seqs.Filter(pins, PresentTest(cols)), Seqs.Filter(names, PinnedTest(pins));
    Seqs.FilterDistinct(pins, PresentTest(cols));
    Seqs.FilterDistinct(names, PinnedTest(pins));
    forall x ensures multiset(fromPins)[x] == multiset(fromNames)[x] {
      Seqs.DistinctCount(fromPins, x);
      Seqs.DistinctCount(fromNames, x);
      Seqs.FilterMembership(pins, PresentTest(cols), x);
      Seqs.FilterMembership(names, PinnedTest(pins), x);
      FindIndexFound(cols, x);
    }
  }

  /** With distinct column names and distinct pins, the data columns of the
      grid are a permutation of the data frame's columns. */
  lemma GridColumnsPermutation(cols: seq<DataFrameColumn>, pins: seq<string>)
    requires Seqs.Distinct(ColumnNames(cols)) && Seqs.Distinct(pins)
    ensures multiset(NamesOf(GridColumns(cols, pins)[1..])) == multiset(ColumnNames(cols))
  {
    var names := ColumnNames(cols);
    var p, u := PinnedColumns(cols, pins), UnpinnedColumns(cols, pins);
    assert GridColumns(cols, pins)[1..] == p + u;
    NamesOfConcat(p, u);
    PinnedColumnsNames(cols, pins);
    UnpinnedColumnsNames(cols, pins);
    Seqs.FilterPartition(names, PinnedTest(pins), NotPinnedTest(pins));
    PinnedPresentCount(cols, pins);
  }

  /** With distinct pins every grid column has its own key. */
  lemma GridKeysDistinct(cols: seq<DataFrameColumn>, pins: seq<string>)
    requires Seqs.Distinct(pins)
    ensures var g := GridColumns(cols, pins);
            forall a, b :: 0 <= a < b < |g| ==> Key(g[a]) != Key(g[b])
  {
    var p, u := PinnedColumns(cols, pins), UnpinnedColumns(cols, pins);
    var g := GridColumns(cols, pins);
    PinnedColumnsNames(cols, pins);
    Seqs.FilterDistinct(pins, PresentTest(cols));
    assert Seqs.Distinct(NamesOf(p));
    forall a, b | 0 <= a < b < |g| ensures Key(g[a]) != Key(g[b]) {
      if a == 0 {
        assert Key(g[b])[0] != '_';
      } else if Key(g[a]) == Key(g[b]) {
        Text.DecimalStringInjective(g[a].keyIndex, g[b].keyIndex);
      }
    }
  }

  /** `pinnedColumns.includes(name) ? handleUnpin : handlePin` */
  function Pin(pins: seq<string>, name: string): (r: seq<string>)
    ensures |r| == |pins| + 1 && r[..|pins|] == pins && r[|pins|] == name
  {
    pins + [name]
  }

  function Unpin(pins: seq<string>, name: string): (r: seq<string>)
    ensures name !in r
    ensures forall x :: x != name ==> multiset(r)[x] == multiset(pins)[x]
  {
    var r := Seqs.Filter(pins, NotEqualTest(name));
    assert name !in r by { Seqs.FilterMembership(pins, NotEqualTest(name), name); }
    assert forall x :: x != name ==> multiset(r)[x] == multiset(pins)[x] by {
      forall x | x != name ensures multiset(r)[x] == multiset(pins)[x] {
        Seqs.FilterCount(pins, NotEqualTest(name), x);
      }
    }
    r
  }

  function NotEqualTest(name: string): (t: string -> bool)
    ensures forall x :: t(x) == (x != name)
  {
    x => x != name
  }

  /** A click on a column's pin icon: unpin a pinned column, pin another.
      The click toggles whether the column is pinned and leaves every other
      column's pins as they were. */
  function HeaderClick(pins: seq<string>, name: string): (r: seq<string>)
    ensures name in r <==> name !in pins
    ensures forall x :: x != name ==> multiset(r)[x] == multiset(pins)[x]
  {
    if name in pins then Unpin(pins, name) else Pin(pins, name)
  }

  /** Unpinning after pinning is the same as unpinning alone. */
  lemma UnpinAfterPin(pins: seq<string>, name: string)
    ensures Unpin(Pin(pins, name), name) == Unpin(pins, name)
  {
  }

  /** Unpinning keeps the order of the other pins. */
  lemma UnpinKeepsOrder(a: seq<string>, b: seq<string>, name: string)
    ensures Unpin(a + b, name) == Unpin(a, name) + Unpin(b, name)
  {
    Seqs.FilterConcat(a, b, NotEqualTest(name));
  }

  /** Two clicks on an unpinned column's icon restore the pin list. */
  lemma HeaderClickTwice(pins: seq<string>, name: string)
    requires name !in pins
    ensures HeaderClick(HeaderClick(pins, name), name) == pins
  {
    UnpinAfterPin(pins, name);
    Seqs.FilterAll(pins, NotEqualTest(name));
  }

  /** Clicking pin icons never makes a pin list repeat a name. */
  lemma HeaderClickDistinct(pins: seq<string>, name: string)
    requires Seqs.Distinct(pins)
    ensures Seqs.Distinct(HeaderClick(pins, name))
  {
    if name in pins {
      Seqs.FilterDistinct(pins, NotEqualTest(name));
    }
  }

  /** The row with its 1-based row number stamped in. */
  function Numbered(row: Row, i: nat): Row {
    row["_index" := NumberCell(i + 1)]
  }

  /** `toDataGrid`: builds the columns with two passes and numbers the rows
      of the data frame in place; the grid's rows are the frame's own array. */
  method ToDataGrid(result: DataFrame, pinnedOption: Option<seq<string>>) returns (grid: DataGrid)
    modifies result.data
    ensures grid.rows == result.data
    ensures grid.columns == GridColumns(result.columns, if pinnedOption.Some? then pinnedOption.value else [])
    ensures forall j :: 0 <= j < result.data.Length ==> result.data[j] == Numbered(old(result.data[j]), j)
  {
    var pins := if pinnedOption.Some? then pinnedOption.value else [];
    var columns := [IndexColumn];
    var pinned: seq<GridColumn> := [];
    var k := 0;
    while k < |pins|
      invariant 0 <= k <= |pins|
      invariant pinned == PinnedColumns(result.columns, pins[..k])
    {
      var name := pins[k];
      var i := FindIndex(result.columns, name);
      assert pins[..k + 1][..k] == pins[..k];
      if i >= 0 {
        pinned := pinned + [ToColumn(i, name)];
      }
      k := k + 1;
    }
    assert pins[..k] == pins;
    var unpinned: seq<GridColumn> := [];
    var index := 0;
    while index < |result.columns|
      invariant 0 <= index <= |result.columns|
      invariant unpinned == UnpinnedColumns(result.columns[..index], pins)
    {
      var col := result.columns[index];
      assert result.columns[..index + 1][..index] == result.columns[..index];
      if col.name !in pins {
        unpinned := unpinned + [ToColumn(index, col.name)];
      }
      index := index + 1;
    }
    assert result.columns[..index] == result.columns;
    columns := columns + pinned + unpinned;
    NumberRows(result.data);
    grid := DataGrid(columns, result.data);
  }

  /** Stamps every row of the array with its 1-based row number. */
  method NumberRows(data: array<Row>)
    modifies data
    ensures forall j :: 0 <= j < data.Length ==> data[j] == Numbered(old(data[j]), j)
  {
    var r := 0;
    while r < data.Length
      invariant 0 <= r <= data.Length
      invariant forall j :: 0 <= j < r ==> data[j] == Numbered(old(data[j]), j)
      invariant forall j :: r <= j < data.Length ==> data[j] == old(data[j])
    {
      data[r] := Numbered(data[r], r);
      r := r + 1;
    }
  }

  /** The view's grid: an absent data frame gives an empty grid, which the
      view shows as "No data"; any data frame gives at least the
      row-number column. */
  method GridData(dataframe: Option<DataFrame>, pinnedColumns: Option<seq<string>>) returns (grid: DataGrid)
    modifies if dataframe.Some? then {dataframe.value.data} else {}
    ensures |grid.columns| == 0 <==> dataframe.None?
    ensures dataframe.None? ==> grid.rows.Length == 0
    ensures dataframe.Some? ==>
      && grid.rows == dataframe.value.data
      && grid.columns == GridColumns(dataframe.value.columns, if pinnedColumns.Some? then pinnedColumns.value else [])
      && forall j :: 0 <= j < grid.rows.Length ==> grid.rows[j] == Numbered(old(grid.rows[j]), j)
  {
    if dataframe.None? {
      var rows := new Row[0];
      return DataGrid([], rows);
    }
    grid := ToDataGrid(dataframe.value, pinnedColumns);
  }
}
