/**
 * `export_items_to_csv` up to the point where rows reach the CSV writer:
 * the header row and one dict per item. Opening the file and the writer's
 * own serialisation are not modelled.
 */
module CsvExport {
  import opened Wrappers
  import opened Response

  const ItemIdHeader: string := "Item ID"
  const ItemNameHeader: string := "Item Name"

  /** One cell handed to the writer: a string, or Python's `None` for a null `text`. */
  datatype Cell = Text(value: string) | NoneCell

  /** One row dict: field name to cell. */
  type Row = map<string, Cell>

  /** What reaches the writer: its field names, then the rows in the order written. */
  datatype Table = Table(header: seq<string>, rows: seq<Row>)

  /** The ids of a list of column values, in order. */
  function ColumnIds(cols: seq<ColumnValue>): (ids: seq<string>)
    ensures |ids| == |cols|
    ensures forall j :: 0 <= j < |cols| ==> ids[j] == cols[j].id
  {
    if cols == [] then [] else ColumnIds(cols[..|cols| - 1]) + [cols[|cols| - 1].id]
  }

  /** The field names: the two fixed ones, then the first item's column ids in order
      (a repeated id stays repeated). */
  function Header(first: Item): (h: seq<string>)
    ensures |h| == 2 + |first.columnValues|
    ensures h[0] == ItemIdHeader && h[1] == ItemNameHeader
    ensures forall j :: 0 <= j < |first.columnValues| ==> h[2 + j] == first.columnValues[j].id
  {
    [ItemIdHeader, ItemNameHeader] + ColumnIds(first.columnValues)
  }

  /** `column.get('text', '')`. */
  function CellOf(c: ColumnValue): (cell: Cell)
    ensures cell == NoneCell <==> c.text.Null?
    ensures c.text.Absent? ==> cell == Text("")
    ensures c.text.Present? ==> cell == Text(c.text.value)
  {
    match c.text
    case Absent => Text("")
    case Null => NoneCell
    case Present(t) => Text(t)
  }

  /** The row dict before its columns are filled in. */
  function BaseRow(item: Item): Row {
    map[ItemIdHeader := Text(item.id), ItemNameHeader := Text(item.name)]
  }

  /** `row[column['id']] = ...` for each column in turn, so a later column with the same id
      overwrites an earlier one. */
  function Fill(row: Row, cols: seq<ColumnValue>): (r: Row)
    ensures r.Keys == row.Keys + set j | 0 <= j < |cols| :: cols[j].id
  {
    if cols == [] then row
    else
      var last := cols[|cols| - 1];
      var r := Fill(row, cols[..|cols| - 1])[last.id := CellOf(last)];
      assert forall j :: 0 <= j < |cols| - 1 ==> cols[..|cols| - 1][j] == cols[j];
      r
  }

  /** The row written for one item. */
  function RowOf(item: Item): (r: Row)
    ensures r.Keys ==
      {ItemIdHeader, ItemNameHeader} + set j | 0 <= j < |item.columnValues| :: item.columnValues[j].id
  {
    Fill(BaseRow(item), item.columnValues)
  }

  /** Builds the header and the rows, as the loops of `export_items_to_csv` do; `None` when
      there are no items, in which case nothing is written. */
  method ExportItems(items: seq<Item>) returns (table: Option<Table>)
    ensures table.None? <==> items == []
    ensures table.Some? ==> table.value.header == Header(items[0])
    ensures table.Some? ==> |table.value.rows| == |items|
    ensures table.Some? ==> forall i :: 0 <= i < |items| ==> table.value.rows[i] == RowOf(items[i])
  {
    if items == [] {
      return None;
    }
    var headers := [ItemIdHeader, ItemNameHeader];
    var first := items[0].columnValues;
    var i := 0;
    while i < |first|
      invariant 0 <= i <= |first|
      invariant headers == [ItemIdHeader, ItemNameHeader] + ColumnIds(first[..i])
    {
      assert first[..i + 1][..i] == first[..i];
      headers := headers + [first[i].id];
      i := i + 1;
    }
    assert first[..i] == first;

    var rows: seq<Row> := [];
    for n := 0 to |items|
      invariant |rows| == n
      invariant forall k :: 0 <= k < n ==> rows[k] == RowOf(items[k])
    {
      var item := items[n];
      var row := map[ItemIdHeader := Text(item.id), ItemNameHeader := Text(item.name)];
      for j := 0 to |item.columnValues|
        invariant row == Fill(BaseRow(item), item.columnValues[..j])
      {
        var column := item.columnValues[j];
        assert item.columnValues[..j + 1][..j] == item.columnValues[..j];
        row := row[column.id := CellOf(column)];
      }
      assert item.columnValues[..|item.columnValues|] == item.columnValues;
      rows := rows + [row];
    }
    table := Some(Table(headers, rows));
  }

  // ---------------------------------------------------------------------
  // Properties of a row
  // ---------------------------------------------------------------------

  /** The value under a column id is the cell of the LAST column with that id. */
  lemma {:induction false} FillLastWins(row: Row, cols: seq<ColumnValue>, j: nat)
    requires j < |cols|
    requires forall k :: j < k < |cols| ==> cols[k].id != cols[j].id
    ensures cols[j].id in Fill(row, cols)
    ensures Fill(row, cols)[cols[j].id] == CellOf(cols[j])
  {
    if j < |cols| - 1 {
      var init := cols[..|cols| - 1];
      assert init[j] == cols[j];
      assert forall k :: j < k < |init| ==> init[k] == cols[k];
      FillLastWins(row, init, j);
    }
  }

  /** A key that no column names keeps the value it had before the columns were filled in. */
  lemma {:induction false} FillKeepsOtherKeys(row: Row, cols: seq<ColumnValue>, key: string)
    requires key in row
    requires forall k :: 0 <= k < |cols| ==> cols[k].id != key
    ensures key in Fill(row, cols) && Fill(row, cols)[key] == row[key]
  {
    if cols != [] {
      var init := cols[..|cols| - 1];
      assert forall k :: 0 <= k < |init| ==> init[k] == cols[k];
      FillKeepsOtherKeys(row, init, key);
    }
  }

  /** Each column id maps to the text of its last occurrence: '' when that column has no
      `text` key, `None` when its `text` is null. */
  lemma RowColumn(item: Item, j: nat)
    requires j < |item.columnValues|
    requires forall k :: j < k < |item.columnValues| ==> item.columnValues[k].id != item.columnValues[j].id
    ensures var c := item.columnValues[j];
            c.id in RowOf(item) &&
            (c.text.Absent? ==> RowOf(item)[c.id] == Text("")) &&
            (c.text.Null? ==> RowOf(item)[c.id] == NoneCell) &&
            (c.text.Present? ==> RowOf(item)[c.id] == Text(c.text.value))
  {
    FillLastWins(BaseRow(item), item.columnValues, j);
  }

  /** `Item ID` and `Item Name` hold the item's `id` and `name`, unless a column of the
      item carries one of those two ids and so overwrites it. */
  lemma RowIdentity(item: Item)
    ensures (forall k :: 0 <= k < |item.columnValues| ==> item.columnValues[k].id != ItemIdHeader) ==>
      RowOf(item)[ItemIdHeader] == Text(item.id)
    ensures (forall k :: 0 <= k < |item.columnValues| ==> item.columnValues[k].id != ItemNameHeader) ==>
      RowOf(item)[ItemNameHeader] == Text(item.name)
  {
    if forall k :: 0 <= k < |item.columnValues| ==> item.columnValues[k].id != ItemIdHeader {
      FillKeepsOtherKeys(BaseRow(item), item.columnValues, ItemIdHeader);
    }
    if forall k :: 0 <= k < |item.columnValues| ==> item.columnValues[k].id != ItemNameHeader {
      FillKeepsOtherKeys(BaseRow(item), item.columnValues, ItemNameHeader);
    }
  }

  /** The first item's row has exactly the header's field names as keys. */
  lemma FirstRowMatchesHeader(first: Item)
    ensures RowOf(first).Keys == set h | h in Header(first)
  {
  }
}
