/**
 * Turning a query result into the rows of an HTML table (`arrowToHtmlTable`):
 * a header row of the schema's field names, then one row per result row with
 * one cell per schema field, in schema order. The DOM table is modelled by
 * the texts of its rows.
 */
module Projection {
  import opened Wrappers

  /** A query result: field names in schema order, and rows keyed by field name. */
  datatype ResultTable<V> = ResultTable(schema: seq<string>, rows: seq<map<string, V>>)

  /**
   * The text of the cell for `column` in `row`: `tableRow[column]` converted
   * to text by `render`, which is given None when the row has no such field.
   */
  function CellText<V>(row: map<string, V>, column: string, render: Option<V> -> string): string
  {
    render(if column in row then Some(row[column]) else None)
  }

  /** One data row: a cell per schema column, in schema order. */
  function ProjectRow<V>(schema: seq<string>, row: map<string, V>, render: Option<V> -> string): (cells: seq<string>)
    ensures |cells| == |schema|
    ensures forall j :: 0 <= j < |schema| ==> cells[j] == CellText(row, schema[j], render)
  {
    if schema == [] then [] else [CellText(row, schema[0], render)] + ProjectRow(schema[1..], row, render)
  }

  /** The data rows, one per result row, in result order. */
  function ProjectRows<V>(schema: seq<string>, rows: seq<map<string, V>>, render: Option<V> -> string): (table: seq<seq<string>>)
    ensures |table| == |rows|
    ensures forall i :: 0 <= i < |rows| ==> |table[i]| == |schema|
    ensures forall i, j :: 0 <= i < |rows| && 0 <= j < |schema| ==>
      table[i][j] == CellText(rows[i], schema[j], render)
  {
    if rows == [] then []
    else [ProjectRow(schema, rows[0], render)] + ProjectRows(schema, rows[1..], render)
  }

  /**
   * `arrowToHtmlTable`: nothing for a null result or a missing target table;
   * otherwise the header row (the schema's names in order) followed by the
   * data rows.
   */
  function ArrowToHtmlTable<V>(result: Option<ResultTable<V>>, targetFound: bool, render: Option<V> -> string)
    : (html: Option<seq<seq<string>>>)
    ensures html.None? <==> result.None? || !targetFound
    ensures html.Some? ==> |html.value| == |result.value.rows| + 1 && html.value[0] == result.value.schema
    ensures html.Some? ==> forall i :: 0 <= i < |result.value.rows| ==> |html.value[1..][i]| == |result.value.schema|
    ensures html.Some? ==> forall i, j :: 0 <= i < |result.value.rows| && 0 <= j < |result.value.schema| ==>
      html.value[1..][i][j] == CellText(result.value.rows[i], result.value.schema[j], render)
  {
    match result
    case None => None
    case Some(table) =>
      if !targetFound then None
      else
        var body := ProjectRows(table.schema, table.rows, render);
        var html := [table.schema] + body;
        assert html[1..] == body;
        Some(html)
  }

  /** Projecting the rows of two results one after the other projects each in turn. */
  lemma {:induction false} ProjectRowsAppend<V>(schema: seq<string>, a: seq<map<string, V>>, b: seq<map<string, V>>,
                                               render: Option<V> -> string)
    ensures ProjectRows(schema, a + b, render) == ProjectRows(schema, a, render) + ProjectRows(schema, b, render)
    decreases |a|
  {
    if a == [] {
      assert a + b == b;
    } else {
      assert (a + b)[1..] == a[1..] + b;
      ProjectRowsAppend(schema, a[1..], b, render);
    }
  }

  /** A result without rows shows just its header. */
  lemma ProjectEmptyResult<V>(schema: seq<string>, render: Option<V> -> string)
    ensures ArrowToHtmlTable(Some(ResultTable(schema, [])), true, render) == Some([schema])
  {
    assert ProjectRows(schema, [], render) == [];
    assert [schema] + [] == [schema];
  }

  /**
   * Column order is schema order: in every data row, the cell under the
   * header's j-th name shows that field of the row.
   */
  lemma CellUnderHeader<V>(result: ResultTable<V>, render: Option<V> -> string, i: nat, j: nat)
    requires i < |result.rows| && j < |result.schema|
    ensures var html := ArrowToHtmlTable(Some(result), true, render).value;
      html[i + 1][j] == CellText(result.rows[i], html[0][j], render)
  {
    var html := ArrowToHtmlTable(Some(result), true, render).value;
    assert html[i + 1] == html[1..][i];
  }
}
