/**
 * Parsed tabular data. CSV parsing itself is outside the model: a table
 * arrives as its header (the column names, in order) and its rows.
 */
module Tables {
  import opened Wrappers

  /** A cell of a table; `None` is a missing value (pandas' NaN). */
  type Cell = Option<string>

  /** A row maps column names to cells. */
  type Row = map<string, Cell>

  /** A parsed table: its columns in header order and its rows in file order. */
  datatype Table = Table(columns: seq<string>, rows: seq<Row>)

  /** A parsed sales file together with the name it was uploaded under. */
  datatype Sheet = Sheet(name: string, table: Table)

  const SkuColumn: string := "SKU"
  const MskuColumn: string := "MSKU"

  /** The sentinel written for a SKU that the mapping does not resolve. */
  const Unknown: string := "UNKNOWN"

  /**
   * The cell of `row` in `column`. A row that lacks the column reads as a
   * missing value, which is how a concatenation of tables with different
   * columns fills the gaps.
   */
  function CellAt(row: Row, column: string): Cell {
    if column in row then row[column] else None
  }

  /** True when the header of `t` names `column`. */
  predicate HasColumn(t: Table, column: string) {
    column in t.columns
  }

  /** True when no name occurs twice in `names`. */
  predicate Distinct(names: seq<string>) {
    forall i, j :: 0 <= i < j < |names| ==> names[i] != names[j]
  }
}
