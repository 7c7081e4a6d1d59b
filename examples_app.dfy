/** Concrete runs of the mapping page on small uploads. */
module AppExamples {
  import opened Wrappers
  import opened Tables
  import opened MappingTable
  import opened BatchMerge
  import opened App

  function MappingRow(sku: string, msku: string): Row {
    map[SkuColumn := Some(sku), MskuColumn := Some(msku)]
  }

  function SalesRow(sku: string): Row {
    map[SkuColumn := Some(sku)]
  }

  /** A mapping table {A -> X, B -> Y}. */
  function SmallMapping(): Table {
    Table([SkuColumn, MskuColumn], [MappingRow("A", "X"), MappingRow("B", "Y")])
  }

  /** One sales file with SKUs A, B, C, then one without a SKU column. */
  function MixedSales(): seq<Upload> {
    [ Upload("a.csv", Success(Table([SkuColumn], [SalesRow("A"), SalesRow("B"), SalesRow("C")]))),
      Upload("b.csv", Success(Table(["Item"], [map["Item" := Some("A")]]))) ]
  }

  /** The small batch completes; its merge is that of both sheets. */
  lemma MixedBatchCompletes()
    ensures Pipeline(Some(Upload("map.csv", Success(SmallMapping()))), MixedSales())
      == var d := BuildMapping(MappingPairs(SmallMapping()));
         Completed(MergeAll(d, Sheets(MixedSales())), SkipWarnings(Sheets(MixedSales())))
  {
    CompletedIff(Some(Upload("map.csv", Success(SmallMapping()))), MixedSales());
  }

  /** The MSKUs of the small batch come out as X, Y, UNKNOWN, in that order. */
  lemma MixedBatchRows()
    ensures var t := MergeAll(BuildMapping(MappingPairs(SmallMapping())), Sheets(MixedSales()));
      && |t.rows| == 3
      && CellAt(t.rows[0], MskuColumn) == Some("X")
      && CellAt(t.rows[1], MskuColumn) == Some("Y")
      && CellAt(t.rows[2], MskuColumn) == Some(Unknown)
  {
    var m := SmallMapping();
    var d := BuildMapping(MappingPairs(m));
    LookupLastRow(m, Some("A"), 0);
    LookupLastRow(m, Some("B"), 1);
    LookupAbsent(m, Some("C"));
    var sheets := Sheets(MixedSales());
    assert sheets[..0] == [];
    assert sheets[..1] == [sheets[0]];
    assert sheets[..2] == sheets;
    MergedRowCount(d, sheets);
    MergedRowAt(d, sheets, 0, 0);
    MergedRowAt(d, sheets, 0, 1);
    MergedRowAt(d, sheets, 0, 2);
  }

  /** The file without a SKU column is named in the only warning. */
  lemma MixedBatchWarnings()
    ensures SkipWarnings(Sheets(MixedSales())) == [WarningText("b.csv")]
  {
    var sheets := Sheets(MixedSales());
    assert sheets == [sheets[0]] + [sheets[1]];
    assert [sheets[0]] == [] + [sheets[0]];
    MergeSnoc(map[], [], sheets[0]);
    MergeSnoc(map[], [sheets[0]], sheets[1]);
  }

  /** SKU A mapped first to X and later to Z resolves to Z. */
  lemma LastOccurrenceWins()
    ensures var m := Table([SkuColumn, MskuColumn], [MappingRow("A", "X"), MappingRow("A", "Z")]);
      Lookup(BuildMapping(MappingPairs(m)), Some("A")) == "Z"
  {
    var m := Table([SkuColumn, MskuColumn], [MappingRow("A", "X"), MappingRow("A", "Z")]);
    LookupLastRow(m, Some("A"), 1);
  }

  /** A mapping table without an MSKU column stops the run before any sales file is read. */
  lemma MissingMskuColumn()
    ensures var m := Upload("map.csv", Success(Table([SkuColumn, "Master"], [])));
      Pipeline(Some(m), [Upload("a.csv", Failure("unreadable"))]) == SchemaError
  {
  }
}
