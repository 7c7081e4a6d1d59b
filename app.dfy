/**
 * The mapping run of the upload page (app.py:19-36, 67-70): check that both
 * uploads are there, load the mapping table, check its schema, build the
 * dictionary, then tag and concatenate the sales tables in upload order.
 */
module App {
  import opened Wrappers
  import opened Tables
  import opened MappingTable
  import opened BatchMerge

  /** An uploaded file: its name and what parsing it as CSV gave. */
  datatype Upload = Upload(name: string, content: Result<Table, string>)

  /** What a run reports to the page. */
  datatype Report =
    | AwaitingUploads
      // the mapping file or every sales file is missing; only an info message is shown
    | SchemaError
      // the mapping table lacks SKU or MSKU; nothing else is done
    | Failed(message: string, warnings: seq<string>)
      // a file failed to parse; the warnings already issued stay on the page
    | Completed(combined: Table, warnings: seq<string>)
      // every sales file was read; the combined table is shown and offered for download

  /** The message shown when a file fails to parse. */
  function ErrorText(cause: string): string {
    "\U{274C} Error: " + cause
  }

  /** True when the mapping table has both required columns. */
  predicate MappingSchemaOk(m: Table) {
    HasColumn(m, SkuColumn) && HasColumn(m, MskuColumn)
  }

  /** The index of the first upload that failed to parse, or the count when none did. */
  function FirstFailure(uploads: seq<Upload>): (k: nat)
    ensures k <= |uploads|
    ensures forall j :: 0 <= j < k ==> uploads[j].content.Success?
    ensures k < |uploads| ==> uploads[k].content.Failure?
  {
    if |uploads| == 0 || uploads[0].content.Failure? then 0
    else 1 + FirstFailure(uploads[1..])
  }

  /** The parsed sheets of uploads that all parsed. */
  function Sheets(uploads: seq<Upload>): (s: seq<Sheet>)
    requires forall j :: 0 <= j < |uploads| ==> uploads[j].content.Success?
    ensures |s| == |uploads|
    ensures forall j :: 0 <= j < |uploads| ==>
      s[j] == Sheet(uploads[j].name, uploads[j].content.value)
  {
    seq(|uploads|, j requires 0 <= j < |uploads| => Sheet(uploads[j].name, uploads[j].content.value))
  }

  /** The sheets of one more upload are the sheets before it and that upload's sheet. */
  lemma SheetsSnoc(uploads: seq<Upload>, i: nat)
    requires i < |uploads|
    requires forall j :: 0 <= j <= i ==> uploads[j].content.Success?
    ensures Sheets(uploads[..i + 1]) == Sheets(uploads[..i]) + [Sheet(uploads[i].name, uploads[i].content.value)]
  {
  }

  /**
   * What a run reports, stated without the loop: the sales uploads up to the
   * first parse failure are merged, and that failure, if there is one,
   * turns the run into an error.
   */
  function Pipeline(mapping: Option<Upload>, sales: seq<Upload>): Report {
    if mapping.None? || |sales| == 0 then AwaitingUploads
    else match mapping.value.content
      case Failure(cause) => Failed(ErrorText(cause), [])
      case Success(m) =>
        if !MappingSchemaOk(m) then SchemaError
        else
          var d := BuildMapping(MappingPairs(m));
          var k := FirstFailure(sales);
          var read := Sheets(sales[..k]);
          if k < |sales| then Failed(ErrorText(sales[k].content.error), SkipWarnings(read))
          else Completed(MergeAll(d, read), SkipWarnings(read))
  }

  /** The mapping run as the page performs it, one sales file at a time. */
  method Run(mapping: Option<Upload>, sales: seq<Upload>) returns (report: Report)
    ensures report == Pipeline(mapping, sales)
  {
    if mapping.None? || |sales| == 0 {
      return AwaitingUploads;
    }
    if mapping.value.content.Failure? {
      return Failed(ErrorText(mapping.value.content.error), []);
    }
    var m := mapping.value.content.value;
    if !(SkuColumn in m.columns && MskuColumn in m.columns) {
      return SchemaError;
    }
    var d := BuildMapping(MappingPairs(m));
    var combined := Table([], []);
    var warnings: seq<string> := [];
    var i := 0;
    while i < |sales|
      invariant i <= |sales|
      invariant forall j :: 0 <= j < i ==> sales[j].content.Success?
      invariant combined == MergeAll(d, Sheets(sales[..i]))
      invariant warnings == SkipWarnings(Sheets(sales[..i]))
    {
      var file := sales[i];
      if file.content.Failure? {
        assert FirstFailure(sales) == i;
        return Failed(ErrorText(file.content.error), warnings);
      }
      var df := file.content.value;
      SheetsSnoc(sales, i);
      MergeSnoc(d, Sheets(sales[..i]), Sheet(file.name, df));
      if SkuColumn !in df.columns {
        warnings := warnings + [WarningText(file.name)];
        i := i + 1;
        continue;
      }
      combined := Concat(combined, TagTable(d, df));
      i := i + 1;
    }
    assert sales[..i] == sales;
    return Completed(combined, warnings);
  }

  /** Nothing runs unless a mapping file and at least one sales file were uploaded. */
  lemma AwaitingIff(mapping: Option<Upload>, sales: seq<Upload>)
    ensures Pipeline(mapping, sales) == AwaitingUploads <==> mapping.None? || |sales| == 0
  {
  }

  /**
   * A mapping table without SKU or MSKU stops the run with the schema error,
   * and only then; no sales file is read or merged.
   */
  lemma SchemaErrorIff(mapping: Option<Upload>, sales: seq<Upload>)
    ensures Pipeline(mapping, sales) == SchemaError <==>
      mapping.Some? && |sales| > 0 && mapping.value.content.Success? && !MappingSchemaOk(mapping.value.content.value)
  {
  }

  /**
   * A run completes exactly when both uploads are there, everything parsed
   * and the mapping schema is right; then its table is the merge of all sales
   * sheets and its warnings are those of the skipped sheets.
   */
  lemma CompletedIff(mapping: Option<Upload>, sales: seq<Upload>)
    ensures Pipeline(mapping, sales).Completed? <==>
      && mapping.Some? && |sales| > 0
      && mapping.value.content.Success? && MappingSchemaOk(mapping.value.content.value)
      && forall j :: 0 <= j < |sales| ==> sales[j].content.Success?
    ensures Pipeline(mapping, sales).Completed? ==>
      var d := BuildMapping(MappingPairs(mapping.value.content.value));
      && Pipeline(mapping, sales).combined == MergeAll(d, Sheets(sales))
      && Pipeline(mapping, sales).warnings == SkipWarnings(Sheets(sales))
  {
    if mapping.Some? && |sales| > 0 && mapping.value.content.Success? && MappingSchemaOk(mapping.value.content.value) {
      var k := FirstFailure(sales);
      if forall j :: 0 <= j < |sales| ==> sales[j].content.Success? {
        assert k == |sales|;
        assert sales[..k] == sales;
      }
    }
  }

  /**
   * A completed run has as many rows as the sales tables with a SKU column,
   * and every row's MSKU is set, to the lookup of its SKU.
   */
  lemma CompletedRows(mapping: Option<Upload>, sales: seq<Upload>)
    requires Pipeline(mapping, sales).Completed?
    ensures forall j :: 0 <= j < |sales| ==> sales[j].content.Success?
    ensures var t := Pipeline(mapping, sales).combined;
      var d := BuildMapping(MappingPairs(mapping.value.content.value));
      && |t.rows| == SumRows(Sheets(sales))
      && forall k :: 0 <= k < |t.rows| ==>
           CellAt(t.rows[k], MskuColumn) == Some(Lookup(d, CellAt(t.rows[k], SkuColumn)))
  {
    CompletedIff(mapping, sales);
    var d := BuildMapping(MappingPairs(mapping.value.content.value));
    MergedRowCount(d, Sheets(sales));
    MergedRowsTagged(d, Sheets(sales));
  }

  /** A sales file that fails to parse aborts the run with its parser message. */
  lemma ParseFailureAborts(mapping: Option<Upload>, sales: seq<Upload>, k: nat)
    requires mapping.Some? && mapping.value.content.Success? && MappingSchemaOk(mapping.value.content.value)
    requires k < |sales| && sales[k].content.Failure?
    requires forall j :: 0 <= j < k ==> sales[j].content.Success?
    ensures Pipeline(mapping, sales) == Failed(ErrorText(sales[k].content.error), SkipWarnings(Sheets(sales[..k])))
  {
    assert FirstFailure(sales) == k;
  }
}
