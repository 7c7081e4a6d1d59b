# SKU → MSKU mapper, modelled in Dafny

The page takes one mapping file and any number of sales files. The mapping
file is a table with `SKU` and `MSKU` columns. The page checks that both
columns are there and zips them into a dictionary; when a SKU repeats, the
last row wins. Then it reads the sales files in upload order. A file
without a `SKU` column is skipped, and a warning names it. Every other
file gets an `MSKU` column: the MSKU its SKU maps to, or the sentinel
`UNKNOWN` when nothing is mapped or the mapped value is missing. The
tagged tables are concatenated into one combined table, and the rows are
renumbered.

Files:

- `wrappers.dfy`: `Option` and `Result`.
- `tables.dfy`: cells, rows, tables and named sheets. A cell is
  `Option<string>`, where `None` is pandas' missing value. A row is a map
  from column name to cell. A column missing from a row reads as a missing
  value. That is how a concatenation fills the gaps between tables whose
  columns differ.
- `mapping.dfy` (module `MappingTable`): building the dictionary with
  `BuildMapping`, and the `UNKNOWN` fallback in `Lookup`.
- `merge.dfy` (module `BatchMerge`): tagging a row and a table, the
  column union of a concatenation, the merge of a batch, and the skip
  warnings.
- `app.dfy` (module `App`): the whole run. `Run` is the loop over the
  sales files as the page executes it. It is proved equal to `Pipeline`,
  a declarative statement of the same run. The lemmas about `Pipeline`
  give the run's guarantees.
- `examples_app.dfy`: small concrete runs. The first is mapping
  {A→X, B→Y} applied to SKUs A, B, C, with a second file that has no
  SKU column. The second is a SKU that repeats in the mapping table.

Inputs arrive already parsed. Each upload carries its name and either a
table or the parser's error message. A parse failure of the mapping file,
or of any sales file, ends the run with the error message shown by the
page's exception handler. The warnings already issued by then stay on the
page, so the model keeps them in `Failed`. The schema error shows one
fixed message and does not name the missing columns (app.py:23);
`App.SchemaError` models that message.

## Model

| member | source | states |
|---|---|---|
| `MappingTable.BuildMappingKeys` | app.py:25 | The dictionary's keys are exactly the SKU cells that occur in the zipped column pairs. |
| `MappingTable.BuildMappingLastWins` | app.py:25 | For a repeated SKU, the dictionary holds the MSKU of the last pair with that SKU. |
| `MappingTable.LookupAbsent` | app.py:33 | A SKU that no mapping row carries resolves to `UNKNOWN`. |
| `MappingTable.LookupLastRow` | app.py:25-33 | A SKU resolves to the MSKU of the last mapping row with that SKU. When that MSKU cell is missing, it resolves to `UNKNOWN`. |
| `BatchMerge.WarningText` | app.py:31 | The skip warning contains the file name, at a fixed offset. |
| `BatchMerge.TagRow` | app.py:33 | A tagged row's MSKU is set and equals the lookup of its SKU. An existing MSKU is overwritten. Every other cell is unchanged, and no key other than MSKU is added. |
| `BatchMerge.TagTable` | app.py:33 | The tagged table has the same rows in the same order, each one tagged. Its header is the old header, with MSKU appended when it was absent. Distinct columns stay distinct. |
| `BatchMerge.AppendMissing` | app.py:34 | The combined header starts with the accumulated header. It holds exactly the columns of both headers, and it gains no duplicates. |
| `BatchMerge.AppendMissingOrder` | app.py:34 | The columns the union appends keep the order of their first occurrence in the appended header. |
| `BatchMerge.MergedRowCount` | app.py:28-34 | The combined row count is the sum of the row counts of the sheets that have a SKU column. |
| `BatchMerge.MergedRowAt` | app.py:28-34 | Row j of processed sheet i appears, tagged, at the offset equal to the rows of the processed sheets before it. Sheets keep upload order, and rows keep file order. |
| `BatchMerge.MergedRowsTagged` | app.py:33-34 | Every combined row has a non-missing MSKU, equal to the lookup of its own SKU. |
| `BatchMerge.SkippedSheetIgnored` | app.py:30-32 | A sheet without a SKU column contributes nothing. The merge equals the merge without that sheet, and later sheets are still merged. |
| `BatchMerge.MergedColumns` | app.py:33-34 | The combined header holds exactly the columns of the processed sheets plus MSKU, with no duplicates. |
| `BatchMerge.WarningCount` | app.py:30-32 | There is one warning per skipped sheet. Skipped and processed sheets together account for every sheet. |
| `BatchMerge.WarningAt` | app.py:28-32 | The warning for skipped sheet i names its file. It comes after the warnings of the sheets skipped before it. |
| `App.FirstFailure` | app.py:28-29 | It finds the first sales upload that failed to parse: every upload before it parsed. |
| `App.Run` | app.py:19-36 | The loop over the sales files produces exactly the report that `Pipeline` defines. |
| `App.AwaitingIff` | app.py:19 | The run only shows the info message, if and only if the mapping file or every sales file is missing. |
| `App.SchemaErrorIff` | app.py:22-23 | The run stops with the schema error, if and only if the mapping table parsed and lacks `SKU` or `MSKU`. No sales table is read or combined. |
| `App.CompletedIff` | app.py:19-36 | A run completes, if and only if both uploads are there, everything parsed and the schema is right. Its table is then the merge of all sales sheets, and its warnings are those of the skipped sheets. |
| `App.CompletedRows` | app.py:28-34 | A completed run has as many rows as the sales tables that have a SKU column. Every row's MSKU is set to the lookup of its SKU. |
| `App.ParseFailureAborts` | app.py:29 | The first sales file that fails to parse ends the run with its error message and with the warnings issued before it. |
| `AppExamples.MixedBatchCompletes` | app.py:19-36 | The mixed batch (mapping {A→X, B→Y}, a file with SKUs A, B, C, and a file without a SKU column) completes. |
| `AppExamples.MixedBatchRows` | app.py:33-34 | In that batch the MSKUs come out as X, Y, `UNKNOWN`, in that order. |
| `AppExamples.MixedBatchWarnings` | app.py:30-32 | In that batch the only warning names the file without a SKU column. |
| `AppExamples.LastOccurrenceWins` | app.py:25 | With A mapped to X and later to Z, A resolves to Z. |
| `AppExamples.MissingMskuColumn` | app.py:22-23 | A mapping table without MSKU gives the schema error, even when the sales file would not parse. |

## Left out

- Page layout and widgets (title, uploaders, success message, table preview, download button, text inputs). They are presentation and I/O. The run's outcome is modelled as the `Report` value; the info, error and success texts are not modelled.
- CSV parsing and serialisation (`read_csv`, `to_csv`, UTF-8 encoding). These are library calls. A parsed file arrives as a `Table`, and a parse failure arrives as an error message.
- The general exception handler. Only parse failures are modelled as its causes. An exception raised after the merge (serialisation, chart, query) is not modelled.
- The quantity bar chart and the natural-language query. They are presentational or a third-party network service.
- pandas dtypes and missing-value details. All cells are strings or missing. Numeric SKU columns (`1` compared with `1.0`) and dtype changes in a concatenation are not modelled. A missing SKU in the mapping table becomes one missing-value key. Python's NaN identity rules for several such keys are not modelled.
- Duplicate column names in one file. The CSV reader renames them, so each parsed header is taken to have distinct columns. The union is modelled as pandas forms it for distinct headers.
