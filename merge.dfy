/**
 * The batch mapper: every parsed sales table that has a SKU column gets an
 * MSKU column from the lookup and is appended to the combined table; a
 * table without one is skipped with a warning (app.py:28-34).
 */
module BatchMerge {
  import opened Wrappers
  import opened Tables
  import opened MappingTable

  /** The warning shown for a sales file that has no SKU column (app.py:31). */
  function WarningText(fileName: string): (w: string)
    ensures |w| == |WarningPrefix| + |fileName| + |WarningSuffix|
    ensures w[|WarningPrefix|..|WarningPrefix| + |fileName|] == fileName
  {
    WarningPrefix + fileName + WarningSuffix
  }

  const WarningPrefix: string := "\U{26A0}\U{FE0F} File "
  const WarningSuffix: string := " skipped: No 'SKU' column found."

  /**
   * A row with its MSKU cell set from the lookup of its SKU cell; an MSKU
   * cell the row already had is overwritten.
   */
  function TagRow(d: SkuMap, row: Row): (r: Row)
    ensures CellAt(r, MskuColumn) == Some(Lookup(d, CellAt(row, SkuColumn)))
    ensures CellAt(r, SkuColumn) == CellAt(row, SkuColumn)
    ensures forall c :: c != MskuColumn ==> CellAt(r, c) == CellAt(row, c)
    ensures r.Keys == row.Keys + {MskuColumn}
  {
    row[MskuColumn := Some(Lookup(d, CellAt(row, SkuColumn)))]
  }

  /**
   * The table after the MSKU column is assigned: same rows in the same order,
   * each tagged, and MSKU appended to the header unless it is already there.
   */
  function TagTable(d: SkuMap, t: Table): (r: Table)
    ensures |r.rows| == |t.rows|
    ensures forall j :: 0 <= j < |t.rows| ==> r.rows[j] == TagRow(d, t.rows[j])
    ensures MskuColumn in r.columns
    ensures |t.columns| <= |r.columns| <= |t.columns| + 1 && r.columns[..|t.columns|] == t.columns
    ensures forall c :: c in r.columns ==> c in t.columns || c == MskuColumn
    ensures Distinct(t.columns) ==> Distinct(r.columns)
  {
    var columns := if MskuColumn in t.columns then t.columns else t.columns + [MskuColumn];
    Table(columns, seq(|t.rows|, j requires 0 <= j < |t.rows| => TagRow(d, t.rows[j])))
  }

  /**
   * The union of two headers as a concatenation forms it: `acc` first, then
   * each column of `more` that is not yet present, in the order of `more`.
   */
  function AppendMissing(acc: seq<string>, more: seq<string>): (r: seq<string>)
    ensures |acc| <= |r| && r[..|acc|] == acc
    ensures forall c :: c in r <==> c in acc || c in more
    ensures Distinct(acc) ==> Distinct(r)
    decreases |more|
  {
    if |more| == 0 then acc
    else AppendMissing(if more[0] in acc then acc else acc + [more[0]], more[1..])
  }

  /** The position of the first occurrence of `c` in `names`. */
  function IndexOf(names: seq<string>, c: string): (k: nat)
    requires c in names
    ensures k < |names| && names[k] == c
    ensures forall j :: 0 <= j < k ==> names[j] != c
  {
    if names[0] == c then 0 else 1 + IndexOf(names[1..], c)
  }

  /**
   * The columns appended by the union come from `more` and keep the order of
   * their first occurrence there.
   */
  lemma {:induction false} AppendMissingOrder(acc: seq<string>, more: seq<string>)
    ensures var r := AppendMissing(acc, more);
      forall i :: |acc| <= i < |r| ==> r[i] in more && r[i] !in acc
    ensures var r := AppendMissing(acc, more);
      forall i, j :: |acc| <= i < j < |r| ==> IndexOf(more, r[i]) < IndexOf(more, r[j])
    decreases |more|
  {
    if |more| > 0 {
      var next := if more[0] in acc then acc else acc + [more[0]];
      var r := AppendMissing(acc, more);
      AppendMissingOrder(next, more[1..]);
      assert r == AppendMissing(next, more[1..]);
      forall i | |next| <= i < |r|
        ensures r[i] != more[0] && IndexOf(more, r[i]) == 1 + IndexOf(more[1..], r[i])
      {
        assert more[0] in next;
      }
      forall i | |acc| <= i < |r| ensures r[i] in more && r[i] !in acc {
        if i < |next| {
          assert r[i] == next[i] == more[0];
        }
      }
    }
  }

  /** The combined table after `t` is appended to `acc`, rows renumbered. */
  function Concat(acc: Table, t: Table): Table {
    Table(AppendMissing(acc.columns, t.columns), acc.rows + t.rows)
  }

  /** True when the sheet takes part in the merge, i.e. it has a SKU column. */
  predicate Processed(s: Sheet) {
    HasColumn(s.table, SkuColumn)
  }

  /** The combined table: the tagged tables of the processed sheets, in order. */
  function MergeAll(d: SkuMap, sheets: seq<Sheet>): Table {
    if |sheets| == 0 then Table([], [])
    else
      var prev := MergeAll(d, sheets[..|sheets| - 1]);
      var last := sheets[|sheets| - 1];
      if Processed(last) then Concat(prev, TagTable(d, last.table)) else prev
  }

  /** The warnings issued for the skipped sheets, in order. */
  function SkipWarnings(sheets: seq<Sheet>): seq<string> {
    if |sheets| == 0 then []
    else
      var prev := SkipWarnings(sheets[..|sheets| - 1]);
      var last := sheets[|sheets| - 1];
      if Processed(last) then prev else prev + [WarningText(last.name)]
  }

  /** The number of rows in the processed sheets. */
  function SumRows(sheets: seq<Sheet>): nat {
    if |sheets| == 0 then 0
    else
      var last := sheets[|sheets| - 1];
      SumRows(sheets[..|sheets| - 1]) + if Processed(last) then |last.table.rows| else 0
  }

  /** The number of skipped sheets. */
  function SkipCount(sheets: seq<Sheet>): nat {
    if |sheets| == 0 then 0
    else
      SkipCount(sheets[..|sheets| - 1]) + if Processed(sheets[|sheets| - 1]) then 0 else 1
  }

  /** Appending one more sheet to the batch extends the merge and the warnings by that sheet alone. */
  lemma MergeSnoc(d: SkuMap, sheets: seq<Sheet>, s: Sheet)
    ensures MergeAll(d, sheets + [s]) ==
      if Processed(s) then Concat(MergeAll(d, sheets), TagTable(d, s.table)) else MergeAll(d, sheets)
    ensures SkipWarnings(sheets + [s]) ==
      if Processed(s) then SkipWarnings(sheets) else SkipWarnings(sheets) + [WarningText(s.name)]
  {
    assert (sheets + [s])[..|sheets|] == sheets;
  }

  /** The combined row count is the sum of the row counts of the processed sheets. */
  lemma {:induction false} MergedRowCount(d: SkuMap, sheets: seq<Sheet>)
    ensures |MergeAll(d, sheets).rows| == SumRows(sheets)
  {
    if |sheets| > 0 {
      MergedRowCount(d, sheets[..|sheets| - 1]);
    }
  }

  /**
   * Row `j` of processed sheet `i` is the tagged copy of that row, placed
   * after all rows of the processed sheets before it: sheets keep upload
   * order and rows keep file order.
   */
  lemma {:induction false} MergedRowAt(d: SkuMap, sheets: seq<Sheet>, i: nat, j: nat)
    requires i < |sheets| && Processed(sheets[i]) && j < |sheets[i].table.rows|
    ensures SumRows(sheets[..i]) + j < |MergeAll(d, sheets).rows|
    ensures MergeAll(d, sheets).rows[SumRows(sheets[..i]) + j] == TagRow(d, sheets[i].table.rows[j])
  {
    var n := |sheets| - 1;
    var prefix := sheets[..n];
    MergedRowCount(d, prefix);
    MergedRowsStep(d, sheets);
    if i == n {
      assert sheets[..i] == prefix;
    } else {
      assert prefix[..i] == sheets[..i];
      MergedRowAt(d, prefix, i, j);
    }
  }

  /** The rows of a merge extend the rows of the merge of all but the last sheet. */
  lemma MergedRowsStep(d: SkuMap, sheets: seq<Sheet>)
    requires |sheets| > 0
    ensures var last := sheets[|sheets| - 1];
      MergeAll(d, sheets).rows == MergeAll(d, sheets[..|sheets| - 1]).rows
        + if Processed(last) then TagTable(d, last.table).rows else []
  {
  }

  /** Every combined row carries a non-missing MSKU: the lookup of its own SKU. */
  lemma {:induction false} MergedRowsTagged(d: SkuMap, sheets: seq<Sheet>)
    ensures forall k :: 0 <= k < |MergeAll(d, sheets).rows| ==>
      CellAt(MergeAll(d, sheets).rows[k], MskuColumn)
        == Some(Lookup(d, CellAt(MergeAll(d, sheets).rows[k], SkuColumn)))
  {
    if |sheets| > 0 {
      MergedRowsTagged(d, sheets[..|sheets| - 1]);
    }
  }

  /**
   * A skipped sheet contributes nothing: the result is the same as if it had
   * not been uploaded, and the sheets after it are still merged.
   */
  lemma {:induction false} SkippedSheetIgnored(d: SkuMap, sheets: seq<Sheet>, i: nat)
    requires i < |sheets| && !Processed(sheets[i])
    ensures MergeAll(d, sheets) == MergeAll(d, sheets[..i] + sheets[i + 1..])
  {
    var n := |sheets| - 1;
    var prefix := sheets[..n];
    var rest := sheets[..i] + sheets[i + 1..];
    if i == n {
      assert rest == prefix;
    } else {
      assert rest[..|rest| - 1] == prefix[..i] + prefix[i + 1..];
      assert rest[|rest| - 1] == sheets[n];
      SkippedSheetIgnored(d, prefix, i);
    }
  }

  /** The combined header holds exactly the columns of the processed tagged sheets. */
  lemma {:induction false} MergedColumns(d: SkuMap, sheets: seq<Sheet>)
    ensures forall c :: c in MergeAll(d, sheets).columns <==>
      exists i :: 0 <= i < |sheets| && Processed(sheets[i]) && (c in sheets[i].table.columns || c == MskuColumn)
    ensures Distinct(MergeAll(d, sheets).columns)
  {
    if |sheets| > 0 {
      var n := |sheets| - 1;
      var prefix := sheets[..n];
      MergedColumns(d, prefix);
      forall c ensures c in MergeAll(d, sheets).columns <==>
        exists i :: 0 <= i < |sheets| && Processed(sheets[i]) && (c in sheets[i].table.columns || c == MskuColumn)
      {
        if c in MergeAll(d, sheets).columns && !(c in MergeAll(d, prefix).columns) {
          assert Processed(sheets[n]) && (c in sheets[n].table.columns || c == MskuColumn);
        }
        if exists i :: 0 <= i < |sheets| && Processed(sheets[i]) && (c in sheets[i].table.columns || c == MskuColumn) {
          var i :| 0 <= i < |sheets| && Processed(sheets[i]) && (c in sheets[i].table.columns || c == MskuColumn);
          if i < n {
            assert prefix[i] == sheets[i];
          }
        }
      }
    }
  }

  /** One warning per skipped sheet, and none for a processed one. */
  lemma {:induction false} WarningCount(sheets: seq<Sheet>)
    ensures |SkipWarnings(sheets)| == SkipCount(sheets)
    ensures SkipCount(sheets) + |set i | 0 <= i < |sheets| && Processed(sheets[i])| == |sheets|
  {
    if |sheets| > 0 {
      var n := |sheets| - 1;
      var prefix := sheets[..n];
      WarningCount(prefix);
      var before := set i | 0 <= i < n && Processed(prefix[i]);
      var after := set i | 0 <= i < |sheets| && Processed(sheets[i]);
      assert before == set i | 0 <= i < n && Processed(sheets[i]);
      if Processed(sheets[n]) {
        assert after == before + {n};
      } else {
        assert after == before;
      }
    }
  }

  /**
   * The warning for skipped sheet `i` names that sheet's file and follows
   * the warnings for the sheets skipped before it.
   */
  lemma {:induction false} WarningAt(sheets: seq<Sheet>, i: nat)
    requires i < |sheets| && !Processed(sheets[i])
    ensures SkipCount(sheets[..i]) < |SkipWarnings(sheets)|
    ensures SkipWarnings(sheets)[SkipCount(sheets[..i])] == WarningText(sheets[i].name)
  {
    var n := |sheets| - 1;
    var prefix := sheets[..n];
    WarningCount(prefix);
    if i == n {
      assert sheets[..i] == prefix;
    } else {
      assert prefix[..i] == sheets[..i];
      WarningAt(prefix, i);
    }
  }
}
