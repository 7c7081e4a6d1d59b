/**
 * The mapping table loader: the SKU and MSKU columns of the mapping table
 * are zipped, row by row, into a dictionary from SKU to MSKU (app.py:25),
 * and a sales SKU is resolved through it with `UNKNOWN` as the fallback
 * (app.py:33).
 */
module MappingTable {
  import opened Wrappers
  import opened Tables

  /** The lookup dictionary: SKU cell to MSKU cell. */
  type SkuMap = map<Cell, Cell>

  /** The (SKU, MSKU) pair of every row of the mapping table, in row order. */
  function MappingPairs(m: Table): (pairs: seq<(Cell, Cell)>)
    ensures |pairs| == |m.rows|
    ensures forall j :: 0 <= j < |m.rows| ==>
      pairs[j] == (CellAt(m.rows[j], SkuColumn), CellAt(m.rows[j], MskuColumn))
  {
    seq(|m.rows|, j requires 0 <= j < |m.rows| =>
      (CellAt(m.rows[j], SkuColumn), CellAt(m.rows[j], MskuColumn)))
  }

  /**
   * The dictionary built from `pairs` by inserting them one after another,
   * so that a later pair with the same key replaces an earlier one.
   */
  function BuildMapping(pairs: seq<(Cell, Cell)>): SkuMap
  {
    if |pairs| == 0 then map[]
    else
      var last := pairs[|pairs| - 1];
      BuildMapping(pairs[..|pairs| - 1])[last.0 := last.1]
  }

  /** The MSKU for a sales SKU: the mapped value when there is one, else `UNKNOWN`. */
  function Lookup(d: SkuMap, sku: Cell): string {
    if sku in d && d[sku].Some? then d[sku].value else Unknown
  }

  /** The dictionary holds exactly the keys that occur in `pairs`. */
  lemma {:induction false} BuildMappingKeys(pairs: seq<(Cell, Cell)>)
    ensures BuildMapping(pairs).Keys == set j | 0 <= j < |pairs| :: pairs[j].0
  {
    if |pairs| > 0 {
      var n := |pairs| - 1;
      var prefix := pairs[..n];
      BuildMappingKeys(prefix);
      var before := set j | 0 <= j < |prefix| :: prefix[j].0;
      var after := set j | 0 <= j < |pairs| :: pairs[j].0;
      assert after == before + {pairs[n].0} by {
        forall k | k in after ensures k in before + {pairs[n].0} {
          var j :| 0 <= j < |pairs| && pairs[j].0 == k;
          if j < n { assert prefix[j].0 == k; }
        }
        forall k | k in before ensures k in after {
          var j :| 0 <= j < |prefix| && prefix[j].0 == k;
          assert pairs[j].0 == k;
        }
      }
    }
  }

  /** For a repeated key, the pair that occurs last decides the value. */
  lemma {:induction false} BuildMappingLastWins(pairs: seq<(Cell, Cell)>, j: nat)
    requires j < |pairs|
    requires forall k :: j < k < |pairs| ==> pairs[k].0 != pairs[j].0
    ensures pairs[j].0 in BuildMapping(pairs)
    ensures BuildMapping(pairs)[pairs[j].0] == pairs[j].1
  {
    var n := |pairs| - 1;
    if j < n {
      var prefix := pairs[..n];
      BuildMappingLastWins(prefix, j);
    }
  }

  /** A SKU that no row of the mapping table carries resolves to `UNKNOWN`. */
  lemma LookupAbsent(m: Table, sku: Cell)
    requires forall j :: 0 <= j < |m.rows| ==> CellAt(m.rows[j], SkuColumn) != sku
    ensures Lookup(BuildMapping(MappingPairs(m)), sku) == Unknown
  {
    var pairs := MappingPairs(m);
    BuildMappingKeys(pairs);
    assert sku !in set j | 0 <= j < |pairs| :: pairs[j].0;
  }

  /**
   * A SKU resolves to the MSKU of the last mapping row that carries it, or
   * to `UNKNOWN` when that MSKU cell is missing.
   */
  lemma LookupLastRow(m: Table, sku: Cell, j: nat)
    requires j < |m.rows| && CellAt(m.rows[j], SkuColumn) == sku
    requires forall k :: j < k < |m.rows| ==> CellAt(m.rows[k], SkuColumn) != sku
    ensures Lookup(BuildMapping(MappingPairs(m)), sku) == CellAt(m.rows[j], MskuColumn).GetOr(Unknown)
  {
    BuildMappingLastWins(MappingPairs(m), j);
  }
}
