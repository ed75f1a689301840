/** The column renamer of the warehouse export (`rename_dataframe_columns`):
    a name-to-label dictionary built from the attribute metadata rows, then
    applied to the result's column names. */
module ColumnRenamer {
  import opened Wrappers

  /** One fetched metadata row: an attribute name and its label, which is
      None where the database holds NULL. */
  type LabelRow = (string, Option<string>)

  /** Python truthiness of a label: None and the empty string are false. */
  predicate Truthy(text: Option<string>) {
    text.Some? && text.value != ""
  }

  /** Row `i` gives name `k` a truthy label. */
  predicate Labels(rows: seq<LabelRow>, i: nat, k: string) {
    i < |rows| && rows[i].0 == k && Truthy(rows[i].1)
  }

  /** Row `i` is the last row that gives name `k` a truthy label. */
  predicate LastLabels(rows: seq<LabelRow>, i: nat, k: string) {
    Labels(rows, i, k) && forall j :: i < j < |rows| ==> !Labels(rows, j, k)
  }

  /** The names some row gives a truthy label. */
  function LabelledNames(rows: seq<LabelRow>): set<string> {
    set i | 0 <= i < |rows| && Truthy(rows[i].1) :: rows[i].0
  }

  /** `{row['name']: row['label'] for ... if row['label']}`: rows are taken in
      order, so a later row for the same name overwrites an earlier one. The
      keys are exactly the names with a truthy label, and no value is empty. */
  function NameLabelMap(rows: seq<LabelRow>): (m: map<string, string>)
    ensures m.Keys == LabelledNames(rows)
    ensures forall k :: k in m ==> m[k] != ""
  {
    if rows == [] then map[]
    else
      var earlier := NameLabelMap(rows[..|rows| - 1]);
      var (name, text) := rows[|rows| - 1];
      LabelledNamesSnoc(rows);
      if Truthy(text) then earlier[name := text.value] else earlier
  }

  lemma LabelledNamesSnoc(rows: seq<LabelRow>)
    requires rows != []
    ensures LabelledNames(rows) ==
      LabelledNames(rows[..|rows| - 1]) + (if Truthy(rows[|rows| - 1].1) then {rows[|rows| - 1].0} else {})
  {
    var n := |rows| - 1;
    var earlier := rows[..n];
    forall k | k in LabelledNames(rows)
      ensures k in LabelledNames(earlier) || (Truthy(rows[n].1) && k == rows[n].0)
    {
      var i :| 0 <= i < |rows| && Truthy(rows[i].1) && rows[i].0 == k;
      if i < n { assert earlier[i] == rows[i]; }
    }
    forall k | k in LabelledNames(earlier) ensures k in LabelledNames(rows) {
      var i :| 0 <= i < |earlier| && Truthy(earlier[i].1) && earlier[i].0 == k;
      assert rows[i] == earlier[i];
    }
  }

  /** A labelled name maps to the label of the last row that labels it. */
  lemma {:induction false} NameLabelMapLastWins(rows: seq<LabelRow>, k: string, i: nat)
    requires LastLabels(rows, i, k)
    ensures k in NameLabelMap(rows) && NameLabelMap(rows)[k] == rows[i].1.value
  {
    var n := |rows| - 1;
    var earlier := rows[..n];
    if i < n {
      assert !Labels(rows, n, k);
      assert earlier[i] == rows[i];
      forall j | i < j < |earlier| ensures !Labels(earlier, j, k) {
        assert earlier[j] == rows[j];
        assert !Labels(rows, j, k);
      }
      NameLabelMapLastWins(earlier, k, i);
    }
  }

  /** `df.rename(columns=m)` on one column. */
  function RenameColumn(column: string, m: map<string, string>): string {
    if column in m then m[column] else column
  }

  /** `df.rename(columns=m)` on the column list: one new name per column, in
      place. */
  function RenameColumns(columns: seq<string>, m: map<string, string>): (r: seq<string>)
    ensures |r| == |columns|
    ensures forall i :: 0 <= i < |columns| && columns[i] in m ==> r[i] == m[columns[i]]
    ensures forall i :: 0 <= i < |columns| && columns[i] !in m ==> r[i] == columns[i]
  {
    if columns == [] then []
    else [RenameColumn(columns[0], m)] + RenameColumns(columns[1..], m)
  }

  /** The map's value for every labelled name, and its absence for every
      name no row labels. */
  lemma NameLabelMapLookup(rows: seq<LabelRow>)
    ensures forall k, i: nat :: LastLabels(rows, i, k) ==>
      k in NameLabelMap(rows) && NameLabelMap(rows)[k] == rows[i].1.value
    ensures forall k :: (forall j: nat :: !Labels(rows, j, k)) ==> k !in NameLabelMap(rows)
  {
    forall k, i: nat | LastLabels(rows, i, k)
      ensures k in NameLabelMap(rows) && NameLabelMap(rows)[k] == rows[i].1.value
    {
      NameLabelMapLastWins(rows, k, i);
    }
    forall k | k in NameLabelMap(rows)
      ensures exists j: nat :: Labels(rows, j, k)
    {
      var j :| 0 <= j < |rows| && Truthy(rows[j].1) && rows[j].0 == k;
      assert Labels(rows, j, k);
    }
  }

  /** `rename_dataframe_columns(df, conn)` with the fetched metadata rows
      passed in: the number and order of the columns are kept, a column
      becomes the label of the last row that labels it, and a column no row
      labels keeps its name. */
  function RenameDataFrameColumns(columns: seq<string>, rows: seq<LabelRow>): (r: seq<string>)
    ensures |r| == |columns|
    ensures forall i: nat, j: nat :: i < |columns| && LastLabels(rows, j, columns[i]) ==>
      r[i] == rows[j].1.value
    ensures forall i :: 0 <= i < |columns| && (forall j: nat :: !Labels(rows, j, columns[i])) ==>
      r[i] == columns[i]
  {
    NameLabelMapLookup(rows);
    RenameColumns(columns, NameLabelMap(rows))
  }

  /** An empty mapping, which is what an empty or failed metadata fetch
      yields, leaves the columns as they are. */
  lemma RenameEmptyMap(columns: seq<string>)
    ensures RenameColumns(columns, map[]) == columns
    ensures RenameDataFrameColumns(columns, []) == columns
  {
  }

  /** Renaming twice is renaming once when no label is itself a key that
      maps elsewhere. */
  lemma RenameIdempotent(columns: seq<string>, m: map<string, string>)
    requires forall k :: k in m && m[k] in m ==> m[m[k]] == m[k]
    ensures RenameColumns(RenameColumns(columns, m), m) == RenameColumns(columns, m)
  {
  }

  /** Without that condition a second rename can change a column again:
      `a` becomes `b` on the first pass and `c` on the second. */
  lemma RenameNotIdempotentInGeneral()
    ensures var m := map["a" := "b", "b" := "c"];
            RenameColumns(["a"], m) == ["b"] && RenameColumns(RenameColumns(["a"], m), m) == ["c"]
  {
  }

  /** `name` labelled "Product Name" is renamed; `sku`, whose label is empty,
      and a later NULL label for `name` change nothing. */
  lemma RenameExample()
    ensures RenameDataFrameColumns(["name", "sku"],
              [("name", Some("Product Name")), ("sku", Some("")), ("name", None)])
            == ["Product Name", "sku"]
  {
    var rows: seq<LabelRow> := [("name", Some("Product Name")), ("sku", Some("")), ("name", None)];
    assert rows[..2][..1] == [("name", Some("Product Name"))];
    assert NameLabelMap(rows) == map["name" := "Product Name"];
  }
}
