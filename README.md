# Warehouse export query builder and column renamer, in Dafny

This project models the string-building and renaming half of the chat bot's
warehouse export (`redshift.py`):

- **Attribute join synthesiser** (`add_attribute_join`). The suffix of an
  entity-attribute-value side table selects an alias prefix: `_var` gives
  `pav`, `_int` gives `pai`, `_txt` gives `pat`. Any other table is an error
  that names the table. Otherwise a fixed SQL template is filled in: the
  join type, a subquery over `magento.<table>`, the attribute-metadata join,
  the attribute filter, the `store_id = 0` scope with the extra conditions
  appended verbatim, and an alias equal to the attribute name. The template is
  reproduced character for character, including the newline and indentation
  of the triple-quoted literal.
- **Query composition** (the `additional_joins` list and `full_query` in
  `main`). The base query, one space, the join fragments joined by single
  spaces, then the `WHERE ... LIMIT 50;` tail. A Python list literal raises on
  its first failing call, so `BuildJoins` fails with the error of the first
  spec whose call fails.
  The join list is written as a table of (side table, attribute) pairs, which
  is the same 59 calls with the same tables, attributes and defaults in the
  same order.
- **Column renamer** (`rename_dataframe_columns`). The name→label
  dictionary comprehension over the fetched `(name, label)` rows keeps only
  truthy labels, and later rows overwrite earlier ones. `df.rename(columns=...)`
  then relabels the column list one to one.

Modules: `Wrappers` (Option and Result), `Text` (Python's `startswith`,
`endswith`, substring `in`, `"".join` and `sep.join`, with their lemmas),
`AttributeJoin`, `QueryComposer`, `ColumnRenamer`. Everything is a pure
function or a lemma. The source builds strings and a dictionary in single
expressions and has no loops or in-place updates in these parts.

Two properties of the code are worth stating plainly:

- Renaming twice equals renaming once only when every label that is itself
  a key maps to itself (`RenameIdempotent`). `RenameNotIdempotentInGeneral`
  shows `{a: b, b: c}` renaming `a` to `b` on the first pass and to `c` on
  the second.
- The filter values and the manufacturer exclusion list are literals in the
  tail. The model keeps them as named constants with the code's values.

## Model

| member | source | states |
|---|---|---|
| `AttributeJoin.TablePrefix` | redshift.py:64-71 | The prefix is `pav` exactly when the table ends in `_var`, `pai` exactly when it ends in `_int`, `pat` exactly when it ends in `_txt`, and there is none exactly when no suffix matches. The three tests exclude each other, so their order cannot change the choice. |
| `AttributeJoin.JoinConditions` | redshift.py:73-75 | The conditions begin with `AND {prefix}.store_id = 0 `. They are exactly that clause when the extra conditions are empty, and that clause followed verbatim by the extra conditions otherwise. |
| `AttributeJoin.AddAttributeJoin` | redshift.py:63-85 | The call fails exactly when the table has no known suffix, and the error message is `Unknown table type for <table>`. |
| `AttributeJoin.AttributeJoinShape` | redshift.py:77-85 | A fragment opens with the newline, indentation and join type, followed by ` (`. It contains `SELECT {p}.value, {p}.product_id`, `FROM magento.{table} {p}`, the join to `magento.attribute_product`, `AND ap.name = '{attribute}'`, and the store-0 scope followed by the extra conditions. It ends with `) {attribute} ON {attribute}.product_id = p.row_id` and the closing indentation. |
| `QueryComposer.DefaultJoinShape` | redshift.py:63-85 | A call that gives only the table and the attribute produces a fragment that opens with `LEFT JOIN (`, and whose condition line is the store-0 scope alone. |
| `QueryComposer.BuildJoins` | redshift.py:225-286 | The join list builds exactly when every call succeeds. It then holds one fragment per spec, in order, each the synthesiser's output for that spec. |
| `QueryComposer.BuildJoinsFirstError` | redshift.py:225-286 | A failing join list fails with the error of its first failing call, since a Python list literal evaluates its calls left to right. |
| `QueryComposer.ComposeQuery` | redshift.py:289-294 | Composition succeeds exactly when every call in the list succeeds. Otherwise it fails with `Unknown table type for <table>`, naming the first table without a known suffix. |
| `QueryComposer.ComposedQueryBounds` | redshift.py:289-294 | A composed query starts with the base query and one space, and ends with the tail, whatever the joins and their order. |
| `QueryComposer.ComposedQueryFirst` | redshift.py:289 | When there are joins, the first fragment follows the base query and its one space directly. |
| `QueryComposer.ComposedQueryLast` | redshift.py:289-294 | When there are joins, the last fragment is followed directly by the tail. |
| `QueryComposer.ComposedQueryFragments` | redshift.py:289 | A composed query contains every join's fragment. Each fragment is followed by one space and then the next fragment in list order. |
| `QueryComposer.SideTablePrefixes` | redshift.py:64-69 | `product_attribute_int`, `product_attribute_var` and `product_attribute_txt` select `pai`, `pav` and `pat`. |
| `QueryComposer.AdditionalJoinSpecs` | redshift.py:225-286 | The join list holds 59 calls. Each names one of the three side tables, uses the default `LEFT JOIN` with no extra conditions, and has the attribute listed at its position. |
| `QueryComposer.AdditionalJoinsValid` | redshift.py:225-286 | Every call in the fixed join list names a side table with a known suffix. |
| `QueryComposer.QueryTailFilters` | redshift.py:289-294 | The tail contains `hide_from_product_view.value = 0`, `visibility.value = 2`, the exclusion `pm.manufacturer_id NOT IN (50461, 50462, 50459, 50460, 38379)`, and `LIMIT 50`. |
| `QueryComposer.ComposedQueryFilters` | redshift.py:289-294 | Any query composed with the export tail contains the hide-flag, visibility and manufacturer filters and `LIMIT 50`, whatever the base query, the joins and their order. |
| `QueryComposer.ExportQuery` | redshift.py:289-294 | Building the export query from the fixed join list and tail never raises, for any base query. The query starts with the base query and one space and ends with the tail. `FullQuery` is this query at the fixed base query. |
| `QueryComposer.ExportQueryWellFormed` | redshift.py:225-294 | The export query contains the hide-flag, visibility and manufacturer filters and the row cap, for any base query. |
| `Text.JoinWithSplit` | redshift.py:289 | `' '.join` of the fragments splits at any inner boundary into the join of the first part, one separator, and the join of the rest, so the fragments keep their order. |
| `ColumnRenamer.NameLabelMap` | redshift.py:94 | The keys are exactly the names that some row gives a non-empty, non-NULL label, and no value is empty. |
| `ColumnRenamer.NameLabelMapLastWins` | redshift.py:94 | When a name has several labelled rows, the label of the last one wins. |
| `ColumnRenamer.RenameColumns` | redshift.py:97 | Renaming keeps the number of columns. A column that is a key becomes its label in the same position, and any other column is unchanged. |
| `ColumnRenamer.NameLabelMapLookup` | redshift.py:94 | Every labelled name maps to the label of its last labelling row, and a name that no row labels is not a key. |
| `ColumnRenamer.RenameDataFrameColumns` | redshift.py:88-98 | After the fetch and rename, column `i` carries the label of the last row that labels its name, or keeps its name when no row labels it. The column count is unchanged. |
| `ColumnRenamer.RenameEmptyMap` | redshift.py:91-97 | An empty mapping leaves the columns unchanged, and so does an empty metadata fetch (which is also what a failed fetch returns). |
| `ColumnRenamer.RenameIdempotent` | redshift.py:97 | Renaming twice equals renaming once when every label that is itself a key maps to itself. |
| `ColumnRenamer.RenameNotIdempotentInGeneral` | redshift.py:97 | Without that condition a second rename can change a column again. |
| `ColumnRenamer.RenameExample` | redshift.py:88-98 | Rows `name → "Product Name"`, `sku → ""` and `name → NULL` rename columns `name, sku` to `Product Name, sku`. |

## Left out

- Database I/O (`connect_to_redshift`, `query_to_dataframe`, `close_connection`, redshift.py:18-42) uses psycopg2 and pandas. In the model the metadata rows of `rename_dataframe_columns` are a parameter, and query execution is not modelled.
- File export (`save_dataframe_to_excel`, `save_dataframe_to_csv`, redshift.py:46-60) is serialisation done entirely by pandas and openpyxl.
- Timing in `main` (redshift.py:103, 305-307) uses wall-clock floats for logging only.
- The connection check in `main` (redshift.py:105, 311) just returns None when there is no connection, so it is not modelled.
- `QueryComposer.ExportQuery` and `QueryComposer.ExportQueryWellFormed`: are stated for every base query rather than for the fixed `BaseQuery` literal alone, because unfolding that literal of several thousand characters is beyond the verifier's resource limit. `FullQuery` is `ExportQuery(BaseQuery)`, so it is a case of both, but it carries no contract of its own.
- Environment loading (redshift.py:8-14) is configuration I/O.
- buttons-interaction.py is not part of this model. It holds the messaging handlers, HTTP routes and upload plumbing.
- `ColumnRenamer.RenameColumns`: models only the column names; `df.rename` leaves the cell data untouched, and the data is not represented.
- `AttributeJoin.AddAttributeJoin`: `custom_conditions` is a string here. Python would also accept other falsy values such as None, but no caller passes them.
- `ColumnRenamer.NameLabelMap`: names are plain strings. A NULL name from the database, which Python would use as a `None` key, is not represented.
