/** The attribute join synthesiser of the warehouse export (`add_attribute_join`):
    one SQL join fragment that lifts one attribute out of an
    entity-attribute-value side table into its own output column. */
module AttributeJoin {
  import opened Wrappers
  import opened Text

  const VarSuffix := "_var"
  const IntSuffix := "_int"
  const TxtSuffix := "_txt"

  /** The join type a caller gets when it passes none. */
  const DefaultJoinType := "LEFT JOIN"

  /** The alias prefix selected by the side table's suffix, tried in the
      order `_var`, `_int`, `_txt`; None when no suffix matches. */
  function TablePrefix(table: string): (r: Option<string>)
    ensures r == Some("pav") <==> EndsWith(table, VarSuffix)
    ensures r == Some("pai") <==> EndsWith(table, IntSuffix)
    ensures r == Some("pat") <==> EndsWith(table, TxtSuffix)
    ensures r.None? <==>
      !EndsWith(table, VarSuffix) && !EndsWith(table, IntSuffix) && !EndsWith(table, TxtSuffix)
  {
    if EndsWith(table, VarSuffix) then Some("pav")
    else if EndsWith(table, IntSuffix) then Some("pai")
    else if EndsWith(table, TxtSuffix) then Some("pat")
    else None
  }

  /** The message of the error raised for a table with no known suffix. */
  function UnknownTableMessage(table: string): string {
    "Unknown table type for " + table
  }

  /** The fixed store scope every join is restricted to. */
  function StoreScope(prefix: string): string {
    "AND " + prefix + ".store_id = 0 "
  }

  /** The join conditions: the store scope, then the caller's extra
      conditions when there are any. */
  function JoinConditions(prefix: string, customConditions: string): (r: string)
    ensures StartsWith(r, StoreScope(prefix))
    ensures customConditions == "" ==> r == StoreScope(prefix)
    ensures r == StoreScope(prefix) + customConditions
  {
    var base := StoreScope(prefix);
    if customConditions != "" then base + customConditions else base
  }

  function SelectClause(prefix: string): string {
    "SELECT " + prefix + ".value, " + prefix + ".product_id"
  }

  function FromClause(table: string, prefix: string): string {
    "FROM magento." + table + " " + prefix
  }

  function MetadataJoin(prefix: string): string {
    "JOIN magento.attribute_product ap ON " + prefix + ".attribute_id = ap.id"
  }

  function NameFilter(attribute: string): string {
    "AND ap.name = '" + attribute + "'"
  }

  /** The subquery closes, is named after the attribute and is joined to the
      product row by product id. */
  function AliasClause(attribute: string): string {
    ") " + attribute + " ON " + attribute + ".product_id = p.row_id"
  }

  const Indent4 := "    "
  const Indent8 := "        "

  /** The opening of a fragment: the join type and the subquery's parenthesis. */
  function Opening(joinType: string): string {
    "\n" + Indent4 + joinType + " ("
  }

  /** The closing of a fragment, ending in the indentation before the
      literal's closing quotes. */
  function Closing(attribute: string): string {
    AliasClause(attribute) + "\n" + Indent4
  }

  /** The lines of the template, the first starting with the newline that
      opens the triple-quoted literal and the last ending in its closing
      indentation. */
  function FragmentLines(table: string, attribute: string, joinType: string,
                         conditions: string, prefix: string): seq<string>
  {
    [ Opening(joinType) + "\n",
      Indent8 + SelectClause(prefix) + "\n",
      Indent8 + FromClause(table, prefix) + "\n",
      Indent8 + MetadataJoin(prefix) + "\n",
      Indent8 + NameFilter(attribute) + "\n",
      Indent8 + conditions + "\n",
      Indent4 + Closing(attribute) ]
  }

  /** `add_attribute_join(table, attribute, join_type, custom_conditions)`:
      fails, naming the table, exactly when the table has no known suffix. */
  function AddAttributeJoin(table: string, attribute: string, joinType: string,
                            customConditions: string): (r: Result<string, string>)
    ensures r.Failure? <==> TablePrefix(table).None?
    ensures r.Failure? ==> r.error == UnknownTableMessage(table)
  {
    match TablePrefix(table)
    case None => Failure(UnknownTableMessage(table))
    case Some(prefix) =>
      Success(Concat(FragmentLines(table, attribute, joinType,
                                   JoinConditions(prefix, customConditions), prefix)))
  }

  /** What a synthesised fragment says: it opens with the join type, selects
      value and product id from the side table under the chosen prefix, joins
      the attribute metadata, keeps only the named attribute, restricts to
      store 0 with the extra conditions appended verbatim, and exposes the
      subquery under the attribute's name, joined on the product row. */
  lemma AttributeJoinShape(table: string, attribute: string, joinType: string,
                           customConditions: string)
    requires TablePrefix(table).Some?
    ensures var p := TablePrefix(table).value;
            var f := AddAttributeJoin(table, attribute, joinType, customConditions).value;
            && StartsWith(f, Opening(joinType))
            && Contains(f, SelectClause(p))
            && Contains(f, FromClause(table, p))
            && Contains(f, MetadataJoin(p))
            && Contains(f, NameFilter(attribute))
            && Contains(f, StoreScope(p) + customConditions)
            && EndsWith(f, Closing(attribute))
  {
    var p := TablePrefix(table).value;
    var conditions := JoinConditions(p, customConditions);
    var lines := FragmentLines(table, attribute, joinType, conditions, p);
    assert AddAttributeJoin(table, attribute, joinType, customConditions).value == Concat(lines);
    var f := Concat(lines);

    ConcatParts(lines, 0);
    StartsWithShorter(f, Opening(joinType), "\n");
    ConcatPartPiece(lines, 1, Indent8, SelectClause(p), "\n");
    ConcatPartPiece(lines, 2, Indent8, FromClause(table, p), "\n");
    ConcatPartPiece(lines, 3, Indent8, MetadataJoin(p), "\n");
    ConcatPartPiece(lines, 4, Indent8, NameFilter(attribute), "\n");
    ConcatPartPiece(lines, 5, Indent8, conditions, "\n");
    ConcatParts(lines, 6);
    EndsWithShorter(f, Indent4, Closing(attribute));
  }
}
