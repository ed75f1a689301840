/** Query composition of the warehouse export: the fixed base query, the
    synthesised attribute joins in list order, and the filter and row-cap
    tail, as assembled in `main`. */
module QueryComposer {
  import opened Wrappers
  import opened Text
  import opened AttributeJoin

  /** The arguments of one `add_attribute_join` call. */
  datatype AttributeJoinSpec =
    AttributeJoinSpec(table: string, attribute: string, joinType: string, customConditions: string)

  /** A call that passes only the table and the attribute, leaving the join
      type and the extra conditions at their defaults. */
  function DefaultJoin(table: string, attribute: string): (s: AttributeJoinSpec)
    ensures s.joinType == DefaultJoinType && s.customConditions == ""
  {
    AttributeJoinSpec(table, attribute, DefaultJoinType, "")
  }

  function Synthesize(spec: AttributeJoinSpec): Result<string, string> {
    AddAttributeJoin(spec.table, spec.attribute, spec.joinType, spec.customConditions)
  }

  /** The call for `spec` does not raise, which by `AddAttributeJoin`'s
      contract is the case exactly when the table has a known suffix. */
  predicate Valid(spec: AttributeJoinSpec) {
    Synthesize(spec).Success?
  }

  /** Entry `i` is the first spec whose table has no known suffix. */
  /** A call with the defaults opens with `LEFT JOIN` and restricts to
      store 0 with no further condition: its condition line is the store
      scope alone. */
  lemma DefaultJoinShape(table: string, attribute: string)
    requires TablePrefix(table).Some?
    ensures var p := TablePrefix(table).value;
            var f := Synthesize(DefaultJoin(table, attribute)).value;
            && StartsWith(f, "\n" + Indent4 + "LEFT JOIN (")
            && Contains(f, Indent8 + StoreScope(p) + "\n")
  {
    var p := TablePrefix(table).value;
    var conditions := JoinConditions(p, "");
    var lines := FragmentLines(table, attribute, DefaultJoinType, conditions, p);
    assert Synthesize(DefaultJoin(table, attribute)).value == Concat(lines);
    ConcatParts(lines, 0);
    StartsWithShorter(Concat(lines), Opening(DefaultJoinType), "\n");
    ConcatPartPiece(lines, 5, "", Indent8 + StoreScope(p) + "\n", "");
  }

  predicate FirstInvalid(specs: seq<AttributeJoinSpec>, i: nat) {
    i < |specs| && !Valid(specs[i]) && forall j :: 0 <= j < i ==> Valid(specs[j])
  }

  /** The list of join fragments, evaluated left to right as a Python list
      literal is: the first call that raises aborts the whole list with its
      error. */
  function BuildJoins(specs: seq<AttributeJoinSpec>): (r: Result<seq<string>, string>)
    ensures r.Success? <==> forall i :: 0 <= i < |specs| ==> Valid(specs[i])
    ensures r.Success? ==>
      && |r.value| == |specs|
      && forall i :: 0 <= i < |specs| ==> Synthesize(specs[i]) == Success(r.value[i])
  {
    if specs == [] then Success([])
    else
      var rest := specs[1..];
      assert forall i :: 0 < i < |specs| ==> specs[i] == rest[i - 1];
      match Synthesize(specs[0])
      case Failure(e) =>
        assert FirstInvalid(specs, 0);
        Failure(e)
      case Success(fragment) =>
        match BuildJoins(rest)
        case Failure(e) =>
          Failure(e)
        case Success(fragments) =>
          var all := [fragment] + fragments;
          assert forall i :: 0 < i < |specs| ==> all[i] == fragments[i - 1];
          Success(all)
  }

  /** A failing join list fails with the error of its first invalid call. */
  lemma {:induction false} BuildJoinsFirstError(specs: seq<AttributeJoinSpec>)
    requires BuildJoins(specs).Failure?
    ensures exists i: nat :: FirstInvalid(specs, i) && BuildJoins(specs).error == Synthesize(specs[i]).error
  {
    if Synthesize(specs[0]).Failure? {
      assert FirstInvalid(specs, 0);
    } else {
      var rest := specs[1..];
      BuildJoinsFirstError(rest);
      var i: nat :| FirstInvalid(rest, i) && BuildJoins(rest).error == Synthesize(rest[i]).error;
      assert FirstInvalid(specs, i + 1);
    }
  }

  /** `base_query + ' ' + ' '.join(additional_joins) + tail`. */
  function ComposeQuery(baseQuery: string, specs: seq<AttributeJoinSpec>, tail: string): (r: Result<string, string>)
    ensures r.Success? <==> forall i :: 0 <= i < |specs| ==> Valid(specs[i])
    ensures r.Failure? ==>
      exists i: nat :: FirstInvalid(specs, i) && r.error == UnknownTableMessage(specs[i].table)
  {
    match BuildJoins(specs)
    case Failure(e) =>
      BuildJoinsFirstError(specs);
      Failure(e)
    case Success(fragments) => Success(baseQuery + " " + JoinWith(fragments, " ") + tail)
  }

  /** A composed query starts with the base query and one space and ends
      with the tail, whatever the joins. */
  lemma ComposedQueryBounds(baseQuery: string, specs: seq<AttributeJoinSpec>, tail: string)
    requires forall j :: 0 <= j < |specs| ==> Valid(specs[j])
    ensures StartsWith(ComposeQuery(baseQuery, specs, tail).value, baseQuery + " ")
    ensures EndsWith(ComposeQuery(baseQuery, specs, tail).value, tail)
  {
    var joined := JoinWith(BuildJoins(specs).value, " ");
    var q := baseQuery + " " + joined + tail;
    assert ComposeQuery(baseQuery, specs, tail).value == q;
    StartsWithAppend(baseQuery + " ", joined + tail);
    assert q == (baseQuery + " ") + (joined + tail);
    EndsWithAppend(baseQuery + " " + joined, tail);
  }

  /** The first fragment follows the base query's space directly. */
  lemma ComposedQueryFirst(baseQuery: string, specs: seq<AttributeJoinSpec>, tail: string)
    requires forall j :: 0 <= j < |specs| ==> Valid(specs[j])
    requires specs != []
    ensures StartsWith(ComposeQuery(baseQuery, specs, tail).value, baseQuery + " " + Synthesize(specs[0]).value)
  {
    var fragments := BuildJoins(specs).value;
    var joined := JoinWith(fragments, " ");
    assert Synthesize(specs[0]).value == fragments[0];
    assert ComposeQuery(baseQuery, specs, tail).value == (baseQuery + " ") + (joined + tail);
    JoinWithFirst(fragments, " ");
    StartsWithExtend(baseQuery + " ", joined, tail, fragments[0]);
  }

  /** The last fragment directly precedes the tail. */
  lemma ComposedQueryLast(baseQuery: string, specs: seq<AttributeJoinSpec>, tail: string)
    requires forall j :: 0 <= j < |specs| ==> Valid(specs[j])
    requires specs != []
    ensures EndsWith(ComposeQuery(baseQuery, specs, tail).value, Synthesize(specs[|specs| - 1]).value + tail)
  {
    var fragments := BuildJoins(specs).value;
    var joined := JoinWith(fragments, " ");
    assert Synthesize(specs[|specs| - 1]).value == fragments[|fragments| - 1];
    assert ComposeQuery(baseQuery, specs, tail).value == baseQuery + " " + joined + tail;
    JoinWithLast(fragments, " ");
    EndsWithExtend(baseQuery + " ", joined, tail, fragments[|fragments| - 1]);
  }

  /** A composed query holds every join's fragment, and neighbouring
      fragments in list order with one space between them. */
  lemma ComposedQueryFragments(baseQuery: string, specs: seq<AttributeJoinSpec>, tail: string, i: nat)
    requires forall j :: 0 <= j < |specs| ==> Valid(specs[j])
    requires i < |specs|
    ensures Contains(ComposeQuery(baseQuery, specs, tail).value, Synthesize(specs[i]).value)
    ensures i + 1 < |specs| ==>
      Contains(ComposeQuery(baseQuery, specs, tail).value,
               Synthesize(specs[i]).value + " " + Synthesize(specs[i + 1]).value)
  {
    var fragments := BuildJoins(specs).value;
    var joined := JoinWith(fragments, " ");
    var q := baseQuery + " " + joined + tail;
    assert ComposeQuery(baseQuery, specs, tail).value == q;
    ContainsMiddle(baseQuery + " ", joined, tail);
    JoinWithContains(fragments, " ", i);
    ContainsTransitive(q, joined, fragments[i]);
    if i + 1 < |specs| {
      JoinWithNeighbours(fragments, " ", i);
      ContainsTransitive(q, joined, fragments[i] + " " + fragments[i + 1]);
    }
  }

  const ProductAttributeInt := "product_attribute_int"
  const ProductAttributeVar := "product_attribute_var"
  const ProductAttributeTxt := "product_attribute_txt"

  /** The three side tables select their prefixes. */
  lemma SideTablePrefixes()
    ensures TablePrefix(ProductAttributeInt) == Some("pai")
    ensures TablePrefix(ProductAttributeVar) == Some("pav")
    ensures TablePrefix(ProductAttributeTxt) == Some("pat")
  {
    assert ProductAttributeInt[|ProductAttributeInt| - 4..] == IntSuffix;
    assert ProductAttributeVar[|ProductAttributeVar| - 4..] == VarSuffix;
    assert ProductAttributeTxt[|ProductAttributeTxt| - 4..] == TxtSuffix;
  }

  /** The product columns, the attribute-set join and the hand-written joins
      for name, manufacturer, url key, status and visibility. */
  const BaseQuery: string := @"
          SELECT
            p.id,
            p.row_id,
            p.sku,
            p.attribute_set_id,
            p.type_id,
            p.created_at,
            p.updated_at,
            ats.name AS attribute_set_name,
            COALESCE(visibility.value, 0) AS visibility,  -- Ajustado para inteiro
            COALESCE(status.value, 0) AS status,  -- Ajustado para inteiro
            COALESCE(an.value, '') AS name,
            COALESCE(pm.manufacturer_id, 0) AS manufacturer_id,  -- Ajustado para inteiro
            COALESCE(pm.name, '') AS manufacturer_name,
            COALESCE(url.value, '') AS url_key,
            convert_timezone('US/Eastern', p.created_at) AS created_at_local,
            convert_timezone('US/Eastern', p.updated_at) AS updated_at_local,
            COALESCE(manufacturer_sku.value, '') AS manufacturer_sku,  -- Presumido como texto
            COALESCE(hide_from_product_view.value, 0) AS hide_from_product_view,
            COALESCE(applications.value, '') AS applications,
            COALESCE(abrasion_wear_resistance.value, '') AS abrasion_wear_resistance,
            COALESCE(acoustics.value, '') AS acoustics,
            COALESCE(ada.value, '') AS ada,
            COALESCE(antimicrobial_testing.value, '') AS antimicrobial_testing,
            COALESCE(backing_input.value, '') AS backing_input,
            COALESCE(thickness_pile_height_carpet.value, '') AS thickness_pile_height_carpet,
            COALESCE(classification.value, '') AS classification,
            COALESCE(collection_name.value, '') AS collection_name,
            COALESCE(construction.value, '') AS construction,
            COALESCE(content_test_attribute.value, '') AS content_test_attribute,
            COALESCE(custom_capabilities.value, '') AS custom_capabilities,
            COALESCE(description.value, '') AS description,
            COALESCE(designer_name.value, '') AS designer_name,
            COALESCE(edge_end_detail.value, '') AS edge_end_detail,
            COALESCE(emissions.value, '') AS emissions,
            COALESCE(finish_treatment.value, '') AS finish_treatment,
            COALESCE(flammability.value, '') AS flammability,
            COALESCE(grout_width.value, '') AS grout_width,
            COALESCE(hanging_information.value, '') AS hanging_information,
            COALESCE(hardness_result.value, '') AS hardness_result,
            COALESCE(hide_configuration.value, '') AS hide_configuration,
            COALESCE(installation.value, '') AS installation,
            COALESCE(installation_direction.value, '') AS installation_direction,
            COALESCE(lead_time.value, '') AS lead_time,
            COALESCE(leed.value, '') AS leed,
            COALESCE(length.value, '') AS length,
            COALESCE(lightfastness_mdp.value, '') AS lightfastness_mdp,
            COALESCE(maintenance_maya.value, '') AS maintenance_maya,
            COALESCE(manufacturer_notes.value, '') AS manufacturer_notes,
            COALESCE(min_max_units.value, '') AS min_max_units,
            COALESCE(percentage_of_opacity.value, '') AS percentage_of_opacity,
            COALESCE(order_increments.value, '') AS order_increments,
            COALESCE(thickness.value, '') AS thickness,
            COALESCE(pattern_repeat_width.value, '') AS pattern_repeat_width,
            COALESCE(performance.value, '') AS performance,
            COALESCE(pile_face_weight_carpet.value, '') AS pile_face_weight_carpet,
            COALESCE(product_details.value, '') AS product_details,
            COALESCE(recommended_grout.value, '') AS recommended_grout,
            COALESCE(series_name.value, '') AS series_name,
            COALESCE(size_notes.value, '') AS size_notes,
            COALESCE(slip_resistance.value, '') AS slip_resistance,
            COALESCE(stain_resistance.value, '') AS stain_resistance,
            COALESCE(state_of_origin.value, 0) AS state_of_origin,
            COALESCE(surface_pile_density.value, '') AS surface_pile_density,
            COALESCE(surface_texture_mdp.value, '') AS surface_texture_mdp,
            COALESCE(tile_sheet_dimensions.value, '') AS tile_sheet_dimensions,
            COALESCE(total_weight.value, '') AS total_weight,
            COALESCE(warranty.value, '') AS warranty,
            COALESCE(water_absorption_result.value, '') AS water_absorption_result,
            COALESCE(wear_layer_thickness.value, '') AS wear_layer_thickness,
            COALESCE(weather_resistance_result.value, '') AS weather_resistance_result,
            COALESCE(width.value, '') AS width,
            COALESCE(wood_grade.value, '') AS wood_grade,
            COALESCE(yarn_tuft_details.value, '') AS yarn_tuft_details,
            COALESCE(year_of_introduction.value, '') AS year_of_introduction,
            COALESCE(category_ids.value, '') AS category_ids
        FROM magento.product_basic p
        JOIN magento.attribute_set ats ON ats.id = p.attribute_set_id
        LEFT JOIN (
            SELECT pav.value, pav.product_id
            FROM magento.product_attribute_var pav
            JOIN magento.attribute_product ap ON pav.attribute_id = ap.id
            AND ap.name = 'name'
            AND pav.store_id = 0
        ) an ON an.product_id = p.row_id
        LEFT JOIN (
            SELECT m.manufacturer_id, m.name, cpei.row_id
            FROM mbdw.catalog_product_entity_int cpei
            JOIN magento.manufacturer_listing m ON m.manufacturer_id = cpei.value
            AND cpei.store_id = 0
            AND cpei._sdc_deleted_at__string is null
            AND cpei._sdc_deleted_at__inst is null
        ) pm ON pm.row_id = p.row_id
        LEFT JOIN (
            SELECT pav.value, pav.product_id
            FROM magento.product_attribute_var pav
            JOIN magento.attribute_product ap ON pav.attribute_id = ap.id
            AND ap.name = 'url_key'
            AND pav.store_id = 0
        ) url ON url.product_id = p.row_id
        LEFT JOIN (
            SELECT pai.value, pai.product_id
            FROM magento.product_attribute_int pai
            JOIN magento.attribute_product ap ON pai.attribute_id = ap.id
            AND ap.name = 'status'
            AND pai.store_id = 0
        ) status ON status.product_id = p.row_id
        LEFT JOIN (
            SELECT pai.value, pai.product_id
            FROM magento.product_attribute_int pai
            JOIN magento.attribute_product ap ON pai.attribute_id = ap.id
            AND ap.name = 'visibility'
            AND pai.store_id = 0
        ) visibility ON visibility.product_id = p.row_id
        "

  /** The side table an attribute lives in. */
  datatype SideTable = IntTable | VarTable | TxtTable

  function TableName(side: SideTable): string {
    match side
    case IntTable => ProductAttributeInt
    case VarTable => ProductAttributeVar
    case TxtTable => ProductAttributeTxt
  }

  /** The attribute joins appended to the base query, in order, each as its
      side table and attribute name. */
  const AdditionalJoins: seq<(SideTable, string)> :=
    [
      (IntTable, "hide_from_product_view"),
      (VarTable, "manufacturer_sku"),
      (TxtTable, "category_ids"),
      (TxtTable, "applications"),
      (TxtTable, "abrasion_wear_resistance"),
      (VarTable, "acoustics"),
      (VarTable, "ada"),
      (VarTable, "antimicrobial_testing"),
      (VarTable, "backing_input"),
      (VarTable, "thickness_pile_height_carpet"),
      (TxtTable, "classification"),
      (TxtTable, "collection_name"),
      (TxtTable, "construction"),
      (VarTable, "content_test_attribute"),
      (TxtTable, "custom_capabilities"),
      (TxtTable, "description"),
      (TxtTable, "designer_name"),
      (VarTable, "edge_end_detail"),
      (VarTable, "emissions"),
      (VarTable, "finish_treatment"),
      (TxtTable, "flammability"),
      (VarTable, "grout_width"),
      (VarTable, "hanging_information"),
      (VarTable, "hardness_result"),
      (VarTable, "hide_configuration"),
      (VarTable, "installation"),
      (VarTable, "installation_direction"),
      (VarTable, "lead_time"),
      (TxtTable, "leed"),
      (VarTable, "length"),
      (VarTable, "lightfastness_mdp"),
      (TxtTable, "maintenance_maya"),
      (TxtTable, "manufacturer_notes"),
      (VarTable, "min_max_units"),
      (VarTable, "percentage_of_opacity"),
      (VarTable, "order_increments"),
      (VarTable, "thickness"),
      (VarTable, "pattern_repeat_width"),
      (VarTable, "performance"),
      (VarTable, "pile_face_weight_carpet"),
      (TxtTable, "product_details"),
      (VarTable, "recommended_grout"),
      (VarTable, "series_name"),
      (TxtTable, "size_notes"),
      (VarTable, "slip_resistance"),
      (VarTable, "stain_resistance"),
      (IntTable, "state_of_origin"),
      (VarTable, "surface_pile_density"),
      (VarTable, "surface_texture_mdp"),
      (VarTable, "tile_sheet_dimensions"),
      (VarTable, "total_weight"),
      (VarTable, "warranty"),
      (VarTable, "water_absorption_result"),
      (VarTable, "wear_layer_thickness"),
      (VarTable, "weather_resistance_result"),
      (VarTable, "width"),
      (VarTable, "wood_grade"),
      (VarTable, "yarn_tuft_details"),
      (VarTable, "year_of_introduction")
    ]

  /** The `add_attribute_join(table, attribute)` calls of the join list. */
  function AdditionalJoinSpecs(): (specs: seq<AttributeJoinSpec>)
    ensures |specs| == |AdditionalJoins| == 59
    ensures forall i :: 0 <= i < |specs| ==>
      && specs[i].table in {ProductAttributeInt, ProductAttributeVar, ProductAttributeTxt}
      && specs[i].attribute == AdditionalJoins[i].1
      && specs[i].joinType == DefaultJoinType
      && specs[i].customConditions == ""
  {
    seq(|AdditionalJoins|, i requires 0 <= i < |AdditionalJoins| =>
      DefaultJoin(TableName(AdditionalJoins[i].0), AdditionalJoins[i].1))
  }

  const HideFilter := "hide_from_product_view.value = 0"
  const VisibilityFilter := "visibility.value = 2"
  const ManufacturerExclusion := "pm.manufacturer_id NOT IN (50461, 50462, 50459, 50460, 38379)"
  const RowLimit := "LIMIT 50"
  const Indent12 := "            "

  /** The lines of the tail literal: the filters and the row cap. */
  function TailLines(): seq<string> {
    [ "\n",
      Indent12 + "WHERE " + HideFilter + "\n",
      Indent12 + "AND " + VisibilityFilter + "\n",
      Indent12 + "AND " + ManufacturerExclusion + "\n",
      Indent12 + RowLimit + (";\n" + Indent8) ]
  }

  const QueryTail := Concat(TailLines())

  /** The tail holds the hide flag, the visibility, the manufacturer
      exclusion and the row cap. */
  lemma QueryTailFilters()
    ensures Contains(QueryTail, HideFilter)
    ensures Contains(QueryTail, VisibilityFilter)
    ensures Contains(QueryTail, ManufacturerExclusion)
    ensures Contains(QueryTail, RowLimit)
  {
    var lines := TailLines();
    ConcatPartPiece(lines, 1, Indent12 + "WHERE ", HideFilter, "\n");
    ConcatPartPiece(lines, 2, Indent12 + "AND ", VisibilityFilter, "\n");
    ConcatPartPiece(lines, 3, Indent12 + "AND ", ManufacturerExclusion, "\n");
    ConcatPartPiece(lines, 4, Indent12, RowLimit, ";\n" + Indent8);
  }

  /** The export query `main` sends, over a given base query: it never
      raises, starts with the base query and one space, and ends with the
      tail. */
  function ExportQuery(baseQuery: string): (r: Result<string, string>)
    ensures r.Success?
    ensures StartsWith(r.value, baseQuery + " ")
    ensures EndsWith(r.value, QueryTail)
  {
    AdditionalJoinsValid();
    ComposedQueryBounds(baseQuery, AdditionalJoinSpecs(), QueryTail);
    ComposeQuery(baseQuery, AdditionalJoinSpecs(), QueryTail)
  }

  /** The export query with the fixed base query. */
  function FullQuery(): Result<string, string> {
    ExportQuery(BaseQuery)
  }

  /** Every call in the join list names a side table with a known suffix. */
  lemma AdditionalJoinsValid()
    ensures forall i :: 0 <= i < |AdditionalJoinSpecs()| ==> Valid(AdditionalJoinSpecs()[i])
  {
    SideTablePrefixes();
  }

  /** Any composition with the export tail carries the filters and the row
      cap, whatever the base query and whatever the joins and their order. */
  lemma ComposedQueryFilters(baseQuery: string, specs: seq<AttributeJoinSpec>)
    requires forall j :: 0 <= j < |specs| ==> Valid(specs[j])
    ensures var q := ComposeQuery(baseQuery, specs, QueryTail).value;
            && Contains(q, HideFilter)
            && Contains(q, VisibilityFilter)
            && Contains(q, ManufacturerExclusion)
            && Contains(q, RowLimit)
  {
    var q := ComposeQuery(baseQuery, specs, QueryTail).value;
    ComposedQueryBounds(baseQuery, specs, QueryTail);
    EndsWithContains(q, QueryTail);
    QueryTailFilters();
    ContainsTransitive(q, QueryTail, HideFilter);
    ContainsTransitive(q, QueryTail, VisibilityFilter);
    ContainsTransitive(q, QueryTail, ManufacturerExclusion);
    ContainsTransitive(q, QueryTail, RowLimit);
  }

  /** The export query always carries the filters and the row cap. The base
      query is a parameter so that the proof does not unfold the long
      literal; `FullQuery` is this query at `BaseQuery`. */
  lemma ExportQueryWellFormed(baseQuery: string)
    ensures var q := ExportQuery(baseQuery).value;
            && Contains(q, HideFilter)
            && Contains(q, VisibilityFilter)
            && Contains(q, ManufacturerExclusion)
            && Contains(q, RowLimit)
  {
    AdditionalJoinsValid();
    ComposedQueryFilters(baseQuery, AdditionalJoinSpecs());
  }
}
