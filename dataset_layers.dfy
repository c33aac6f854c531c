/**
 * The layers of the test application that serve the full-data datasets:
 * per-dataset tile fields, per-dataset and per-zoom filters on the `nature`
 * property, and the annotations that copy JSON properties into columns.
 *
 * A dataset feature stores its attributes in the JSON column "properties";
 * its geometry is in "geom".
 */
module DatasetLayers {
  import opened Common
  import opened QuerySets
  import opened Backends
  import opened PostgisBackend

  /** A FullDataLayer instance: the dataset and its features. */
  datatype FullDataLayer = FullDataLayer(
    name: string,
    slug: string,             // slugify(name); slugify itself is not modelled
    minZoom: int,
    maxZoom: int,
    description: string,
    updateDatetime: string,
    features: QuerySet)

  const Road: string := "troncon_de_route"
  const Building: string := "batiment"
  const Commune: string := "commune"
  const CommuneCentre: string := "commune_centre"
  const Stream: string := "troncon_hydrographique"
  const Park: string := "parc_ou_reserve"
  const Department: string := "departement"
  const Region: string := "region"
  const Railway: string := "troncon_voie_ferree"
  const WaterSurface: string := "surface_hydrographique"
  const SportsGround: string := "terrain_de_sport"
  const Vegetation: string := "zone_de_vegetation"

  /** The datasets `get_tile_fields` has an entry for. */
  predicate HasOwnFields(name: string) {
    name in {Road, Building, Commune, CommuneCentre, Stream, Park, Department, Region, Railway,
             WaterSurface, SportsGround}
  }

  /** `get_tile_fields()`: the columns a dataset's tiles carry. */
  function TileFields(name: string): (fields: seq<string>)
    ensures |fields| > 0
    ensures !HasOwnFields(name) <==> fields == ["properties"]
    ensures name == Commune || name == CommuneCentre ==>
              fields == ["nom", "population", "chef_lieu_region", "chef_lieu_departement"]
  {
    if name == Road then ["nature"]
    else if name == Building then ["hauteur"]
    else if name == Commune || name == CommuneCentre then
      ["nom", "population", "chef_lieu_region", "chef_lieu_departement"]
    else if name == Stream then ["nom"]
    else if name == Park then ["nom", "nature"]
    else if name == Department then ["nom", "code_insee", "code_insee_region"]
    else if name == Region then ["nom", "code_insee"]
    else if name == Railway then ["nature", "voies", "etat", "position"]
    else if name == WaterSurface then ["nature"]
    else if name == SportsGround then ["nature"]
    else ["properties"]
  }

  /**
   * The value of a JSON member as `->>` returns it: text, or NULL for JSON
   * null. A number keeps the literal it was written with, where jsonb would
   * give its normalised text.
   */
  function JsonText(j: Json): (v: Value)
    ensures j.JString? ==> v == Text(j.s)
    ensures v == Null <==> j.JNull?
  {
    match j
    case JNull => Null
    case JBool(b) => Text(if b then "true" else "false")
    case JNumber(literal) => Text(literal)
    case JString(s) => Text(s)
    case _ => TextOfJson(j)
  }

  /** The JSON object a row's "properties" column holds, if it holds one. */
  predicate HasObject(row: Row) {
    var p := Column(row, "properties");
    p.JsonDoc? && p.doc.JObject?
  }

  /** `KeyTextTransform(key, "properties")`: the member as text, NULL when the member is absent. */
  function KeyText(row: Row, key: string): (v: Value)
    ensures !HasObject(row) || key !in Column(row, "properties").doc.members ==> v == Null
    ensures HasObject(row) && key in Column(row, "properties").doc.members ==>
              v == JsonText(Column(row, "properties").doc.members[key])
  {
    var p := Column(row, "properties");
    if p.JsonDoc? && p.doc.JObject? && key in p.doc.members then JsonText(p.doc.members[key]) else Null
  }

  /** `Cast(..., output_field=FloatField())`: NULL stays NULL. */
  function CastFloat(v: Value): (r: Value)
    ensures r == Null <==> v == Null
  {
    if v == Null then Null else FloatCast(v)
  }

  /**
   * The row's property `key` is a JSON string among `values`: the test made
   * by both `properties__key__in=values` and, for a one-element `values`,
   * `properties__contains={key: value}`.
   */
  predicate StringMemberIn(row: Row, key: string, values: set<string>) {
    && HasObject(row)
    && key in Column(row, "properties").doc.members
    && Column(row, "properties").doc.members[key].JString?
    && Column(row, "properties").doc.members[key].s in values
  }

  /**
   * The condition Django places under NOT for `exclude(properties__key__in=values)`,
   * `("properties" -> key) IN values AND "properties" IS NOT NULL`, in SQL's
   * three-valued logic, None standing for NULL. `->` gives NULL when the
   * column holds no object or the object has no member `key`; the IS NOT NULL
   * test is on the whole column, so a NULL column makes the condition FALSE.
   */
  function KeyInUnderNot(row: Row, key: string, values: set<string>): (t: Option<bool>)
    ensures t == Some(true) <==> StringMemberIn(row, key, values)
    ensures t == Some(false) <==>
              || Column(row, "properties") == Null
              || (HasObject(row) && key in Column(row, "properties").doc.members && !StringMemberIn(row, key, values))
  {
    if Column(row, "properties") == Null then Some(false)
    else if !HasObject(row) || key !in Column(row, "properties").doc.members then None
    else Some(StringMemberIn(row, key, values))
  }

  /**
   * The rows `exclude(properties__key__in=values)` drops: PostgreSQL returns a
   * row only when its WHERE clause is TRUE, that is when the condition under
   * NOT is FALSE.
   */
  function KeyInExcludes(key: string, values: set<string>): Row -> bool {
    row => KeyInUnderNot(row, key, values) != Some(false)
  }

  /** `properties__nature__in=allowed`, as a row condition. */
  function NatureIn(allowed: set<string>): Row -> bool {
    row => StringMemberIn(row, "nature", allowed)
  }

  const Motorway: string := "Type autoroutier"

  /** The road natures shown from zoom 9. */
  function MajorRoads(): set<string> {
    {Motorway, "Route à 2 chaussées", "Bretelle"}
  }

  /** The road natures shown from zoom 12. */
  function Roads(): set<string> {
    MajorRoads() + {"Route à 1 chaussée"}
  }

  /** The vegetation natures hidden below zoom 15. */
  function MinorVegetation(): set<string> {
    {"Verger", "Vigne", "Haie", "Lande ligneuse", "Peupleraie", "Bois"}
  }

  /**
   * The road natures a road tile at zoom `z` keeps, None when all are kept:
   * `range(min_zoom, 9)`, then `range(9, 12)`, then `range(12, 15)`.
   */
  function AllowedRoadNatures(z: int, minZoom: int): (r: Option<set<string>>)
    ensures z >= 15 ==> r == None
    ensures minZoom <= z < 9 ==> r == Some({Motorway})
    ensures 9 <= z < 12 ==> r == Some(MajorRoads())
    ensures 12 <= z < 15 ==> r == Some(Roads())
    ensures z < 9 && z < minZoom ==> r == None
  {
    if minZoom <= z < 9 then Some({Motorway})
    else if 9 <= z < 12 then Some(MajorRoads())
    else if 12 <= z < 15 then Some(Roads())
    else None
  }

  /**
   * Zooming in never hides a road nature: once filtering starts, each zoom
   * level keeps at least the natures of the levels below it, and from zoom 15
   * nothing is filtered.
   */
  lemma AllowedRoadNaturesGrow(z1: int, z2: int, minZoom: int)
    requires minZoom <= z1 <= z2
    ensures AllowedRoadNatures(z2, minZoom).Some? ==>
              AllowedRoadNatures(z1, minZoom).Some?
              && AllowedRoadNatures(z1, minZoom).value <= AllowedRoadNatures(z2, minZoom).value
    ensures AllowedRoadNatures(z1, minZoom).Some? ==>
              Motorway in AllowedRoadNatures(z1, minZoom).value
  {
  }

  /** A computed column: a JSON property as text, or as a float. */
  datatype Expr = PropertyText(key: string) | PropertyFloat(key: string)

  /** `name=expr` in an `annotate()` call. */
  datatype Annotation = Annotation(alias: string, expr: Expr)

  function Eval(e: Expr, row: Row): Value {
    match e
    case PropertyText(key) => KeyText(row, key)
    case PropertyFloat(key) => CastFloat(KeyText(row, key))
  }

  /**
   * The annotations `get_vector_tile_queryset` adds for a dataset, in order:
   * no dataset annotates one alias twice or overwrites "properties", and a
   * dataset without tile fields of its own is not annotated.
   */
  function Annotations(name: string): (anns: seq<Annotation>)
    ensures SeparateAliases(anns)
    ensures !HasOwnFields(name) ==> anns == []
  {
    if name == Road then [Annotation("nature", PropertyText("nature"))]
    else if name == Building then [Annotation("hauteur", PropertyFloat("hauteur"))]
    else if name == Commune || name == CommuneCentre then
      [Annotation("nom", PropertyText("nom_officiel")),
       Annotation("population", PropertyFloat("population")),
       Annotation("chef_lieu_region", PropertyText("chef_lieu_de_region")),
       Annotation("chef_lieu_departement", PropertyText("chef_lieu_de_departement"))]
    else if name == Stream then [Annotation("nom", PropertyText("cpx_toponyme_de_cours_d_eau"))]
    else if name == Park then
      [Annotation("nom", PropertyText("toponyme")), Annotation("nature", PropertyText("nature"))]
    else if name == Department then
      [Annotation("nom", PropertyText("nom_officiel")), Annotation("code_insee", PropertyText("code_insee")),
       Annotation("code_insee_region", PropertyText("code_insee_de_la_region"))]
    else if name == Region then
      [Annotation("nom", PropertyText("nom_officiel")), Annotation("code_insee", PropertyText("code_insee"))]
    else if name == Railway then
      [Annotation("nature", PropertyText("nature")), Annotation("voies", PropertyText("nombre_de_voies")),
       Annotation("etat", PropertyText("etat_de_l_objet")),
       Annotation("position", PropertyText("position_par_rapport_au_sol"))]
    else if name == WaterSurface || name == SportsGround then [Annotation("nature", PropertyText("nature"))]
    else []
  }

  function Aliases(anns: seq<Annotation>): set<string> {
    set k | 0 <= k < |anns| :: anns[k].alias
  }

  /** The aliases are distinct and none of them overwrites "properties". */
  predicate SeparateAliases(anns: seq<Annotation>) {
    && (forall k | 0 <= k < |anns| :: anns[k].alias != "properties")
    && (forall j, k | 0 <= j < k < |anns| :: anns[j].alias != anns[k].alias)
  }

  /** `qs.annotate(alias=expr)` for one annotation, which reads "properties". */
  function AnnotateOne(qs: QuerySet, ann: Annotation): (r: Result<QuerySet>)
    ensures r.Ok? <==> "properties" in qs.columns
    ensures r.Ok? ==> r.value.columns == qs.columns + {ann.alias}
    ensures r.Ok? ==> |r.value.rows| == |qs.rows|
    ensures r.Ok? ==> forall i | 0 <= i < |qs.rows| ::
                        r.value.rows[i] == qs.rows[i][ann.alias := Eval(ann.expr, qs.rows[i])]
  {
    Annotate(qs, ann.alias, {"properties"}, row => Eval(ann.expr, row))
  }

  /** `qs.annotate(**anns)`: each annotation reads "properties". */
  function AnnotateAll(qs: QuerySet, anns: seq<Annotation>): (r: Result<QuerySet>)
    ensures anns == [] ==> r == Ok(qs)
    ensures anns != [] ==> (r.Ok? <==> "properties" in qs.columns)
    ensures r.Ok? ==> r.value.columns == qs.columns + Aliases(anns)
    ensures r.Ok? ==> |r.value.rows| == |qs.rows|
    ensures r.Ok? ==> forall i | 0 <= i < |qs.rows| :: r.value.rows[i].Keys == qs.rows[i].Keys + Aliases(anns)
    ensures r.Ok? ==> forall i, c | 0 <= i < |qs.rows| && c in qs.rows[i] && c !in Aliases(anns) ::
                        r.value.rows[i][c] == qs.rows[i][c]
    decreases |anns|
  {
    if anns == [] then Ok(qs)
    else
      var first := anns[0];
      var annotated :- AnnotateOne(qs, first);
      assert Aliases(anns) == {first.alias} + Aliases(anns[1..]) by {
        assert forall k | 1 <= k < |anns| :: anns[k] == anns[1..][k - 1];
      }
      AnnotateAll(annotated, anns[1..])
  }

  /** An expression reads nothing but the "properties" column. */
  lemma EvalReadsProperties(e: Expr, r1: Row, r2: Row)
    requires Column(r1, "properties") == Column(r2, "properties")
    ensures Eval(e, r1) == Eval(e, r2)
  {
  }

  /** With separate aliases, each annotated column holds its expression evaluated on the source row. */
  lemma AnnotatedValues(qs: QuerySet, anns: seq<Annotation>)
    requires SeparateAliases(anns)
    requires AnnotateAll(qs, anns).Ok?
    ensures forall i, k | 0 <= i < |qs.rows| && 0 <= k < |anns| ::
              AnnotateAll(qs, anns).value.rows[i][anns[k].alias] == Eval(anns[k].expr, qs.rows[i])
  {
    forall i, k | 0 <= i < |qs.rows| && 0 <= k < |anns|
      ensures AnnotateAll(qs, anns).value.rows[i][anns[k].alias] == Eval(anns[k].expr, qs.rows[i])
    {
      AnnotatedValue(qs, anns, i, k);
    }
  }

  /** Annotation `k` of row `i`, by induction on the annotations applied before it. */
  lemma {:induction false} AnnotatedValue(qs: QuerySet, anns: seq<Annotation>, i: int, k: int)
    requires SeparateAliases(anns) && AnnotateAll(qs, anns).Ok?
    requires 0 <= i < |qs.rows| && 0 <= k < |anns|
    ensures AnnotateAll(qs, anns).value.rows[i][anns[k].alias] == Eval(anns[k].expr, qs.rows[i])
    decreases |anns|
  {
    var annotated := AnnotateOne(qs, anns[0]).value;
    var rest := anns[1..];
    var final := AnnotateAll(annotated, rest).value;
    assert AnnotateAll(qs, anns).value == final;
    if k == 0 {
      assert anns[0].alias !in Aliases(rest);
      assert anns[0].alias in annotated.rows[i];
    } else {
      assert SeparateAliases(rest);
      AnnotatedValue(annotated, rest, i, k - 1);
      assert anns[k] == rest[k - 1];
      EvalReadsProperties(anns[k].expr, annotated.rows[i], qs.rows[i]);
    }
  }

  /** The filter or exclusion a dataset applies before its annotations. */
  function Selection(layer: FullDataLayer, z: int): (r: Result<QuerySet>)
    ensures layer.name != Road && layer.name != Vegetation && layer.name != Stream ==> r == Ok(layer.features)
    ensures layer.name == Vegetation && z >= 15 ==> r == Ok(layer.features)
    ensures layer.name == Road && AllowedRoadNatures(z, layer.minZoom).None? ==> r == Ok(layer.features)
  {
    var qs := layer.features;
    if layer.name == Road then
      var allowed := AllowedRoadNatures(z, layer.minZoom);
      if allowed.Some? then Filter(qs, {"properties"}, NatureIn(allowed.value))
      else Ok(qs)
    else if layer.name == Vegetation then
      if z < 15 then Exclude(qs, {"properties"}, KeyInExcludes("nature", MinorVegetation()))
      else Ok(qs)
    else if layer.name == Stream then
      Exclude(qs, {"properties"}, row => StringMemberIn(row, "position_par_rapport_au_sol", {"-1"}))
    else Ok(qs)
  }

  /** `FullDataFeatureVectorLayer.get_vector_tile_queryset(z, x, y)`. */
  function DatasetQueryset(layer: FullDataLayer, z: int): (r: Result<QuerySet>)
    ensures r.Ok? ==> r.value.columns == layer.features.columns + Aliases(Annotations(layer.name))
  {
    var selected :- Selection(layer, z);
    AnnotateAll(selected, Annotations(layer.name))
  }

  /**
   * Given a "properties" column, every dataset's queryset resolves, and every
   * tile field it names is one of its columns.
   */
  lemma TileFieldsResolve(layer: FullDataLayer, z: int)
    requires "properties" in layer.features.columns
    ensures DatasetQueryset(layer, z).Ok?
    ensures forall f | f in TileFields(layer.name) :: f in DatasetQueryset(layer, z).value.columns
  {
    var anns := Annotations(layer.name);
    forall f | f in TileFields(layer.name)
      ensures f in layer.features.columns + Aliases(anns)
    {
      if layer.name == Commune || layer.name == CommuneCentre {
        assert anns[0].alias == "nom" && anns[1].alias == "population";
        assert anns[2].alias == "chef_lieu_region" && anns[3].alias == "chef_lieu_departement";
      } else if layer.name == Park || layer.name == Region {
        assert anns[0].alias == "nom" && anns[1].alias == (if layer.name == Park then "nature" else "code_insee");
      } else if layer.name == Department {
        assert anns[0].alias == "nom" && anns[1].alias == "code_insee" && anns[2].alias == "code_insee_region";
      } else if layer.name == Railway {
        assert anns[0].alias == "nature" && anns[1].alias == "voies";
        assert anns[2].alias == "etat" && anns[3].alias == "position";
      } else if HasOwnFields(layer.name) {
        assert anns[0].alias in Aliases(anns);
      }
    }
  }

  /**
   * A road tile is drawn from exactly the source roads whose nature the zoom
   * level allows (every road when it allows all), in source order, and each
   * one gains its nature as the text column "nature".
   */
  lemma RoadRows(layer: FullDataLayer, z: int)
    requires layer.name == Road && "properties" in layer.features.columns
    ensures var r := DatasetQueryset(layer, z);
            var allowed := AllowedRoadNatures(z, layer.minZoom);
            var source := if allowed.Some? then KeepRows(layer.features.rows, NatureIn(allowed.value))
                          else layer.features.rows;
            && r.Ok?
            && |r.value.rows| == |source|
            && (forall i | 0 <= i < |source| :: r.value.rows[i] == source[i]["nature" := KeyText(source[i], "nature")])
            && (allowed.Some? ==> forall i | 0 <= i < |source| :: StringMemberIn(source[i], "nature", allowed.value))
  {
    var selected := Selection(layer, z).value;
    var ann := Annotation("nature", PropertyText("nature"));
    assert Annotations(layer.name) == [ann];
    var one := AnnotateOne(selected, ann).value;
    assert AnnotateAll(selected, [ann]) == AnnotateAll(one, []);
  }

  /**
   * Below zoom 15 a vegetation tile keeps exactly the features whose
   * "properties" column is NULL or holds a nature that is not one of the six
   * minor natures; a feature whose properties have no nature is dropped. From
   * zoom 15 it keeps every feature unchanged.
   */
  lemma VegetationRows(layer: FullDataLayer, z: int)
    requires layer.name == Vegetation && "properties" in layer.features.columns
    ensures var r := DatasetQueryset(layer, z);
            && r.Ok?
            && (z >= 15 ==> r.value == layer.features)
            && (z < 15 ==>
                  && IsSubsequence(r.value.rows, layer.features.rows)
                  && (forall row | row in layer.features.rows ::
                        (row in r.value.rows <==>
                           || Column(row, "properties") == Null
                           || (HasObject(row) && "nature" in Column(row, "properties").doc.members
                               && !StringMemberIn(row, "nature", MinorVegetation())))))
  {
    if z < 15 {
      var drop := KeyInExcludes("nature", MinorVegetation());
      var selected := Selection(layer, z).value;
      assert Annotations(layer.name) == [];
      assert DatasetQueryset(layer, z).value == selected;
      forall row | row in layer.features.rows
        ensures row in selected.rows <==> KeyInUnderNot(row, "nature", MinorVegetation()) == Some(false)
      {
        assert multiset(selected.rows)[row] == if drop(row) then 0 else multiset(layer.features.rows)[row];
      }
    }
  }

  /** Below zoom 15, a vegetation feature whose properties object has no nature is not in the tile. */
  lemma VegetationWithoutNatureDropped(layer: FullDataLayer, z: int, row: Row)
    requires layer.name == Vegetation && "properties" in layer.features.columns && z < 15
    requires row in layer.features.rows && HasObject(row) && "nature" !in Column(row, "properties").doc.members
    ensures row !in DatasetQueryset(layer, z).value.rows
  {
    VegetationRows(layer, z);
  }

  /** A stream's queryset is its selection with the single annotation `nom`. */
  lemma StreamQueryset(layer: FullDataLayer, z: int)
    requires layer.name == Stream && "properties" in layer.features.columns
    ensures Selection(layer, z).Ok?
    ensures DatasetQueryset(layer, z)
            == AnnotateOne(Selection(layer, z).value, Annotation("nom", PropertyText("cpx_toponyme_de_cours_d_eau")))
  {
    var selected := Selection(layer, z).value;
    var ann := Annotations(layer.name)[0];
    assert Annotations(layer.name) == [ann];
    var r := AnnotateOne(selected, ann).value;
    assert AnnotateAll(selected, [ann]) == AnnotateAll(r, []);
  }

  /**
   * A stream tile never holds a feature whose position is "-1" and keeps every
   * other one, each carrying its watercourse toponym as the column "nom".
   */
  lemma StreamRows(layer: FullDataLayer, z: int)
    requires layer.name == Stream && "properties" in layer.features.columns
    ensures var r := DatasetQueryset(layer, z);
            && r.Ok?
            && (forall i | 0 <= i < |r.value.rows| ::
                  && !StringMemberIn(r.value.rows[i], "position_par_rapport_au_sol", {"-1"})
                  && "nom" in r.value.rows[i]
                  && r.value.rows[i]["nom"] == KeyText(r.value.rows[i], "cpx_toponyme_de_cours_d_eau"))
            && (forall row | row in layer.features.rows
                               && !StringMemberIn(row, "position_par_rapport_au_sol", {"-1"}) ::
                  row["nom" := KeyText(row, "cpx_toponyme_de_cours_d_eau")] in r.value.rows)
  {
    StreamQueryset(layer, z);
    var selected := Selection(layer, z).value;
    var r := DatasetQueryset(layer, z).value;
    forall i | 0 <= i < |r.rows|
      ensures !StringMemberIn(r.rows[i], "position_par_rapport_au_sol", {"-1"})
      ensures "nom" in r.rows[i] && r.rows[i]["nom"] == KeyText(r.rows[i], "cpx_toponyme_de_cours_d_eau")
    {
      assert Column(r.rows[i], "properties") == Column(selected.rows[i], "properties");
      assert !StringMemberIn(selected.rows[i], "position_par_rapport_au_sol", {"-1"});
    }
    forall row | row in layer.features.rows && !StringMemberIn(row, "position_par_rapport_au_sol", {"-1"})
      ensures row["nom" := KeyText(row, "cpx_toponyme_de_cours_d_eau")] in r.rows
    {
      assert row in selected.rows;
      var i :| 0 <= i < |selected.rows| && selected.rows[i] == row;
      assert r.rows[i] == row["nom" := KeyText(row, "cpx_toponyme_de_cours_d_eau")];
    }
  }

  /**
   * What the backends read from a dataset layer; the other settings keep their
   * defaults. The zoom gate reads `get_vector_tile_layer_min_zoom()` and
   * `get_vector_tile_layer_max_zoom()`, which a dataset layer does not
   * override, so every dataset layer is served from zoom 0 to 22 whatever its
   * instance's `min_zoom` and `max_zoom`.
   */
  function DatasetTileLayer(layer: FullDataLayer): (t: TileLayer)
    ensures t.id == layer.slug && t.minZoom == 0 && t.maxZoom == 22
    ensures t.geomField == "geom" && t.tileFields == Some(TileFields(layer.name)) && t.fieldsAttr == None
    ensures t.limit == None && t.extent == 4096 && t.buffer == 256 && t.clip
  {
    TileLayerOf(Defaults().(layerId := layer.slug)).(tileFields := Some(TileFields(layer.name)), fieldsAttr := None)
  }

  /**
   * A road tile below the instance's `min_zoom` passes the gate and, below
   * zoom 9, is drawn from every road unfiltered: `range(min_zoom, 9)` does
   * not hold it and no other bucket does either.
   */
  lemma RoadBelowMinZoom(layer: FullDataLayer, z: int)
    requires layer.name == Road && 0 <= z < layer.minZoom && z < 9
    ensures CheckInZoomLevels(DatasetTileLayer(layer), z)
    ensures Selection(layer, z) == Ok(layer.features)
  {
  }

  /**
   * `CityCentroidVectorLayer`, built on the FullDataLayer named "commune". Its
   * `get_min_zoom()` of 6 is read only by the road buckets, so it changes
   * nothing: the layer is served from zoom 0 to 22.
   */
  function CityCentroidTileLayer(communes: FullDataLayer): (t: TileLayer)
    requires communes.name == Commune
    ensures t.id == CommuneCentre && t.minZoom == 0 && t.maxZoom == 22
    ensures t.geomField == "centroid"
    ensures t.tileFields == Some(["nom", "population", "chef_lieu_region", "chef_lieu_departement"])
  {
    DatasetTileLayer(communes).(id := CommuneCentre, geomField := "centroid")
  }

  /** `CityCentroidVectorLayer.get_vector_tile_queryset`: the commune queryset plus `centroid=Centroid("geom")`. */
  function CityCentroidQueryset(communes: FullDataLayer, z: int): (r: Result<QuerySet>)
    requires communes.name == Commune
    ensures r.Ok? <==> "properties" in communes.features.columns && "geom" in communes.features.columns
    ensures r.Ok? ==> r.value.columns == communes.features.columns + Aliases(Annotations(Commune)) + {"centroid"}
  {
    assert "geom" !in Aliases(Annotations(Commune));
    var qs :- DatasetQueryset(communes, z);
    Annotate(qs, "centroid", {"geom"}, row => Centroid(Column(row, "geom")))
  }

  /** One commune row: its official name and population are annotated, its geometry is kept. */
  lemma CommuneRow(communes: FullDataLayer, i: int)
    requires "properties" in communes.features.columns && 0 <= i < |communes.features.rows|
    ensures var r := AnnotateAll(communes.features, Annotations(Commune));
            && r.Ok? && |r.value.rows| == |communes.features.rows|
            && Column(r.value.rows[i], "geom") == Column(communes.features.rows[i], "geom")
            && "nom" in r.value.rows[i] && r.value.rows[i]["nom"] == KeyText(communes.features.rows[i], "nom_officiel")
            && "population" in r.value.rows[i]
            && r.value.rows[i]["population"] == CastFloat(KeyText(communes.features.rows[i], "population"))
  {
    var anns := Annotations(Commune);
    assert "geom" !in Aliases(anns);
    assert anns[0].alias == "nom" && anns[1].alias == "population";
    var qs := AnnotateAll(communes.features, anns);
    AnnotatedValues(communes.features, anns);
    assert qs.value.rows[i][anns[0].alias] == Eval(anns[0].expr, communes.features.rows[i]);
    assert qs.value.rows[i][anns[1].alias] == Eval(anns[1].expr, communes.features.rows[i]);
  }

  /** A commune row carries its official name and population, and keeps its geometry. */
  lemma CommuneRows(communes: FullDataLayer, z: int)
    requires communes.name == Commune && "properties" in communes.features.columns
    ensures var r := DatasetQueryset(communes, z);
            && r.Ok?
            && |r.value.rows| == |communes.features.rows|
            && forall i | 0 <= i < |r.value.rows| ::
                 && Column(r.value.rows[i], "geom") == Column(communes.features.rows[i], "geom")
                 && "nom" in r.value.rows[i]
                 && r.value.rows[i]["nom"] == KeyText(communes.features.rows[i], "nom_officiel")
                 && "population" in r.value.rows[i]
                 && r.value.rows[i]["population"] == CastFloat(KeyText(communes.features.rows[i], "population"))
  {
    assert Selection(communes, z) == Ok(communes.features);
    var qs := AnnotateAll(communes.features, Annotations(Commune));
    assert DatasetQueryset(communes, z) == qs;
    forall i | 0 <= i < |communes.features.rows|
      ensures && Column(qs.value.rows[i], "geom") == Column(communes.features.rows[i], "geom")
              && "nom" in qs.value.rows[i]
              && qs.value.rows[i]["nom"] == KeyText(communes.features.rows[i], "nom_officiel")
              && "population" in qs.value.rows[i]
              && qs.value.rows[i]["population"] == CastFloat(KeyText(communes.features.rows[i], "population"))
    {
      CommuneRow(communes, i);
    }
  }

  /**
   * The city-centre layer serves every commune with its centroid and the
   * commune's annotated properties, and each of its tile fields and its
   * geometry field is a column.
   */
  lemma CityCentroidRows(communes: FullDataLayer, z: int)
    requires communes.name == Commune
    requires "properties" in communes.features.columns && "geom" in communes.features.columns
    ensures var r := CityCentroidQueryset(communes, z);
            && r.Ok?
            && |r.value.rows| == |communes.features.rows|
            && CityCentroidTileLayer(communes).geomField in r.value.columns
            && (forall f | f in CityCentroidTileLayer(communes).tileFields.value :: f in r.value.columns)
            && forall i | 0 <= i < |r.value.rows| ::
                 && "centroid" in r.value.rows[i]
                 && r.value.rows[i]["centroid"] == Centroid(Column(communes.features.rows[i], "geom"))
                 && "nom" in r.value.rows[i]
                 && r.value.rows[i]["nom"] == KeyText(communes.features.rows[i], "nom_officiel")
                 && "population" in r.value.rows[i]
                 && r.value.rows[i]["population"] == CastFloat(KeyText(communes.features.rows[i], "population"))
  {
    TileFieldsResolve(communes, z);
    CommuneRows(communes, z);
    var qs := DatasetQueryset(communes, z).value;
    assert "nom" in qs.columns && "population" in qs.columns;
    var r := CityCentroidQueryset(communes, z).value;
    forall i | 0 <= i < |r.rows|
      ensures "nom" in r.rows[i] && r.rows[i]["nom"] == qs.rows[i]["nom"]
      ensures "population" in r.rows[i] && r.rows[i]["population"] == qs.rows[i]["population"]
    {
      assert "nom" in qs.rows[i] && "population" in qs.rows[i];
    }
  }

  /**
   * Served by the PostGIS backend, a dataset tile at any zoom level from 0 to
   * 22 is queried, whatever the instance's zoom range, with the dataset's tile fields followed by the
   * prepared geometry as columns and the layer's slug as the layer name.
   */
  lemma DatasetPostgisQuery(layer: FullDataLayer, x: int, y: int, z: int, intersects: (Value, Bounds) -> bool)
    requires 0 <= z <= 22
    requires "properties" in layer.features.columns && "geom" in layer.features.columns
    ensures var plan := PostgisBackend.Prepare(DatasetTileLayer(layer), DatasetQueryset(layer, z), x, y, z, intersects);
            && plan.Ok? && plan.value.Query?
            && plan.value.query.columns == TileFields(layer.name) + [GeomPrepared]
            && plan.value.query.name == Some(layer.slug)
            && plan.value.query.extent == 4096
  {
    TileFieldsResolve(layer, z);
    var qs := DatasetQueryset(layer, z).value;
    var t := DatasetTileLayer(layer);
    MvtSubqueryIsPipeline(qs, "geom", XyBounds(x, y, z), 4096, 256, true, t.tileFields, None, intersects);
    assert "geom" in qs.columns;
    assert (set f | f in SelectedColumns(t.tileFields)) <= qs.columns + {GeomPrepared};
  }
}
