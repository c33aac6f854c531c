/**
 * The older PostGIS view mixin: the same filter, annotate, slice and values
 * pipeline as the PostGIS backend, driven by the view's vector_tile_*
 * settings, with no zoom gate and a result row that may come back as
 * memoryview or bytes.
 */
module PostgisMixin {
  import opened Common
  import opened QuerySets
  import opened Backends
  import opened Mixins
  import opened PostgisBackend

  /**
   * The ST_AsMVT call `PostgisBaseVectorTile.get_tile` issues, for
   * `source` = `get_vector_tile_queryset()`. Every zoom level is queried.
   */
  function BuildQuery(s: VectorTileSettings, source: Result<QuerySet>, x: int, y: int, z: int,
                      intersects: (Value, Bounds) -> bool)
    : (r: Result<MvtQuery>)
    ensures source.Err? ==> r == Err(source.error)
    ensures source.Ok? ==>
              var rows := MvtSubquery(source.value, s.geomName, XyBounds(x, y, z), s.extent, s.buffer, s.clipGeom,
                                      s.fields, s.querysetLimit, intersects);
              && (r.Ok? <==> rows.Ok?)
              && (r.Ok? ==> r.value == MvtQuery(SelectedColumns(s.fields), rows.value, s.layerName, s.extent,
                                                GeomPrepared))
  {
    var bounds := XyBounds(x, y, z);
    var features :- source;
    var rows :- MvtSubquery(features, s.geomName, bounds, s.extent, s.buffer, s.clipGeom, s.fields,
                            s.querysetLimit, intersects);
    Ok(MvtQuery(SelectedColumns(s.fields), rows, s.layerName, s.extent, GeomPrepared))
  }

  /**
   * The returned row as bytes: a memoryview is converted, bytes are kept and
   * a falsy row gives b"", so the tile is always the row's bytes, or b"" for NULL.
   */
  function NormaliseRow(row: DbBytes): (r: Bytes)
    ensures row.SqlNull? ==> r == []
    ensures !row.SqlNull? ==> r == row.data
  {
    if !IsFalsy(row) then row.data else []
  }

  /** `PostgisBaseVectorTile.get_tile(x, y, z)`, with `stAsMvt` the database's answer to a query. */
  function GetTile(s: VectorTileSettings, source: Result<QuerySet>, x: int, y: int, z: int,
                   intersects: (Value, Bounds) -> bool, stAsMvt: MvtQuery -> DbBytes)
    : (r: Result<Bytes>)
    ensures BuildQuery(s, source, x, y, z, intersects).Ok? ==>
              r == Ok(NormaliseRow(stAsMvt(BuildQuery(s, source, x, y, z, intersects).value)))
    ensures BuildQuery(s, source, x, y, z, intersects).Err? ==>
              r == Err(BuildQuery(s, source, x, y, z, intersects).error)
  {
    var query :- BuildQuery(s, source, x, y, z, intersects);
    Ok(NormaliseRow(stAsMvt(query)))
  }

  /** A stored feature of the test application: a geometry and a name. */
  function FeatureRow(geom: Bytes, name: string): Row {
    map["geom" := Wkb(geom), "name" := Text(name)]
  }

  /**
   * The feature view of the test application (layer name "features", field
   * "name") asked for tile (0, 0, 0) over two features that both intersect it
   * hands ST_AsMVT both features, in order, under layer "features" with
   * extent 4096, each row holding its name and its prepared geometry.
   */
  lemma FeatureViewScenario(g1: Bytes, g2: Bytes, intersects: (Value, Bounds) -> bool)
    requires intersects(Wkb(g1), XyBounds(0, 0, 0)) && intersects(Wkb(g2), XyBounds(0, 0, 0))
    ensures var s := VectorTileDefaults().(layerName := Some("features"), fields := Some(["name"]));
            var source := QuerySet({"geom", "name"}, [FeatureRow(g1, "feat1"), FeatureRow(g2, "feat2")]);
            var r := BuildQuery(s, Ok(source), 0, 0, 0, intersects);
            && r.Ok?
            && r.value.name == Some("features") && r.value.extent == 4096
            && r.value.columns == ["name", GeomPrepared]
            && |r.value.rows| == 2
            && r.value.rows[0]["name"] == Text("feat1") && r.value.rows[1]["name"] == Text("feat2")
            && r.value.rows[0][GeomPrepared] == AsMvtGeom(Transform(Wkb(g1), 3857), XyBounds(0, 0, 0), 4096, 256, true)
  {
    var s := VectorTileDefaults().(layerName := Some("features"), fields := Some(["name"]));
    var rows := [FeatureRow(g1, "feat1"), FeatureRow(g2, "feat2")];
    var source := QuerySet({"geom", "name"}, rows);
    var bounds := XyBounds(0, 0, 0);
    assert Column(rows[0], "geom") == Wkb(g1) && Column(rows[1], "geom") == Wkb(g2);
    AllHits(source, "geom", bounds, intersects);
    var cols := SelectedColumns(s.fields);
    assert cols == ["name", GeomPrepared];
    assert (set f | f in cols) <= source.columns + {GeomPrepared};
    MvtSubqueryIsPipeline(source, "geom", bounds, 4096, 256, true, s.fields, None, intersects);
    var sub := MvtSubquery(source, "geom", bounds, 4096, 256, true, s.fields, None, intersects);
    assert sub.Ok?;
    MvtSubqueryRows(source, "geom", bounds, 4096, 256, true, s.fields, None, intersects);
    assert |sub.value| == 2;
    assert "name" in sub.value[0] && "name" in sub.value[1];
  }
}
