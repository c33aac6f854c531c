/**
 * The PostGIS tile backend: the database filters the features to the tile,
 * prepares their geometry with ST_AsMVTGeom and encodes the layer with
 * ST_AsMVT. The query the backend builds is modelled exactly; what ST_AsMVT
 * returns for it is a parameter of the model.
 */
module PostgisBackend {
  import opened Common
  import opened QuerySets
  import opened Backends

  /** The column ST_AsMVT reads the geometry from. */
  const GeomPrepared: string := "geom_prepared"

  /** The columns of the subquery: the tile fields in declared order, then the prepared geometry. */
  function SelectedColumns(fields: Option<seq<string>>): (cols: seq<string>)
    ensures |cols| >= 1 && cols[|cols| - 1] == GeomPrepared
    ensures fields.Some? ==> cols[..|cols| - 1] == fields.value
    ensures fields.None? ==> cols == [GeomPrepared]
  {
    if fields.Some? && |fields.value| > 0 then fields.value + [GeomPrepared] else [GeomPrepared]
  }

  /** `AsMVTGeom(Transform(geom_field, 3857), MakeEnvelope(bounds), extent, buffer, clip)` for one row. */
  function PreparedGeom(row: Row, geomField: string, bounds: Bounds, extent: int, buffer: int, clip: bool): Value {
    AsMvtGeom(Transform(Column(row, geomField), 3857), bounds, extent, buffer, clip)
  }

  /**
   * The subquery handed to ST_AsMVT: filter on intersection, annotate the
   * prepared geometry, keep the first `limit` rows when the limit is truthy,
   * then keep only the selected columns.
   */
  function MvtSubquery(qs: QuerySet, geomField: string, bounds: Bounds, extent: int, buffer: int, clip: bool,
                       fields: Option<seq<string>>, limit: Option<nat>, intersects: (Value, Bounds) -> bool)
    : (r: Result<seq<Row>>)
    ensures r.Ok? <==> geomField in qs.columns && (set f | f in SelectedColumns(fields)) <= qs.columns + {GeomPrepared}
  {
    var filtered :- Filter(qs, {geomField}, row => intersects(Column(row, geomField), bounds));
    // the filter has resolved the geometry field, so the annotation cannot fail
    var annotated := Annotate(filtered, GeomPrepared, {geomField},
                              row => PreparedGeom(row, geomField, bounds, extent, buffer, clip)).value;
    var columns := SelectedColumns(fields);
    Values(Slice(annotated, limit), columns)
  }

  /** The hits, each with its prepared geometry, as the subquery sees them before slicing. */
  function PreparedHits(qs: QuerySet, geomField: string, bounds: Bounds, extent: int, buffer: int, clip: bool,
                        intersects: (Value, Bounds) -> bool): seq<Row>
  {
    AnnotateRows(Hits(qs, geomField, bounds, intersects), GeomPrepared,
                 row => PreparedGeom(row, geomField, bounds, extent, buffer, clip))
  }

  /** The subquery's rows are the prepared hits, truncated, each reduced to the selected columns. */
  lemma MvtSubqueryIsPipeline(qs: QuerySet, geomField: string, bounds: Bounds, extent: int, buffer: int, clip: bool,
                              fields: Option<seq<string>>, limit: Option<nat>, intersects: (Value, Bounds) -> bool)
    ensures var r := MvtSubquery(qs, geomField, bounds, extent, buffer, clip, fields, limit, intersects);
            && (r.Ok? <==> geomField in qs.columns
                           && (set f | f in SelectedColumns(fields)) <= qs.columns + {GeomPrepared})
            && (r.Ok? ==>
                  var prepared := Truncate(PreparedHits(qs, geomField, bounds, extent, buffer, clip, intersects), limit);
                  && |r.value| == |prepared|
                  && forall i | 0 <= i < |prepared| :: r.value[i] == Project(prepared[i], SelectedColumns(fields)))
  {
  }

  /**
   * The limit counts only the features that intersect the tile: the subquery
   * holds the first `limit` hits when the limit is truthy, every hit otherwise,
   * in source order.
   */
  lemma {:induction false} MvtSubqueryRows(qs: QuerySet, geomField: string, bounds: Bounds, extent: int, buffer: int,
                                           clip: bool, fields: Option<seq<string>>, limit: Option<nat>,
                                           intersects: (Value, Bounds) -> bool)
    requires MvtSubquery(qs, geomField, bounds, extent, buffer, clip, fields, limit, intersects).Ok?
    ensures var rows := MvtSubquery(qs, geomField, bounds, extent, buffer, clip, fields, limit, intersects).value;
            var hits := Hits(qs, geomField, bounds, intersects);
            && (IsTruthy(limit) ==> |rows| == Min(limit.value, |hits|))
            && (!IsTruthy(limit) ==> |rows| == |hits|)
            && forall i | 0 <= i < |rows| ::
                 && i < |hits|
                 && intersects(Column(hits[i], geomField), bounds)
                 && rows[i].Keys == (set f | f in SelectedColumns(fields))
                 && rows[i][GeomPrepared] == PreparedGeom(hits[i], geomField, bounds, extent, buffer, clip)
                 && forall f | f in rows[i] && f != GeomPrepared :: rows[i][f] == Column(hits[i], f)
  {
    MvtSubqueryIsPipeline(qs, geomField, bounds, extent, buffer, clip, fields, limit, intersects);
    var rows := MvtSubquery(qs, geomField, bounds, extent, buffer, clip, fields, limit, intersects).value;
    var hits := Hits(qs, geomField, bounds, intersects);
    var prepared := PreparedHits(qs, geomField, bounds, extent, buffer, clip, intersects);
    var kept := Truncate(prepared, limit);
    forall i | 0 <= i < |rows|
      ensures i < |hits|
      ensures rows[i].Keys == (set f | f in SelectedColumns(fields))
      ensures rows[i][GeomPrepared] == PreparedGeom(hits[i], geomField, bounds, extent, buffer, clip)
      ensures forall f | f in rows[i] && f != GeomPrepared :: rows[i][f] == Column(hits[i], f)
    {
      assert kept[i] == prepared[i];
      assert GeomPrepared in SelectedColumns(fields);
    }
  }

  /** The arguments of `ST_ASMVT(subquery.*, name, extent, geom_column)`. */
  datatype MvtQuery = MvtQuery(
    columns: seq<string>,
    rows: seq<Row>,
    name: Option<string>,
    extent: int,
    geomColumn: string)

  /** What `cursor.fetchone()[0]` holds: SQL NULL, a memoryview or bytes. */
  datatype DbBytes = SqlNull | MemoryView(data: Bytes) | PyBytes(data: Bytes)

  /** A falsy result: NULL or an empty byte string. */
  predicate IsFalsy(row: DbBytes) {
    row.SqlNull? || |row.data| == 0
  }

  /** The tile a backend serves: nothing to ask the database, or the query to run. */
  datatype Plan = OutOfZoom | Query(query: MvtQuery)

  /** Everything `get_tile` does before it runs the SQL. */
  function Prepare(layer: TileLayer, source: Result<QuerySet>, x: int, y: int, z: int,
                   intersects: (Value, Bounds) -> bool)
    : (r: Result<Plan>)
    ensures !CheckInZoomLevels(layer, z) ==> r == Ok(OutOfZoom)
    ensures CheckInZoomLevels(layer, z) && source.Err? ==> r == Err(source.error)
    ensures CheckInZoomLevels(layer, z) && source.Ok? ==>
              var rows := MvtSubquery(source.value, layer.geomField, XyBounds(x, y, z), layer.extent,
                                      layer.buffer, layer.clip, layer.tileFields, layer.limit, intersects);
              && (r.Ok? <==> rows.Ok?)
              && (r.Ok? ==> r.value == Query(MvtQuery(SelectedColumns(layer.tileFields), rows.value,
                                                      Some(layer.id), layer.extent, GeomPrepared)))
  {
    if !CheckInZoomLevels(layer, z) then Ok(OutOfZoom)
    else
      var features :- source;
      var bounds := XyBounds(x, y, z);
      var rows :- MvtSubquery(features, layer.geomField, bounds, layer.extent, layer.buffer, layer.clip,
                              layer.tileFields, layer.limit, intersects);
      Ok(Query(MvtQuery(SelectedColumns(layer.tileFields), rows, Some(layer.id), layer.extent, GeomPrepared)))
  }

  /**
   * `row.tobytes() if row else b""`: a falsy row gives b"", a memoryview its
   * bytes; a non-empty `bytes` row has no `tobytes` and raises.
   */
  function RowToBytes(row: DbBytes): (r: Result<Bytes>)
    ensures IsFalsy(row) ==> r == Ok([])
    ensures row.MemoryView? ==> r == Ok(row.data)
    ensures row.PyBytes? && !IsFalsy(row) ==> r.Err? && r.error.AttributeError?
  {
    if IsFalsy(row) then Ok([])
    else if row.MemoryView? then Ok(row.data)
    else Err(AttributeError("tobytes"))
  }

  /** `VectorLayer.get_tile(x, y, z)`, with `stAsMvt` the database's answer to a query. */
  function GetTile(layer: TileLayer, source: Result<QuerySet>, x: int, y: int, z: int,
                   intersects: (Value, Bounds) -> bool, stAsMvt: MvtQuery -> DbBytes)
    : (r: Result<Bytes>)
    ensures !CheckInZoomLevels(layer, z) ==> r == Ok([])
    ensures Prepare(layer, source, x, y, z, intersects).Err? ==>
              r == Err(Prepare(layer, source, x, y, z, intersects).error)
    ensures Prepare(layer, source, x, y, z, intersects).Ok? && Prepare(layer, source, x, y, z, intersects).value.Query? ==>
              r == RowToBytes(stAsMvt(Prepare(layer, source, x, y, z, intersects).value.query))
    ensures r.Ok? && |r.value| > 0 ==>
              && Prepare(layer, source, x, y, z, intersects).Ok?
              && Prepare(layer, source, x, y, z, intersects).value.Query?
              && stAsMvt(Prepare(layer, source, x, y, z, intersects).value.query) == MemoryView(r.value)
  {
    var plan := Prepare(layer, source, x, y, z, intersects);
    if plan.Err? then Err(plan.error)
    else if plan.value.OutOfZoom? then Ok([])
    else RowToBytes(stAsMvt(plan.value.query))
  }
}
