/**
 * The pure-Python tile backend: the database filters and clips the features,
 * then the backend builds the tile dictionary itself and hands it to
 * mapbox_vector_tile.encode. The dictionary and the encoder's arguments are
 * modelled exactly; the encoder itself is a parameter of the model.
 */
module PythonBackend {
  import opened Common
  import opened QuerySets
  import opened Backends
  import opened Mixins

  /** One entry of the tile's `features` list. */
  datatype TileFeature = TileFeature(geometry: Value, properties: map<string, Value>)

  /** The tile dictionary: the layer's name and its features. */
  datatype MapboxTile = MapboxTile(name: string, features: seq<TileFeature>)

  /** The arguments of `mapbox_vector_tile.encode(tile, quantize_bounds=..., extents=...)`. */
  datatype EncodeCall = EncodeCall(tile: MapboxTile, quantizeBounds: Bounds, extents: int)

  /** The column the clipped geometry is annotated under. */
  const Clipped: string := "clipped"

  /**
   * The geometry annotated as `clipped`: the geometry field in Web Mercator
   * intersected with the tile grown by one pixel when clipping, else the
   * column named "geom", whatever the layer's geometry field is.
   */
  function ClippedOf(layer: TileLayer, row: Row, bounds: Bounds, z: int): Value {
    if layer.clip then Intersection(Transform(Column(row, layer.geomField), 3857), BufferedBox(bounds, z, layer.buffer))
    else Column(row, "geom")
  }

  /** The columns the `clipped` annotation refers to. */
  function ClipUses(layer: TileLayer): set<string> {
    if layer.clip then {layer.geomField} else {"geom"}
  }

  /**
   * `features.annotate(clipped=...)`. When clipping, `pixel_length(z, tile_buffer)`
   * divides by the buffer before the annotation is built, so a zero buffer
   * raises ZeroDivisionError whatever the rows are.
   */
  function AnnotateClipped(qs: QuerySet, layer: TileLayer, bounds: Bounds, z: int): (r: Result<QuerySet>)
    ensures layer.clip && layer.buffer == 0 ==> r == Err(ZeroDivisionError)
    ensures !(layer.clip && layer.buffer == 0) ==> (r.Ok? <==> ClipUses(layer) <= qs.columns)
    ensures r.Ok? ==> r.value.columns == qs.columns + {Clipped}
    ensures r.Ok? ==> |r.value.rows| == |qs.rows|
    ensures r.Ok? ==> forall i | 0 <= i < |qs.rows| ::
                        r.value.rows[i] == qs.rows[i][Clipped := ClippedOf(layer, qs.rows[i], bounds, z)]
  {
    if layer.clip && layer.buffer == 0 then Err(ZeroDivisionError)
    else Annotate(qs, Clipped, ClipUses(layer), row => ClippedOf(layer, row, bounds, z))
  }

  /**
   * `{key: getattr(feature, key) for key in keys}`: the keys in order, the
   * first one the feature lacks raising AttributeError.
   */
  function PropsFrom(row: Row, keys: seq<string>): (r: Result<map<string, Value>>)
    ensures r.Ok? <==> forall k | k in keys :: k in row
    ensures r.Ok? ==> r.value.Keys == (set k | k in keys) && forall k | k in keys :: r.value[k] == row[k]
    ensures r.Err? ==> exists i | 0 <= i < |keys| ::
                         && keys[i] !in row && r.error == AttributeError(keys[i])
                         && forall j | 0 <= j < i :: keys[j] in row
  {
    if keys == [] then Ok(map[])
    else if keys[0] !in row then Err(AttributeError(keys[0]))
    else
      var rest :- PropsFrom(row, keys[1..]);
      assert forall k | k in keys[1..] :: k in keys;
      assert forall k | k in keys :: k == keys[0] || k in keys[1..];
      Ok(rest[keys[0] := row[keys[0]]])
  }

  /**
   * The properties comprehension as written: its `if self.tile_fields` guard
   * filters each key rather than the iteration, so a None `tile_fields` is
   * iterated and raises TypeError.
   */
  function PropertiesAsWritten(row: Row, tileFields: Option<seq<string>>): (r: Result<map<string, Value>>)
    ensures tileFields.None? ==> r.Err? && r.error.TypeError?
    ensures tileFields.Some? ==> r == PropsFrom(row, tileFields.value)
  {
    if tileFields.None? then Err(TypeError("'NoneType' object is not iterable"))
    else PropsFrom(row, tileFields.value)
  }

  /** The properties comprehension as intended: no tile fields, no properties. */
  function Properties(row: Row, tileFields: Option<seq<string>>): (r: Result<map<string, Value>>)
    ensures tileFields.None? ==> r == Ok(map[])
    ensures tileFields.Some? ==> r == PropsFrom(row, tileFields.value)
  {
    if tileFields.Some? then PropsFrom(row, tileFields.value) else Ok(map[])
  }

  /**
   * The two comprehensions differ exactly on a layer without tile fields:
   * as written it raises for every feature, as intended it gives no properties.
   */
  lemma PropertiesFinding(row: Row, tileFields: Option<seq<string>>)
    ensures tileFields.Some? ==> PropertiesAsWritten(row, tileFields) == Properties(row, tileFields)
    ensures tileFields.None? ==>
              && PropertiesAsWritten(row, tileFields).Err? && PropertiesAsWritten(row, tileFields).error.TypeError?
              && Properties(row, tileFields) == Ok(map[])
  {
  }

  /** One feature: `feature.clipped.wkb` raises AttributeError on a NULL geometry, then the properties. */
  function FeatureOf(row: Row, tileFields: Option<seq<string>>): (r: Result<TileFeature>)
    ensures r.Ok? <==> Column(row, Clipped) != Null && Properties(row, tileFields).Ok?
    ensures Column(row, Clipped) == Null ==> r == Err(AttributeError("wkb"))
    ensures r.Ok? ==> r.value.geometry == row[Clipped] && r.value.properties == Properties(row, tileFields).value
  {
    var geometry := Column(row, Clipped);
    if geometry == Null then Err(AttributeError("wkb"))
    else
      var properties :- Properties(row, tileFields);
      Ok(TileFeature(geometry, properties))
  }

  /** The `features` list: one feature per row in order, or the error of the first row that fails. */
  function Features(rows: seq<Row>, tileFields: Option<seq<string>>): (r: Result<seq<TileFeature>>)
    ensures r.Ok? <==> forall i | 0 <= i < |rows| :: FeatureOf(rows[i], tileFields).Ok?
    ensures r.Ok? ==> |r.value| == |rows|
    ensures r.Ok? ==> forall i | 0 <= i < |rows| :: r.value[i] == FeatureOf(rows[i], tileFields).value
    ensures r.Err? ==> exists i | 0 <= i < |rows| ::
                         && FeatureOf(rows[i], tileFields).Err? && r.error == FeatureOf(rows[i], tileFields).error
                         && forall j | 0 <= j < i :: FeatureOf(rows[j], tileFields).Ok?
  {
    if rows == [] then Ok([])
    else
      var first :- FeatureOf(rows[0], tileFields);
      var rest :- Features(rows[1..], tileFields);
      assert forall i | 1 <= i < |rows| :: rows[i] == rows[1..][i - 1];
      Ok([first] + rest)
  }

  /** The tile a backend serves: empty out of zoom, nothing when no feature is left, or an encoded tile. */
  datatype Plan = OutOfZoom | NoFeatures | Encode(call: EncodeCall)

  /** The hits the tile is drawn from: the first `limit` of them when the limit is truthy. */
  function Kept(layer: TileLayer, qs: QuerySet, x: int, y: int, z: int, intersects: (Value, Bounds) -> bool)
    : (r: seq<Row>)
    ensures r <= Hits(qs, layer.geomField, XyBounds(x, y, z), intersects)
    ensures IsTruthy(layer.limit) ==> |r| == Min(layer.limit.value, |Hits(qs, layer.geomField, XyBounds(x, y, z), intersects)|)
    ensures !IsTruthy(layer.limit) ==> r == Hits(qs, layer.geomField, XyBounds(x, y, z), intersects)
  {
    Truncate(Hits(qs, layer.geomField, XyBounds(x, y, z), intersects), layer.limit)
  }

  /** Everything `get_tile` does before it calls the encoder. */
  function Prepare(layer: TileLayer, source: Result<QuerySet>, x: int, y: int, z: int,
                   intersects: (Value, Bounds) -> bool)
    : (r: Result<Plan>)
    ensures !CheckInZoomLevels(layer, z) ==> r == Ok(OutOfZoom)
    ensures CheckInZoomLevels(layer, z) && source.Err? ==> r == Err(source.error)
    ensures CheckInZoomLevels(layer, z) && source.Ok? && layer.geomField !in source.value.columns ==>
              r.Err? && r.error.FieldError?
  {
    if !CheckInZoomLevels(layer, z) then Ok(OutOfZoom)
    else
      var features :- source;
      var bounds := XyBounds(x, y, z);
      var filtered :- Filter(features, {layer.geomField}, row => intersects(Column(row, layer.geomField), bounds));
      var sliced := Slice(filtered, layer.limit);
      var annotated :- AnnotateClipped(sliced, layer, bounds, z);
      if |annotated.rows| == 0 then Ok(NoFeatures)
      else
        var tileFeatures :- Features(annotated.rows, layer.fieldsAttr);
        Ok(Encode(EncodeCall(MapboxTile(layer.id, tileFeatures), bounds, layer.extent)))
  }

  /** `VectorLayer.get_tile(x, y, z)`: b"" out of zoom, None when no feature is left, else the encoded tile. */
  function GetTile(layer: TileLayer, source: Result<QuerySet>, x: int, y: int, z: int,
                   intersects: (Value, Bounds) -> bool, encode: EncodeCall -> Bytes)
    : (r: Result<Option<Bytes>>)
    ensures !CheckInZoomLevels(layer, z) ==> r == Ok(Some([]))
    ensures Prepare(layer, source, x, y, z, intersects) == Ok(NoFeatures) ==> r == Ok(None)
    ensures Prepare(layer, source, x, y, z, intersects).Err? ==>
              r == Err(Prepare(layer, source, x, y, z, intersects).error)
    ensures Prepare(layer, source, x, y, z, intersects).Ok? && Prepare(layer, source, x, y, z, intersects).value.Encode? ==>
              r == Ok(Some(encode(Prepare(layer, source, x, y, z, intersects).value.call)))
    ensures r.Ok? && r.value.Some? && |r.value.value| > 0 ==>
              && Prepare(layer, source, x, y, z, intersects).Ok?
              && Prepare(layer, source, x, y, z, intersects).value.Encode?
              && r.value.value == encode(Prepare(layer, source, x, y, z, intersects).value.call)
  {
    var plan :- Prepare(layer, source, x, y, z, intersects);
    match plan
    case OutOfZoom => Ok(Some([]))
    case NoFeatures => Ok(None)
    case Encode(call) => Ok(Some(encode(call)))
  }

  /**
   * The errors raised before any feature is built, in the order the code
   * meets them: an unknown geometry field in the filter, a zero buffer when
   * clipping (even when no feature intersects the tile), and a missing "geom"
   * column when not clipping.
   */
  lemma PrepareErrors(layer: TileLayer, qs: QuerySet, x: int, y: int, z: int, intersects: (Value, Bounds) -> bool)
    requires CheckInZoomLevels(layer, z)
    ensures layer.geomField !in qs.columns ==> Prepare(layer, Ok(qs), x, y, z, intersects).error.FieldError?
    ensures layer.geomField in qs.columns && layer.clip && layer.buffer == 0 ==>
              Prepare(layer, Ok(qs), x, y, z, intersects) == Err(ZeroDivisionError)
    ensures layer.geomField in qs.columns && !layer.clip && "geom" !in qs.columns ==>
              Prepare(layer, Ok(qs), x, y, z, intersects).Err?
  {
  }

  /** The rows handed to the feature builder: the kept hits, each with its clipped geometry. */
  lemma PreparedRows(layer: TileLayer, qs: QuerySet, x: int, y: int, z: int, intersects: (Value, Bounds) -> bool)
    requires CheckInZoomLevels(layer, z) && layer.geomField in qs.columns
    requires !(layer.clip && layer.buffer == 0) && ClipUses(layer) <= qs.columns
    ensures var kept := Kept(layer, qs, x, y, z, intersects);
            var r := Prepare(layer, Ok(qs), x, y, z, intersects);
            && (kept == [] <==> r == Ok(NoFeatures))
            && (kept != [] ==>
                  var rows := seq(|kept|, i requires 0 <= i < |kept| =>
                                           kept[i][Clipped := ClippedOf(layer, kept[i], XyBounds(x, y, z), z)]);
                  var features := Features(rows, layer.fieldsAttr);
                  && (r.Ok? <==> features.Ok?)
                  && (r.Ok? ==> r.value == Encode(EncodeCall(MapboxTile(layer.id, features.value),
                                                             XyBounds(x, y, z), layer.extent)))
                  && (r.Err? ==> r.error == features.error))
  {
    var bounds := XyBounds(x, y, z);
    var filtered := Filter(qs, {layer.geomField}, row => intersects(Column(row, layer.geomField), bounds));
    var sliced := Slice(filtered.value, layer.limit);
    var annotated := AnnotateClipped(sliced, layer, bounds, z);
    var kept := Kept(layer, qs, x, y, z, intersects);
    assert sliced.rows == kept;
    var rows := seq(|kept|, i requires 0 <= i < |kept| => kept[i][Clipped := ClippedOf(layer, kept[i], bounds, z)]);
    assert annotated.value.rows == rows;
  }

  /**
   * A feature of the tile: its geometry is the kept hit's clipped geometry
   * (the raw "geom" column when not clipping), and its properties are the
   * hit's tile-field columns, none when the layer has no tile fields. The
   * tile carries the layer's id, the tile's bounds and the layer's extent.
   */
  lemma {:induction false} EncodedFeatures(layer: TileLayer, qs: QuerySet, x: int, y: int, z: int,
                                           intersects: (Value, Bounds) -> bool)
    requires Prepare(layer, Ok(qs), x, y, z, intersects).Ok?
    requires Prepare(layer, Ok(qs), x, y, z, intersects).value.Encode?
    ensures var call := Prepare(layer, Ok(qs), x, y, z, intersects).value.call;
            var kept := Kept(layer, qs, x, y, z, intersects);
            && call.tile.name == layer.id && call.quantizeBounds == XyBounds(x, y, z) && call.extents == layer.extent
            && |call.tile.features| == |kept| > 0
            && forall i | 0 <= i < |kept| ::
                 && call.tile.features[i].geometry == ClippedOf(layer, kept[i], XyBounds(x, y, z), z)
                 && (!layer.clip ==> call.tile.features[i].geometry == kept[i]["geom"])
                 && (layer.fieldsAttr.None? ==> call.tile.features[i].properties == map[])
                 && (layer.fieldsAttr.Some? ==>
                       && call.tile.features[i].properties.Keys == (set k | k in layer.fieldsAttr.value)
                       && forall k | k in layer.fieldsAttr.value && k != Clipped ::
                            call.tile.features[i].properties[k] == kept[i][k])
  {
    var bounds := XyBounds(x, y, z);
    PrepareErrors(layer, qs, x, y, z, intersects);
    PreparedRows(layer, qs, x, y, z, intersects);
    var kept := Kept(layer, qs, x, y, z, intersects);
    var rows := seq(|kept|, i requires 0 <= i < |kept| => kept[i][Clipped := ClippedOf(layer, kept[i], bounds, z)]);
    var features := Features(rows, layer.fieldsAttr);
    forall i | 0 <= i < |kept|
      ensures features.value[i].geometry == ClippedOf(layer, kept[i], bounds, z)
      ensures !layer.clip ==> features.value[i].geometry == kept[i]["geom"]
    {
      assert FeatureOf(rows[i], layer.fieldsAttr).Ok?;
      assert Column(rows[i], Clipped) == ClippedOf(layer, kept[i], bounds, z);
      if !layer.clip {
        assert "geom" in kept[i] by {
          assert Column(kept[i], "geom") != Null;
        }
      }
    }
  }

  /** A tile with no feature left is served as an empty response. */
  lemma NoFeaturesIsNoContent(layer: TileLayer, source: Result<QuerySet>, x: int, y: int, z: int,
                              intersects: (Value, Bounds) -> bool, encode: EncodeCall -> Bytes)
    requires Prepare(layer, source, x, y, z, intersects) == Ok(NoFeatures)
            || !CheckInZoomLevels(layer, z)
    ensures TileStatus(GetTile(layer, source, x, y, z, intersects, encode).value) == 204
  {
  }
}
