/**
 * The layer base class shared by both tile backends: its class-level
 * settings and their defaults, the zoom gate, the TileJSON record of one
 * layer and the choice of the queryset a tile is drawn from.
 */
module Backends {
  import opened Common
  import opened QuerySets

  /** The class attributes of BaseVectorLayerMixin that a layer may override. */
  datatype LayerSettings = LayerSettings(
    model: Option<QuerySet>,              // `model.objects.all()`; None when no model is set
    queryset: Option<QuerySet>,
    vectorTileQueryset: Option<QuerySet>,
    querysetLimit: Option<nat>,
    layerName: Option<string>,
    geomName: string,
    fields: Option<seq<string>>,
    generation: Option<string>,
    extent: int,
    buffer: int,
    clipGeom: bool,
    layerId: string,
    layerDescription: string,
    minZoom: int,
    maxZoom: int)

  /** The settings of a layer that overrides nothing. */
  function Defaults(): (s: LayerSettings)
    ensures s.model == None && s.queryset == None && s.vectorTileQueryset == None
    ensures s.querysetLimit == None && s.layerName == None && s.fields == None && s.generation == None
    ensures s.geomName == "geom" && s.extent == 4096 && s.buffer == 256 && s.clipGeom
    ensures s.layerId == "" && s.layerDescription == ""
    ensures s.minZoom == 0 && s.maxZoom == 22
  {
    LayerSettings(None, None, None, None, None, "geom", None, None, 4096, 256, true, "", "", 0, 22)
  }

  /**
   * What a tile backend reads from its layer: get_id(), the zoom bounds,
   * geom_field, get_tile_fields(), the tile_fields attribute,
   * get_queryset_limit(), tile_extent, tile_buffer and clip_geom.
   */
  datatype TileLayer = TileLayer(
    id: string,
    minZoom: int,
    maxZoom: int,
    geomField: string,
    tileFields: Option<seq<string>>,
    fieldsAttr: Option<seq<string>>,
    limit: Option<nat>,
    extent: int,
    buffer: int,
    clip: bool)

  /** `check_in_zoom_levels(z)`: both bounds inclusive. */
  predicate CheckInZoomLevels(layer: TileLayer, z: int) {
    layer.minZoom <= z <= layer.maxZoom
  }

  /** The gate admits both of its bounds and nothing just outside them. */
  lemma ZoomGateInclusive(layer: TileLayer)
    requires layer.minZoom <= layer.maxZoom
    ensures CheckInZoomLevels(layer, layer.minZoom) && CheckInZoomLevels(layer, layer.maxZoom)
    ensures !CheckInZoomLevels(layer, layer.minZoom - 1) && !CheckInZoomLevels(layer, layer.maxZoom + 1)
  {
  }

  /** The backend's view of a settings-based layer: each getter returns its setting unchanged. */
  function TileLayerOf(s: LayerSettings): (layer: TileLayer)
    ensures layer.id == s.layerId && layer.geomField == s.geomName
    ensures layer.minZoom == s.minZoom && layer.maxZoom == s.maxZoom
    ensures layer.tileFields == s.fields && layer.fieldsAttr == s.fields
    ensures layer.limit == s.querysetLimit
    ensures layer.extent == s.extent && layer.buffer == s.buffer && layer.clip == s.clipGeom
  {
    TileLayer(s.layerId, s.minZoom, s.maxZoom, s.geomName, s.fields, s.fields,
              s.querysetLimit, s.extent, s.buffer, s.clipGeom)
  }

  /** A layer with default settings serves exactly the zoom levels 0 to 22. */
  lemma DefaultZoomRange(z: int)
    ensures CheckInZoomLevels(TileLayerOf(Defaults()), z) <==> 0 <= z <= 22
  {
  }

  /** `get_tilejson_vector_layer()`: each key holds its getter's value, and `fields` is empty. */
  function GetTilejsonVectorLayer(s: LayerSettings): (r: VectorLayerJson)
    ensures r.id == s.layerId && r.description == s.layerDescription
    ensures r.fields == map[]
    ensures r.minzoom == s.minZoom && r.maxzoom == s.maxZoom
  {
    VectorLayerJson(s.layerId, s.layerDescription, map[], s.minZoom, s.maxZoom)
  }

  /** The zoom range a layer advertises in TileJSON is exactly the range its tiles are served for. */
  lemma AdvertisedZoomIsGate(s: LayerSettings, z: int)
    ensures CheckInZoomLevels(TileLayerOf(s), z)
        <==> GetTilejsonVectorLayer(s).minzoom <= z <= GetTilejsonVectorLayer(s).maxzoom
  {
  }

  /** `get_queryset()`: the configured queryset, else all objects of the model. */
  function GetQueryset(s: LayerSettings): (r: Result<QuerySet>)
    ensures s.queryset.Some? ==> r == Ok(s.queryset.value)
    ensures s.queryset.None? && s.model.Some? ==> r == Ok(s.model.value)
    ensures s.queryset.None? && s.model.None? ==> r == Err(AttributeError("objects"))
  {
    if s.queryset.Some? then Ok(s.queryset.value)
    else if s.model.Some? then Ok(s.model.value)
    else Err(AttributeError("objects"))
  }

  /**
   * `get_vector_tile_queryset()`: `vector_tile_queryset` whenever it is set,
   * even when it holds no rows; `get_queryset()` otherwise.
   */
  function GetVectorTileQueryset(s: LayerSettings): (r: Result<QuerySet>)
    ensures s.vectorTileQueryset.Some? ==> r == Ok(s.vectorTileQueryset.value)
    ensures s.vectorTileQueryset.None? ==> r == GetQueryset(s)
  {
    if s.vectorTileQueryset.Some? then Ok(s.vectorTileQueryset.value) else GetQueryset(s)
  }

  /** The rows whose geometry the database finds intersecting the tile (`geom_field__intersects`), in source order. */
  function Hits(qs: QuerySet, geomField: string, bounds: Bounds, intersects: (Value, Bounds) -> bool): (r: seq<Row>)
    ensures IsSubsequence(r, qs.rows)
    ensures forall row {:trigger multiset(r)[row]} :: multiset(r)[row] ==
              if intersects(Column(row, geomField), bounds) then multiset(qs.rows)[row] else 0
  {
    KeepRows(qs.rows, row => intersects(Column(row, geomField), bounds))
  }

  /** When every row's geometry intersects the tile, every row is a hit. */
  lemma AllHits(qs: QuerySet, geomField: string, bounds: Bounds, intersects: (Value, Bounds) -> bool)
    requires forall i | 0 <= i < |qs.rows| :: intersects(Column(qs.rows[i], geomField), bounds)
    ensures Hits(qs, geomField, bounds, intersects) == qs.rows
  {
    KeepAll(qs.rows, row => intersects(Column(row, geomField), bounds));
  }

  /** The base `get_tile(x, y, z)` always raises NotImplementedError. */
  function BaseGetTile(s: LayerSettings, x: int, y: int, z: int): (r: Result<Bytes>)
    ensures r.Err? && r.error == NotImplementedError
  {
    Err(NotImplementedError)
  }
}
