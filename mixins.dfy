/**
 * The view-side mixins: the older vector-tile settings, the VectorLayer
 * descriptor, the TileJSON document with its zoom range aggregated over the
 * layers, and the HTTP status of a tile response.
 */
module Mixins {
  import opened Common
  import opened QuerySets

  /** The class attributes of BaseVectorTileMixin that a view may override. */
  datatype VectorTileSettings = VectorTileSettings(
    contentType: string,
    vectorTileQueryset: Option<QuerySet>,
    querysetLimit: Option<nat>,
    layerName: Option<string>,
    geomName: string,
    fields: Option<seq<string>>,
    generation: Option<string>,
    extent: int,
    buffer: int,
    clipGeom: bool)

  /** The settings of a view that overrides nothing. */
  function VectorTileDefaults(): (s: VectorTileSettings)
    ensures s.contentType == "application/x-protobuf"
    ensures s.vectorTileQueryset == None && s.querysetLimit == None && s.layerName == None
    ensures s.geomName == "geom" && s.fields == None && s.generation == None
    ensures s.extent == 4096 && s.buffer == 256 && s.clipGeom
  {
    VectorTileSettings("application/x-protobuf", None, None, None, "geom", None, None, 4096, 256, true)
  }

  /**
   * `BaseVectorTileMixin.get_vector_tile_queryset()`: the configured
   * `vector_tile_queryset` when set, else the view's `get_queryset()`.
   */
  function VectorTileQueryset(s: VectorTileSettings, getQueryset: Result<QuerySet>): (r: Result<QuerySet>)
    ensures s.vectorTileQueryset.Some? ==> r == Ok(s.vectorTileQueryset.value)
    ensures s.vectorTileQueryset.None? ==> r == getQueryset
  {
    if s.vectorTileQueryset.Some? then Ok(s.vectorTileQueryset.value) else getQueryset
  }

  /** The layer descriptor a TileJSON view lists: set once by its constructor. */
  datatype VectorLayer = VectorLayer(id: string, description: string, minZoom: int, maxZoom: int)

  /** `VectorLayer(id_layer, description="", min_zoom=0, max_zoom=22)` */
  function NewVectorLayer(idLayer: string, description: string := "", minZoom: int := 0, maxZoom: int := 22)
    : (l: VectorLayer)
    ensures l.id == idLayer && l.description == description
    ensures l.minZoom == minZoom && l.maxZoom == maxZoom
  {
    VectorLayer(idLayer, description, minZoom, maxZoom)
  }

  /** `get_vector_layer()`: echoes the four settings, with no fields. */
  function GetVectorLayer(l: VectorLayer): (r: VectorLayerJson)
    ensures r.id == l.id && r.description == l.description && r.fields == map[]
    ensures r.minzoom == l.minZoom && r.maxzoom == l.maxZoom
  {
    VectorLayerJson(l.id, l.description, map[], l.minZoom, l.maxZoom)
  }

  /** A layer built from its identifier alone advertises zoom 0 to 22 with an empty description. */
  lemma DefaultVectorLayer(idLayer: string)
    ensures GetVectorLayer(NewVectorLayer(idLayer)) == VectorLayerJson(idLayer, "", map[], 0, 22)
  {
  }

  /** `m` is the smallest `minzoom` among the layers. */
  predicate IsMinZoom(layers: seq<VectorLayerJson>, m: int) {
    && (exists i | 0 <= i < |layers| :: layers[i].minzoom == m)
    && (forall i | 0 <= i < |layers| :: m <= layers[i].minzoom)
  }

  /** `m` is the largest `maxzoom` among the layers. */
  predicate IsMaxZoom(layers: seq<VectorLayerJson>, m: int) {
    && (exists i | 0 <= i < |layers| :: layers[i].maxzoom == m)
    && (forall i | 0 <= i < |layers| :: layers[i].maxzoom <= m)
  }

  /** `min(item['minzoom'] for item in layers)` */
  function LeastMinZoom(layers: seq<VectorLayerJson>): (m: int)
    requires |layers| > 0
    ensures IsMinZoom(layers, m)
  {
    if |layers| == 1 then layers[0].minzoom
    else
      var rest := LeastMinZoom(layers[1..]);
      assert forall i | 1 <= i < |layers| :: layers[i] == layers[1..][i - 1];
      if layers[0].minzoom <= rest then layers[0].minzoom else rest
  }

  /** `max(item['maxzoom'] for item in layers)` */
  function GreatestMaxZoom(layers: seq<VectorLayerJson>): (m: int)
    requires |layers| > 0
    ensures IsMaxZoom(layers, m)
  {
    if |layers| == 1 then layers[0].maxzoom
    else
      var rest := GreatestMaxZoom(layers[1..]);
      assert forall i | 1 <= i < |layers| :: layers[i] == layers[1..][i - 1];
      if rest <= layers[0].maxzoom then layers[0].maxzoom else rest
  }

  /**
   * `get_vector_tile_tilejson_min_zoom()`: the least layer minzoom; the
   * `or 0` fallback never changes an integer. With no layers, min() raises.
   */
  function TilejsonMinZoom(layers: seq<VectorLayerJson>): (r: Result<int>)
    ensures r.Ok? <==> |layers| > 0
    ensures r.Err? ==> r.error.ValueError?
    ensures r.Ok? ==> IsMinZoom(layers, r.value)
  {
    if |layers| == 0 then Err(ValueError("min() arg is an empty sequence"))
    else
      var m := LeastMinZoom(layers);
      Ok(if m != 0 then m else 0)
  }

  /**
   * `get_vector_tile_tilejson_max_zoom()`: the greatest layer maxzoom, with a
   * falsy maximum (0) replaced by 22. With no layers, max() raises.
   */
  function TilejsonMaxZoom(layers: seq<VectorLayerJson>): (r: Result<int>)
    ensures r.Ok? <==> |layers| > 0
    ensures r.Err? ==> r.error.ValueError?
    ensures r.Ok? ==> ((IsMaxZoom(layers, 0) && r.value == 22)
                       || (!IsMaxZoom(layers, 0) && IsMaxZoom(layers, r.value)))
  {
    if |layers| == 0 then Err(ValueError("max() arg is an empty sequence"))
    else
      var m := GreatestMaxZoom(layers);
      Ok(if m != 0 then m else 22)
  }

  /** When every layer stops at zoom 0, the document still advertises zoom 22. */
  lemma AllZeroMaxZoomGives22(layers: seq<VectorLayerJson>)
    requires |layers| > 0
    requires forall i | 0 <= i < |layers| :: layers[i].maxzoom == 0
    ensures TilejsonMaxZoom(layers) == Ok(22)
  {
    assert layers[0].maxzoom == 0;
  }

  /** The aggregated range contains every layer's own range. */
  lemma AggregateCoversLayers(layers: seq<VectorLayerJson>, i: int)
    requires 0 <= i < |layers|
    ensures TilejsonMinZoom(layers).Ok? && TilejsonMinZoom(layers).value <= layers[i].minzoom
    ensures TilejsonMaxZoom(layers).Ok? && layers[i].maxzoom <= TilejsonMaxZoom(layers).value
  {
  }

  /** The TileJSON document a view serves. */
  datatype TileJson = TileJson(
    tilejson: string,
    name: string,
    tiles: seq<string>,
    minzoom: int,
    maxzoom: int,
    attribution: string,
    description: string,
    vectorLayers: seq<VectorLayerJson>)

  /**
   * `get_tilejson(tile_url, version="3.0.0")` for a view whose settings are
   * `name`, `attribution`, `description` and whose `get_vector_layers()`
   * returns `layers`.
   */
  function GetTilejson(name: string, attribution: string, description: string,
                       layers: seq<VectorLayerJson>, tileUrl: string, version: string := "3.0.0")
    : (r: Result<TileJson>)
    ensures r.Ok? <==> |layers| > 0
    ensures r.Ok? ==> r.value.tilejson == version && r.value.tiles == [tileUrl]
    ensures r.Ok? ==> r.value.name == name && r.value.attribution == attribution
                      && r.value.description == description
    ensures r.Ok? ==> r.value.vectorLayers == layers
    ensures r.Ok? ==> r.value.minzoom == TilejsonMinZoom(layers).value && IsMinZoom(layers, r.value.minzoom)
    ensures r.Ok? ==> r.value.maxzoom == TilejsonMaxZoom(layers).value
    ensures r.Ok? ==> forall i | 0 <= i < |layers| :: layers[i].maxzoom <= r.value.maxzoom
  {
    var minzoom :- TilejsonMinZoom(layers);
    Ok(TileJson(version, name, [tileUrl], minzoom, TilejsonMaxZoom(layers).value,
                attribution, description, layers))
  }

  /** Python truthiness of a tile: None and b"" are falsy. */
  predicate HasContent(content: Option<Bytes>) {
    content.Some? && |content.value| > 0
  }

  /** `BaseVectorTileView.get`: 200 for a non-empty tile, 204 otherwise. */
  function TileStatus(content: Option<Bytes>): (status: int)
    ensures status == 200 || status == 204
    ensures status == 200 <==> HasContent(content)
  {
    if HasContent(content) then 200 else 204
  }
}
