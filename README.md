# django-vectortiles, modelled in Dafny

django-vectortiles serves Mapbox vector tiles from Django querysets. A *layer*
names a queryset of features with a geometry column. For a tile `z/x/y` it does
four things:
- keeps the features whose geometry intersects the tile;
- optionally keeps only the first `limit` of them;
- prepares each geometry for the tile;
- encodes the layer.

A TileJSON view describes a set of layers, and a tile view answers 200 with the
tile or 204 when it is empty.

This project models the logic around the geometry and encoding libraries:
- the layer settings and their defaults;
- the inclusive zoom gate;
- the choice of queryset;
- the per-layer TileJSON record and the zoom range aggregated over layers;
- the three tile pipelines: the PostGIS backend, the pure-Python backend, and the older PostGIS view mixin;
- the per-dataset layers of the test application, with their selection rules and their cached `get_tile`.

How it is modelled:
- **Querysets** are a set of column names and a sequence of rows (column name to value), in database order.
  - `filter`, `exclude`, `annotate`, slicing and `values` are functions on them (`QuerySets`).
  - A reference to an unknown column raises FieldError when the operation is applied, whatever the rows.
- **Geometry functions** (Transform, AsMVTGeom, Intersection, Centroid, casts) are constructors that record the call and its arguments (`Common.Value`). So a lemma can say which geometry a feature carries without computing it.
- **External computations are parameters:**
  - the spatial `intersects` test;
  - the bytes ST_AsMVT returns for a query;
  - `mapbox_vector_tile.encode`;
  - what an uncached `get_tile` computes.
- **The modules follow the source files:**

| module | models |
|---|---|
| `Backends` | vectortiles/backends/__init__.py |
| `Mixins` | vectortiles/mixins.py |
| `PostgisBackend` | vectortiles/backends/postgis/__init__.py |
| `PythonBackend` | vectortiles/backends/python/__init__.py |
| `PostgisMixin` | vectortiles/postgis/mixins.py |
| `DatasetLayers` and `TileCache` | test_vectortiles/test_app/vt_layers.py |

The backends call getters that the base class in this snapshot of the code does not define:
- `get_id()`, `get_tile_fields()`, `get_queryset_limit()`;
- `geom_field`, `tile_extent`, `tile_buffer`, `clip_geom`, `tile_fields`.

The base class defines `vector_tile_*` attributes instead. So the backends read a `Backends.TileLayer` record:
- `Backends.TileLayerOf` fills it from the `vector_tile_*` settings;
- `DatasetLayers.DatasetTileLayer` fills it from a dataset layer's overrides.

The zoom gate is the exception. It calls `get_vector_tile_layer_min_zoom()` and
`get_vector_tile_layer_max_zoom()`, which the base class does define. A dataset
layer overrides `get_min_zoom()` and `get_max_zoom()` instead, which the gate
never reads. So every dataset layer is served from zoom 0 to 22. The instance's
`min_zoom` matters only to the road zoom buckets (vt_layers.py:116).

`TileLayer` keeps two fields apart:
- `get_tile_fields()`, read by the PostGIS backend;
- the `tile_fields` attribute, read by the Python backend.

A dataset layer overrides only the getter. Its `tile_fields` is recorded as
None, see "## Left out". The configured backend is the PostGIS one
(vectortiles/settings.py:7).

In every pipeline of this code, the limit is applied after the intersects filter. So it counts only features that intersect the tile.

## Model

| member | source | states |
|---|---|---|
| QuerySets.KeepRows | vectortiles/backends/postgis/__init__.py:16-20 | filter keeps exactly the rows satisfying the condition, each with as many copies as the source holds, as a subsequence of the source rows in their order |
| QuerySets.KeepAll | vectortiles/backends/postgis/__init__.py:16-20 | a filter every row passes drops nothing |
| QuerySets.Truncate | vectortiles/backends/postgis/__init__.py:37-39 | slicing keeps a prefix, of length min(limit, n) when the limit is truthy; a None or 0 limit keeps everything |
| QuerySets.Filter | vectortiles/backends/postgis/__init__.py:16-20 | FieldError exactly when the condition names an unknown column; otherwise same columns, the kept rows, well-formedness preserved |
| QuerySets.Exclude | test_vectortiles/test_app/vt_layers.py:145-156 | no remaining row satisfies the condition, every source row that does not is kept with all its copies, in order; FieldError exactly on unknown columns |
| QuerySets.AnnotateRows | vectortiles/backends/postgis/__init__.py:22-30 | every row gains the new column with its computed value and keeps its other columns |
| QuerySets.Annotate | vectortiles/backends/postgis/__init__.py:22-30 | FieldError exactly when the expression names an unknown column; otherwise the column is added to every row |
| QuerySets.Slice | vectortiles/backends/postgis/__init__.py:37-39 | a truthy limit truncates the rows; columns unchanged |
| QuerySets.Project | vectortiles/backends/postgis/__init__.py:41 | a values() row holds exactly the named fields with the row's values |
| QuerySets.Values | vectortiles/backends/postgis/__init__.py:41 | FieldError exactly when a field is unknown; otherwise one projected row per row, in order |
| Backends.Defaults | vectortiles/backends/__init__.py:9-30 | geometry "geom", extent 4096, buffer 256, clipping on, zoom 0 to 22, no limit, no fields, empty id and description |
| Backends.CheckInZoomLevels | vectortiles/backends/__init__.py:32-33 | the gate reads the `vector_tile_layer_min_zoom`/`max_zoom` getters, both bounds inclusive (its properties are in the next row) |
| Backends.ZoomGateInclusive | vectortiles/backends/__init__.py:32-33 | both zoom bounds are served and the levels just outside are not |
| Backends.TileLayerOf | vectortiles/backends/__init__.py:35-88 | each getter the backends use returns its setting unchanged, the limit included |
| Backends.DefaultZoomRange | vectortiles/backends/__init__.py:29-33 | a default layer serves exactly zoom 0 to 22 |
| Backends.GetTilejsonVectorLayer | vectortiles/backends/__init__.py:47-54 | the record holds id, description, minzoom and maxzoom from their getters and empty fields |
| Backends.AdvertisedZoomIsGate | vectortiles/backends/__init__.py:47-54 | the zoom range advertised in TileJSON is exactly the range the zoom gate serves |
| Backends.GetQueryset | vectortiles/backends/__init__.py:73-76 | the configured queryset when set, else all model objects, else AttributeError without a model |
| Backends.GetVectorTileQueryset | vectortiles/backends/__init__.py:78-84 | vector_tile_queryset whenever set, even with no rows; get_queryset() otherwise |
| Backends.Hits | vectortiles/backends/postgis/__init__.py:16-20 | the hits are exactly the rows whose geometry intersects the tile, with their multiplicity, in source order |
| Backends.AllHits | vectortiles/backends/postgis/__init__.py:16-20 | when every geometry intersects the tile, every row is a hit |
| Backends.BaseGetTile | vectortiles/backends/__init__.py:94-108 | the base get_tile always raises NotImplementedError |
| Mixins.VectorTileDefaults | vectortiles/mixins.py:11-20 | the view defaults: protobuf content type, "geom", extent 4096, buffer 256, clipping, no limit, name or fields |
| Mixins.VectorTileQueryset | vectortiles/mixins.py:39-41 | vector_tile_queryset when set, else the view's get_queryset() |
| Mixins.NewVectorLayer | vectortiles/mixins.py:74-78 | the constructor stores exactly its four arguments |
| Mixins.GetVectorLayer | vectortiles/mixins.py:92-99 | the record echoes the four stored values with empty fields |
| Mixins.DefaultVectorLayer | vectortiles/mixins.py:74-99 | a layer built from an id alone advertises zoom 0 to 22 and an empty description |
| Mixins.LeastMinZoom | vectortiles/mixins.py:108 | the result is a layer's minzoom and no layer's minzoom is smaller |
| Mixins.GreatestMaxZoom | vectortiles/mixins.py:112 | the result is a layer's maxzoom and no layer's maxzoom is larger |
| Mixins.TilejsonMinZoom | vectortiles/mixins.py:107-109 | the least minzoom over the layers; ValueError exactly when there are no layers |
| Mixins.TilejsonMaxZoom | vectortiles/mixins.py:111-113 | the greatest maxzoom, or 22 when that greatest is 0; ValueError exactly when there are no layers |
| Mixins.AllZeroMaxZoomGives22 | vectortiles/mixins.py:111-113 | layers that all stop at zoom 0 give maxzoom 22 |
| Mixins.AggregateCoversLayers | vectortiles/mixins.py:107-113 | the aggregated zoom range contains every layer's range |
| Mixins.GetTilejson | vectortiles/mixins.py:138-151 | version "3.0.0" by default, one tile URL, the given name, attribution and description, the layers as given; minzoom and maxzoom are exactly the aggregated values of `TilejsonMinZoom`/`TilejsonMaxZoom`; fails exactly when there are no layers |
| Mixins.TileStatus | vectortiles/mixins.py:173-175 | 200 exactly for non-empty content, 204 for None or b"" |
| PostgisBackend.SelectedColumns | vectortiles/backends/postgis/__init__.py:31-35 | the tile fields in declared order then "geom_prepared"; only "geom_prepared" for None or empty fields |
| PostgisBackend.MvtSubquery | vectortiles/backends/postgis/__init__.py:16-41 | the subquery resolves exactly when the geometry field and every selected field other than "geom_prepared" are columns |
| PostgisBackend.MvtSubqueryIsPipeline | vectortiles/backends/postgis/__init__.py:16-41 | the subquery fails exactly on an unknown geometry field or selected field; its rows are the prepared hits, truncated, projected on the selected columns |
| PostgisBackend.MvtSubqueryRows | vectortiles/backends/postgis/__init__.py:20-41 | the limit counts intersecting features only; row i is the i-th hit with its AsMVTGeom geometry and its selected fields |
| PostgisBackend.Prepare | vectortiles/backends/postgis/__init__.py:9-55 | out of zoom nothing is queried; otherwise ST_AsMVT gets the subquery, the layer id, the tile extent and "geom_prepared" |
| PostgisBackend.RowToBytes | vectortiles/backends/postgis/__init__.py:56-57 | NULL or empty gives b"", a memoryview its bytes, and a non-empty bytes row raises AttributeError |
| PostgisBackend.GetTile | vectortiles/backends/postgis/__init__.py:9-57 | out of zoom the tile is b""; in zoom it is the row ST_AsMVT returns for the prepared query, converted by `RowToBytes`, or the preparation's error |
| PostgisMixin.BuildQuery | vectortiles/postgis/mixins.py:9-56 | every zoom level is queried; ST_AsMVT gets the subquery, the layer name, the view's extent and "geom_prepared" |
| PostgisMixin.NormaliseRow | vectortiles/postgis/mixins.py:57-60 | the tile is the row's bytes, memoryview or bytes, and b"" for NULL |
| PostgisMixin.GetTile | vectortiles/postgis/mixins.py:9-60 | the tile is the normalised answer to the built query, or the query's error |
| PostgisMixin.FeatureViewScenario | vectortiles/tests/test_views.py:48-53 | the features view over feat1 and feat2 sends both, in order, under layer "features" with extent 4096 |
| PythonBackend.ClippedOf | vectortiles/backends/python/__init__.py:34-41 | the `clipped` expression: the geometry field in 3857 intersected with the buffered tile when clipping, else the "geom" column |
| PythonBackend.AnnotateClipped | vectortiles/backends/python/__init__.py:34-41 | the clipped geometry is the buffered intersection when clipping, else the raw "geom" column; a zero buffer raises ZeroDivisionError |
| PythonBackend.PropsFrom | vectortiles/backends/python/__init__.py:48-52 | properties hold exactly the tile fields with the feature's values; the first missing one raises AttributeError |
| PythonBackend.PropertiesAsWritten | vectortiles/backends/python/__init__.py:48-52 | with tile_fields None the comprehension raises TypeError |
| PythonBackend.Properties | vectortiles/backends/python/__init__.py:48-52 | no tile fields give no properties; otherwise as written |
| PythonBackend.PropertiesFinding | vectortiles/backends/python/__init__.py:48-52 | the two comprehensions agree except when tile_fields is None |
| PythonBackend.FeatureOf | vectortiles/backends/python/__init__.py:46-53 | a feature is its clipped geometry and its properties; a NULL geometry raises AttributeError |
| PythonBackend.Features | vectortiles/backends/python/__init__.py:45-55 | one feature per row in order, or the first row's error |
| PythonBackend.Kept | vectortiles/backends/python/__init__.py:28-33 | the features the tile is drawn from are a prefix of the hits, the first `limit` of them when the limit is truthy, all of them otherwise |
| PythonBackend.Prepare | vectortiles/backends/python/__init__.py:17-41 | out of zoom nothing is queried; a queryset error or an unknown geometry field fails |
| PythonBackend.GetTile | vectortiles/backends/python/__init__.py:17-61 | b"" out of zoom, None with no features, the encoder's output for the prepared call whenever there is one, or the preparation's error |
| PythonBackend.PrepareErrors | vectortiles/backends/python/__init__.py:28-41 | FieldError on the geometry field, ZeroDivisionError on a zero clip buffer even with no hits, failure on a missing "geom" when not clipping |
| PythonBackend.PreparedRows | vectortiles/backends/python/__init__.py:28-54 | no features exactly when no hit survives the limit; otherwise the encoder gets the layer id, the tile bounds, the extent and one feature per kept hit |
| PythonBackend.EncodedFeatures | vectortiles/backends/python/__init__.py:42-61 | feature i carries hit i's clipped geometry, the raw "geom" when not clipping, and exactly the tile fields as properties |
| PythonBackend.NoFeaturesIsNoContent | vectortiles/backends/python/__init__.py:17-61 | a tile out of zoom or without features is answered 204 |
| DatasetLayers.TileFields | test_vectortiles/test_app/vt_layers.py:70-96 | the lookup is total, "commune" and "commune_centre" share four fields, unknown datasets give ("properties",) |
| DatasetLayers.JsonText | test_vectortiles/test_app/vt_layers.py:139-144 | `->>` gives a string's text and NULL exactly for JSON null |
| DatasetLayers.KeyText | test_vectortiles/test_app/vt_layers.py:139-144 | the property as text, NULL when the property is absent |
| DatasetLayers.CastFloat | test_vectortiles/test_app/vt_layers.py:158-162 | the float cast is NULL exactly for NULL |
| DatasetLayers.AllowedRoadNatures | test_vectortiles/test_app/vt_layers.py:115-138 | motorways only from min zoom to 8, plus dual carriageways and slip roads from 9, plus single carriageways from 12, everything from 15 and below the min zoom |
| DatasetLayers.AllowedRoadNaturesGrow | test_vectortiles/test_app/vt_layers.py:115-138 | the allowed road natures are nested as zoom grows and always include motorways |
| DatasetLayers.AnnotateOne | test_vectortiles/test_app/vt_layers.py:139-144 | one annotation adds its column to every row with the property's value |
| DatasetLayers.AnnotateAll | test_vectortiles/test_app/vt_layers.py:163-181 | the annotations add their aliases and keep every other column; FieldError without "properties" |
| DatasetLayers.EvalReadsProperties | test_vectortiles/test_app/vt_layers.py:139-144 | an annotation depends on the "properties" column only |
| DatasetLayers.AnnotatedValues | test_vectortiles/test_app/vt_layers.py:163-181 | each annotated column holds its property evaluated on the source row |
| DatasetLayers.AnnotatedValue | test_vectortiles/test_app/vt_layers.py:163-181 | annotation k of row i holds its property evaluated on the source row, the earlier annotations notwithstanding |
| DatasetLayers.Annotations | test_vectortiles/test_app/vt_layers.py:139-203 | no dataset annotates one alias twice or overwrites "properties"; vegetation and unknown datasets are not annotated |
| DatasetLayers.Selection | test_vectortiles/test_app/vt_layers.py:113-204 | only roads, vegetation and streams filter their features; vegetation from zoom 15 and unfiltered road zooms keep them all |
| DatasetLayers.DatasetQueryset | test_vectortiles/test_app/vt_layers.py:113-204 | the queryset's columns are the dataset's columns plus its annotation aliases |
| DatasetLayers.TileFieldsResolve | test_vectortiles/test_app/vt_layers.py:70-204 | every dataset's queryset resolves and holds every tile field it names |
| DatasetLayers.RoadRows | test_vectortiles/test_app/vt_layers.py:115-144 | row i is the i-th source road the zoom allows (every road when it allows all) with its nature added as text |
| DatasetLayers.KeyInUnderNot | test_vectortiles/test_app/vt_layers.py:145-156 | the condition under NOT in `exclude(properties__nature__in=...)` is TRUE exactly for a listed string nature, FALSE exactly for a NULL properties column or a present nature outside the list, and NULL otherwise (no object, or no such member) |
| DatasetLayers.VegetationRows | test_vectortiles/test_app/vt_layers.py:145-156 | below zoom 15 a source feature stays, in order, exactly when its properties are NULL or it has a nature outside the six minor ones; from 15 nothing changes |
| DatasetLayers.VegetationWithoutNatureDropped | test_vectortiles/test_app/vt_layers.py:145-156 | below zoom 15 a feature whose properties object has no nature is not in the tile |
| DatasetLayers.StreamQueryset | test_vectortiles/test_app/vt_layers.py:182-184 | a stream queryset is its exclusion plus the single annotation "nom" |
| DatasetLayers.StreamRows | test_vectortiles/test_app/vt_layers.py:182-184 | no stream at position "-1" remains, every other one does, and each carries its toponym as "nom" |
| DatasetLayers.CommuneRow | test_vectortiles/test_app/vt_layers.py:163-181 | a commune row gains its official name and population and keeps its geometry |
| DatasetLayers.CommuneRows | test_vectortiles/test_app/vt_layers.py:163-181 | every commune is kept with its official name and population |
| DatasetLayers.DatasetTileLayer | test_vectortiles/test_app/vt_layers.py:66-111 | a dataset layer's id is its slug, its fields the lookup table's, and its gate range 0 to 22 whatever the instance's zoom range |
| DatasetLayers.RoadBelowMinZoom | test_vectortiles/test_app/vt_layers.py:115-116 | a road tile below the instance's min zoom and below 9 passes the gate and is drawn from every road unfiltered |
| DatasetLayers.CityCentroidTileLayer | test_vectortiles/test_app/vt_layers.py:216-226 | id "commune_centre", geometry field "centroid", the four commune fields, gate range 0 to 22 since its min zoom 6 is not read by the gate |
| DatasetLayers.CityCentroidQueryset | test_vectortiles/test_app/vt_layers.py:228-231 | the commune queryset plus "centroid"; it resolves exactly when the features have "properties" and "geom" |
| DatasetLayers.CityCentroidRows | test_vectortiles/test_app/vt_layers.py:228-231 | every commune carries its centroid and annotations, and every tile field and the geometry field resolve |
| DatasetLayers.DatasetPostgisQuery | vectortiles/backends/postgis/__init__.py:9-55 | a dataset tile at any zoom from 0 to 22 is queried with the dataset's fields plus "geom_prepared" under the layer's slug |
| TileCache.FullDataKey | test_vectortiles/test_app/vt_layers.py:99-101 | the key is built from the layer class's `get_id()`, the instance's update time and the tile coordinates |
| TileCache.FullDataKeyInjective | test_vectortiles/test_app/vt_layers.py:99-101 | two keys are equal exactly when layer id, update time and tile are; a new update time gives new keys |
| TileCache.CommuneCentreKeysApart | test_vectortiles/test_app/vt_layers.py:219-226 | the commune layer and the commune-centre layer, on the same "commune" instance, cache the same tile under different keys ("commune" and "commune_centre") |
| TileCache.FeatureLayerKeyAsWritten | test_vectortiles/test_app/vt_layers.py:29-31 | as written the key's id is the default layer id whatever the layer |
| TileCache.FeatureLayerKeysCollide | test_vectortiles/test_app/vt_layers.py:29-31 | as written, any two layers share the key of a tile |
| TileCache.FeatureLayerKey | test_vectortiles/test_app/vt_layers.py:29-31 | the intended key is built from get_id() and the tile coordinates |
| TileCache.FeatureLayerKeyInjective | test_vectortiles/test_app/vt_layers.py:29-31 | with the intended key, different layers or tiles never share a key |
| TileCache.Cache.GetTile | test_vectortiles/test_app/vt_layers.py:98-108 | a hit returns the stored tile and changes nothing; a miss stores and returns the computed tile; an error stores nothing |
| TileCache.Cache.GetTileCoherent | test_vectortiles/test_app/vt_layers.py:98-108 | when tiles are a function of their key the cache returns that tile and stays coherent |
| TileCache.Cache.GetTileTwice | test_vectortiles/test_app/vt_layers.py:98-108 | a repeated call returns the first call's tile |
| TileCache.FullDataGetTile | test_vectortiles/test_app/vt_layers.py:98-108 | the full-data get_tile, for a dataset layer or the inherited commune-centre one, is the cached lookup under the key of its own id |
| TileCache.FeatureLayerGetTile | test_vectortiles/test_app/vt_layers.py:28-38 | the feature-layer get_tile as written is the cached lookup under the colliding key |
| TileCache.FeatureLayersShareTiles | test_vectortiles/test_app/vt_layers.py:28-38 | as written, a second layer asking for the same tile gets the first layer's tile |
| TileCache.FeatureLayerGetTileFixed | test_vectortiles/test_app/vt_layers.py:28-38 | the feature-layer get_tile under the intended key |

## Left out

- Web-Mercator bounds (`mercantile.xy_bounds`) and `pixel_length`: the bounds are the symbolic `XyBounds(x, y, z)`, and the buffered box is symbolic. Only the division by the buffer is kept, as a ZeroDivisionError.
- Geometry computation is not performed, so geometries are never checked or computed:
  - intersection tests, transforms, AsMVTGeom, centroids and casts are recorded, not computed;
  - a failing cast of non-numeric text in the database is not modelled.
- MVT encoding: ST_AsMVT and `mapbox_vector_tile.encode` are parameters. So the expected tile bytes and the layer version 2 in the view tests are not stated.
- SQL text, cursors, HTTP responses, URL handling and `unquote` in `get_tile_urls`: the tile URL is taken as already decoded.
- `slugify` of layer names: a dataset layer carries its slug.
- md5 of cache keys: the key is structural, and md5 over the formatted key is taken as injective.
- Django cache timeouts: entries never expire.
- Django's check that an annotation does not reuse a model field's name is not modelled.
- Negative `limit` values: the limit is `Option<nat>`.
- `vectortiles/mapbox/mixins.py` and the views and renderers that only call the modelled code are not part of this model.
- `Backends.TileLayerOf` and `DatasetLayers.DatasetTileLayer` describe the getters the backends call. This snapshot's base class does not define them, as noted above.
- PythonBackend.GetTile: builds properties with the intended comprehension (`PythonBackend.Properties`). The code as written raises TypeError for a layer whose `tile_fields` is None; `PythonBackend.PropertiesFinding` states where the two differ.
- DatasetLayers.DatasetTileLayer: its `tile_fields` attribute is recorded as None. Neither the dataset layer nor this snapshot's base class defines `tile_fields`, so on the Python backend the lookup raises AttributeError before the first property. The model does not capture that error; the configured backend is PostGIS.
- PythonBackend.PropsFrom: properties are a map, so the insertion order of the dictionary handed to the encoder (the order of `tile_fields`) is not kept.
- Mixins.TilejsonMinZoom: layer zooms are integers, so a None `minzoom` and the `or 0` fallback it would take are not modelled.
- Mixins.TilejsonMaxZoom: layer zooms are integers, so a None `maxzoom` and the `or 22` fallback it would take are not modelled.
- DatasetLayers.JsonText: a JSON number keeps its literal text, where jsonb `->>` gives the normalised number text.
- PythonBackend.AnnotateClipped: a NULL geometry stays an `Intersection` term rather than becoming NULL. Only an unclipped NULL "geom" raises AttributeError when the feature is built.
- DatasetLayers.KeyInUnderNot: the model class of the dataset features is not part of this model, so whether "properties" is nullable is not known. The function keeps Django's extra `"properties" IS NOT NULL` test, which it adds for a nullable column; for a non-nullable one no row has a NULL column and the result is the same.

## Findings

| source | as written | input that shows it | evidently intended | confidence | as-written member | corrected member |
|---|---|---|---|---|---|---|
| vectortiles/backends/python/__init__.py:48-52 | `{key: ... for key in self.tile_fields if self.tile_fields}` filters each key, so a None `tile_fields` is still iterated | a layer class that sets `tile_fields = None`, with one feature intersecting the tile: TypeError | no properties when there are no tile fields | medium, not executed | PythonBackend.PropertiesAsWritten | PythonBackend.Properties |
| test_vectortiles/test_app/vt_layers.py:29-31 | the cache key uses `get_vector_tile_layer_id()`, which `FeatureLayerVectorLayer` leaves at its default "" | two instances for layers "a" and "b" asked for tile 0/0/0: the second is served the first one's cached tile | the key built from `get_id()`, the layer's slug | medium, not executed | TileCache.FeatureLayerKeysCollide | TileCache.FeatureLayerKeyInjective |
