/**
 * The memoising `get_tile` of the dataset layers: look the tile up in the
 * shared Django cache under a key built from the layer and the tile
 * coordinates, and on a miss compute it and store it.
 *
 * The key is kept structural: md5 over the formatted key string is taken to
 * be injective, so two keys collide exactly when their parts are equal.
 */
module TileCache {
  import opened Common
  import opened Backends
  import opened DatasetLayers

  /** The parts the key string is formatted from: an identifier, an optional version stamp, z, x and y. */
  datatype CacheKey = CacheKey(id: string, stamp: Option<string>, z: int, x: int, y: int)

  /**
   * `FullDataFeatureVectorLayer.get_tile`'s key: the layer class's `get_id()`,
   * the instance's update_datetime, z, x and y. `CityCentroidVectorLayer`
   * inherits this `get_tile` but overrides `get_id()`, so the id is the tile
   * layer's and not the instance's slug.
   */
  function FullDataKey(id: string, layer: FullDataLayer, x: int, y: int, z: int): (k: CacheKey)
    ensures k.id == id && k.stamp == Some(layer.updateDatetime)
    ensures k.z == z && k.x == x && k.y == y
  {
    CacheKey(id, Some(layer.updateDatetime), z, x, y)
  }

  /**
   * Two full-data tiles share a key exactly when they are the same tile of
   * the same layer id at the same update time: updating a dataset moves all of
   * its tiles to new keys.
   */
  lemma FullDataKeyInjective(id1: string, id2: string, l1: FullDataLayer, l2: FullDataLayer,
                             x1: int, y1: int, z1: int, x2: int, y2: int, z2: int)
    ensures FullDataKey(id1, l1, x1, y1, z1) == FullDataKey(id2, l2, x2, y2, z2)
        <==> id1 == id2 && l1.updateDatetime == l2.updateDatetime && x1 == x2 && y1 == y2 && z1 == z2
  {
  }

  /**
   * The commune layer and the commune-centre layer are built on the same
   * instance, yet never share a cached tile: their ids differ. (`slugify`
   * leaves the name "commune" unchanged.)
   */
  lemma CommuneCentreKeysApart(communes: FullDataLayer, x: int, y: int, z: int)
    requires communes.name == Commune && communes.slug == Commune
    ensures FullDataKey(DatasetTileLayer(communes).id, communes, x, y, z).id == Commune
    ensures FullDataKey(CityCentroidTileLayer(communes).id, communes, x, y, z).id == CommuneCentre
    ensures FullDataKey(DatasetTileLayer(communes).id, communes, x, y, z)
         != FullDataKey(CityCentroidTileLayer(communes).id, communes, x, y, z)
  {
  }

  /**
   * `FeatureLayerVectorLayer.get_tile`'s key as written: it is built from
   * `get_vector_tile_layer_id()`, which the class does not override, so every
   * instance uses the default identifier "" whatever its layer.
   */
  function FeatureLayerKeyAsWritten(instanceName: string, x: int, y: int, z: int): (k: CacheKey)
    ensures k == CacheKey(Defaults().layerId, None, z, x, y)
  {
    CacheKey(Defaults().layerId, None, z, x, y)
  }

  /** As written, the same tile of two different layers has one key, so one layer is served the other's tile. */
  lemma FeatureLayerKeysCollide(name1: string, name2: string, x: int, y: int, z: int)
    ensures FeatureLayerKeyAsWritten(name1, x, y, z) == FeatureLayerKeyAsWritten(name2, x, y, z)
    ensures FeatureLayerKeyAsWritten(name1, x, y, z).id == ""
  {
  }

  /** The key as intended: built from `get_id()`, the slug of the layer's name. */
  function FeatureLayerKey(slug: string, x: int, y: int, z: int): (k: CacheKey)
    ensures k.id == slug && k.stamp == None && k.z == z && k.x == x && k.y == y
  {
    CacheKey(slug, None, z, x, y)
  }

  /** With the intended key, tiles of layers with different slugs never share a key. */
  lemma FeatureLayerKeyInjective(slug1: string, slug2: string, x1: int, y1: int, z1: int, x2: int, y2: int, z2: int)
    ensures FeatureLayerKey(slug1, x1, y1, z1) == FeatureLayerKey(slug2, x2, y2, z2)
        <==> slug1 == slug2 && x1 == x2 && y1 == y2 && z1 == z2
  {
  }

  /** The shared tile cache: the entries stored so far. */
  class Cache<T> {
    var entries: map<CacheKey, T>

    constructor()
      ensures entries == map[]
    {
      entries := map[];
    }

    /** Every stored tile is the tile `tileOf` assigns to its key. */
    ghost predicate Coherent(tileOf: CacheKey -> T)
      reads this
    {
      forall k | k in entries :: entries[k] == tileOf(k)
    }

    /**
     * The cached `get_tile`: a stored tile is returned as is; otherwise
     * `computed`, what `super().get_tile(x, y, z)` gives, is stored and returned.
     * An exception from it is raised again and nothing is stored.
     */
    method GetTile(key: CacheKey, computed: Result<T>) returns (r: Result<T>)
      modifies this
      ensures old(key in entries) ==> r == Ok(old(entries)[key]) && entries == old(entries)
      ensures old(key !in entries) && computed.Ok? ==> r == computed && entries == old(entries)[key := computed.value]
      ensures old(key !in entries) && computed.Err? ==> r == computed && entries == old(entries)
    {
      if key in entries {
        r := Ok(entries[key]);
      } else {
        r := computed;
        if computed.Ok? {
          entries := entries[key := computed.value];
        }
      }
    }

    /**
     * When every computed tile is the one `tileOf` assigns to its key, the
     * cache is invisible: the caller gets that tile, hit or miss, and the
     * cache stays coherent.
     */
    method GetTileCoherent(key: CacheKey, computed: Result<T>, ghost tileOf: CacheKey -> T) returns (r: Result<T>)
      requires Coherent(tileOf)
      requires computed.Ok? ==> computed.value == tileOf(key)
      modifies this
      ensures Coherent(tileOf)
      ensures r.Ok? ==> r.value == tileOf(key)
      ensures old(key in entries) ==> r.Ok?
      ensures key in old(entries) ==> entries == old(entries)
    {
      r := GetTile(key, computed);
    }

    /** A repeated call for the same key returns the tile of the first, whatever the second would compute. */
    method GetTileTwice(key: CacheKey, computed1: Result<T>, computed2: Result<T>) returns (r1: Result<T>, r2: Result<T>)
      modifies this
      ensures r1.Ok? ==> r2 == r1
      ensures r1.Ok? ==> key in entries && entries[key] == r1.value
    {
      r1 := GetTile(key, computed1);
      r2 := GetTile(key, computed2);
    }
  }

  /**
   * `FullDataFeatureVectorLayer.get_tile(x, y, z)`, with `computed` the
   * backend's answer; `tile` is what the layer class's getters give, that of
   * a dataset layer or of the commune-centre layer on the "commune" instance.
   */
  method FullDataGetTile<T>(cache: Cache<T>, tile: TileLayer, layer: FullDataLayer, x: int, y: int, z: int,
                            computed: Result<T>)
    returns (r: Result<T>)
    requires tile == DatasetTileLayer(layer) || (layer.name == Commune && tile == CityCentroidTileLayer(layer))
    modifies cache
    ensures var key := FullDataKey(tile.id, layer, x, y, z);
            && (old(key in cache.entries) ==> r == Ok(old(cache.entries)[key]) && cache.entries == old(cache.entries))
            && (old(key !in cache.entries) && computed.Ok? ==>
                  r == computed && cache.entries == old(cache.entries)[key := computed.value])
            && (old(key !in cache.entries) && computed.Err? ==> r == computed && cache.entries == old(cache.entries))
  {
    r := cache.GetTile(FullDataKey(tile.id, layer, x, y, z), computed);
  }

  /** `FeatureLayerVectorLayer.get_tile(x, y, z)` as written, with `computed` the backend's answer. */
  method FeatureLayerGetTile<T>(cache: Cache<T>, instanceName: string, x: int, y: int, z: int, computed: Result<T>)
    returns (r: Result<T>)
    modifies cache
    ensures var key := FeatureLayerKeyAsWritten(instanceName, x, y, z);
            && (old(key in cache.entries) ==> r == Ok(old(cache.entries)[key]) && cache.entries == old(cache.entries))
            && (old(key !in cache.entries) && computed.Ok? ==>
                  r == computed && cache.entries == old(cache.entries)[key := computed.value])
            && (old(key !in cache.entries) && computed.Err? ==> r == computed && cache.entries == old(cache.entries))
  {
    r := cache.GetTile(FeatureLayerKeyAsWritten(instanceName, x, y, z), computed);
  }

  /**
   * The consequence of the colliding key: once one layer's tile is cached,
   * another layer asking for the same tile coordinates is served that tile,
   * not its own.
   */
  method FeatureLayersShareTiles<T>(cache: Cache<T>, name1: string, name2: string, x: int, y: int, z: int,
                                    tile1: T, tile2: T)
    returns (r1: Result<T>, r2: Result<T>)
    modifies cache
    ensures r1 == Ok(tile1) || old(FeatureLayerKeyAsWritten(name1, x, y, z) in cache.entries)
    ensures r2 == r1
  {
    r1 := FeatureLayerGetTile(cache, name1, x, y, z, Ok(tile1));
    FeatureLayerKeysCollide(name1, name2, x, y, z);
    r2 := FeatureLayerGetTile(cache, name2, x, y, z, Ok(tile2));
  }

  /** `FeatureLayerVectorLayer.get_tile(x, y, z)` with the intended key. */
  method FeatureLayerGetTileFixed<T>(cache: Cache<T>, slug: string, x: int, y: int, z: int, computed: Result<T>)
    returns (r: Result<T>)
    modifies cache
    ensures var key := FeatureLayerKey(slug, x, y, z);
            && (old(key in cache.entries) ==> r == Ok(old(cache.entries)[key]) && cache.entries == old(cache.entries))
            && (old(key !in cache.entries) && computed.Ok? ==>
                  r == computed && cache.entries == old(cache.entries)[key := computed.value])
            && (old(key !in cache.entries) && computed.Err? ==> r == computed && cache.entries == old(cache.entries))
  {
    r := cache.GetTile(FeatureLayerKey(slug, x, y, z), computed);
  }
}
