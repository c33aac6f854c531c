/**
 * Shared vocabulary of the model: Python's None and exceptions, the values a
 * database row holds, and tile bounds.
 *
 * Geometry functions that run inside PostGIS or GEOS (Transform, Centroid,
 * AsMVTGeom, Intersection, buffer) are not computed here: each is a
 * constructor that records the call and its arguments, so the model can say
 * which call a pipeline makes without saying what the call returns.
 */
module Common {

  type Bytes = seq<bv8>

  datatype Option<+T> = None | Some(value: T)

  /** The exceptions the modelled code can raise. */
  datatype Error =
    | NotImplementedError
    | FieldError(unknown: set<string>)   // a queryset refers to columns it does not have
    | AttributeError(name: string)
    | TypeError(reason: string)
    | ValueError(reason: string)
    | ZeroDivisionError

  datatype Result<+T> = Ok(value: T) | Err(error: Error) {
    predicate IsFailure() { Err? }

    function PropagateFailure<U>(): Result<U>
      requires Err?
    {
      Err(error)
    }

    function Extract(): T
      requires Ok?
    {
      value
    }
  }

  /** Python truthiness of an optional limit: None and 0 are falsy. */
  predicate IsTruthy(limit: Option<nat>) {
    limit.Some? && limit.value != 0
  }

  function Min(a: int, b: int): int {
    if a <= b then a else b
  }

  /** A JSON document as stored in a JSONField; a number keeps its literal text. */
  datatype Json =
    | JNull
    | JBool(b: bool)
    | JNumber(literal: string)
    | JString(s: string)
    | JArray(items: seq<Json>)
    | JObject(members: map<string, Json>)

  /** `mercantile.xy_bounds(x, y, z)`: the tile's Web-Mercator bounds, left symbolic. */
  datatype Bounds = XyBounds(x: int, y: int, z: int)

  /**
   * `bbox.buffer(pixel_length(z, size))`: the tile polygon grown by the length
   * of one pixel of a `size`-pixel tile at zoom `z`.
   */
  datatype BufferedBox = BufferedBox(bounds: Bounds, zoom: int, size: int)

  /** A value held by one column of one row, or computed by an annotation. */
  datatype Value =
    | Null
    | Text(s: string)
    | JsonDoc(doc: Json)
    | TextOfJson(json: Json)                       // `->>` of an array or object
    | FloatCast(source: Value)                     // Cast(..., output_field=FloatField())
    | Wkb(bytes: Bytes)                            // a stored geometry
    | Transform(geom: Value, srid: int)
    | Centroid(geom: Value)
    | AsMvtGeom(geom: Value, envelope: Bounds, extent: int, buffer: int, clip: bool)
    | Intersection(geom: Value, region: BufferedBox)

  /** One row of a queryset: column name to value. */
  type Row = map<string, Value>

  /**
   * One entry of a TileJSON document's `vector_layers`: exactly the keys id,
   * description, fields, minzoom and maxzoom.
   */
  datatype VectorLayerJson = VectorLayerJson(
    id: string,
    description: string,
    fields: map<string, string>,
    minzoom: int,
    maxzoom: int)

  /** `row[column]`, or NULL when the row has no such column. */
  function Column(row: Row, column: string): Value {
    if column in row then row[column] else Null
  }
}
