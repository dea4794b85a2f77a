/** The values the pipeline moves around: decoded JSON, GeoJSON positions and
    geometries, boundary-layer features and output features. */
module GeoJson {

  /** A decoded JSON value, as `json`/`geojson` hand it to Python. */
  datatype Value =
    | Null
    | Bool(b: bool)
    | Int(i: int)
    | Float(f: real)
    | Str(s: string)
    | Array(elems: seq<Value>)
    | Object(fields: map<string, Value>)

  /** A Python dict of JSON properties (insertion order is not modelled). */
  type PropertyMap = map<string, Value>

  /** A GeoJSON position: longitude, latitude. */
  datatype Position = Position(lon: real, lat: real)

  /** The geometry of one boundary feature; its meaning is left to the containment test. */
  datatype Geometry =
    | Polygon(rings: seq<seq<Position>>)
    | MultiPolygon(polygons: seq<seq<seq<Position>>>)

  /** One feature of a boundary layer: `feature['geometry']` and `feature['properties']`. */
  datatype Region = Region(geometry: Geometry, properties: PropertyMap)

  /** Planar point-in-polygon containment, `shape(geometry).contains(Point(position))`,
      supplied by the geometry library and treated as an uninterpreted relation. */
  type Containment = (Geometry, Position) -> bool

  /** An output feature: a property map paired with a point geometry. */
  datatype Feature = Feature(properties: PropertyMap, geometry: Position)
}
