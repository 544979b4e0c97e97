/** The GeoJSON entities the codec reads and writes. */
module GeoJson {

  /** One coordinate position: its numeric components in order (x, y, ...). */
  type Position = seq<int>

  /** A polygon ring: its positions in order. */
  type Ring = seq<Position>

  /**
   * The geometry of a feature. `Other` stands for every further kind
   * (MultiPoint, MultiLineString, ...): `kind` is its type name, which in a
   * well-formed value (`WellFormed`) is none of the three tags below, and
   * `payload` abstracts its coordinates.
   */
  datatype Geometry =
    | Point(position: Position)
    | LineString(positions: seq<Position>)
    | Polygon(rings: seq<Ring>)
    | Other(kind: string, payload: seq<Position>)

  const PointTag: string := "Point"
  const LineStringTag: string := "LineString"
  const PolygonTag: string := "Polygon"

  /** The sentinel token that closes each polygon ring in the flat form. */
  const RingEnd: string := "||"

  /** A feature: its own type name, its geometry and its opaque properties. */
  datatype Feature<P> = Feature(featureType: string, geometry: Geometry, properties: P)

  /** A feature whose geometry has been flattened into a list of tokens. */
  datatype FlatFeature<P> = FlatFeature(featureType: string, geometry: seq<string>, properties: P)

  /** The geometry's type name, which is also the first token of its flat form. */
  function Tag(g: Geometry): string {
    match g
    case Point(_) => PointTag
    case LineString(_) => LineStringTag
    case Polygon(_) => PolygonTag
    case Other(kind, _) => kind
  }

  predicate KnownTag(s: string) {
    s == PointTag || s == LineStringTag || s == PolygonTag
  }

  /**
   * A geometry value the source can hold: an `Other` kind never carries one
   * of the three supported type names.
   */
  predicate WellFormed(g: Geometry) {
    g.Other? ==> !KnownTag(g.kind)
  }

  predicate NonEmptyPositions(ps: seq<Position>) {
    forall i :: 0 <= i < |ps| ==> |ps[i]| >= 1
  }

  predicate NonEmptyRings(rs: seq<Ring>) {
    forall k :: 0 <= k < |rs| ==> NonEmptyPositions(rs[k])
  }

  /**
   * A geometry the codec reproduces exactly: one of the three supported
   * kinds, with no empty position (an empty position renders as "").
   */
  predicate Supported(g: Geometry) {
    match g
    case Point(p) => |p| >= 1
    case LineString(ps) => NonEmptyPositions(ps)
    case Polygon(rs) => NonEmptyRings(rs)
    case Other(_, _) => false
  }
}
