/**
 * Unflattening (`unFlattenFeature` with its helper `unFlattenPoint`): token 0
 * selects the geometry kind; point tokens are split on ", " and each piece
 * read as a number; for polygons a ring buffer collects positions and every
 * "||" closes it.
 */
module Unflatten {
  import opened Wrappers
  import opened GeoJson
  import Decimal
  import Separator

  /** Why a token list cannot be read back. */
  datatype DecodeError =
    | TruncatedInput                 // no tag, or a Point tag with no token after it
    | MalformedToken(token: string)  // a piece of a point token is not a number

  /** Every piece read as a number, or None if some piece is not one. */
  function ParseComponents(pieces: seq<string>): (r: Option<Position>)
    ensures r.Some? <==> forall i :: 0 <= i < |pieces| ==> Decimal.StringToInt(pieces[i]).Some?
    ensures r.Some? ==>
      |r.value| == |pieces|
      && forall i :: 0 <= i < |pieces| ==> Decimal.StringToInt(pieces[i]) == Some(r.value[i])
    decreases |pieces|
  {
    if pieces == [] then Some([])
    else match Decimal.StringToInt(pieces[0])
      case None => None
      case Some(x) =>
        match ParseComponents(pieces[1..])
        case None => None
        case Some(rest) => Some([x] + rest)
  }

  /** The position a point token stands for. */
  function ParsePosition(token: string): Result<Position, DecodeError> {
    match ParseComponents(Separator.Split(token))
    case None => Err(MalformedToken(token))
    case Some(p) => Ok(p)
  }

  /** Every token read as a position, in order; the first bad token is the error. */
  function DecodePositions(tokens: seq<string>): (r: Result<seq<Position>, DecodeError>)
    ensures r.Ok? <==> forall i :: 0 <= i < |tokens| ==> ParsePosition(tokens[i]).Ok?
    ensures r.Ok? ==>
      |r.value| == |tokens|
      && forall i :: 0 <= i < |tokens| ==> ParsePosition(tokens[i]) == Ok(r.value[i])
    decreases |tokens|
  {
    if tokens == [] then Ok([])
    else match ParsePosition(tokens[0])
      case Err(e) => Err(e)
      case Ok(p) =>
        match DecodePositions(tokens[1..])
        case Err(e) => Err(e)
        case Ok(rest) => Ok([p] + rest)
  }

  /** `done` put in front of the positions of a successful decode. */
  function After(done: seq<Position>, r: Result<seq<Position>, DecodeError>): Result<seq<Position>, DecodeError> {
    match r
    case Ok(rest) => Ok(done + rest)
    case Err(e) => Err(e)
  }

  /** Decoding from a good token on: its position, then the rest. */
  lemma {:induction false} DecodePositionsOk(tokens: seq<string>, p: Position)
    requires |tokens| >= 1 && ParsePosition(tokens[0]) == Ok(p)
    ensures DecodePositions(tokens) == After([p], DecodePositions(tokens[1..]))
  {
  }

  /** Decoding from a bad token on fails with that token's error. */
  lemma {:induction false} DecodePositionsErr(tokens: seq<string>)
    requires |tokens| >= 1 && ParsePosition(tokens[0]).Err?
    ensures DecodePositions(tokens) == Err(ParsePosition(tokens[0]).error)
  {
  }

  lemma {:induction false} AfterAfter(a: seq<Position>, b: seq<Position>, r: Result<seq<Position>, DecodeError>)
    ensures After(a, After(b, r)) == After(a + b, r)
  {
    if r.Ok? {
      assert a + (b + r.value) == (a + b) + r.value;
    }
  }

  /** The polygon decoder's state: the rings closed so far and the open ring buffer. */
  datatype RingScan = RingScan(rings: seq<Ring>, buffer: Ring)

  /** One token of a polygon: a sentinel closes the buffer, anything else is a position for it. */
  function ScanStep(st: RingScan, token: string): Result<RingScan, DecodeError> {
    if token == RingEnd then Ok(RingScan(st.rings + [st.buffer], []))
    else match ParsePosition(token)
      case Err(e) => Err(e)
      case Ok(p) => Ok(RingScan(st.rings, st.buffer + [p]))
  }

  /** The polygon decoder's state after the given tokens, stopping at the first bad one. */
  function ScanRings(st: RingScan, tokens: seq<string>): Result<RingScan, DecodeError>
    decreases |tokens|
  {
    if tokens == [] then Ok(st)
    else match ScanStep(st, tokens[0])
      case Err(e) => Err(e)
      case Ok(next) => ScanRings(next, tokens[1..])
  }

  /**
   * The geometry a token list stands for. Extra tokens after a Point's are
   * ignored; positions left in the buffer after the last "||" are dropped;
   * an unknown tag gives that kind with no coordinates.
   */
  function UnflattenGeometry(tokens: seq<string>): Result<Geometry, DecodeError> {
    if |tokens| == 0 then Err(TruncatedInput)
    else if tokens[0] == PointTag then
      if |tokens| < 2 then Err(TruncatedInput)
      else match ParsePosition(tokens[1])
        case Err(e) => Err(e)
        case Ok(p) => Ok(Point(p))
    else if tokens[0] == LineStringTag then
      match DecodePositions(tokens[1..])
      case Err(e) => Err(e)
      case Ok(ps) => Ok(LineString(ps))
    else if tokens[0] == PolygonTag then
      match ScanRings(RingScan([], []), tokens[1..])
      case Err(e) => Err(e)
      case Ok(st) => Ok(Polygon(st.rings))
    else Ok(Other(tokens[0], []))
  }

  /** The feature a flat feature stands for: type and properties are carried over unchanged. */
  function Unflattened<P>(ff: FlatFeature<P>): Result<Feature<P>, DecodeError> {
    match UnflattenGeometry(ff.geometry)
    case Err(e) => Err(e)
    case Ok(g) => Ok(Feature(ff.featureType, g, ff.properties))
  }

  /** `unFlattenPoint`: split on ", " and read each piece as a number. */
  method UnflattenPoint(point: string) returns (r: Result<Position, DecodeError>)
    ensures r == ParsePosition(point)
  {
    var stringArr := Separator.Split(point);
    var numArr: Position := [];
    for i := 0 to |stringArr|
      invariant |numArr| == i
      invariant forall j :: 0 <= j < i ==> Decimal.StringToInt(stringArr[j]) == Some(numArr[j])
    {
      var n := Decimal.StringToInt(stringArr[i]);
      if n.None? {
        return Err(MalformedToken(point));
      }
      numArr := numArr + [n.value];
    }
    assert ParseComponents(stringArr).value == numArr;
    return Ok(numArr);
  }

  /** The LineString branch of `unFlattenFeature`: tokens 1..end, one position each. */
  method UnflattenPositions(tokens: seq<string>) returns (r: Result<seq<Position>, DecodeError>)
    requires |tokens| >= 1
    ensures r == DecodePositions(tokens[1..])
  {
    var coordinateArr: seq<Position> := [];
    if DecodePositions(tokens[1..]).Ok? {
      assert [] + DecodePositions(tokens[1..]).value == DecodePositions(tokens[1..]).value;
    }
    for i := 1 to |tokens|
      invariant DecodePositions(tokens[1..]) == After(coordinateArr, DecodePositions(tokens[i..]))
    {
      assert tokens[i..][0] == tokens[i] && tokens[i..][1..] == tokens[i + 1..];
      var pointArr := UnflattenPoint(tokens[i]);
      if pointArr.Err? {
        DecodePositionsErr(tokens[i..]);
        return Err(pointArr.error);
      }
      DecodePositionsOk(tokens[i..], pointArr.value);
      AfterAfter(coordinateArr, [pointArr.value], DecodePositions(tokens[i + 1..]));
      coordinateArr := coordinateArr + [pointArr.value];
    }
    assert tokens[|tokens|..] == [];
    assert coordinateArr + [] == coordinateArr;
    return Ok(coordinateArr);
  }

  /**
   * The Polygon branch of `unFlattenFeature`: positions go into the ring
   * buffer, each "||" pushes the buffer as a ring and starts a new one.
   */
  method UnflattenRings(tokens: seq<string>) returns (r: Result<seq<Ring>, DecodeError>)
    requires |tokens| >= 1
    ensures ScanRings(RingScan([], []), tokens[1..]).Err? ==> r == Err(ScanRings(RingScan([], []), tokens[1..]).error)
    ensures ScanRings(RingScan([], []), tokens[1..]).Ok? ==> r == Ok(ScanRings(RingScan([], []), tokens[1..]).value.rings)
  {
    var coordinateArr: Ring := [];
    var polygonArr: seq<Ring> := [];
    for i := 1 to |tokens|
      invariant ScanRings(RingScan([], []), tokens[1..]) == ScanRings(RingScan(polygonArr, coordinateArr), tokens[i..])
    {
      assert tokens[i..][1..] == tokens[i + 1..];
      if tokens[i] == RingEnd {
        polygonArr := polygonArr + [coordinateArr];
        coordinateArr := [];
      } else {
        var pointArr := UnflattenPoint(tokens[i]);
        if pointArr.Err? {
          return Err(pointArr.error);
        }
        coordinateArr := coordinateArr + [pointArr.value];
      }
    }
    return Ok(polygonArr);
  }

  /** `unFlattenFeature`: dispatch on token 0. */
  method UnflattenFeature<P>(input: FlatFeature<P>) returns (result: Result<Feature<P>, DecodeError>)
    ensures result == Unflattened(input)
    ensures result.Ok? ==>
      result.value.featureType == input.featureType && result.value.properties == input.properties
  {
    var tokens := input.geometry;
    if |tokens| == 0 {
      return Err(TruncatedInput);
    }
    var featureType := tokens[0];
    var geometry: Geometry;
    if featureType == PointTag {
      if |tokens| < 2 {
        return Err(TruncatedInput);
      }
      var pointArr := UnflattenPoint(tokens[1]);
      if pointArr.Err? {
        return Err(pointArr.error);
      }
      geometry := Point(pointArr.value);
    } else if featureType == LineStringTag {
      var coordinateArr := UnflattenPositions(tokens);
      if coordinateArr.Err? {
        return Err(coordinateArr.error);
      }
      geometry := LineString(coordinateArr.value);
    } else if featureType == PolygonTag {
      var polygonArr := UnflattenRings(tokens);
      if polygonArr.Err? {
        return Err(polygonArr.error);
      }
      geometry := Polygon(polygonArr.value);
    } else {
      geometry := Other(featureType, []);
    }
    result := Ok(Feature(input.featureType, geometry, input.properties));
  }
}
