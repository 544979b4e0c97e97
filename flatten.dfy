/**
 * Flattening a feature (`flattenFeature` with its helper `flattenPoint`):
 * the geometry becomes a list of string tokens, the type tag first, one
 * ", "-joined token per position, and "||" after the last position of every
 * polygon ring.
 */
module Flatten {
  import opened GeoJson
  import Decimal
  import Separator

  /** The decimal text of each component of a position, in order. */
  function Rendered(p: Position): seq<string> {
    seq(|p|, i requires 0 <= i < |p| => Decimal.IntToString(p[i]))
  }

  /** The token of one position: its rendered components joined with ", ". */
  function PositionToken(p: Position): string {
    Separator.Join(Rendered(p))
  }

  /** One token per position, in order. */
  function PositionTokens(ps: seq<Position>): seq<string> {
    seq(|ps|, i requires 0 <= i < |ps| => PositionToken(ps[i]))
  }

  /** The tokens of a non-empty list of positions: the first position's token, then the rest. */
  lemma PositionTokensCons(ps: seq<Position>)
    requires |ps| >= 1
    ensures PositionTokens(ps) == [PositionToken(ps[0])] + PositionTokens(ps[1..])
  {
    assert PositionTokens(ps)[1..] == PositionTokens(ps[1..]);
  }

  /** The tokens of every ring in order, each ring followed by the sentinel. */
  function RingTokens(rs: seq<Ring>): seq<string>
    decreases |rs|
  {
    if rs == [] then []
    else RingTokens(rs[..|rs| - 1]) + PositionTokens(rs[|rs| - 1]) + [RingEnd]
  }

  /** The number of positions in all rings together. */
  function TotalPositions(rs: seq<Ring>): nat
    decreases |rs|
  {
    if rs == [] then 0 else TotalPositions(rs[..|rs| - 1]) + |rs[|rs| - 1]|
  }

  /** How many tokens equal `t`. */
  function CountOf(ts: seq<string>, t: string): nat
    decreases |ts|
  {
    if ts == [] then 0 else (if ts[0] == t then 1 else 0) + CountOf(ts[1..], t)
  }

  /** The flat form of a geometry. */
  function FlattenGeometry(g: Geometry): (ts: seq<string>)
    ensures |ts| >= 1 && ts[0] == Tag(g)
    ensures g.Point? ==> |ts| == 2 && ts[1] == PositionToken(g.position)
    ensures g.LineString? ==>
      |ts| == |g.positions| + 1
      && forall i :: 0 <= i < |g.positions| ==> ts[i + 1] == PositionToken(g.positions[i])
    ensures g.Other? ==> ts == [g.kind]
  {
    [Tag(g)] +
      match g
      case Point(p) => [PositionToken(p)]
      case LineString(ps) => PositionTokens(ps)
      case Polygon(rs) => RingTokens(rs)
      case Other(_, _) => []
  }

  /** The flat form of a feature: type and properties are carried over unchanged. */
  function Flattened<P>(f: Feature<P>): FlatFeature<P> {
    FlatFeature(f.featureType, FlattenGeometry(f.geometry), f.properties)
  }

  /** `flattenPoint`: builds ", c0, c1, ..." one component at a time, then drops the first two characters. */
  method FlattenPoint(point: Position) returns (token: string)
    ensures token == PositionToken(point)
  {
    var rendered := Rendered(point);
    var coordString := "";
    for i := 0 to |point|
      invariant coordString == if i == 0 then "" else ", " + Separator.Join(rendered[..i])
    {
      Separator.JoinPrefixStep(rendered, i);
      coordString := coordString + ", " + Decimal.IntToString(point[i]);
    }
    assert rendered[..|point|] == rendered;
    token := if |coordString| < 2 then "" else coordString[2..];
  }

  /** The loop `flattenFeature` runs over a list of positions: push one token per position. */
  method PushPositions(returnArr: seq<string>, positions: seq<Position>) returns (extended: seq<string>)
    ensures extended == returnArr + PositionTokens(positions)
  {
    extended := returnArr;
    for i := 0 to |positions|
      invariant extended == returnArr + PositionTokens(positions)[..i]
    {
      var token := FlattenPoint(positions[i]);
      assert PositionTokens(positions)[..i + 1] == PositionTokens(positions)[..i] + [token];
      extended := extended + [token];
    }
    assert PositionTokens(positions)[..|positions|] == PositionTokens(positions);
  }

  /** `flattenFeature`: the tag, then the tokens the geometry kind calls for. */
  method FlattenFeature<P>(input: Feature<P>) returns (output: FlatFeature<P>)
    ensures output == Flattened(input)
    ensures output.featureType == input.featureType && output.properties == input.properties
  {
    var geometry := input.geometry;
    var returnArr: seq<string> := [Tag(geometry)];
    match geometry {
      case Point(position) =>
        var token := FlattenPoint(position);
        returnArr := returnArr + [token];
      case LineString(positions) =>
        returnArr := PushPositions(returnArr, positions);
      case Polygon(rings) =>
        for i := 0 to |rings|
          invariant returnArr == [PolygonTag] + RingTokens(rings[..i])
        {
          returnArr := PushPositions(returnArr, rings[i]);
          returnArr := returnArr + [RingEnd];
          assert rings[..i + 1][..i] == rings[..i];
        }
        assert rings[..|rings|] == rings;
      case Other(_, _) =>
    }
    output := FlatFeature(input.featureType, returnArr, input.properties);
  }

  /** No position token is the ring sentinel: position tokens never contain '|'. */
  lemma {:induction false} PositionTokenIsNotRingEnd(p: Position)
    ensures PositionToken(p) != RingEnd
  {
    var parts := Rendered(p);
    forall i | 0 <= i < |parts|
      ensures '|' !in parts[i]
    {
      if '|' in parts[i] {
        Decimal.IntToStringChars(p[i], '|');
      }
    }
    Separator.JoinAvoids(parts, '|');
    assert RingEnd[0] == '|';
  }

  lemma {:induction false} CountOfAppend(a: seq<string>, b: seq<string>, t: string)
    ensures CountOf(a + b, t) == CountOf(a, t) + CountOf(b, t)
    decreases |a|
  {
    if a != [] {
      assert (a + b)[1..] == a[1..] + b;
      CountOfAppend(a[1..], b, t);
    } else {
      assert a + b == b;
    }
  }

  /** A run of position tokens holds no sentinel. */
  lemma {:induction false} NoRingEndAmongPositions(ps: seq<Position>)
    ensures CountOf(PositionTokens(ps), RingEnd) == 0
    decreases |ps|
  {
    if ps != [] {
      PositionTokenIsNotRingEnd(ps[0]);
      assert PositionTokens(ps)[1..] == PositionTokens(ps[1..]);
      NoRingEndAmongPositions(ps[1..]);
    }
  }

  /** A polygon of k rings flattens to 1 + k + (number of positions) tokens. */
  lemma {:induction false} PolygonLength(rs: seq<Ring>)
    ensures |FlattenGeometry(Polygon(rs))| == 1 + |rs| + TotalPositions(rs)
    ensures |RingTokens(rs)| == |rs| + TotalPositions(rs)
    decreases |rs|
  {
    if rs != [] {
      PolygonLength(rs[..|rs| - 1]);
    }
  }

  /** A polygon of k rings flattens to exactly k sentinels. */
  lemma {:induction false} PolygonRingEndCount(rs: seq<Ring>)
    ensures CountOf(FlattenGeometry(Polygon(rs)), RingEnd) == |rs|
    ensures CountOf(RingTokens(rs), RingEnd) == |rs|
    decreases |rs|
  {
    if rs != [] {
      var init := rs[..|rs| - 1];
      PolygonRingEndCount(init);
      NoRingEndAmongPositions(rs[|rs| - 1]);
      CountOfAppend(RingTokens(init), PositionTokens(rs[|rs| - 1]), RingEnd);
      CountOfAppend(RingTokens(init) + PositionTokens(rs[|rs| - 1]), [RingEnd], RingEnd);
    }
    CountOfAppend([PolygonTag], RingTokens(rs), RingEnd);
  }

  /** The tokens of the first k rings are a prefix of the tokens of all rings. */
  lemma {:induction false} RingTokensPrefix(rs: seq<Ring>, k: nat)
    requires k <= |rs|
    ensures RingTokens(rs[..k]) <= RingTokens(rs)
    decreases |rs|
  {
    if k < |rs| {
      var init := rs[..|rs| - 1];
      assert init[..k] == rs[..k];
      RingTokensPrefix(init, k);
    } else {
      assert rs[..k] == rs;
    }
  }

  /**
   * Ring k of a polygon occupies the tokens after the tag, the earlier rings
   * and their sentinels: its positions' tokens in order, and the sentinel
   * immediately after its last one.
   */
  lemma {:induction false} PolygonRingLayout(rs: seq<Ring>, k: nat)
    requires k < |rs|
    ensures var ts := FlattenGeometry(Polygon(rs));
            var start := 1 + k + TotalPositions(rs[..k]);
            var end := start + |rs[k]|;
            end < |ts| && ts[start..end] == PositionTokens(rs[k]) && ts[end] == RingEnd
  {
    RingTokensPrefix(rs, k + 1);
    PolygonLength(rs[..k]);
    assert rs[..k + 1][..k] == rs[..k];
    assert RingTokens(rs[..k + 1]) == RingTokens(rs[..k]) + PositionTokens(rs[k]) + [RingEnd];
  }

  /** An empty ring flattens to a bare sentinel. */
  lemma EmptyRingFlattensToSentinel()
    ensures FlattenGeometry(Polygon([[]])) == [PolygonTag, RingEnd]
  {
    var rs: seq<Ring> := [[]];
    assert rs[..0] == [];
  }
}
