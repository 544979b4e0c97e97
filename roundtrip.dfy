/**
 * `unFlattenFeature` is the inverse of `flattenFeature`: the laws that link
 * the two, the check the driver performs, and the driver's sample features.
 */
module RoundTrip {
  import opened Wrappers
  import opened GeoJson
  import Decimal
  import Separator
  import opened Flatten
  import opened Unflatten

  /** Reading back the token of a non-empty position gives that position. */
  lemma {:induction false} PositionRoundTrip(p: Position)
    requires |p| >= 1
    ensures ParsePosition(PositionToken(p)) == Ok(p)
  {
    var pieces := Rendered(p);
    forall i | 0 <= i < |pieces|
      ensures Separator.CommaFree(pieces[i]) && Decimal.StringToInt(pieces[i]) == Some(p[i])
    {
      Decimal.StringToIntOfIntToString(p[i]);
    }
    Separator.SplitJoin(pieces);
    var r := ParseComponents(pieces);
    assert r.value == p;
  }

  /** An empty position renders as "" and cannot be read back. */
  lemma EmptyPositionIsLost()
    ensures PositionToken([]) == ""
    ensures ParsePosition(PositionToken([])) == Err(MalformedToken(""))
  {
    assert Separator.Split("") == [""];
    assert Decimal.StringToInt("") == None;
  }

  /** Reading back the tokens of non-empty positions gives those positions, in order. */
  lemma {:induction false} PositionsRoundTrip(ps: seq<Position>)
    requires NonEmptyPositions(ps)
    ensures DecodePositions(PositionTokens(ps)) == Ok(ps)
  {
    var ts := PositionTokens(ps);
    forall i | 0 <= i < |ts|
      ensures ParsePosition(ts[i]) == Ok(ps[i])
    {
      PositionRoundTrip(ps[i]);
    }
    assert DecodePositions(ts).value == ps;
  }

  /** Scanning a concatenation is scanning the first part, then the second from there. */
  lemma {:induction false} ScanRingsAppend(st: RingScan, a: seq<string>, b: seq<string>)
    ensures ScanRings(st, a + b) ==
      match ScanRings(st, a)
      case Err(e) => Err(e)
      case Ok(mid) => ScanRings(mid, b)
    decreases |a|
  {
    if a == [] {
      assert a + b == b;
    } else {
      assert (a + b)[0] == a[0] && (a + b)[1..] == a[1..] + b;
      match ScanStep(st, a[0])
      case Err(_) =>
      case Ok(next) => ScanRingsAppend(next, a[1..], b);
    }
  }

  /** Scanning past one token that moves the scan to `next`. */
  lemma ScanRingsCons(st: RingScan, token: string, rest: seq<string>, next: RingScan)
    requires ScanStep(st, token) == Ok(next)
    ensures ScanRings(st, [token] + rest) == ScanRings(next, rest)
  {
    assert ([token] + rest)[0] == token && ([token] + rest)[1..] == rest;
  }

  /** A position token read by the polygon decoder goes into the open buffer. */
  lemma {:induction false} ScanStepPosition(st: RingScan, p: Position)
    requires |p| >= 1
    ensures ScanStep(st, PositionToken(p)) == Ok(RingScan(st.rings, st.buffer + [p]))
  {
    PositionTokenIsNotRingEnd(p);
    PositionRoundTrip(p);
  }

  /** Position tokens are never taken for a sentinel: they all go into the open buffer. */
  lemma {:induction false} ScanPositions(st: RingScan, ps: seq<Position>)
    requires NonEmptyPositions(ps)
    ensures ScanRings(st, PositionTokens(ps)) == Ok(RingScan(st.rings, st.buffer + ps))
    decreases |ps|
  {
    if ps == [] {
      assert st.buffer + ps == st.buffer;
    } else {
      var next := RingScan(st.rings, st.buffer + [ps[0]]);
      var token, rest := PositionToken(ps[0]), PositionTokens(ps[1..]);
      calc {
        ScanRings(st, PositionTokens(ps));
        { PositionTokensCons(ps); }
        ScanRings(st, [token] + rest);
        { ScanStepPosition(st, ps[0]); ScanRingsCons(st, token, rest, next); }
        ScanRings(next, rest);
        { ScanPositions(next, ps[1..]); }
        Ok(RingScan(st.rings, next.buffer + ps[1..]));
        { assert (st.buffer + [ps[0]]) + ps[1..] == st.buffer + ps; }
        Ok(RingScan(st.rings, st.buffer + ps));
      }
    }
  }

  /** Scanning the tokens of whole rings closes every ring and leaves the buffer empty. */
  lemma {:induction false} ScanRingTokens(rs: seq<Ring>)
    requires NonEmptyRings(rs)
    ensures ScanRings(RingScan([], []), RingTokens(rs)) == Ok(RingScan(rs, []))
    decreases |rs|
  {
    if rs != [] {
      var init, last := rs[..|rs| - 1], rs[|rs| - 1];
      var closing := PositionTokens(last) + [RingEnd];
      ScanRingTokens(init);
      assert RingTokens(rs) == RingTokens(init) + closing;
      ScanRingsAppend(RingScan([], []), RingTokens(init), closing);
      ScanClosesRing(init, last);
      assert init + [last] == rs;
    }
  }

  /** The tokens of one more ring, scanned with no open buffer, close exactly that ring. */
  lemma ScanClosesRing(closed: seq<Ring>, ring: Ring)
    requires NonEmptyPositions(ring)
    ensures ScanRings(RingScan(closed, []), PositionTokens(ring) + [RingEnd]) == Ok(RingScan(closed + [ring], []))
  {
    ScanRingsAppend(RingScan(closed, []), PositionTokens(ring), [RingEnd]);
    ScanPositions(RingScan(closed, []), ring);
    assert [] + ring == ring;
    assert ScanStep(RingScan(closed, ring), RingEnd) == Ok(RingScan(closed + [ring], []));
    ScanRingsCons(RingScan(closed, ring), RingEnd, [], RingScan(closed + [ring], []));
    assert [RingEnd] + [] == [RingEnd];
  }

  /** Every supported geometry is read back exactly from its flat form. */
  lemma {:induction false} GeometryRoundTrip(g: Geometry)
    requires Supported(g)
    ensures UnflattenGeometry(FlattenGeometry(g)) == Ok(g)
  {
    var ts := FlattenGeometry(g);
    match g
    case Point(p) =>
      PositionRoundTrip(p);
    case LineString(ps) =>
      assert ts[1..] == PositionTokens(ps);
      PositionsRoundTrip(ps);
    case Polygon(rs) =>
      assert ts[1..] == RingTokens(rs);
      ScanRingTokens(rs);
  }

  /** `unFlattenFeature(flattenFeature(f))` is `f`, properties included. */
  lemma {:induction false} FeatureRoundTrip<P>(f: Feature<P>)
    requires Supported(f.geometry)
    ensures Unflattened(Flattened(f)) == Ok(f)
  {
    GeometryRoundTrip(f.geometry);
  }

  /** Any other kind keeps its type name but loses its coordinates. */
  lemma {:induction false} OtherKindLosesCoordinates(kind: string, payload: seq<Position>)
    requires WellFormed(Other(kind, payload))
    ensures UnflattenGeometry(FlattenGeometry(Other(kind, payload))) == Ok(Other(kind, []))
  {
  }

  /** Every geometry the decoder produces is well formed: an unknown tag never names a supported kind. */
  lemma {:induction false} UnflattenIsWellFormed(tokens: seq<string>)
    ensures UnflattenGeometry(tokens).Ok? ==> WellFormed(UnflattenGeometry(tokens).value)
  {
  }

  /**
   * Positions after the last "||" stay in the buffer and are dropped: only
   * rings closed by a sentinel reach the result.
   */
  lemma {:induction false} DanglingPositionsDropped(rs: seq<Ring>, dangling: seq<Position>)
    requires NonEmptyRings(rs)
    requires NonEmptyPositions(dangling)
    ensures UnflattenGeometry([PolygonTag] + RingTokens(rs) + PositionTokens(dangling)) == Ok(Polygon(rs))
  {
    var body := RingTokens(rs) + PositionTokens(dangling);
    ScanWithDanglingPositions(rs, dangling);
    UnflattenPolygonTokens(body);
    assert [PolygonTag] + RingTokens(rs) + PositionTokens(dangling) == [PolygonTag] + body;
  }

  /** A Polygon tag followed by `body` decodes to the rings the scan of `body` has closed. */
  lemma {:induction false} UnflattenPolygonTokens(body: seq<string>)
    ensures UnflattenGeometry([PolygonTag] + body) ==
      match ScanRings(RingScan([], []), body)
      case Err(e) => Err(e)
      case Ok(st) => Ok(Polygon(st.rings))
  {
    assert ([PolygonTag] + body)[1..] == body;
  }

  lemma {:induction false} ScanWithDanglingPositions(rs: seq<Ring>, dangling: seq<Position>)
    requires NonEmptyRings(rs)
    requires NonEmptyPositions(dangling)
    ensures ScanRings(RingScan([], []), RingTokens(rs) + PositionTokens(dangling)) == Ok(RingScan(rs, dangling))
  {
    ScanRingTokens(rs);
    ScanRingsAppend(RingScan([], []), RingTokens(rs), PositionTokens(dangling));
    ScanPositions(RingScan(rs, []), dangling);
    assert [] + dangling == dangling;
  }

  /** An empty ring flattens to a bare sentinel and is read back as an empty ring. */
  lemma EmptyRingRoundTrip()
    ensures FlattenGeometry(Polygon([[]])) == [PolygonTag, RingEnd]
    ensures UnflattenGeometry([PolygonTag, RingEnd]) == Ok(Polygon([[]]))
  {
    EmptyRingFlattensToSentinel();
    var empty: Ring := [];
    var start := RingScan([], empty);
    assert [PolygonTag, RingEnd][1..] == [RingEnd];
    assert start.rings + [start.buffer] == [empty];
    assert ScanStep(start, RingEnd) == Ok(RingScan([empty], []));
    assert [RingEnd][1..] == [];
  }

  /** A Point tag with nothing after it cannot be read back. */
  lemma PointWithoutTokenIsTruncated()
    ensures UnflattenGeometry([PointTag]) == Err(TruncatedInput)
  {
  }

  /** The driver's check: flatten, unflatten, and compare with the original. */
  method CheckRoundTrip<P(==)>(feature: Feature<P>) returns (equal: bool)
    ensures equal <==> Unflattened(Flattened(feature)) == Ok(feature)
    ensures Supported(feature.geometry) ==> equal
  {
    var flatFeature := FlattenFeature(feature);
    var unFlatFeature := UnflattenFeature(flatFeature);
    equal := unFlatFeature == Ok(feature);
    if Supported(feature.geometry) {
      FeatureRoundTrip(feature);
    }
  }

  /** The token of a two-component position. */
  lemma {:induction false} PairToken(x: int, y: int)
    ensures PositionToken([x, y]) == Decimal.IntToString(x) + ", " + Decimal.IntToString(y)
  {
    var a, b := Decimal.IntToString(x), Decimal.IntToString(y);
    assert Rendered([x, y]) == [a, b];
    assert [a, b][1..] == [b];
    assert Separator.Join([b]) == b;
  }

  /** The tokens of the positions in the driver's samples. */
  lemma SampleTokens()
    ensures PositionToken([102, 0]) == "102, 0" && PositionToken([103, 1]) == "103, 1"
    ensures PositionToken([104, 0]) == "104, 0" && PositionToken([105, 1]) == "105, 1"
    ensures PositionToken([100, 0]) == "100, 0" && PositionToken([101, 0]) == "101, 0"
    ensures PositionToken([101, 1]) == "101, 1" && PositionToken([100, 1]) == "100, 1"
  {
    assert Decimal.IntToString(0) == "0" && Decimal.IntToString(1) == "1";
    assert Decimal.IntToString(100) == "100" && Decimal.IntToString(101) == "101";
    assert Decimal.IntToString(102) == "102" && Decimal.IntToString(103) == "103";
    assert Decimal.IntToString(104) == "104" && Decimal.IntToString(105) == "105";
    PairToken(102, 0);
    PairToken(103, 1);
    PairToken(104, 0);
    PairToken(105, 1);
    PairToken(100, 0);
    PairToken(101, 0);
    PairToken(101, 1);
    PairToken(100, 1);
  }

  /** The driver's LineString sample flattens to one token per position. */
  lemma SampleLineString()
    ensures FlattenGeometry(LineString([[102, 0], [103, 1], [104, 0], [105, 1]]))
      == ["LineString", "102, 0", "103, 1", "104, 0", "105, 1"]
  {
    var ps: seq<Position> := [[102, 0], [103, 1], [104, 0], [105, 1]];
    var ts := PositionTokens(ps);
    assert |ts| == 4 && ts[0] == "102, 0" && ts[1] == "103, 1" && ts[2] == "104, 0" && ts[3] == "105, 1" by {
      SampleTokens();
    }
    assert ts == ["102, 0", "103, 1", "104, 0", "105, 1"];
    assert FlattenGeometry(LineString(ps)) == [LineStringTag] + ts;
  }

  /** The driver's Polygon sample: one closed ring of five positions, then the sentinel. */
  lemma SamplePolygon()
    ensures FlattenGeometry(Polygon([[[100, 0], [101, 0], [101, 1], [100, 1], [100, 0]]]))
      == ["Polygon", "100, 0", "101, 0", "101, 1", "100, 1", "100, 0", "||"]
  {
    SampleTokens();
    var ring: Ring := [[100, 0], [101, 0], [101, 1], [100, 1], [100, 0]];
    var rs: seq<Ring> := [ring];
    assert rs[..0] == [];
    assert RingTokens(rs) == PositionTokens(ring) + [RingEnd];
    assert PositionTokens(ring) == ["100, 0", "101, 0", "101, 1", "100, 1", "100, 0"];
  }
}
