# GeoJSON geometry flatten/unflatten codec

A Dafny model of the codec in `src/main.ts`. It turns a GeoJSON `Feature` into a
"flattened" feature whose geometry is one list of strings, and back.

- `flattenFeature` starts the list with the geometry's type tag. It adds one
  token per coordinate position: the position's numbers joined with `", "`. For
  a Polygon it adds the sentinel `"||"` after the last position of every ring.
- `unFlattenFeature` is the declared inverse. It dispatches on token 0 and
  splits each point token on `", "`. For a Polygon it fills a ring buffer,
  which each `"||"` pushes as a ring and then resets.
- `type` and `properties` are copied through unchanged in both directions.

Modules:

- `Wrappers`: `Option` and `Result`.
- `Decimal`: integer-to-decimal-text conversion and back. It stands in for the
  host's `Number.prototype.toString` and `parseFloat`. The round trip is proved.
- `Separator`: `Array.prototype.join(', ')` and `String.prototype.split(', ')` as
  functions. Both inverse laws are proved: `Join(Split(s)) == s`, and
  `Split(Join(parts)) == parts` for one or more parts none of which contains a comma.
- `GeoJson`: the entities. `Position`, `Ring`, `Geometry` (Point, LineString,
  Polygon, and `Other` for every further kind), `Feature<P>` and
  `FlatFeature<P>`. The properties are an opaque type parameter `P`.
- `Flatten`: the specification functions of the flat layout, and the methods
  `FlattenPoint`, `PushPositions` and `FlattenFeature`. These are loops that build
  the token list step by step, as the source does. Lemmas describe the layout:
  the tag first, the token counts, and where each sentinel sits.
- `Unflatten`: the specification functions of the decoder, including the
  polygon scan as a fold over a `RingScan(rings, buffer)` state. The methods
  are `UnflattenPoint`, `UnflattenPositions`, `UnflattenRings` and
  `UnflattenFeature`. Each is proved equal to its specification function.
- `RoundTrip`: the inverse laws, the driver's equality check as a method, and
  the driver's LineString and Polygon samples.

## Model

| member | source | states |
|---|---|---|
| `Decimal.StringToIntOfIntToString` | src/main.ts:113 | Parsing the text rendered for any integer gives back that integer. |
| `Decimal.IntToStringChars` | src/main.ts:71 | A rendered number contains only digits and minus signs, and every character after index 0 is a digit, so a minus sign can only lead; it never contains `,` or `\|`. |
| `Decimal.NatToString` | src/main.ts:71 | A rendered magnitude is a non-empty string of digits with no leading zero. |
| `Separator.JoinPrefixStep` | src/main.ts:69-72 | Building `coordString` by `[coordString, x].join(', ')` from `""` gives `", "` followed by the `", "`-join of the parts so far. |
| `Separator.SplitAcrossSeparator` | src/main.ts:110 | `", "` cannot overlap itself, so splitting `x + ", " + y` gives the pieces of `x` followed by the pieces of `y`. |
| `Separator.SplitJoin` | src/main.ts:110 | Splitting on `", "` a join of one or more comma-free parts gives back exactly those parts. |
| `Separator.JoinSplit` | src/main.ts:110 | Joining the pieces of any split restores the original string. |
| `Flatten.FlattenGeometry` | src/main.ts:64-89 | Token 0 is the geometry's type tag. A Point gives two tokens, the second its position token. A LineString of n positions gives n+1 tokens, its position tokens in input order. Any other kind gives the tag alone. |
| `Flatten.FlattenPoint` | src/main.ts:68-74 | The accumulate-then-`substring(2)` loop returns the `", "`-join of the rendered components; an empty position gives `""`. |
| `Flatten.PushPositions` | src/main.ts:79-81 | Pushing one token per position appends exactly the positions' tokens, in order. |
| `Flatten.FlattenFeature` | src/main.ts:63-98 | The method's output is `Flattened(input)`; `type` and `properties` are copied unchanged. |
| `Flatten.PositionTokenIsNotRingEnd` | src/main.ts:87 | No position token equals the `"\|\|"` sentinel. |
| `Flatten.NoRingEndAmongPositions` | src/main.ts:84-86 | A run of position tokens contains no sentinel. |
| `Flatten.PolygonLength` | src/main.ts:82-88 | A Polygon of k rings flattens to 1 + k + (total positions) tokens. |
| `Flatten.PolygonRingEndCount` | src/main.ts:82-88 | A Polygon of k rings flattens to exactly k sentinels. |
| `Flatten.RingTokensPrefix` | src/main.ts:83-88 | The tokens of the first k rings are a prefix of the tokens of all rings. |
| `Flatten.PolygonRingLayout` | src/main.ts:83-88 | Ring k's position tokens sit in order right after the tag, the earlier rings and their sentinels. A sentinel immediately follows its last position token, for the last ring too. |
| `Flatten.EmptyRingFlattensToSentinel` | src/main.ts:84-87 | A polygon with one empty ring flattens to the tag and a bare sentinel. |
| `Unflatten.ParseComponents` | src/main.ts:111-114 | Succeeds exactly when every piece is a number. The result has one component per piece, in order. |
| `Unflatten.DecodePositions` | src/main.ts:121-125 | Succeeds exactly when every token is a valid point token. The result has one position per token, in order. |
| `Unflatten.UnflattenPoint` | src/main.ts:109-116 | The split-and-parse loop returns `ParsePosition(point)`: the parsed position, or `MalformedToken` when a piece is not a number. |
| `Unflatten.UnflattenPositions` | src/main.ts:121-125 | The LineString loop returns the decoding of tokens 1..end, with the first bad token's error. |
| `Unflatten.UnflattenRings` | src/main.ts:126-135 | The ring-buffer loop returns the rings closed by `ScanRings` over tokens 1..end. Positions still in the buffer at the end are dropped. |
| `Unflatten.UnflattenFeature` | src/main.ts:103-148 | The method's result is `Unflattened(input)`. `type` and `properties` are copied unchanged. |
| `RoundTrip.PositionRoundTrip` | src/main.ts:109-116 | Reading back the token of any non-empty position gives that position. |
| `RoundTrip.EmptyPositionIsLost` | src/main.ts:73 | An empty position renders as `""`, and that token cannot be read back. |
| `RoundTrip.PositionsRoundTrip` | src/main.ts:121-125 | Decoding the tokens of non-empty positions gives those positions in order. |
| `RoundTrip.ScanRingsAppend` | src/main.ts:127-135 | Scanning a concatenation scans the first part, then the second from the state reached. |
| `RoundTrip.ScanStepPosition` | src/main.ts:131-134 | The polygon decoder pushes a position token's position onto the open buffer; it is never mistaken for a sentinel. |
| `RoundTrip.ScanPositions` | src/main.ts:127-134 | Every position token goes onto the open buffer, in order. |
| `RoundTrip.ScanClosesRing` | src/main.ts:128-130 | One ring's tokens followed by a sentinel close exactly that ring and reset the buffer. |
| `RoundTrip.ScanRingTokens` | src/main.ts:127-135 | Scanning flattened rings closes every ring and leaves no dangling buffer. |
| `RoundTrip.GeometryRoundTrip` | src/main.ts:100-102 | Unflattening the flat form of any Point, LineString or Polygon with non-empty positions gives the geometry back. |
| `RoundTrip.FeatureRoundTrip` | src/main.ts:138-145 | `unFlattenFeature(flattenFeature(f)) == f`, with `type` and `properties` included. |
| `RoundTrip.UnflattenIsWellFormed` | src/main.ts:138-145 | The decoder only builds the kind it reads from token 0, so an `Other` result never carries a supported type name. |
| `RoundTrip.OtherKindLosesCoordinates` | src/main.ts:106 | Any other geometry kind comes back with its tag and an empty coordinate list. |
| `RoundTrip.ScanWithDanglingPositions` | src/main.ts:127-135 | Positions after the last sentinel stay in the buffer. |
| `RoundTrip.DanglingPositionsDropped` | src/main.ts:142 | Positions after the last sentinel are dropped: only rings closed by a sentinel reach the result. |
| `RoundTrip.EmptyRingRoundTrip` | src/main.ts:128-130 | An empty ring flattens to a bare sentinel and decodes back to an empty ring. |
| `RoundTrip.PointWithoutTokenIsTruncated` | src/main.ts:118-119 | A Point tag with no token after it cannot be decoded. |
| `RoundTrip.CheckRoundTrip` | src/main.ts:150-158 | The driver's equality check is true exactly when the round trip reproduces the feature. It is always true for supported geometries. |
| `RoundTrip.PairToken` | src/main.ts:68-74 | A two-component position renders as `x, y`. |
| `RoundTrip.SampleTokens` | src/main.ts:24-46 | The positions of the driver's samples render as `"102, 0"` and so on. |
| `RoundTrip.SampleLineString` | src/main.ts:20-35 | The sample LineString flattens to the tag and its four position tokens. |
| `RoundTrip.SamplePolygon` | src/main.ts:36-54 | The sample Polygon flattens to the tag, its five position tokens and one sentinel. |

## Left out

- The DOM lookup and the `innerHTML` report (src/main.ts:10, 156) are presentation I/O. `RoundTrip.CheckRoundTrip` returns the boolean instead.
- The `geojson` type imports and `deep-equal` are replaced:
  - the imports by the `GeoJson` datatypes;
  - `deep-equal` by Dafny's equality on datatype values.
- Floating point is not modelled. Coordinates are integers, and `Decimal` replaces `Number.prototype.toString` and `parseFloat`. This leaves out:
  - fractional and non-finite numbers;
  - `parseFloat`'s leniency (it reads a numeric prefix and skips leading blanks).
- Unparseable text: `parseFloat` returns `NaN` for it and never fails. The model rejects such a piece with `MalformedToken`, so a token like `""` (from an empty position) is an error rather than `[NaN]`.
- The driver's Point sample `[102.0, 0.5]` is not representable with integer coordinates. Only the LineString and Polygon samples are stated as lemmas.
- An empty token list has no tag. The source then builds a geometry whose type is `undefined`; the model returns `TruncatedInput`.
- A Point tag with no token after it makes the source call `split` on `undefined` and throw. The model returns `TruncatedInput`.
- The coordinates of the other geometry kinds (MultiPoint, MultiLineString, …) are abstracted as one list of positions (`Other.payload`). Their real nesting is not modelled. `flattenFeature` emits only their tag, and `unFlattenFeature` rebuilds them with empty coordinates.
- An unknown tag is not an error. The source returns that tag with empty coordinates, and the model does the same.
- A dangling ring buffer is not an error either: the source silently drops positions after the last `"||"`, and the model does the same.
- A feature's `id` and `bbox`, a geometry's `bbox`, and any foreign members are not modelled. `flattenFeature` copies only `type`, `geometry` and `properties` (src/main.ts:91-95), and `unFlattenFeature` rebuilds only those (src/main.ts:138-145). So in the source a feature carrying any of these fields does not round-trip, and `deepEqual` (src/main.ts:155) reports false for it. `RoundTrip.FeatureRoundTrip` holds for the modelled `Feature`, which has no such fields.
- `properties` is a type parameter that the codec never inspects. Object identity versus a copy is not distinguished.
- The source's arrays are grown with `push`. The model reassigns `seq` values, so aliasing of those arrays is not modelled (the source never shares them). The pushes over one list of positions, done in both the LineString and the Polygon branch, are factored into `Flatten.PushPositions`. The LineString and Polygon loops of `unFlattenFeature` are `Unflatten.UnflattenPositions` and `Unflatten.UnflattenRings`.
- `RoundTrip.PositionRoundTrip` and the round-trip lemmas built on it require every position to be non-empty. An empty position renders as `""` and does not round-trip (`RoundTrip.EmptyPositionIsLost`).
