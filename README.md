# Fractal Explorer: a verified model of its geometry and metrics

This project models the logic inside `src/FractalExplorer.jsx`, the React
component of the fractal explorer. Canvas calls and React state are stripped
away. What remains are three fractal generators and the info panel:

- The **Sierpinski triangle** recursively splits a triangle into its three
  corner triangles through the edge midpoints. At depth 0 it draws one leaf
  triangle, tagged with the recursion level that picks its colour.
- The **Koch snowflake** replaces each of the three sides of a triangle,
  recursively, by four segments with an outward bump on the middle third.
- The **Heighway dragon** is built in four stages:
  - a fold loop builds the sequence of right (1) and left (-1) turns;
  - a turtle walk turns it into points, with a step length from a zoom table;
  - a bounding-box pass finds the extent of the walk;
  - an offset shifts the walk so that its box is centred on the canvas centre.
  Depth 0 instead draws a single horizontal segment.
- The **info panel** shows the element count, its formula, the fractal
  dimension and a complexity label. The label is looked up in a per-fractal
  ladder of descriptions, clamped to the last entry.

Every drawing call becomes appending to an output sequence:
- `drawTriangle` appends a leaf `Triangle`;
- `moveTo`/`lineTo` append a `Point`.

Coordinates are exact reals. The dragon's heading is an integer number of
quarter turns, and `Math.cos`/`Math.sin` of it become unit axis vectors.
The Koch construction takes the value it uses for `Math.sqrt(3)` as a
parameter `root3`. Its geometric lemmas assume `root3 * root3 == 3`.

The work is split into modules:

- `Geometry` (geometry.dfy): points, `Math.min`, `Math.max`, `Math.pow`.
- `Sierpinski` (sierpinski.dfy): `drawSierpinskiFractal` and `drawSierpinskiTriangle`.
- `Koch` (koch.dfy): `drawKochCurve`, `drawKochSnowflake` and the snowflake stroke width.
- `DragonTurns` (dragon_turns.dfy): the fold loop of `drawHeighwayDragon`.
  It is proved equal to the regular paper-folding sequence, an independent
  reference definition.
- `DragonWalk` (dragon_walk.dfy): the turtle walk. Its end point is proved
  to be `segmentLength * (1 + i)^n`, read as a Gaussian integer.
- `DragonCurve` (dragon_curve.dfy): the rest of `drawHeighwayDragon`, which
  covers the depth-0 case, the zoom table, the bounding box, the centring
  and the stroke width.
- `Metrics` (metrics.dfy): element counts, formula and dimension texts, the
  complexity ladders, the fractal selection switch and the slider bound.
- `Explorer` (explorer.dfy): the drawing effect and the three
  `draw*Fractal` functions. These tie the displayed count to what is drawn.

Some behaviour of the code that the model keeps as written:
- The dragon's stroke width is `3 - 0.25 n` up to depth 3 (2.25 at depth 3),
  2 for depths 4 to 6, and 3 beyond.
- At depth 0 the Sierpinski count is `3^0 - 1 = 0`.
- The dragon of depth n has `2^n + 1` points and `2^n` segments.
- There is no depth validation and no error path. Depth is a `nat`, and
  the only upper bound is the slider's `max`.
- An unknown fractal name draws the Sierpinski triangle: the selection
  switch falls back to it.
- The comment at line 71 announces an equilateral starting triangle, but
  lines 72-78 build an isosceles one: its base is the canvas width minus
  40 and its height the canvas height minus 40 (360 and 360 on the
  400 x 400 canvas). The model follows lines 72-78.

The displayed Sierpinski count `3^n - 1` is one less than the `3^n` leaf
triangles drawn. The model keeps the displayed formula and proves the
relation (`Explorer.CountMatchesPicture`).

## Model

| member | source | states |
|---|---|---|
| Geometry.Min | src/FractalExplorer.jsx:321 | `Math.min` is below both arguments and equals one of them |
| Geometry.Max | src/FractalExplorer.jsx:323 | `Math.max` is above both arguments and equals one of them |
| Geometry.Pow | src/FractalExplorer.jsx:63 | `Math.pow` of a positive base is at least 1 |
| Sierpinski.OuterTriangle | src/FractalExplorer.jsx:71-78 | the starting triangle is isosceles, with its apex centred over a horizontal base, the 20-pixel margin on each side and level 0; the apex is above the base exactly when the canvas is taller than 40, and the base runs left to right exactly when it is wider than 40 |
| Sierpinski.Subdivide | src/FractalExplorer.jsx:101-116 | subdividing to depth n emits exactly 3^n leaf triangles |
| Sierpinski.SierpinskiLeaves | src/FractalExplorer.jsx:61-79 | `drawSierpinskiFractal` subdivides its starting triangle to the selected depth, from level 0; its leaves are described by SierpinskiDrawing and SierpinskiLeavesNonDegenerate |
| Sierpinski.PaletteIndex | src/FractalExplorer.jsx:91 | the colour index `depth % 11` is in the palette, and equals the level below 11 |
| Sierpinski.LeafLevel | src/FractalExplorer.jsx:101-116 | every leaf is tagged currentDepth + depth, whichever branch emits it |
| Sierpinski.OuterCornersKept | src/FractalExplorer.jsx:112-115 | the first leaf keeps the outer first corner and the last leaf keeps the outer third corner |
| Sierpinski.LeavesAreShrunkCopies | src/FractalExplorer.jsx:107-115 | every leaf is the outer triangle shrunk 2^depth times, translated, with the same orientation |
| Sierpinski.CornerOfLeaf | src/FractalExplorer.jsx:107-115 | leaf i of a subdivision is a leaf of the corner triangle at p1 for the first third of the indices, of the one at p2 for the second third and of the one at p3 for the last third, and each corner triangle has half the outer edges |
| Sierpinski.SierpinskiDrawing | src/FractalExplorer.jsx:61-116 | at depth n the drawing has 3^n leaves, all with palette colour n mod 11, each a 2^n-times shrunk copy of the starting triangle |
| Sierpinski.ShrinkCross | src/FractalExplorer.jsx:102-115 | halving both edges of a triangle d times divides their cross product by 4 d times |
| Sierpinski.QuarterIsPow | src/FractalExplorer.jsx:102-115 | dividing by 4 d times is dividing by 4^d |
| Sierpinski.QuarterSign | src/FractalExplorer.jsx:102-115 | dividing by 4 d times keeps the sign and keeps zero |
| Sierpinski.ShrunkCopyOrientation | src/FractalExplorer.jsx:102-115 | a copy shrunk d times has the same orientation and a 4^d-th of the signed area |
| Sierpinski.LeafOrientation | src/FractalExplorer.jsx:101-116 | every leaf of a subdivision to depth d has the outer triangle's signed area divided by 4^d, hence its orientation |
| Sierpinski.OuterOrientation | src/FractalExplorer.jsx:72-78 | the starting triangle has signed double area −(w − 40)(h − 40) |
| Sierpinski.SierpinskiLeavesNonDegenerate | src/FractalExplorer.jsx:61-116 | every drawn leaf has signed double area −(w − 40)(h − 40) / 4^n, so on a canvas larger than 40 x 40 no leaf is degenerate and all have the starting triangle's orientation |
| Koch.FirstThird | src/FractalExplorer.jsx:200-203 | `p3`, one third of the way from p1 to p2; EqualThirds states where it lies |
| Koch.SecondThird | src/FractalExplorer.jsx:210-213 | `p5`, two thirds of the way from p1 to p2; EqualThirds states where it lies |
| Koch.Apex | src/FractalExplorer.jsx:205-208 | `p4`, the bump's tip for a given value of sqrt(3); BumpIsEquilateral states its distances |
| Koch.SqrtApex | src/FractalExplorer.jsx:205-208 | the tip rule of `drawKochCurve` as a function of the two end points |
| Koch.KochCurve | src/FractalExplorer.jsx:188-220 | the points `drawKochCurve` passes to `lineTo`: p2 at depth 0, otherwise the four sub-curves in order; KochCurveLength, KochCurveEnd and KochSegmentsEqual state their count, end and lengths |
| Koch.EqualThirds | src/FractalExplorer.jsx:196-213 | p3 and p5 cut p1-p2 into three equal parts |
| Koch.BumpIsEquilateral | src/FractalExplorer.jsx:196-213 | with the true sqrt(3), all four new segments p1-p3, p3-p4, p4-p5, p5-p2 are a third of p1-p2 long |
| Koch.KochCurveLength | src/FractalExplorer.jsx:188-220 | the curve of depth d passes `lineTo` exactly 4^d points |
| Koch.KochCurveEnd | src/FractalExplorer.jsx:188-220 | the last point of a curve is its end point p2, so consecutive sides join up |
| Koch.KochSegmentsEqual | src/FractalExplorer.jsx:188-220 | with the true sqrt(3), all 4^d segments of a curve have squared length (p1-p2)^2 / 9^d |
| Koch.StepsFromParts | src/FractalExplorer.jsx:215-219 | a curve has equal segments as soon as its four sub-curves have |
| Koch.SubSegmentsEqual | src/FractalExplorer.jsx:215-219 | the four sub-curves of an equal-thirds split each have equal segments of the same length |
| Koch.ThirdSegmentEqual | src/FractalExplorer.jsx:215-219 | a sub-curve on a segment a third as long as its parent has equal segments of squared length parent^2 / 9^d |
| Koch.SnowflakeVertices | src/FractalExplorer.jsx:143-150 | the three starting vertices at angles −90, 30 and 150 degrees around the centre; SnowflakeTriangleIsEquilateral states their distances |
| Koch.SnowflakeTriangleIsEquilateral | src/FractalExplorer.jsx:143-150 | the three starting vertices lie on the circle of the given radius and form an equilateral triangle |
| Koch.Sides | src/FractalExplorer.jsx:159-165 | the first k Koch sides of the loop, side i from vertex i to vertex (i + 1) mod 3; SidesLength states their size |
| Koch.SnowflakePath | src/FractalExplorer.jsx:153-167 | the `moveTo` vertex followed by the three sides; SnowflakeClosed states its size and closure |
| Koch.TraceSnowflake | src/FractalExplorer.jsx:153-167 | the side loop draws the snowflake path: 3·4^n + 1 points, starting and ending at the first vertex |
| Koch.SnowflakeClosed | src/FractalExplorer.jsx:153-167 | the snowflake path has 3·4^n + 1 points and both its first and last point are the first vertex |
| Koch.SidesLength | src/FractalExplorer.jsx:159-165 | k sides contribute k·4^n points |
| Koch.SnowflakeSegmentsEqual | src/FractalExplorer.jsx:137-167 | with the true sqrt(3), every segment of the snowflake has squared length 3r^2 / 9^n |
| Koch.SidesEqual | src/FractalExplorer.jsx:159-165 | each side of an equilateral triangle is drawn with equal segments |
| Koch.KochStrokeWidth | src/FractalExplorer.jsx:174-181 | the snowflake line width is 0.5, 1 or 2 |
| Koch.KochStrokeNarrows | src/FractalExplorer.jsx:174-181 | a deeper snowflake never gets a wider line |
| DragonTurns.Fold | src/FractalExplorer.jsx:262-266 | one pass of the outer loop: the turns, a 1, then the turns reversed and negated; FoldParts states the parts |
| DragonTurns.Turns | src/FractalExplorer.jsx:258-267 | the turns after n − 1 passes from [1]; TurnsLength, TurnsShape and TurnsArePaperFolding state its length, values and reference |
| DragonTurns.NegReverse | src/FractalExplorer.jsx:264-266 | reversing and negating keeps the length |
| DragonTurns.BuildTurns | src/FractalExplorer.jsx:258-267 | the nested push loops build exactly the n-fold turn sequence `Turns(n)` |
| DragonTurns.TurnsLength | src/FractalExplorer.jsx:258-267 | after n folds there are 2^n − 1 turns |
| DragonTurns.TurnsShape | src/FractalExplorer.jsx:258-267 | the first turn is 1 and every turn is 1 or −1 |
| DragonTurns.FoldParts | src/FractalExplorer.jsx:262-266 | a fold keeps the old turns as prefix, then adds 1, then adds the old turns reversed and negated |
| DragonTurns.TurnsPrefix | src/FractalExplorer.jsx:261-267 | more folds only extend the turn sequence |
| DragonTurns.TurnsOfTwoFolds | src/FractalExplorer.jsx:258-267 | two folds give [1, 1, −1] |
| DragonTurns.PaperFold | src/FractalExplorer.jsx:258-267 | every term of the paper-folding reference sequence is 1 or −1 |
| DragonTurns.PaperFoldPow2 | src/FractalExplorer.jsx:263 | the reference turn at position 2^p is a right turn, as the turn added in the middle of a fold is |
| DragonTurns.PaperFoldMirror | src/FractalExplorer.jsx:264-266 | the reference turns mirrored around 2^(p+1) are opposite, as the folded half is |
| DragonTurns.MirrorEven | src/FractalExplorer.jsx:264-266 | at an even position the mirrored reference terms are those of the half-length mirror, hence opposite |
| DragonTurns.MirrorOdd | src/FractalExplorer.jsx:264-266 | at an odd position the mirrored reference terms are opposite |
| DragonTurns.TurnsArePaperFolding | src/FractalExplorer.jsx:258-267 | turn k of the folded sequence is the paper-folding term k + 1, for every n and k |
| DragonTurns.PrefixTurn | src/FractalExplorer.jsx:262-263 | a turn of the kept prefix is unchanged by the fold |
| DragonTurns.MiddleTurn | src/FractalExplorer.jsx:263 | the turn added by a fold agrees with the paper-folding term |
| DragonTurns.MirroredTurn | src/FractalExplorer.jsx:264-266 | a turn of the mirrored half negates an earlier turn, and the reference negates the same way |
| DragonWalk.Unit | src/FractalExplorer.jsx:308-309 | (cos, sin) of the heading in quarter turns; UnitIsAxis and UnitTurn state it |
| DragonWalk.Vertex | src/FractalExplorer.jsx:306-316 | point k of the walk: the origin, then one step along the heading after the turns so far; StepOf and StepIsAxisAligned state each step |
| DragonWalk.WalkPoints | src/FractalExplorer.jsx:298-316 | all points of the walk; Walk computes them and DragonWalkEnd states where they end |
| DragonWalk.UnitIsAxis | src/FractalExplorer.jsx:308-309 | (cos, sin) of a multiple of a quarter turn is a unit vector along an axis |
| DragonWalk.Walk | src/FractalExplorer.jsx:298-316 | the walk loop yields the walk points: two more than the turns, starting at the origin |
| DragonWalk.StepIsAxisAligned | src/FractalExplorer.jsx:306-315 | every step moves exactly `segmentLength` along one axis |
| DragonWalk.UnitTurn | src/FractalExplorer.jsx:314 | adding a quarter turn to the angle rotates the unit step by 90 degrees |
| DragonWalk.TurnIsRightAngle | src/FractalExplorer.jsx:313-315 | after a 1 the next step is the previous one turned +90 degrees, after a −1 it is turned −90 degrees, and both are perpendicular |
| DragonWalk.HeadingAfterTurn | src/FractalExplorer.jsx:314 | turn k changes the heading by directions[k] |
| DragonWalk.StepOf | src/FractalExplorer.jsx:308-310 | step k goes `segmentLength` along the heading after k turns |
| DragonWalk.VertexIsScaledDisp | src/FractalExplorer.jsx:298-316 | point k + 1 of the walk is the scaled unit displacement of its first k turns |
| DragonWalk.DispConcat | src/FractalExplorer.jsx:306-316 | walking a + [t] + b is walking a, then walking b from the heading a leaves, turned by t |
| DragonWalk.DispNegReverse | src/FractalExplorer.jsx:264-266 | walking the reversed negated turns retraces the walk of the turns themselves, started from a rotated heading |
| DragonWalk.DispRotate | src/FractalExplorer.jsx:300 | starting a quarter turn further round rotates the whole walk |
| DragonWalk.DispFold | src/FractalExplorer.jsx:262-266 | a fold adds to the walk its own copy turned a quarter turn |
| DragonWalk.DragonDisplacement | src/FractalExplorer.jsx:258-316 | the walk of n folds ends at (1 + i)^n in step units |
| DragonWalk.GaussPowLength | src/FractalExplorer.jsx:269-270 | the squared length of (1 + i)^n is 2^n: each fold lengthens the span by sqrt(2), the factor the unused `scaleFactor` would undo |
| DragonWalk.DoublingLength | src/FractalExplorer.jsx:269-270 | one fold doubles the squared span |
| DragonWalk.DragonWalkEnd | src/FractalExplorer.jsx:298-316 | the dragon walk of n folds ends at segmentLength · (1 + i)^n |
| DragonCurve.BoxOf | src/FractalExplorer.jsx:319-325 | the accumulators hold a box exactly when at least one point was seen |
| DragonCurve.Extend | src/FractalExplorer.jsx:320-325 | one pass of the min/max loop: the new box contains the point and contains the old box |
| DragonCurve.FindBoundingBox | src/FractalExplorer.jsx:319-325 | the min/max loop computes the bounding box of the points |
| DragonCurve.BoxContainsAll | src/FractalExplorer.jsx:319-325 | the box of a non-empty walk contains every point |
| DragonCurve.BoxIsTight | src/FractalExplorer.jsx:319-325 | each side of the box is touched by some point |
| DragonCurve.Offset | src/FractalExplorer.jsx:327-331 | `offsetX`, `offsetY` move the box so that its midpoint is (centerX, centerY) |
| DragonCurve.Centre | src/FractalExplorer.jsx:327-339 | every walk point moved by the offset of its box; CentreIsCentred and CentreKeepsSteps state the result |
| DragonCurve.BoxOfTranslate | src/FractalExplorer.jsx:330-339 | shifting every point shifts the box by the same offset |
| DragonCurve.CentreIsCentred | src/FractalExplorer.jsx:327-339 | after adding the offset, the box midpoint is (centerX, centerY) and its width and height are unchanged |
| DragonCurve.CentreKeepsSteps | src/FractalExplorer.jsx:335-339 | centring leaves every step vector unchanged |
| DragonCurve.ZoomFactor | src/FractalExplorer.jsx:274-291 | the zoom is in (0, 0.5] and 0.006 from depth 12 on, table or fallback |
| DragonCurve.SegmentLength | src/FractalExplorer.jsx:291-295 | `baseSize` is positive and at most half the smaller canvas side on a canvas of positive size, and 0.006 of that side from depth 12 on |
| DragonCurve.ZoomShrinks | src/FractalExplorer.jsx:274-291 | a deeper dragon never gets a larger zoom |
| DragonCurve.DragonStrokeWidth | src/FractalExplorer.jsx:345-352 | the line width is between 2 and 3, and 3 at depth 0 |
| DragonCurve.SingleSegment | src/FractalExplorer.jsx:246-250 | the depth-0 segment; DragonDepthZero states its length and midpoint |
| DragonCurve.DragonPath | src/FractalExplorer.jsx:240-339 | the points `drawHeighwayDragon` strokes; DragonSegmentCount, DragonIsCentred, DragonSteps and DragonEnds state them |
| DragonCurve.HeighwayDragon | src/FractalExplorer.jsx:240-358 | `drawHeighwayDragon` draws the dragon path of the depth, with its stroke width |
| DragonCurve.DrawWalk | src/FractalExplorer.jsx:298-339 | walking, boxing and shifting yields the centred walk |
| DragonCurve.DrawShifted | src/FractalExplorer.jsx:334-339 | the moveTo/lineTo loop draws every point moved by the offset |
| DragonCurve.DragonSegmentCount | src/FractalExplorer.jsx:246-316 | the drawing has 2^n + 1 points, i.e. 2^n segments, at every depth |
| DragonCurve.DragonIsCentred | src/FractalExplorer.jsx:246-339 | at every depth, 0 included, the drawing's box is centred on (centerX, centerY) |
| DragonCurve.DragonDepthZero | src/FractalExplorer.jsx:246-250 | depth 0 draws one horizontal segment of length min(w, h)/2 with midpoint (centerX, centerY) |
| DragonCurve.CentredWalkSteps | src/FractalExplorer.jsx:306-339 | every step of a centred walk is `segmentLength` along an axis |
| DragonCurve.DepthZeroStep | src/FractalExplorer.jsx:246-250 | the depth-0 drawing has two points, one `baseSize` step along the x axis apart |
| DragonCurve.DragonSteps | src/FractalExplorer.jsx:246-339 | at every depth, 0 included, every drawn step of the dragon is `baseSize` long along an axis |
| DragonCurve.DragonEnds | src/FractalExplorer.jsx:246-339 | at every depth, 0 included, the drawing ends baseSize · (1 + i)^n from where it starts |
| Metrics.Select | src/FractalExplorer.jsx:44-56 | "snowflake" and "dragon" select those fractals, and every other name selects the Sierpinski triangle |
| Metrics.SelectName | src/FractalExplorer.jsx:423-446 | the name each tab sets selects that tab's fractal |
| Metrics.ElementCount | src/FractalExplorer.jsx:63 | the `elements` count of each drawing function, also at lines 121 and 225; ElementCountGrowth and CountMatchesPicture state it |
| Metrics.ElementCountGrowth | src/FractalExplorer.jsx:63 | the counts 3^n − 1, 4^n·3 (line 121) and 2^n (line 225) are non-negative, start at 0, 3 and 1, and grow by ×3 (+2), ×4 and ×2 per iteration |
| Metrics.Pattern | src/FractalExplorer.jsx:66 | the `pattern` texts, also at lines 124 and 228, copied as written |
| Metrics.Dimension | src/FractalExplorer.jsx:68 | the `dimension` texts, also at lines 126 and 230, copied as written |
| Metrics.Descriptions | src/FractalExplorer.jsx:361-415 | the ladders have 11, 11 and 13 entries |
| Metrics.Clamped | src/FractalExplorer.jsx:376 | the label is entry n while there is one, and the last entry after that |
| Metrics.Complexity | src/FractalExplorer.jsx:361-415 | the three `get*Complexity` functions: the ladder of the fractal clamped at the depth; ComplexityClamps and SliderWithinLadder state it |
| Metrics.ComplexityClamps | src/FractalExplorer.jsx:376 | every depth past the ladder gets the same label |
| Metrics.SliderMax | src/FractalExplorer.jsx:457 | the slider's `max`: 12 for the dragon and 7 otherwise |
| Metrics.SliderWithinLadder | src/FractalExplorer.jsx:457 | every slider depth has its own label, and only the dragon at 12 reaches the last one |
| Metrics.Describe | src/FractalExplorer.jsx:64-69 | the panel's complexity label is one of the fractal's descriptions |
| Explorer.SnowflakeDrawing | src/FractalExplorer.jsx:129-134 | `drawSnowflakeFractal`: the snowflake around the canvas centre with radius 0.45 times the smaller side |
| Explorer.DragonDrawing | src/FractalExplorer.jsx:233-237 | `drawDragonFractal`: the dragon centred on the canvas centre |
| Explorer.Render | src/FractalExplorer.jsx:33-58 | the drawing effect: the selected fractal's picture and info panel; RenderMatchesSelection and CountMatchesPicture state it |
| Explorer.SnowflakeDrawingShape | src/FractalExplorer.jsx:129-167 | the snowflake on the canvas has 3·4^n + 1 points and is closed |
| Explorer.CountMatchesPicture | src/FractalExplorer.jsx:60-238 | the displayed count is leaves − 1 for Sierpinski, and exactly the segment count for the snowflake and the dragon |
| Explorer.DragonCentredOnCanvas | src/FractalExplorer.jsx:233-237 | the dragon's box is centred on the canvas centre (w/2, h/2) |
| Explorer.RenderMatchesSelection | src/FractalExplorer.jsx:44-56 | the picture kind and the formula text follow the selected name |

## Left out

- Canvas calls (`getContext`, `clearRect`, `fillRect`, `beginPath`, `closePath`, `fill`, `stroke`), colours and palettes: rendering I/O. Only the palette index of a Sierpinski leaf and two stroke widths are kept: the snowflake's (lines 174-181) and the dragon's (lines 252 and 345-352). The Sierpinski leaf border width 0.5 (line 97) is not modelled.
- React state, `useEffect`, `setInfo`, the buttons, the slider and `parseInt`: UI. The selected name, the depth and the canvas size are parameters; `Explorer.Render` returns the panel contents instead of storing them.
- src/App.js only mounts the component and is not part of this model.
- Floating point: coordinates are exact reals, so rounding of IEEE doubles is not modelled.
- Metrics.ElementCount: the counts are exact unbounded integers, while `Math.pow` returns a double. `3^n - 1` is exact only while 3^n < 2^53 (n at most 33), so `ElementCountGrowth` and `Explorer.CountMatchesPicture` speak of the exact counts. The slider keeps n at most 12, where every count is an exact double.
- DragonWalk.Walk: `Math.cos`/`Math.sin` of `angle` become exact unit axis vectors from the heading in quarter turns. In JS, `cos(π/2)` is not exactly 0, so the real walk drifts slightly off the axes.
- Koch.KochCurve: `Math.sqrt(3)` is a parameter `root3`, and the geometric lemmas assume `root3 * root3 == 3`, which no double satisfies exactly.
- Koch.SnowflakeVertices: the starting triangle's `Math.cos`/`Math.sin` values at 2π/3 steps are written out exactly with `root3`.
- DragonCurve.BoxOf: the `±Infinity` starting values of the min/max accumulators are the `Empty` frame.
- `scaleFactor` (line 270) is computed and never used. It has no counterpart beyond `DragonWalk.GaussPowLength`.
- `zoomFactors[iterations] || 0.006` on a non-integer or NaN depth cannot arise, because depth is a `nat`.
- Negative depths are not representable: `drawSierpinskiTriangle` and `drawKochCurve` would not terminate on them.
- DragonCurve.HeighwayDragon: the depth-0 branch returns before the fold loop, so `DragonTurns.BuildTurns` requires at least one fold.
