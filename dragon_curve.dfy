/** The rest of `drawHeighwayDragon` (src/FractalExplorer.jsx:240-358): the
    single segment drawn at depth 0, the zoom table that sets the step
    length, the bounding box of the walk, the offset that centres it on the
    canvas, and the stroke width. Each `ctx.lineTo` becomes appending the
    shifted point to the drawn path. */
module DragonCurve {
  import opened Geometry
  import opened DragonTurns
  import opened DragonWalk

  /** The `minX`, `minY`, `maxX`, `maxY` accumulators of the bounding-box
      loop. `Empty` is their starting state, +Infinity for the minima and
      -Infinity for the maxima, which no point can lie in. */
  datatype Frame = Empty | Box(minX: real, minY: real, maxX: real, maxY: real)

  /** One pass of the bounding-box loop: Math.min/Math.max with the point.
      From `Empty` both the minimum and the maximum become the point's. The
      result contains the point and the box only ever grows. */
  function Extend(f: Frame, p: Point): (r: Frame)
    ensures Contains(r, p)
    ensures f.Box? ==> r.minX <= f.minX && r.minY <= f.minY && f.maxX <= r.maxX && f.maxY <= r.maxY
  {
    match f
    case Empty => Box(p.x, p.y, p.x, p.y)
    case Box(minX, minY, maxX, maxY) => Box(Min(minX, p.x), Min(minY, p.y), Max(maxX, p.x), Max(maxY, p.y))
  }

  /** The accumulators after the loop has seen all of `points`. */
  function BoxOf(points: seq<Point>): (f: Frame)
    ensures f.Box? <==> points != []
  {
    if points == [] then Empty else Extend(BoxOf(points[..|points| - 1]), points[|points| - 1])
  }

  predicate Contains(f: Frame, p: Point)
  {
    f.Box? && f.minX <= p.x <= f.maxX && f.minY <= p.y <= f.maxY
  }

  /** The bounding-box loop (lines 319-325). */
  method FindBoundingBox(points: seq<Point>) returns (frame: Frame)
    ensures frame == BoxOf(points)
  {
    frame := Empty;
    for i := 0 to |points|
      invariant frame == BoxOf(points[..i])
    {
      assert points[..i + 1][..i] == points[..i];
      frame := Extend(frame, points[i]);
    }
    assert points[..|points|] == points;
  }

  /** The box of a non-empty sequence contains every one of its points. */
  lemma {:induction false} BoxContainsAll(points: seq<Point>)
    requires points != []
    ensures BoxOf(points).Box?
    ensures forall k :: 0 <= k < |points| ==> Contains(BoxOf(points), points[k])
    decreases |points|
  {
    var init := points[..|points| - 1];
    if init != [] {
      BoxContainsAll(init);
      forall k | 0 <= k < |points| - 1
        ensures Contains(BoxOf(points), points[k])
      {
        assert points[k] == init[k];
      }
    }
  }

  /** The box is the smallest: each of its four sides touches a point. */
  lemma {:induction false} BoxIsTight(points: seq<Point>)
    requires points != []
    ensures BoxOf(points).Box?
    ensures exists k :: 0 <= k < |points| && points[k].x == BoxOf(points).minX
    ensures exists k :: 0 <= k < |points| && points[k].y == BoxOf(points).minY
    ensures exists k :: 0 <= k < |points| && points[k].x == BoxOf(points).maxX
    ensures exists k :: 0 <= k < |points| && points[k].y == BoxOf(points).maxY
    decreases |points|
  {
    var n := |points| - 1;
    var init := points[..n];
    var b := BoxOf(points);
    assert b == Extend(BoxOf(init), points[n]);
    if init == [] {
      assert BoxOf(init) == Empty;
      assert points[0].x == b.minX && points[0].y == b.minY && points[0].x == b.maxX && points[0].y == b.maxY;
    } else {
      BoxIsTight(init);
      var c := BoxOf(init);
      var k1 :| 0 <= k1 < |init| && init[k1].x == c.minX;
      var k2 :| 0 <= k2 < |init| && init[k2].y == c.minY;
      var k3 :| 0 <= k3 < |init| && init[k3].x == c.maxX;
      var k4 :| 0 <= k4 < |init| && init[k4].y == c.maxY;
      assert points[k1] == init[k1] && points[k2] == init[k2] && points[k3] == init[k3] && points[k4] == init[k4];
      if b.minX == points[n].x { assert points[n].x == b.minX; } else { assert points[k1].x == b.minX; }
      if b.minY == points[n].y { assert points[n].y == b.minY; } else { assert points[k2].y == b.minY; }
      if b.maxX == points[n].x { assert points[n].x == b.maxX; } else { assert points[k3].x == b.maxX; }
      if b.maxY == points[n].y { assert points[n].y == b.maxY; } else { assert points[k4].y == b.maxY; }
    }
  }

  /** `offsetX`, `offsetY`: what moves the centre of the box to the centre point. */
  function Offset(f: Frame, centerX: real, centerY: real): (offset: Point)
    requires f.Box?
    ensures CentredOn(Shift(f, offset), centerX, centerY)
  {
    Point(centerX - (f.minX + f.maxX) / 2.0, centerY - (f.minY + f.maxY) / 2.0)
  }

  /** Every point moved by the same offset. */
  function Translate(points: seq<Point>, offset: Point): (r: seq<Point>)
    ensures |r| == |points|
  {
    seq(|points|, i requires 0 <= i < |points| => Add(points[i], offset))
  }

  /** A box moved by an offset. */
  function Shift(f: Frame, offset: Point): Frame
  {
    match f
    case Empty => Empty
    case Box(minX, minY, maxX, maxY) => Box(minX + offset.x, minY + offset.y, maxX + offset.x, maxY + offset.y)
  }

  /** Moving every point moves the box by the same offset. */
  lemma {:induction false} BoxOfTranslate(points: seq<Point>, offset: Point)
    ensures BoxOf(Translate(points, offset)) == Shift(BoxOf(points), offset)
    decreases |points|
  {
    if points != [] {
      var init := points[..|points| - 1];
      assert Translate(points, offset)[..|points| - 1] == Translate(init, offset);
      BoxOfTranslate(init, offset);
    }
  }

  /** The points, moved so that their box is centred on (centerX, centerY). */
  function Centre(points: seq<Point>, centerX: real, centerY: real): seq<Point>
    requires points != []
  {
    Translate(points, Offset(BoxOf(points), centerX, centerY))
  }

  /** After centring, the box's midpoint is the centre point, and its width
      and height are those of the points before the shift. */
  lemma CentreIsCentred(points: seq<Point>, centerX: real, centerY: real)
    requires points != []
    ensures var b, c := BoxOf(points), BoxOf(Centre(points, centerX, centerY));
      && b.Box? && c.Box?
      && (c.minX + c.maxX) / 2.0 == centerX && (c.minY + c.maxY) / 2.0 == centerY
      && c.maxX - c.minX == b.maxX - b.minX && c.maxY - c.minY == b.maxY - b.minY
  {
    BoxContainsAll(points);
    BoxOfTranslate(points, Offset(BoxOf(points), centerX, centerY));
  }

  /** Centring moves every point by one offset, so steps are unchanged. */
  lemma CentreKeepsSteps(points: seq<Point>, centerX: real, centerY: real, i: nat, j: nat)
    requires i < |points| && j < |points|
    ensures var c := Centre(points, centerX, centerY);
      Sub(c[j], c[i]) == Sub(points[j], points[i])
  {
  }

  /** The `zoomFactors` table: the zoom for depths 0 to 12. */
  const ZoomFactors: seq<real> :=
    [0.5, 0.4, 0.3, 0.25, 0.2, 0.14, 0.09, 0.06, 0.04, 0.025, 0.016, 0.01, 0.006]

  /** `zoomFactors[iterations] || 0.006`: the table entry for the depths it
      covers, and 0.006 for any depth it does not. */
  function ZoomFactor(iterations: nat): (z: real)
    ensures 0.0 < z <= 0.5
    ensures iterations >= 12 ==> z == 0.006
  {
    if iterations < |ZoomFactors| then ZoomFactors[iterations] else 0.006
  }

  /** A deeper dragon is never drawn with a larger zoom factor. */
  lemma ZoomShrinks(n1: nat, n2: nat)
    requires n1 <= n2
    ensures ZoomFactor(n2) <= ZoomFactor(n1)
  {
  }

  /** Stroke width of the dragon (lines 345-352; 3 at depth 0, line 252). */
  function DragonStrokeWidth(iterations: nat): (w: real)
    ensures 2.0 <= w <= 3.0
    ensures iterations == 0 ==> w == 3.0
  {
    if iterations <= 3 then 3.0 - iterations as real * 0.25
    else if iterations <= 6 then 2.0
    else 3.0
  }

  /** The step length `baseSize` of the walk: the canvas's smaller side
      times the zoom of the depth: positive and at most half that side on
      a canvas of positive size, and 0.006 of it from depth 12 on. */
  function SegmentLength(canvasWidth: real, canvasHeight: real, iterations: nat): (len: real)
    ensures 0.0 < Min(canvasWidth, canvasHeight) ==> 0.0 < len <= Min(canvasWidth, canvasHeight) * 0.5
    ensures iterations >= 12 ==> len == Min(canvasWidth, canvasHeight) * 0.006
  {
    Min(canvasWidth, canvasHeight) * ZoomFactor(iterations)
  }

  /** The depth-0 drawing: one horizontal segment, half the canvas's
      smaller side long, centred on the centre point. */
  function SingleSegment(canvasWidth: real, canvasHeight: real, centerX: real, centerY: real): seq<Point>
  {
    var lineLength := Min(canvasWidth, canvasHeight) * 0.5;
    [Point(centerX - lineLength / 2.0, centerY), Point(centerX + lineLength / 2.0, centerY)]
  }

  /** The points `drawHeighwayDragon` strokes, `moveTo` point first. */
  function DragonPath(canvasWidth: real, canvasHeight: real, centerX: real, centerY: real, iterations: nat): seq<Point>
  {
    if iterations == 0 then SingleSegment(canvasWidth, canvasHeight, centerX, centerY)
    else Centre(WalkPoints(Turns(iterations), SegmentLength(canvasWidth, canvasHeight, iterations)), centerX, centerY)
  }

  /** `drawHeighwayDragon`: the path it strokes and the line width it uses. */
  method HeighwayDragon(canvasWidth: real, canvasHeight: real, centerX: real, centerY: real, iterations: nat)
    returns (path: seq<Point>, lineWidth: real)
    ensures path == DragonPath(canvasWidth, canvasHeight, centerX, centerY, iterations)
    ensures lineWidth == DragonStrokeWidth(iterations)
  {
    if iterations == 0 {
      var lineLength := Min(canvasWidth, canvasHeight) * 0.5;
      path := [Point(centerX - lineLength / 2.0, centerY), Point(centerX + lineLength / 2.0, centerY)];
      lineWidth := 3.0;
    } else {
      var directions := BuildTurns(iterations);
      var baseSize := SegmentLength(canvasWidth, canvasHeight, iterations);
      path := DrawWalk(directions, baseSize, centerX, centerY);
      lineWidth := DragonStrokeWidth(iterations);
    }
  }

  /** Lines 298-339 for given turns and step length: walk, find the
      bounding box, and draw the walk shifted to the centre point. */
  method DrawWalk(directions: seq<int>, segmentLength: real, centerX: real, centerY: real) returns (path: seq<Point>)
    ensures path == Centre(WalkPoints(directions, segmentLength), centerX, centerY)
  {
    var points := Walk(directions, segmentLength);
    var frame := FindBoundingBox(points);
    BoxContainsAll(points);
    var offset := Offset(frame, centerX, centerY);
    path := DrawShifted(points, offset);
  }

  /** The drawing loop (lines 334-339): `moveTo` the first shifted point,
      then `lineTo` each following one. */
  method DrawShifted(points: seq<Point>, offset: Point) returns (path: seq<Point>)
    requires points != []
    ensures path == Translate(points, offset)
  {
    path := [Add(points[0], offset)];
    for i := 1 to |points|
      invariant path == Translate(points, offset)[..i]
    {
      path := path + [Add(points[i], offset)];
    }
  }

  /** The dragon of depth n is drawn with 2^n segments. */
  lemma DragonSegmentCount(canvasWidth: real, canvasHeight: real, centerX: real, centerY: real, iterations: nat)
    ensures |DragonPath(canvasWidth, canvasHeight, centerX, centerY, iterations)| == Pow(2, iterations) + 1
  {
    if iterations > 0 {
      TurnsLength(iterations);
    }
  }

  /** A box whose midpoint is (centerX, centerY). */
  predicate CentredOn(f: Frame, centerX: real, centerY: real)
  {
    f.Box? && (f.minX + f.maxX) / 2.0 == centerX && (f.minY + f.maxY) / 2.0 == centerY
  }

  /** Whatever the depth, the drawing's bounding box is centred on the centre point. */
  lemma DragonIsCentred(canvasWidth: real, canvasHeight: real, centerX: real, centerY: real, iterations: nat)
    ensures CentredOn(BoxOf(DragonPath(canvasWidth, canvasHeight, centerX, centerY, iterations)), centerX, centerY)
  {
    if iterations > 0 {
      var points := WalkPoints(Turns(iterations), SegmentLength(canvasWidth, canvasHeight, iterations));
      CentreIsCentred(points, centerX, centerY);
    } else {
      var path := SingleSegment(canvasWidth, canvasHeight, centerX, centerY);
      var first := [path[0]];
      assert first[..0] == [];
      assert BoxOf(first) == Extend(Empty, path[0]);
      assert path[..1] == first;
      assert BoxOf(path) == Extend(BoxOf(first), path[1]);
    }
  }

  /** At depth 0 the drawing is a horizontal segment of length min(w, h) / 2. */
  lemma DragonDepthZero(canvasWidth: real, canvasHeight: real, centerX: real, centerY: real)
    ensures var path := DragonPath(canvasWidth, canvasHeight, centerX, centerY, 0);
      && path[0].y == centerY && path[1].y == centerY
      && path[1].x - path[0].x == Min(canvasWidth, canvasHeight) * 0.5
      && Midpoint(path[0], path[1]) == Point(centerX, centerY)
  {
  }

  /** At depth 0 the one step goes `SegmentLength` along the x axis. */
  lemma DepthZeroStep(canvasWidth: real, canvasHeight: real, centerX: real, centerY: real)
    ensures var path := DragonPath(canvasWidth, canvasHeight, centerX, centerY, 0);
      |path| == 2 && Sub(path[1], path[0]) == Point(SegmentLength(canvasWidth, canvasHeight, 0), 0.0)
  {
    var path := SingleSegment(canvasWidth, canvasHeight, centerX, centerY);
    var len := Min(canvasWidth, canvasHeight) * 0.5;
    assert Sub(path[1], path[0]) == Point(len, 0.0);
  }

  /** A step of length `len` along one of the axes. */
  predicate AxisStep(d: Point, len: real)
  {
    (d.x == 0.0 || d.y == 0.0) && SqLen(d) == len * len
  }

  /** Every step of a centred walk goes `seg` along one axis. */
  lemma CentredWalkSteps(directions: seq<int>, seg: real, centerX: real, centerY: real, k: nat)
    requires k <= |directions|
    ensures var c := Centre(WalkPoints(directions, seg), centerX, centerY);
      AxisStep(Sub(c[k + 1], c[k]), seg)
  {
    var points := WalkPoints(directions, seg);
    CentreKeepsSteps(points, centerX, centerY, k, k + 1);
    assert Sub(points[k + 1], points[k])
      == Sub(Vertex(directions, seg, k + 1), Vertex(directions, seg, k));
    StepIsAxisAligned(directions, seg, k);
  }

  /** At every depth each step of the drawing is `SegmentLength` long
      along one axis; at depth 0 that is the single segment of length
      min(w, h) / 2. */
  lemma DragonSteps(canvasWidth: real, canvasHeight: real, centerX: real, centerY: real, iterations: nat, k: nat)
    requires k + 1 < |DragonPath(canvasWidth, canvasHeight, centerX, centerY, iterations)|
    ensures var path := DragonPath(canvasWidth, canvasHeight, centerX, centerY, iterations);
      AxisStep(Sub(path[k + 1], path[k]), SegmentLength(canvasWidth, canvasHeight, iterations))
  {
    if iterations == 0 {
      DepthZeroStep(canvasWidth, canvasHeight, centerX, centerY);
    } else {
      CentredWalkSteps(Turns(iterations), SegmentLength(canvasWidth, canvasHeight, iterations), centerX, centerY, k);
    }
  }

  /** The drawing ends SegmentLength * (1 + i)^n from where it starts, at
      every depth. */
  lemma DragonEnds(canvasWidth: real, canvasHeight: real, centerX: real, centerY: real, iterations: nat)
    ensures var path := DragonPath(canvasWidth, canvasHeight, centerX, centerY, iterations);
      Sub(path[|path| - 1], path[0])
      == Scale(SegmentLength(canvasWidth, canvasHeight, iterations), GaussPow(iterations))
  {
    if iterations == 0 {
      DepthZeroStep(canvasWidth, canvasHeight, centerX, centerY);
    } else {
      var seg := SegmentLength(canvasWidth, canvasHeight, iterations);
      var directions := Turns(iterations);
      var points := WalkPoints(directions, seg);
      CentreKeepsSteps(points, centerX, centerY, 0, |points| - 1);
      DragonWalkEnd(iterations, seg);
    }
  }
}
