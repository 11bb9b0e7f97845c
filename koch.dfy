/** The Koch snowflake generator (src/FractalExplorer.jsx:119-220): each of
    the three sides of a triangle is replaced, recursively, by four segments
    with an outward bump in the middle third. Each `ctx.lineTo(p)` becomes
    appending p to the path, so a path is the sequence of points the pen
    moves through, starting with the `moveTo` point.

    `drawKochCurve` computes the bump's tip with `Math.sqrt(3)` and
    `drawKochSnowflake` the starting triangle with `Math.cos`/`Math.sin`. The
    recursion takes the tip rule as a parameter `apex`; `drawKochCurve`'s
    rule is `Apex(_, _, root3)` with
    `root3` standing for sqrt(3), and the geometric lemmas assume
    `root3 * root3 == 3.0`. */
module Koch {
  import opened Geometry

  /** `p3`: the point one third of the way from p1 to p2. */
  function FirstThird(p1: Point, p2: Point): Point
  {
    Point(p1.x + (p2.x - p1.x) / 3.0, p1.y + (p2.y - p1.y) / 3.0)
  }

  /** `p5`: the point two thirds of the way from p1 to p2. */
  function SecondThird(p1: Point, p2: Point): Point
  {
    Point(p1.x + 2.0 * (p2.x - p1.x) / 3.0, p1.y + 2.0 * (p2.y - p1.y) / 3.0)
  }

  /** `p4`: the tip of the bump erected on the middle third. */
  function Apex(p1: Point, p2: Point, root3: real): Point
  {
    var dx, dy := p2.x - p1.x, p2.y - p1.y;
    Point(p1.x + dx / 2.0 + root3 * dy / 6.0, p1.y + dy / 2.0 - root3 * dx / 6.0)
  }

  /** `drawKochCurve`'s tip rule, for a given value of sqrt(3). */
  function SqrtApex(root3: real): (Point, Point) -> Point
  {
    (p1: Point, p2: Point) => Apex(p1, p2, root3)
  }

  /** The points `drawKochCurve(ctx, p1, p2, depth)` passes to `lineTo`, in
      order, with `apex(p1, p2)` computing the tip `p4`. */
  function KochCurve(p1: Point, p2: Point, depth: nat, apex: (Point, Point) -> Point): seq<Point>
    decreases depth
  {
    if depth == 0 then
      [p2]
    else
      var p3, p4, p5 := FirstThird(p1, p2), apex(p1, p2), SecondThird(p1, p2);
      KochCurve(p1, p3, depth - 1, apex) + KochCurve(p3, p4, depth - 1, apex)
      + KochCurve(p4, p5, depth - 1, apex) + KochCurve(p5, p2, depth - 1, apex)
  }

  /** p3 and p5 cut the segment into three equal parts. */
  lemma EqualThirds(p1: Point, p2: Point)
    ensures Sub(FirstThird(p1, p2), p1) == Sub(SecondThird(p1, p2), FirstThird(p1, p2))
    ensures Sub(SecondThird(p1, p2), FirstThird(p1, p2)) == Sub(p2, SecondThird(p1, p2))
  {
  }

  /** With the true square root of 3, the bump p3-p4-p5 is an equilateral
      triangle on the middle third, so all four new segments are a third
      as long as the old one. */
  lemma BumpIsEquilateral(p1: Point, p2: Point, root3: real)
    requires root3 * root3 == 3.0
    ensures var p3, p4, p5 := FirstThird(p1, p2), Apex(p1, p2, root3), SecondThird(p1, p2);
      && 9.0 * SqDist(p1, p3) == SqDist(p1, p2)
      && 9.0 * SqDist(p3, p4) == SqDist(p1, p2)
      && 9.0 * SqDist(p4, p5) == SqDist(p1, p2)
      && 9.0 * SqDist(p5, p2) == SqDist(p1, p2)
  {
    var dx, dy := p2.x - p1.x, p2.y - p1.y;
    var p3, p4, p5 := FirstThird(p1, p2), Apex(p1, p2, root3), SecondThird(p1, p2);
    var s := dx * dx + dy * dy;
    assert SqDist(p1, p3) == s / 9.0 by {
      assert Sub(p3, p1) == Point(dx / 3.0, dy / 3.0);
    }
    assert SqDist(p5, p2) == s / 9.0 by {
      assert Sub(p2, p5) == Point(dx / 3.0, dy / 3.0);
    }
    assert SqDist(p3, p4) == s / 9.0 by {
      assert Sub(p4, p3) == Point((dx + root3 * dy) / 6.0, (dy - root3 * dx) / 6.0);
      calc {
        (dx + root3 * dy) * (dx + root3 * dy) + (dy - root3 * dx) * (dy - root3 * dx);
        dx * dx + dy * dy + (root3 * root3) * (dx * dx + dy * dy);
        4.0 * s;
      }
    }
    assert SqDist(p4, p5) == s / 9.0 by {
      assert Sub(p5, p4) == Point((dx - root3 * dy) / 6.0, (dy + root3 * dx) / 6.0);
      calc {
        (dx - root3 * dy) * (dx - root3 * dy) + (dy + root3 * dx) * (dy + root3 * dx);
        dx * dx + dy * dy + (root3 * root3) * (dx * dx + dy * dy);
        4.0 * s;
      }
    }
  }

  /** The pen position before the k-th point of a path that starts at `start`. */
  function Before(start: Point, path: seq<Point>, k: nat): Point
    requires k < |path|
  {
    if k == 0 then start else path[k - 1]
  }

  /** Squared length of the k-th segment of the path from `start` through `path`. */
  function StepSqLen(start: Point, path: seq<Point>, k: nat): real
    requires k < |path|
  {
    SqDist(Before(start, path, k), path[k])
  }

  /** Every segment of the path from `start` through `path` has squared length `sq`. */
  predicate UniformSteps(start: Point, path: seq<Point>, sq: real)
  {
    forall k :: 0 <= k < |path| ==> StepSqLen(start, path, k) == sq
  }

  /** `path` is non-empty and its last point is `p`. */
  predicate EndsAt(path: seq<Point>, p: Point)
  {
    path != [] && path[|path| - 1] == p
  }

  lemma UniformStepsConcat(start: Point, a: seq<Point>, q: Point, b: seq<Point>, sq: real)
    requires EndsAt(a, q)
    requires UniformSteps(start, a, sq) && UniformSteps(q, b, sq)
    ensures UniformSteps(start, a + b, sq)
  {
    forall k | 0 <= k < |a + b|
      ensures StepSqLen(start, a + b, k) == sq
    {
      if k < |a| {
        assert StepSqLen(start, a + b, k) == StepSqLen(start, a, k);
      } else {
        assert StepSqLen(start, a + b, k) == StepSqLen(a[|a| - 1], b, k - |a|);
      }
    }
  }

  lemma UniformStepsConcat4(start: Point, a: seq<Point>, q1: Point, b: seq<Point>, q2: Point, c: seq<Point>,
                             q3: Point, d: seq<Point>, sq: real)
    requires EndsAt(a, q1) && EndsAt(b, q2) && EndsAt(c, q3)
    requires UniformSteps(start, a, sq) && UniformSteps(q1, b, sq)
    requires UniformSteps(q2, c, sq) && UniformSteps(q3, d, sq)
    ensures UniformSteps(start, a + b + c + d, sq)
  {
    UniformStepsConcat(start, a, q1, b, sq);
    assert (a + b)[|a + b| - 1] == b[|b| - 1];
    UniformStepsConcat(start, a + b, q2, c, sq);
    assert (a + b + c)[|a + b + c| - 1] == c[|c| - 1];
    UniformStepsConcat(start, a + b + c, q3, d, sq);
  }

  /** Every level of recursion replaces a segment by four: the curve has 4^depth points. */
  lemma {:induction false} KochCurveLength(p1: Point, p2: Point, depth: nat, apex: (Point, Point) -> Point)
    ensures |KochCurve(p1, p2, depth, apex)| == Pow(4, depth)
    decreases depth
  {
    if depth > 0 {
      var p3, p4, p5 := FirstThird(p1, p2), apex(p1, p2), SecondThird(p1, p2);
      KochCurveLength(p1, p3, depth - 1, apex);
      KochCurveLength(p3, p4, depth - 1, apex);
      KochCurveLength(p4, p5, depth - 1, apex);
      KochCurveLength(p5, p2, depth - 1, apex);
    }
  }

  /** The curve ends exactly at p2, so consecutive curves join up. */
  lemma {:induction false} KochCurveEnd(p1: Point, p2: Point, depth: nat, apex: (Point, Point) -> Point)
    ensures EndsAt(KochCurve(p1, p2, depth, apex), p2)
    decreases depth
  {
    if depth > 0 {
      var p3, p4, p5 := FirstThird(p1, p2), apex(p1, p2), SecondThird(p1, p2);
      var d := KochCurve(p5, p2, depth - 1, apex);
      KochCurveEnd(p5, p2, depth - 1, apex);
      assert KochCurve(p1, p2, depth, apex)
        == (KochCurve(p1, p3, depth - 1, apex) + KochCurve(p3, p4, depth - 1, apex)
            + KochCurve(p4, p5, depth - 1, apex)) + d;
    }
  }

  /** With the true square root of 3, all 4^depth segments of the curve have
      the same length, 3^depth times shorter than the segment p1-p2. */
  lemma {:induction false} KochSegmentsEqual(p1: Point, p2: Point, depth: nat, root3: real, sq: real)
    requires root3 * root3 == 3.0
    requires (Pow(9, depth) as real) * sq == SqDist(p1, p2)
    ensures UniformSteps(p1, KochCurve(p1, p2, depth, SqrtApex(root3)), sq)
    decreases depth
  {
    var apex := SqrtApex(root3);
    if depth == 0 {
      assert Pow(9, 0) as real == 1.0;
    } else {
      var p3, p4, p5 := FirstThird(p1, p2), Apex(p1, p2, root3), SecondThird(p1, p2);
      BumpIsEquilateral(p1, p2, root3);
      SubSegmentsEqual(p1, p2, p3, p4, p5, depth, root3, sq);
      StepsFromParts(p1, p2, depth, apex, sq, p3, p4, p5);
    }
  }

  /** A curve has uniform steps as soon as the four curves it is made of have. */
  lemma StepsFromParts(p1: Point, p2: Point, depth: nat, apex: (Point, Point) -> Point, sq: real,
                       p3: Point, p4: Point, p5: Point)
    requires depth > 0
    requires p3 == FirstThird(p1, p2) && p4 == apex(p1, p2) && p5 == SecondThird(p1, p2)
    requires UniformSteps(p1, KochCurve(p1, p3, depth - 1, apex), sq)
    requires UniformSteps(p3, KochCurve(p3, p4, depth - 1, apex), sq)
    requires UniformSteps(p4, KochCurve(p4, p5, depth - 1, apex), sq)
    requires UniformSteps(p5, KochCurve(p5, p2, depth - 1, apex), sq)
    ensures UniformSteps(p1, KochCurve(p1, p2, depth, apex), sq)
  {
    var a := KochCurve(p1, p3, depth - 1, apex);
    var b := KochCurve(p3, p4, depth - 1, apex);
    var c := KochCurve(p4, p5, depth - 1, apex);
    var d := KochCurve(p5, p2, depth - 1, apex);
    KochCurveEnd(p1, p3, depth - 1, apex);
    KochCurveEnd(p3, p4, depth - 1, apex);
    KochCurveEnd(p4, p5, depth - 1, apex);
    UniformStepsConcat4(p1, a, p3, b, p4, c, p5, d, sq);
    assert KochCurve(p1, p2, depth, apex) == a + b + c + d;
  }

  /** The induction hypothesis of KochSegmentsEqual for the four sub-segments. */
  lemma SubSegmentsEqual(p1: Point, p2: Point, p3: Point, p4: Point, p5: Point,
                         depth: nat, root3: real, sq: real)
    requires depth > 0 && root3 * root3 == 3.0
    requires (Pow(9, depth) as real) * sq == SqDist(p1, p2)
    requires 9.0 * SqDist(p1, p3) == SqDist(p1, p2) && 9.0 * SqDist(p3, p4) == SqDist(p1, p2)
    requires 9.0 * SqDist(p4, p5) == SqDist(p1, p2) && 9.0 * SqDist(p5, p2) == SqDist(p1, p2)
    ensures UniformSteps(p1, KochCurve(p1, p3, depth - 1, SqrtApex(root3)), sq)
    ensures UniformSteps(p3, KochCurve(p3, p4, depth - 1, SqrtApex(root3)), sq)
    ensures UniformSteps(p4, KochCurve(p4, p5, depth - 1, SqrtApex(root3)), sq)
    ensures UniformSteps(p5, KochCurve(p5, p2, depth - 1, SqrtApex(root3)), sq)
    decreases depth, 1
  {
    ThirdSegmentEqual(p1, p3, depth, root3, sq, SqDist(p1, p2));
    ThirdSegmentEqual(p3, p4, depth, root3, sq, SqDist(p1, p2));
    ThirdSegmentEqual(p4, p5, depth, root3, sq, SqDist(p1, p2));
    ThirdSegmentEqual(p5, p2, depth, root3, sq, SqDist(p1, p2));
  }

  /** A segment a third as long as its parent holds 4^(depth-1) equal segments. */
  lemma ThirdSegmentEqual(q1: Point, q2: Point, depth: nat, root3: real, sq: real, parent: real)
    requires depth > 0 && root3 * root3 == 3.0
    requires (Pow(9, depth) as real) * sq == parent && 9.0 * SqDist(q1, q2) == parent
    ensures UniformSteps(q1, KochCurve(q1, q2, depth - 1, SqrtApex(root3)), sq)
    decreases depth, 0
  {
    var m := Pow(9, depth - 1) as real;
    var l := SqDist(q1, q2);
    assert Pow(9, depth) as real == 9.0 * m;
    assert m * sq == l by {
      assert 9.0 * (m * sq) == 9.0 * l;
    }
    KochSegmentsEqual(q1, q2, depth - 1, root3, sq);
  }

  /** The starting triangle of `drawKochSnowflake`: vertex i at angle
      i * 120 degrees - 90 degrees around the centre, the first at the top,
      with cos and sin of those angles written out exactly. */
  function SnowflakeVertices(centerX: real, centerY: real, radius: real, root3: real): seq<Point>
  {
    [Point(centerX, centerY - radius),
     Point(centerX + radius * root3 / 2.0, centerY + radius / 2.0),
     Point(centerX - radius * root3 / 2.0, centerY + radius / 2.0)]
  }

  /** With the true square root of 3 the starting triangle is equilateral and
      inscribed in the circle of the given radius: every vertex is at squared
      distance r^2 from the centre and every side has squared length 3 r^2. */
  lemma SnowflakeTriangleIsEquilateral(centerX: real, centerY: real, radius: real, root3: real)
    requires root3 * root3 == 3.0
    ensures var v, c := SnowflakeVertices(centerX, centerY, radius, root3), Point(centerX, centerY);
      && SqDist(c, v[0]) == radius * radius
      && SqDist(c, v[1]) == radius * radius
      && SqDist(c, v[2]) == radius * radius
      && SqDist(v[0], v[1]) == 3.0 * radius * radius
      && SqDist(v[1], v[2]) == 3.0 * radius * radius
      && SqDist(v[2], v[0]) == 3.0 * radius * radius
  {
    var h := radius * root3 / 2.0;
    var r2 := radius * radius;
    assert h * h == 3.0 * r2 / 4.0 by {
      assert h * h == (root3 * root3) * r2 / 4.0;
    }
    assert (3.0 * radius / 2.0) * (3.0 * radius / 2.0) == 9.0 * r2 / 4.0;
    assert (2.0 * h) * (2.0 * h) == 4.0 * (h * h);
    assert (radius / 2.0) * (radius / 2.0) == r2 / 4.0;
  }

  /** The first `count` sides of the snowflake, side i running from vertex i
      to vertex (i + 1) mod 3. */
  function Sides(vertices: seq<Point>, iterations: nat, apex: (Point, Point) -> Point, count: nat): seq<Point>
    requires |vertices| == 3 && count <= 3
  {
    if count == 0 then []
    else Sides(vertices, iterations, apex, count - 1)
         + KochCurve(vertices[count - 1], vertices[count % 3], iterations, apex)
  }

  /** The whole pen path of the snowflake: the `moveTo` point, then the three sides. */
  function SnowflakePath(vertices: seq<Point>, iterations: nat, apex: (Point, Point) -> Point): seq<Point>
    requires |vertices| == 3
  {
    [vertices[0]] + Sides(vertices, iterations, apex, 3)
  }

  /** The side loop of `drawKochSnowflake` (lines 153-167). The path has
      3 * 4^n segments and returns to its first point, so `closePath` adds
      no visible segment. */
  method TraceSnowflake(vertices: seq<Point>, iterations: nat, apex: (Point, Point) -> Point) returns (path: seq<Point>)
    requires |vertices| == 3
    ensures path == SnowflakePath(vertices, iterations, apex)
    ensures |path| == 3 * Pow(4, iterations) + 1
    ensures path[0] == vertices[0] && path[|path| - 1] == vertices[0]
  {
    path := [vertices[0]];
    for i := 0 to 3
      invariant path == [vertices[0]] + Sides(vertices, iterations, apex, i)
    {
      var start := vertices[i];
      var end := vertices[(i + 1) % 3];
      var side := KochCurve(start, end, iterations, apex);
      assert Sides(vertices, iterations, apex, i + 1) == Sides(vertices, iterations, apex, i) + side;
      path := path + side;
    }
    SnowflakeClosed(vertices, iterations, apex);
  }

  /** The snowflake path has 3 * 4^n segments and ends at its first point. */
  lemma SnowflakeClosed(vertices: seq<Point>, iterations: nat, apex: (Point, Point) -> Point)
    requires |vertices| == 3
    ensures var path := SnowflakePath(vertices, iterations, apex);
      && |path| == 3 * Pow(4, iterations) + 1
      && path[0] == vertices[0] && path[|path| - 1] == vertices[0]
  {
    var last := KochCurve(vertices[2], vertices[0], iterations, apex);
    KochCurveEnd(vertices[2], vertices[0], iterations, apex);
    assert Sides(vertices, iterations, apex, 3) == Sides(vertices, iterations, apex, 2) + last;
    SidesLength(vertices, iterations, apex, 3);
  }

  /** Each side contributes 4^n points. */
  lemma {:induction false} SidesLength(vertices: seq<Point>, iterations: nat, apex: (Point, Point) -> Point, count: nat)
    requires |vertices| == 3 && count <= 3
    ensures |Sides(vertices, iterations, apex, count)| == count * Pow(4, iterations)
    decreases count
  {
    if count > 0 {
      var p := Pow(4, iterations);
      SidesLength(vertices, iterations, apex, count - 1);
      KochCurveLength(vertices[count - 1], vertices[count % 3], iterations, apex);
      assert |Sides(vertices, iterations, apex, count)| == (count - 1) * p + p;
    }
  }

  /** With the true square root of 3, every one of the 3 * 4^n segments of
      the snowflake drawn for a centre and radius has the same squared length,
      3 r^2 / 9^n. */
  lemma {:induction false} SnowflakeSegmentsEqual(centerX: real, centerY: real, radius: real,
                                                  iterations: nat, root3: real, sq: real)
    requires root3 * root3 == 3.0
    requires (Pow(9, iterations) as real) * sq == 3.0 * radius * radius
    ensures var path := SnowflakePath(SnowflakeVertices(centerX, centerY, radius, root3), iterations, SqrtApex(root3));
      UniformSteps(path[0], path[1..], sq)
  {
    var v := SnowflakeVertices(centerX, centerY, radius, root3);
    var apex := SqrtApex(root3);
    SnowflakeTriangleIsEquilateral(centerX, centerY, radius, root3);
    SidesEqual(v[0], v[1], v[2], iterations, root3, sq);
    var a := KochCurve(v[0], v[1], iterations, apex);
    var b := KochCurve(v[1], v[2], iterations, apex);
    var c := KochCurve(v[2], v[0], iterations, apex);
    KochCurveEnd(v[0], v[1], iterations, apex);
    KochCurveEnd(v[1], v[2], iterations, apex);
    UniformStepsConcat(v[0], a, v[1], b, sq);
    assert (a + b)[|a + b| - 1] == b[|b| - 1];
    UniformStepsConcat(v[0], a + b, v[2], c, sq);
    var path := SnowflakePath(v, iterations, apex);
    assert Sides(v, iterations, apex, 1) == a;
    assert Sides(v, iterations, apex, 2) == a + b;
    assert Sides(v, iterations, apex, 3) == a + b + c;
    assert path[1..] == a + b + c;
  }

  lemma SidesEqual(v0: Point, v1: Point, v2: Point, iterations: nat, root3: real, sq: real)
    requires root3 * root3 == 3.0
    requires (Pow(9, iterations) as real) * sq == SqDist(v0, v1)
    requires SqDist(v1, v2) == SqDist(v0, v1) && SqDist(v2, v0) == SqDist(v0, v1)
    ensures UniformSteps(v0, KochCurve(v0, v1, iterations, SqrtApex(root3)), sq)
    ensures UniformSteps(v1, KochCurve(v1, v2, iterations, SqrtApex(root3)), sq)
    ensures UniformSteps(v2, KochCurve(v2, v0, iterations, SqrtApex(root3)), sq)
  {
    KochSegmentsEqual(v0, v1, iterations, root3, sq);
    KochSegmentsEqual(v1, v2, iterations, root3, sq);
    KochSegmentsEqual(v2, v0, iterations, root3, sq);
  }

  /** Stroke width of the snowflake outline (lines 174-181). */
  function KochStrokeWidth(iterations: nat): (w: real)
    ensures w in {0.5, 1.0, 2.0}
  {
    if iterations >= 5 then 0.5 else if iterations >= 4 then 1.0 else 2.0
  }

  /** Deeper snowflakes are never drawn with a wider line. */
  lemma KochStrokeNarrows(n1: nat, n2: nat)
    requires n1 <= n2
    ensures KochStrokeWidth(n2) <= KochStrokeWidth(n1)
  {
  }
}
