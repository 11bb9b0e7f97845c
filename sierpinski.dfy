/** The Sierpinski triangle generator (src/FractalExplorer.jsx:61-116):
    recursive subdivision of one triangle into its three corner triangles,
    emitting one tagged leaf triangle per branch once the depth runs out.
    Drawing a leaf (`drawTriangle`) becomes appending it to the output. */
module Sierpinski {
  import opened Geometry

  /** A leaf triangle as `drawTriangle` receives it: its corners and the
      recursion level it was emitted at, which picks its fill colour. */
  datatype Triangle = Triangle(p1: Point, p2: Point, p3: Point, level: nat)

  /** Margin kept free around the starting triangle, in pixels. */
  const Margin: real := 20.0

  /** Number of entries of the Sierpinski colour palette. */
  const PaletteSize: nat := 11

  /** The starting triangle of `drawSierpinskiFractal`: apex centred at the
      top, base along the bottom, inset by the margin on every side. The
      apex lies above the base (y grows downwards) and the base runs left
      to right exactly when the canvas is larger than twice the margin. */
  function OuterTriangle(canvasWidth: real, canvasHeight: real): (t: Triangle)
    ensures t.level == 0
    ensures t.p1.x == (t.p2.x + t.p3.x) / 2.0 && t.p2.y == t.p3.y
    ensures t.p1.y == Margin && t.p2.x == Margin
    ensures t.p3.x == canvasWidth - Margin && t.p2.y == canvasHeight - Margin
    ensures t.p1.y < t.p2.y <==> canvasHeight > 2.0 * Margin
    ensures t.p2.x < t.p3.x <==> canvasWidth > 2.0 * Margin
  {
    var height := canvasHeight - 40.0;
    var width := canvasWidth - 40.0;
    Triangle(Point(width / 2.0 + Margin, Margin),
             Point(Margin, height + Margin),
             Point(width + Margin, height + Margin),
             0)
  }

  /** `drawSierpinskiTriangle(ctx, p1, p2, p3, depth, currentDepth)`: the leaf
      triangles it draws, in drawing order. */
  function Subdivide(p1: Point, p2: Point, p3: Point, depth: nat, currentDepth: nat): (r: seq<Triangle>)
    ensures |r| == Pow(3, depth)
    decreases depth
  {
    if depth == 0 then
      [Triangle(p1, p2, p3, currentDepth)]
    else
      var mid1 := Midpoint(p1, p2);
      var mid2 := Midpoint(p2, p3);
      var mid3 := Midpoint(p1, p3);
      Subdivide(p1, mid1, mid3, depth - 1, currentDepth + 1)
      + Subdivide(mid1, p2, mid2, depth - 1, currentDepth + 1)
      + Subdivide(mid3, mid2, p3, depth - 1, currentDepth + 1)
  }

  /** The leaves `drawSierpinskiFractal` draws for a canvas and a depth. */
  function SierpinskiLeaves(canvasWidth: real, canvasHeight: real, iterations: nat): seq<Triangle>
  {
    var t := OuterTriangle(canvasWidth, canvasHeight);
    Subdivide(t.p1, t.p2, t.p3, iterations, 0)
  }

  /** Index into the palette of the fill colour of a leaf (`depth % length`). */
  function PaletteIndex(t: Triangle): (i: nat)
    ensures i < PaletteSize
    ensures t.level < PaletteSize ==> i == t.level
  {
    t.level % PaletteSize
  }

  /** A displacement divided by 2, d times over. */
  function Shrink(v: Point, d: nat): Point
    decreases d
  {
    if d == 0 then v else Shrink(Half(v), d - 1)
  }

  lemma {:induction false} ShrinkUndoneByScale(v: Point, d: nat)
    ensures Scale(Pow(2, d) as real, Shrink(v, d)) == v
    decreases d
  {
    if d > 0 {
      var h := Half(v);
      ShrinkUndoneByScale(h, d - 1);
      var w, k := Shrink(h, d - 1), Pow(2, d - 1) as real;
      assert Pow(2, d) as real == 2.0 * k;
      assert 2.0 * k * w.x == 2.0 * (k * w.x) && 2.0 * k * w.y == 2.0 * (k * w.y);
    }
  }

  /** The edge vectors of t from its first corner are those of the triangle
      (p1, p2, p3) halved d times: t is a translated copy of that triangle,
      2^d times smaller and with the same orientation. */
  predicate ShrunkCopy(t: Triangle, p1: Point, p2: Point, p3: Point, d: nat)
  {
    && Sub(t.p2, t.p1) == Shrink(Sub(p2, p1), d)
    && Sub(t.p3, t.p1) == Shrink(Sub(p3, p1), d)
  }

  /** Every leaf is emitted at level currentDepth + depth, whichever branch it lies on. */
  lemma {:induction false} LeafLevel(p1: Point, p2: Point, p3: Point, depth: nat, currentDepth: nat, i: nat)
    requires i < |Subdivide(p1, p2, p3, depth, currentDepth)|
    ensures Subdivide(p1, p2, p3, depth, currentDepth)[i].level == currentDepth + depth
    decreases depth
  {
    if depth > 0 {
      var q1, q2, q3, j := CornerOfLeaf(p1, p2, p3, depth, currentDepth, i);
      LeafLevel(q1, q2, q3, depth - 1, currentDepth + 1, j);
    }
  }

  /** The first leaf keeps the outer triangle's first corner and the last leaf its third. */
  lemma {:induction false} OuterCornersKept(p1: Point, p2: Point, p3: Point, depth: nat, currentDepth: nat)
    ensures var r := Subdivide(p1, p2, p3, depth, currentDepth);
      r[0].p1 == p1 && r[|r| - 1].p3 == p3
    decreases depth
  {
    if depth > 0 {
      var mid1, mid2, mid3 := Midpoint(p1, p2), Midpoint(p2, p3), Midpoint(p1, p3);
      var a := Subdivide(p1, mid1, mid3, depth - 1, currentDepth + 1);
      var b := Subdivide(mid1, p2, mid2, depth - 1, currentDepth + 1);
      var c := Subdivide(mid3, mid2, p3, depth - 1, currentDepth + 1);
      assert Subdivide(p1, p2, p3, depth, currentDepth) == a + b + c;
      OuterCornersKept(p1, mid1, mid3, depth - 1, currentDepth + 1);
      OuterCornersKept(mid3, mid2, p3, depth - 1, currentDepth + 1);
    }
  }

  /** Half of a displacement. */
  function Half(v: Point): Point
  {
    Point(v.x / 2.0, v.y / 2.0)
  }

  lemma {:induction false} LeavesAreShrunkCopies(p1: Point, p2: Point, p3: Point, depth: nat, currentDepth: nat, i: nat)
    requires i < |Subdivide(p1, p2, p3, depth, currentDepth)|
    ensures ShrunkCopy(Subdivide(p1, p2, p3, depth, currentDepth)[i], p1, p2, p3, depth)
    decreases depth
  {
    if depth > 0 {
      var q1, q2, q3, j := CornerOfLeaf(p1, p2, p3, depth, currentDepth, i);
      LeavesAreShrunkCopies(q1, q2, q3, depth - 1, currentDepth + 1, j);
      CornerHalves(Subdivide(p1, p2, p3, depth, currentDepth)[i], p1, p2, p3, q1, q2, q3, depth);
    }
  }

  /** Leaf i of a subdivision is leaf j of one of the three corner
      triangles: the first third of the leaves lie in the corner at p1, the
      second third in the corner at p2 and the last third in the corner at
      p3. Each corner triangle's edges from its first corner are half the
      outer ones. */
  lemma CornerOfLeaf(p1: Point, p2: Point, p3: Point, depth: nat, currentDepth: nat, i: nat)
    returns (q1: Point, q2: Point, q3: Point, j: nat)
    requires depth > 0
    requires i < |Subdivide(p1, p2, p3, depth, currentDepth)|
    ensures j < |Subdivide(q1, q2, q3, depth - 1, currentDepth + 1)|
    ensures Subdivide(p1, p2, p3, depth, currentDepth)[i] == Subdivide(q1, q2, q3, depth - 1, currentDepth + 1)[j]
    ensures var k := Pow(3, depth - 1);
      if i < k then (q1, q2, q3) == (p1, Midpoint(p1, p2), Midpoint(p1, p3)) && j == i
      else if i < 2 * k then (q1, q2, q3) == (Midpoint(p1, p2), p2, Midpoint(p2, p3)) && j == i - k
      else (q1, q2, q3) == (Midpoint(p1, p3), Midpoint(p2, p3), p3) && j == i - 2 * k
    ensures Sub(q2, q1) == Half(Sub(p2, p1)) && Sub(q3, q1) == Half(Sub(p3, p1))
  {
    var mid1, mid2, mid3 := Midpoint(p1, p2), Midpoint(p2, p3), Midpoint(p1, p3);
    var a := Subdivide(p1, mid1, mid3, depth - 1, currentDepth + 1);
    var b := Subdivide(mid1, p2, mid2, depth - 1, currentDepth + 1);
    var c := Subdivide(mid3, mid2, p3, depth - 1, currentDepth + 1);
    assert Subdivide(p1, p2, p3, depth, currentDepth) == a + b + c;
    ConcatIndex(a, b, c, i);
    if i < |a| {
      q1, q2, q3, j := p1, mid1, mid3, i;
    } else if i < |a| + |b| {
      q1, q2, q3, j := mid1, p2, mid2, i - |a|;
    } else {
      q1, q2, q3, j := mid3, mid2, p3, i - |a| - |b|;
    }
  }

  /** A shrunk copy of a corner triangle whose edges are half those of the
      outer triangle is a once-more shrunk copy of the outer triangle. */
  lemma CornerHalves(t: Triangle, p1: Point, p2: Point, p3: Point, q1: Point, q2: Point, q3: Point, depth: nat)
    requires depth > 0
    requires Sub(q2, q1) == Half(Sub(p2, p1)) && Sub(q3, q1) == Half(Sub(p3, p1))
    requires ShrunkCopy(t, q1, q2, q3, depth - 1)
    ensures ShrunkCopy(t, p1, p2, p3, depth)
  {
  }

  lemma ConcatIndex<T>(a: seq<T>, b: seq<T>, c: seq<T>, i: nat)
    requires i < |a + b + c|
    ensures (a + b + c)[i] == if i < |a| then a[i] else if i < |a| + |b| then b[i - |a|] else c[i - |a| - |b|]
  {
  }

  /** Cross product of two displacements. */
  function Cross(u: Point, v: Point): real
  {
    u.x * v.y - u.y * v.x
  }

  /** Twice the signed area of the triangle (p1, p2, p3): zero exactly when
      its corners are collinear, and its sign gives the orientation. */
  function Orientation(p1: Point, p2: Point, p3: Point): real
  {
    Cross(Sub(p2, p1), Sub(p3, p1))
  }

  /** o divided by 4, d times over. */
  function Quarter(o: real, d: nat): real
    decreases d
  {
    if d == 0 then o else Quarter(o / 4.0, d - 1)
  }

  /** Dividing by 4 d times is dividing by 4^d. */
  lemma {:induction false} QuarterIsPow(o: real, d: nat)
    ensures (Pow(4, d) as real) * Quarter(o, d) == o
    decreases d
  {
    if d > 0 {
      QuarterIsPow(o / 4.0, d - 1);
      var k, q := Pow(4, d - 1) as real, Quarter(o / 4.0, d - 1);
      assert Pow(4, d) as real == 4.0 * k;
      assert 4.0 * k * q == 4.0 * (k * q);
    }
  }

  /** Dividing by 4 keeps the sign. */
  lemma {:induction false} QuarterSign(o: real, d: nat)
    ensures Quarter(o, d) < 0.0 <==> o < 0.0
    ensures Quarter(o, d) == 0.0 <==> o == 0.0
    decreases d
  {
    if d > 0 {
      QuarterSign(o / 4.0, d - 1);
    }
  }

  /** Halving both edges quarters their cross product. */
  lemma HalfCross(u: Point, v: Point)
    ensures Cross(Half(u), Half(v)) == Cross(u, v) / 4.0
  {
  }

  /** Halving both edges d times divides their cross product by 4 d times. */
  lemma {:induction false} ShrinkCross(u: Point, v: Point, d: nat)
    ensures Cross(Shrink(u, d), Shrink(v, d)) == Quarter(Cross(u, v), d)
    decreases d
  {
    if d > 0 {
      ShrinkCross(Half(u), Half(v), d - 1);
      HalfCross(u, v);
    }
  }

  /** A copy shrunk d times has the same orientation and a 4^d-th of the
      signed double area. */
  lemma ShrunkCopyOrientation(t: Triangle, p1: Point, p2: Point, p3: Point, d: nat)
    requires ShrunkCopy(t, p1, p2, p3, d)
    ensures Orientation(t.p1, t.p2, t.p3) == Quarter(Orientation(p1, p2, p3), d)
  {
    ShrinkCross(Sub(p2, p1), Sub(p3, p1), d);
  }

  /** Every leaf has the outer triangle's orientation and a 4^depth-th of its
      area, so no leaf is degenerate unless the outer triangle is. */
  lemma LeafOrientation(p1: Point, p2: Point, p3: Point, depth: nat, currentDepth: nat, i: nat)
    requires i < |Subdivide(p1, p2, p3, depth, currentDepth)|
    ensures var t := Subdivide(p1, p2, p3, depth, currentDepth)[i];
      Orientation(t.p1, t.p2, t.p3) == Quarter(Orientation(p1, p2, p3), depth)
  {
    var t := Subdivide(p1, p2, p3, depth, currentDepth)[i];
    LeavesAreShrunkCopies(p1, p2, p3, depth, currentDepth, i);
    ShrunkCopyOrientation(t, p1, p2, p3, depth);
  }

  /** Each leaf drawn on a w x h canvas has signed double area
      -(w - 40)(h - 40) / 4^n; on a canvas larger than 40 x 40 every leaf
      is a proper triangle with the orientation of the starting one. */
  lemma SierpinskiLeavesNonDegenerate(canvasWidth: real, canvasHeight: real, iterations: nat)
    ensures var leaves := SierpinskiLeaves(canvasWidth, canvasHeight, iterations);
      forall i :: 0 <= i < |leaves| ==>
        Orientation(leaves[i].p1, leaves[i].p2, leaves[i].p3)
        == Quarter(-((canvasWidth - 2.0 * Margin) * (canvasHeight - 2.0 * Margin)), iterations)
    ensures canvasWidth > 2.0 * Margin && canvasHeight > 2.0 * Margin ==>
      var leaves := SierpinskiLeaves(canvasWidth, canvasHeight, iterations);
      forall i :: 0 <= i < |leaves| ==> Orientation(leaves[i].p1, leaves[i].p2, leaves[i].p3) < 0.0
  {
    var t := OuterTriangle(canvasWidth, canvasHeight);
    var leaves := SierpinskiLeaves(canvasWidth, canvasHeight, iterations);
    var w, h := canvasWidth - 2.0 * Margin, canvasHeight - 2.0 * Margin;
    var o := -(w * h);
    assert o == -((canvasWidth - 2.0 * Margin) * (canvasHeight - 2.0 * Margin));
    OuterOrientation(canvasWidth, canvasHeight);
    if w > 0.0 && h > 0.0 {
      PositiveProduct(w, h);
    }
    QuarterSign(o, iterations);
    assert leaves == Subdivide(t.p1, t.p2, t.p3, iterations, 0);
    forall i | 0 <= i < |leaves|
      ensures Orientation(leaves[i].p1, leaves[i].p2, leaves[i].p3) == Quarter(o, iterations)
      ensures w > 0.0 && h > 0.0 ==> Orientation(leaves[i].p1, leaves[i].p2, leaves[i].p3) < 0.0
    {
      LeafOrientation(t.p1, t.p2, t.p3, iterations, 0, i);
    }
  }

  lemma PositiveProduct(w: real, h: real)
    requires w > 0.0 && h > 0.0
    ensures w * h > 0.0
  {
  }

  /** The starting triangle has signed double area -(w - 40)(h - 40). */
  lemma OuterOrientation(canvasWidth: real, canvasHeight: real)
    ensures var t := OuterTriangle(canvasWidth, canvasHeight);
      Orientation(t.p1, t.p2, t.p3) == -((canvasWidth - 2.0 * Margin) * (canvasHeight - 2.0 * Margin))
  {
    var t := OuterTriangle(canvasWidth, canvasHeight);
    var w, h := canvasWidth - 2.0 * Margin, canvasHeight - 2.0 * Margin;
    assert Sub(t.p2, t.p1) == Point(-(w / 2.0), h);
    assert Sub(t.p3, t.p1) == Point(w / 2.0, h);
  }

  /** What a user sees at depth n: 3^n leaves, all emitted at level n and
      therefore all filled with palette colour n mod 11, each a copy of the
      outer triangle shrunk 2^n times. */
  lemma SierpinskiDrawing(canvasWidth: real, canvasHeight: real, iterations: nat)
    ensures var leaves := SierpinskiLeaves(canvasWidth, canvasHeight, iterations);
      && |leaves| == Pow(3, iterations)
      && forall i :: 0 <= i < |leaves| ==> PaletteIndex(leaves[i]) == iterations % PaletteSize
    ensures var t := OuterTriangle(canvasWidth, canvasHeight);
      forall i :: 0 <= i < |SierpinskiLeaves(canvasWidth, canvasHeight, iterations)| ==>
        ShrunkCopy(SierpinskiLeaves(canvasWidth, canvasHeight, iterations)[i], t.p1, t.p2, t.p3, iterations)
  {
    var t := OuterTriangle(canvasWidth, canvasHeight);
    var leaves := SierpinskiLeaves(canvasWidth, canvasHeight, iterations);
    forall i | 0 <= i < |leaves|
      ensures PaletteIndex(leaves[i]) == iterations % PaletteSize
      ensures ShrunkCopy(leaves[i], t.p1, t.p2, t.p3, iterations)
    {
      LeafLevel(t.p1, t.p2, t.p3, iterations, 0, i);
      LeavesAreShrunkCopies(t.p1, t.p2, t.p3, iterations, 0, i);
    }
  }
}
