/** The turtle walk of `drawHeighwayDragon` (src/FractalExplorer.jsx:298-316):
    from (0, 0), heading along the x axis, step `segmentLength` forward, record
    the point, and turn a quarter turn as the next direction says; after the
    last direction one more step is taken and no turn follows.

    `drawHeighwayDragon` keeps the heading as an angle in radians that grows by
    direction * PI / 2 and steps by cos and sin of it. Here the heading is the
    whole number of quarter turns and a step follows the exact axis vector
    of that heading, `Unit`: the values cos and sin take at multiples of
    PI / 2, which floating point only approximates. */
module DragonWalk {
  import opened Geometry
  import opened DragonTurns

  /** (cos, sin) of `heading` quarter turns. */
  function Unit(heading: int): Point
  {
    var q := heading % 4;
    if q == 0 then Point(1.0, 0.0)
    else if q == 1 then Point(0.0, 1.0)
    else if q == 2 then Point(-1.0, 0.0)
    else Point(0.0, -1.0)
  }

  /** Every heading points along an axis, with length 1. */
  lemma UnitIsAxis(heading: int)
    ensures var u := Unit(heading);
      (u.x == 0.0 && (u.y == 1.0 || u.y == -1.0)) || (u.y == 0.0 && (u.x == 1.0 || u.x == -1.0))
  {
  }

  /** A displacement turned a quarter turn the way the heading grows. */
  function Rot(p: Point): Point
  {
    Point(-p.y, p.x)
  }

  /** Scalar product of two displacements. */
  function Dot(p: Point, q: Point): real
  {
    p.x * q.x + p.y * q.y
  }

  /** The sum of a sequence of turns. */
  function Sum(s: seq<int>): int
  {
    if s == [] then 0 else Sum(s[..|s| - 1]) + s[|s| - 1]
  }

  /** Point k of the walk: the origin, then each step along the heading
      reached after the turns before it. */
  function Vertex(directions: seq<int>, segmentLength: real, k: nat): Point
    requires k <= |directions| + 1
  {
    if k == 0 then Origin
    else Add(Vertex(directions, segmentLength, k - 1),
             Scale(segmentLength, Unit(Sum(directions[..k - 1]))))
  }

  /** All points of the walk: one more than the number of steps, which is
      one more than the number of turns. */
  function WalkPoints(directions: seq<int>, segmentLength: real): seq<Point>
  {
    seq(|directions| + 2, k requires 0 <= k < |directions| + 2 => Vertex(directions, segmentLength, k))
  }

  /** The walk loop: `x`, `y` and `angle` are updated in place and every new
      position is pushed onto `points`. */
  method Walk(directions: seq<int>, segmentLength: real) returns (points: seq<Point>)
    ensures points == WalkPoints(directions, segmentLength)
    ensures |points| == |directions| + 2
    ensures points[0] == Origin
  {
    var x, y := 0.0, 0.0;
    var angle := 0;
    points := [Point(x, y)];
    for i := 0 to |directions| + 1
      invariant |points| == i + 1
      invariant forall k :: 0 <= k < |points| ==> points[k] == Vertex(directions, segmentLength, k)
      invariant Point(x, y) == Vertex(directions, segmentLength, i)
      invariant i <= |directions| ==> angle == Sum(directions[..i])
    {
      var step := Scale(segmentLength, Unit(angle));
      x := x + step.x;
      y := y + step.y;
      assert Point(x, y) == Vertex(directions, segmentLength, i + 1);
      points := points + [Point(x, y)];
      if i < |directions| {
        assert directions[..i + 1][..i] == directions[..i];
        angle := angle + directions[i];
      }
    }
    assert points == WalkPoints(directions, segmentLength);
  }

  /** Every step moves exactly `segmentLength` along one of the two axes. */
  lemma StepIsAxisAligned(directions: seq<int>, segmentLength: real, k: nat)
    requires k <= |directions|
    ensures var d := Sub(Vertex(directions, segmentLength, k + 1), Vertex(directions, segmentLength, k));
      && (d.x == 0.0 || d.y == 0.0)
      && SqLen(d) == segmentLength * segmentLength
  {
    StepOf(directions, segmentLength, k);
    UnitIsAxis(Sum(directions[..k]));
    ScaledAxisStep(segmentLength, Unit(Sum(directions[..k])));
  }

  lemma ScaledAxisStep(k: real, u: Point)
    requires (u.x == 0.0 && (u.y == 1.0 || u.y == -1.0)) || (u.y == 0.0 && (u.x == 1.0 || u.x == -1.0))
    ensures var d := Scale(k, u); (d.x == 0.0 || d.y == 0.0) && SqLen(d) == k * k
  {
  }

  /** A quarter turn more rotates the step by a right angle. */
  lemma UnitTurn(heading: int)
    ensures Unit(heading + 1) == Rot(Unit(heading))
  {
  }

  /** After a right turn (1) a step is the previous step turned a quarter
      turn one way, after a left turn (-1) the other way, so consecutive
      steps are perpendicular. */
  lemma TurnIsRightAngle(directions: seq<int>, segmentLength: real, k: nat)
    requires k < |directions| && (directions[k] == 1 || directions[k] == -1)
    ensures var before := Sub(Vertex(directions, segmentLength, k + 1), Vertex(directions, segmentLength, k));
      var after := Sub(Vertex(directions, segmentLength, k + 2), Vertex(directions, segmentLength, k + 1));
      && (directions[k] == 1 ==> after == Rot(before))
      && (directions[k] == -1 ==> before == Rot(after))
      && Dot(before, after) == 0.0
  {
    var h := Sum(directions[..k]);
    HeadingAfterTurn(directions, k);
    StepOf(directions, segmentLength, k);
    StepOf(directions, segmentLength, k + 1);
    var before := Scale(segmentLength, Unit(h));
    var after := Scale(segmentLength, Unit(h + directions[k]));
    if directions[k] == 1 {
      UnitTurn(h);
      ScaledRotation(segmentLength, Unit(h), Unit(h + 1));
      RotIsPerpendicular(before);
    } else {
      UnitTurn(h - 1);
      ScaledRotation(segmentLength, Unit(h - 1), Unit(h));
      RotIsPerpendicular(after);
    }
  }

  /** Turn k changes the heading by directions[k]. */
  lemma HeadingAfterTurn(directions: seq<int>, k: nat)
    requires k < |directions|
    ensures Sum(directions[..k + 1]) == Sum(directions[..k]) + directions[k]
  {
    assert directions[..k + 1][..k] == directions[..k];
  }

  /** Step k of the walk goes `segmentLength` along the heading after k turns. */
  lemma StepOf(directions: seq<int>, segmentLength: real, k: nat)
    requires k <= |directions|
    ensures Sub(Vertex(directions, segmentLength, k + 1), Vertex(directions, segmentLength, k))
      == Scale(segmentLength, Unit(Sum(directions[..k])))
  {
  }

  /** Scaling commutes with the quarter turn. */
  lemma ScaledRotation(k: real, u: Point, v: Point)
    requires v == Rot(u)
    ensures Scale(k, v) == Rot(Scale(k, u))
  {
  }

  /** A displacement is perpendicular to its quarter-turned copy. */
  lemma RotIsPerpendicular(p: Point)
    ensures Dot(p, Rot(p)) == 0.0 && Dot(Rot(p), p) == 0.0
  {
  }

  /** The displacement, in steps of unit length, of a walk that starts with
      heading h and turns as s says: |s| + 1 steps. */
  function Disp(s: seq<int>, h: int): Point
  {
    if s == [] then Unit(h) else Add(Disp(s[..|s| - 1], h), Unit(h + Sum(s)))
  }

  /** Point k + 1 of the walk is the displacement of its first k turns, scaled. */
  lemma {:induction false} VertexIsScaledDisp(directions: seq<int>, segmentLength: real, k: nat)
    requires k <= |directions|
    ensures Vertex(directions, segmentLength, k + 1) == Scale(segmentLength, Disp(directions[..k], 0))
    decreases k
  {
    if k > 0 {
      VertexIsScaledDisp(directions, segmentLength, k - 1);
      assert directions[..k][..k - 1] == directions[..k - 1];
      var a, b := Disp(directions[..k - 1], 0), Unit(Sum(directions[..k]));
      assert Disp(directions[..k], 0) == Add(a, b);
      ScaleAdd(segmentLength, a, b);
    }
  }

  lemma ScaleAdd(k: real, a: Point, b: Point)
    ensures Scale(k, Add(a, b)) == Add(Scale(k, a), Scale(k, b))
  {
    assert k * (a.x + b.x) == k * a.x + k * b.x;
    assert k * (a.y + b.y) == k * a.y + k * b.y;
  }

  lemma {:induction false} SumConcat(a: seq<int>, b: seq<int>)
    ensures Sum(a + b) == Sum(a) + Sum(b)
    decreases |b|
  {
    if b == [] {
      assert a + b == a;
    } else {
      var b' := b[..|b| - 1];
      assert (a + b)[..|a + b| - 1] == a + b';
      SumConcat(a, b');
    }
  }

  lemma {:induction false} SumNegReverse(s: seq<int>)
    ensures Sum(NegReverse(s)) == -Sum(s)
    decreases |s|
  {
    if s != [] {
      var s' := s[..|s| - 1];
      NegReverseSnoc(s', s[|s| - 1]);
      assert s == s' + [s[|s| - 1]];
      SumNegReverse(s');
      SumConcat([-s[|s| - 1]], NegReverse(s'));
      assert Sum([-s[|s| - 1]]) == Sum([]) - s[|s| - 1];
    }
  }

  lemma NegReverseSnoc(s: seq<int>, x: int)
    ensures NegReverse(s + [x]) == [-x] + NegReverse(s)
  {
  }

  /** The walk of a + [t] + b is the walk of a followed by the walk of b,
      which starts with the heading a leaves, turned by t. */
  lemma {:induction false} DispConcat(a: seq<int>, t: int, b: seq<int>, h: int)
    ensures Disp(a + [t] + b, h) == Add(Disp(a, h), Disp(b, h + Sum(a) + t))
    decreases |b|
  {
    var c := a + [t] + b;
    if b == [] {
      assert c == a + [t] && c[..|c| - 1] == a;
    } else {
      var b' := b[..|b| - 1];
      assert c[..|c| - 1] == a + [t] + b';
      DispConcat(a, t, b', h);
      SumConcat(a + [t], b);
      assert (a + [t])[..|a|] == a;
    }
  }

  /** Walking the reversed, negated turns visits the same headings in the
      opposite order, so it covers the same displacement as the walk of s
      started from a heading lower by the total turn. */
  lemma {:induction false} DispNegReverse(s: seq<int>, h: int)
    ensures Disp(NegReverse(s), h) == Disp(s, h - Sum(s))
    decreases |s|
  {
    if s != [] {
      var s', x := s[..|s| - 1], s[|s| - 1];
      assert s == s' + [x];
      NegReverseSnoc(s', x);
      assert NegReverse(s) == [] + [-x] + NegReverse(s');
      DispConcat([], -x, NegReverse(s'), h);
      DispNegReverse(s', h - x);
    }
  }

  /** Starting a quarter turn further round turns the whole walk. */
  lemma {:induction false} DispRotate(s: seq<int>, h: int)
    ensures Disp(s, h + 1) == Rot(Disp(s, h))
    decreases |s|
  {
    UnitTurn(h + Sum(s));
    if s != [] {
      DispRotate(s[..|s| - 1], h);
    }
  }

  /** One fold adds to the walk its own copy turned a quarter turn. */
  lemma DispFold(s: seq<int>, h: int)
    ensures Disp(Fold(s), h) == Add(Disp(s, h), Rot(Disp(s, h)))
  {
    DispConcat(s, 1, NegReverse(s), h);
    DispNegReverse(s, h + Sum(s) + 1);
    SumNegReverse(s);
    DispRotate(s, h);
  }

  /** (1 + i)^n as a point of the plane. */
  function GaussPow(n: nat): Point
  {
    if n == 0 then Point(1.0, 0.0) else Add(GaussPow(n - 1), Rot(GaussPow(n - 1)))
  }

  /** The walk of n folds ends at (1 + i)^n, in units of one step. */
  lemma {:induction false} DragonDisplacement(iterations: nat)
    requires iterations >= 1
    ensures Disp(Turns(iterations), 0) == GaussPow(iterations)
    decreases iterations
  {
    if iterations == 1 {
      assert [1][..0] == [];
      assert Sum([1]) == 1;
      assert Disp([1], 0) == Add(Unit(0), Unit(1));
    } else {
      var s := Turns(iterations - 1);
      assert Turns(iterations) == Fold(s);
      DragonDisplacement(iterations - 1);
      DispFold(s, 0);
    }
  }

  /** |(1 + i)^n|^2 == 2^n. */
  lemma {:induction false} GaussPowLength(n: nat)
    ensures SqLen(GaussPow(n)) == Pow(2, n) as real
    decreases n
  {
    if n > 0 {
      var g := GaussPow(n - 1);
      GaussPowLength(n - 1);
      DoublingLength(g);
      assert Pow(2, n) as real == 2.0 * (Pow(2, n - 1) as real);
    }
  }

  /** Multiplying by 1 + i doubles the squared length. */
  lemma DoublingLength(g: Point)
    ensures SqLen(Add(g, Rot(g))) == 2.0 * SqLen(g)
  {
    assert (g.x - g.y) * (g.x - g.y) + (g.y + g.x) * (g.y + g.x) == 2.0 * (g.x * g.x + g.y * g.y);
  }

  /** The point the walk ends at. */
  function WalkEnd(directions: seq<int>, segmentLength: real): Point
  {
    Vertex(directions, segmentLength, |directions| + 1)
  }

  /** The walk of the dragon after n folds ends at segmentLength * (1 + i)^n. */
  lemma DragonWalkEnd(iterations: nat, segmentLength: real)
    requires iterations >= 1
    ensures WalkEnd(Turns(iterations), segmentLength) == Scale(segmentLength, GaussPow(iterations))
  {
    var directions := Turns(iterations);
    VertexIsScaledDisp(directions, segmentLength, |directions|);
    assert directions[..|directions|] == directions;
    DragonDisplacement(iterations);
  }
}
