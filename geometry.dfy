/** Points in the drawing plane and the few operations on them that the
    three fractal generators share. Coordinates are exact reals: the model
    idealises the IEEE doubles that JavaScript computes with. */
module Geometry {

  /** A point (or a displacement) of the canvas plane; y grows downwards. */
  datatype Point = Point(x: real, y: real)

  const Origin: Point := Point(0.0, 0.0)

  function Add(p: Point, q: Point): Point
  {
    Point(p.x + q.x, p.y + q.y)
  }

  function Sub(p: Point, q: Point): Point
  {
    Point(p.x - q.x, p.y - q.y)
  }

  function Scale(k: real, p: Point): Point
  {
    Point(k * p.x, k * p.y)
  }

  /** The point halfway between p and q. */
  function Midpoint(p: Point, q: Point): Point
  {
    Point((p.x + q.x) / 2.0, (p.y + q.y) / 2.0)
  }

  /** Squared Euclidean length of a displacement. */
  function SqLen(v: Point): real
  {
    v.x * v.x + v.y * v.y
  }

  /** Squared Euclidean distance between two points. */
  function SqDist(p: Point, q: Point): real
  {
    SqLen(Sub(q, p))
  }

  /** Math.min on two numbers. */
  function Min(a: real, b: real): (r: real)
    ensures r <= a && r <= b
    ensures r == a || r == b
  {
    if a <= b then a else b
  }

  /** Math.max on two numbers. */
  function Max(a: real, b: real): (r: real)
    ensures a <= r && b <= r
    ensures r == a || r == b
  {
    if a <= b then b else a
  }

  /** Math.pow on a natural base and exponent. */
  function Pow(b: nat, e: nat): (r: nat)
    ensures b >= 1 ==> r >= 1
  {
    if e == 0 then 1 else b * Pow(b, e - 1)
  }
}
