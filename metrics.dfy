/** The figures shown next to the canvas (src/FractalExplorer.jsx:60-69,
    119-127, 223-231, 360-415 and the slider bound at line 457): the element
    count and its formula, the fractal dimension, and the complexity label
    looked up from a per-fractal ladder of descriptions. */
module Metrics {
  import opened Geometry

  /** The three fractals the explorer can draw. */
  datatype Fractal = SierpinskiFractal | SnowflakeFractal | DragonFractal

  /** The `switch(activeFractal)` of the drawing effect: the three known
      names, and the Sierpinski triangle for any other name. */
  function Select(activeFractal: string): (f: Fractal)
    ensures f == SnowflakeFractal <==> activeFractal == "snowflake"
    ensures f == DragonFractal <==> activeFractal == "dragon"
    ensures f == SierpinskiFractal <==> activeFractal != "snowflake" && activeFractal != "dragon"
  {
    match activeFractal
    case "sierpinski" => SierpinskiFractal
    case "snowflake" => SnowflakeFractal
    case "dragon" => DragonFractal
    case _ => SierpinskiFractal
  }

  /** The name each fractal's tab sets `activeFractal` to. */
  function Name(f: Fractal): string
  {
    match f
    case SierpinskiFractal => "sierpinski"
    case SnowflakeFractal => "snowflake"
    case DragonFractal => "dragon"
  }

  /** Selecting by a fractal's own name gives that fractal back. */
  lemma SelectName(f: Fractal)
    ensures Select(Name(f)) == f
  {
    match f
    case SierpinskiFractal =>
      assert Name(f)[0] == 's' && Name(f)[1] == 'i';
    case SnowflakeFractal =>
    case DragonFractal =>
      assert Name(f)[0] == 'd';
  }

  /** The displayed `elements` count: 3^n - 1 triangles, 4^n * 3 segments,
      2^n segments. */
  function ElementCount(f: Fractal, iterations: nat): int
  {
    match f
    case SierpinskiFractal => Pow(3, iterations) - 1
    case SnowflakeFractal => Pow(4, iterations) * 3
    case DragonFractal => Pow(2, iterations)
  }

  /** The counts never go below zero, start at 0, 3 and 1, and grow by a
      factor of 3, 4 and 2 with each extra iteration (the Sierpinski count
      as 3c + 2). */
  lemma ElementCountGrowth(f: Fractal, iterations: nat)
    ensures ElementCount(f, iterations) >= 0
    ensures ElementCount(SierpinskiFractal, 0) == 0 && ElementCount(SnowflakeFractal, 0) == 3 && ElementCount(DragonFractal, 0) == 1
    ensures ElementCount(SierpinskiFractal, iterations + 1) == 3 * ElementCount(SierpinskiFractal, iterations) + 2
    ensures ElementCount(SnowflakeFractal, iterations + 1) == 4 * ElementCount(SnowflakeFractal, iterations)
    ensures ElementCount(DragonFractal, iterations + 1) == 2 * ElementCount(DragonFractal, iterations)
  {
    assert Pow(3, iterations) >= 1;
  }

  /** The `pattern` text: the formula of the element count. */
  function Pattern(f: Fractal): string
  {
    match f
    case SierpinskiFractal => "3^n - 1"
    case SnowflakeFractal => "4^n × 3"
    case DragonFractal => "2^n segments"
  }

  /** The `dimension` text. */
  function Dimension(f: Fractal): string
  {
    match f
    case SierpinskiFractal => "log(3)/log(2) ≈ 1.585"
    case SnowflakeFractal => "log(4)/log(3) ≈ 1.262"
    case DragonFractal => "~2 (space-filling)"
  }

  /** The `descriptions` ladder of `getSierpinskiComplexity`. */
  const SierpinskiDescriptions: seq<string> := [
    "Simple - Just a single triangle",
    "Basic - The first iteration showing the fractal pattern",
    "Developing - The pattern becomes clearer",
    "Complex - Self-similarity is now apparent",
    "Very Complex - Detailed fractal structure",
    "Extremely Complex - Fine detail becoming visible",
    "Incredibly Complex - Intricate patterns within patterns",
    "Mathematical Beauty - Approaching theoretical perfection",
    "Mesmerizing Detail - Tiny triangles everywhere",
    "Nearly Infinite - Approaching theoretical limits",
    "Mathematical Perfection - Beyond typical visualization"
  ]

  /** The `descriptions` ladder of `getSnowflakeComplexity`. */
  const SnowflakeDescriptions: seq<string> := [
    "Simple - Just a triangle outline",
    "Basic - The first bumps appear",
    "Developing - Star-like shape emerges",
    "Complex - The snowflake pattern forms",
    "Very Complex - Detailed crystalline structure",
    "Extremely Complex - Fine details on all edges",
    "Incredibly Complex - Intricate edge patterns",
    "Mathematical Beauty - Approaching infinite perimeter",
    "Mesmerizing Detail - Countless tiny bumps",
    "Nearly Infinite - The perimeter grows dramatically",
    "Mathematical Perfection - Beyond typical visualization"
  ]

  /** The `descriptions` ladder of `getDragonComplexity`. */
  const DragonDescriptions: seq<string> := [
    "Simple - Just a line segment",
    "Basic - First fold creates two segments",
    "Developing - Four segments with right angles",
    "Complex - Eight segments, dragon pattern emerging",
    "Very Complex - Self-similarity becoming clear",
    "Extremely Complex - Fractal structure visible",
    "Incredibly Complex - Fine details appearing",
    "Mathematical Beauty - Space-filling properties emerging",
    "Detailed Pattern - Intricate fractal structure",
    "Near Complete - Complex geometric pattern",
    "Advanced Structure - Highly developed pattern",
    "Extreme Detail - Microscopic structure visible",
    "True Dragon - The complete Heighway Dragon fractal"
  ]

  /** The ladder of each fractal: 11, 11 and 13 entries. */
  function Descriptions(f: Fractal): (d: seq<string>)
    ensures |d| == if f == DragonFractal then 13 else 11
  {
    match f
    case SierpinskiFractal => SierpinskiDescriptions
    case SnowflakeFractal => SnowflakeDescriptions
    case DragonFractal => DragonDescriptions
  }

  /** `descriptions[Math.min(n, descriptions.length - 1)]`: the entry for
      depth n while the ladder has one, and its last entry beyond it. */
  function Clamped(descriptions: seq<string>, n: nat): (entry: string)
    requires |descriptions| > 0
    ensures entry in descriptions
    ensures n < |descriptions| ==> entry == descriptions[n]
    ensures n >= |descriptions| ==> entry == descriptions[|descriptions| - 1]
  {
    descriptions[if n < |descriptions| - 1 then n else |descriptions| - 1]
  }

  /** The complexity label of a fractal at a depth. */
  function Complexity(f: Fractal, iterations: nat): string
  {
    Clamped(Descriptions(f), iterations)
  }

  /** Past the end of the ladder every depth gets the same, last label. */
  lemma ComplexityClamps(f: Fractal, n1: nat, n2: nat)
    requires |Descriptions(f)| - 1 <= n1 && |Descriptions(f)| - 1 <= n2
    ensures Complexity(f, n1) == Complexity(f, n2)
  {
  }

  /** `max` of the iteration slider: 12 for the dragon and 7 otherwise. */
  function SliderMax(f: Fractal): nat
  {
    if f == DragonFractal then 12 else 7
  }

  /** Every depth the slider can reach has its own entry of the ladder, so
      no label is clamped in the explorer; only the dragon's reaches its
      last entry. */
  lemma SliderWithinLadder(f: Fractal, iterations: nat)
    requires iterations <= SliderMax(f)
    ensures iterations < |Descriptions(f)|
    ensures Complexity(f, iterations) == Descriptions(f)[iterations]
    ensures (Complexity(f, iterations) == Descriptions(f)[|Descriptions(f)| - 1]) <==>
            (f == DragonFractal && iterations == 12)
  {
  }

  /** What `setInfo` records for a fractal at a depth. */
  datatype Info = Info(elements: int, pattern: string, complexity: string, dimension: string)

  /** The info panel as the drawing function of a fractal fills it in. */
  function Describe(f: Fractal, iterations: nat): (info: Info)
    ensures info.complexity in Descriptions(f)
  {
    Info(ElementCount(f, iterations), Pattern(f), Complexity(f, iterations), Dimension(f))
  }
}
