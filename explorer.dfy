/** The drawing effect of the explorer (src/FractalExplorer.jsx:33-58) and
    the three `draw*Fractal` functions it dispatches to (lines 61-81,
    119-135, 223-238): each picks the starting figure from the canvas size,
    draws it and fills in the info panel. The proved properties tie the
    displayed element count to what is drawn. */
module Explorer {
  import opened Geometry
  import opened Sierpinski
  import opened Koch
  import opened DragonTurns
  import opened DragonWalk
  import opened DragonCurve
  import opened Metrics

  /** What ends up on the canvas: the filled leaf triangles, the closed
      snowflake outline, or the dragon's open polyline, the latter two with
      their stroke width. */
  datatype Picture =
    | Triangles(leaves: seq<Triangle>)
    | Outline(path: seq<Point>, lineWidth: real)
    | Polyline(path: seq<Point>, lineWidth: real)

  /** `drawSnowflakeFractal`: the snowflake around the canvas centre with a
      radius of 45% of the canvas's smaller side. */
  function SnowflakeDrawing(canvasWidth: real, canvasHeight: real, iterations: nat, root3: real): seq<Point>
  {
    var radius := Min(canvasWidth, canvasHeight) * 0.45;
    var vertices := SnowflakeVertices(canvasWidth / 2.0, canvasHeight / 2.0, radius, root3);
    SnowflakePath(vertices, iterations, SqrtApex(root3))
  }

  /** `drawDragonFractal`: the dragon centred on the canvas centre. */
  function DragonDrawing(canvasWidth: real, canvasHeight: real, iterations: nat): seq<Point>
  {
    DragonPath(canvasWidth, canvasHeight, canvasWidth / 2.0, canvasHeight / 2.0, iterations)
  }

  /** One run of the drawing effect: the picture and the info panel for the
      selected fractal, the canvas size and the depth. */
  function Render(activeFractal: string, canvasWidth: real, canvasHeight: real, iterations: nat, root3: real): (Picture, Info)
  {
    var f := Select(activeFractal);
    var picture := match f
      case SierpinskiFractal => Triangles(SierpinskiLeaves(canvasWidth, canvasHeight, iterations))
      case SnowflakeFractal => Outline(SnowflakeDrawing(canvasWidth, canvasHeight, iterations, root3), KochStrokeWidth(iterations))
      case DragonFractal => Polyline(DragonDrawing(canvasWidth, canvasHeight, iterations), DragonStrokeWidth(iterations));
    (picture, Describe(f, iterations))
  }

  /** The snowflake path has 3 * 4^n segments and ends where it starts. */
  lemma SnowflakeDrawingShape(canvasWidth: real, canvasHeight: real, iterations: nat, root3: real)
    ensures var path := SnowflakeDrawing(canvasWidth, canvasHeight, iterations, root3);
      && |path| == 3 * Pow(4, iterations) + 1
      && path[|path| - 1] == path[0]
  {
    var v := SnowflakeVertices(canvasWidth / 2.0, canvasHeight / 2.0, Min(canvasWidth, canvasHeight) * 0.45, root3);
    SnowflakeClosed(v, iterations, SqrtApex(root3));
  }

  /** The displayed count against the picture: one less than the number of
      Sierpinski leaves drawn, and exactly the number of segments of the
      snowflake outline and of the dragon. */
  lemma CountMatchesPicture(activeFractal: string, canvasWidth: real, canvasHeight: real, iterations: nat, root3: real)
    ensures var (picture, info) := Render(activeFractal, canvasWidth, canvasHeight, iterations, root3);
      match picture
      case Triangles(leaves) => info.elements == |leaves| - 1
      case Outline(path, _) => info.elements == |path| - 1
      case Polyline(path, _) => info.elements == |path| - 1
  {
    match Select(activeFractal)
    case SierpinskiFractal =>
    case SnowflakeFractal =>
      SnowflakeDrawingShape(canvasWidth, canvasHeight, iterations, root3);
    case DragonFractal =>
      DragonSegmentCount(canvasWidth, canvasHeight, canvasWidth / 2.0, canvasHeight / 2.0, iterations);
  }

  /** The dragon's bounding box is centred on the canvas at every depth. */
  lemma DragonCentredOnCanvas(canvasWidth: real, canvasHeight: real, iterations: nat)
    ensures CentredOn(BoxOf(DragonDrawing(canvasWidth, canvasHeight, iterations)), canvasWidth / 2.0, canvasHeight / 2.0)
  {
    DragonIsCentred(canvasWidth, canvasHeight, canvasWidth / 2.0, canvasHeight / 2.0, iterations);
  }

  /** The picture is of the fractal the name selects, and so is the panel. */
  lemma RenderMatchesSelection(activeFractal: string, canvasWidth: real, canvasHeight: real, iterations: nat, root3: real)
    ensures var (picture, info) := Render(activeFractal, canvasWidth, canvasHeight, iterations, root3);
      && (picture.Triangles? <==> activeFractal != "snowflake" && activeFractal != "dragon")
      && (picture.Outline? <==> activeFractal == "snowflake")
      && (picture.Polyline? <==> activeFractal == "dragon")
      && info.pattern == Pattern(Select(activeFractal))
  {
  }
}
