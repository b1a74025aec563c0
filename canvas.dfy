/** Lines as drawn on the canvas, and their move between a client's canvas
    space and the shared normalized space (shared/src/lib.rs). */
module Canvas {
  import opened Wrappers

  /** A colour channel of egui's `Color32`. */
  newtype u8 = x: int | 0 <= x < 256

  /** A point (`SPos2`). Its coordinates are `f32` in the source; here they are
      reals on which the model never computes. */
  datatype Pos = Pos(x: real, y: real)

  /** The canvas rectangle of a client (`DSRect`), by its two corners. */
  datatype Rect = Rect(min: Pos, max: Pos)

  /** Premultiplied RGBA colour (`Color32`). */
  datatype Color32 = Color32(r: u8, g: u8, b: u8, a: u8)

  /** Stroke style (`StrokeX`): colour and width. */
  datatype Stroke = Stroke(color: Color32, width: real)

  /** The only message flag there is. */
  datatype Flag = Clear

  /** A freehand stroke: its points in drawing order, its style and an optional flag. */
  datatype Line = Line(coordinates: seq<Pos>, stroke: Stroke, flag: Option<Flag>)

  /** Which direction `Lines::merge` moves incoming lines in. */
  datatype MergeMode = ToCanvas | FromCanvas

  /** The per-point affine maps of `Line::to_canvas` and `Line::from_canvas`.
      Their float arithmetic is not modelled: each is an arbitrary (total)
      function of the point and the canvas rectangle. */
  datatype CanvasMaps = CanvasMaps(toCanvas: (Pos, Rect) -> Pos, fromCanvas: (Pos, Rect) -> Pos)

  /** Every point of `ps` sent through `f`, each independently of the others. */
  function MapPoints(ps: seq<Pos>, rect: Rect, f: (Pos, Rect) -> Pos): (r: seq<Pos>)
    ensures |r| == |ps|
    ensures forall i :: 0 <= i < |ps| ==> r[i] == f(ps[i], rect)
  {
    if ps == [] then [] else [f(ps[0], rect)] + MapPoints(ps[1..], rect, f)
  }

  /** `line` with every coordinate rewritten by `f`; nothing else changes. */
  function MapLine(line: Line, rect: Rect, f: (Pos, Rect) -> Pos): (r: Line)
    ensures |r.coordinates| == |line.coordinates|
    ensures r.stroke == line.stroke && r.flag == line.flag
    ensures forall i :: 0 <= i < |line.coordinates| ==> r.coordinates[i] == f(line.coordinates[i], rect)
  {
    line.(coordinates := MapPoints(line.coordinates, rect, f))
  }

  /** The point map that `Lines::merge` applies in `mode`. */
  function ModeMap(mode: MergeMode, maps: CanvasMaps): (Pos, Rect) -> Pos
  {
    match mode
    case ToCanvas => maps.toCanvas
    case FromCanvas => maps.fromCanvas
  }

  /** The copy of an incoming line that `Lines::merge` stores in `mode`. */
  function Transformed(line: Line, rect: Rect, mode: MergeMode, maps: CanvasMaps): Line
  {
    MapLine(line, rect, ModeMap(mode, maps))
  }

  /** `Line::from_canvas`: rewrites each coordinate in place, from the client's
      canvas space into the normalized space. */
  method LineFromCanvas(line: Line, canvasRect: Rect, maps: CanvasMaps) returns (r: Line)
    ensures r == MapLine(line, canvasRect, maps.fromCanvas)
  {
    var coordinates := line.coordinates;
    for i := 0 to |coordinates|
      invariant |coordinates| == |line.coordinates|
      invariant forall j :: 0 <= j < i ==> coordinates[j] == maps.fromCanvas(line.coordinates[j], canvasRect)
      invariant forall j :: i <= j < |coordinates| ==> coordinates[j] == line.coordinates[j]
    {
      coordinates := coordinates[i := maps.fromCanvas(coordinates[i], canvasRect)];
    }
    r := line.(coordinates := coordinates);
  }

  /** `Line::to_canvas`: rewrites each coordinate in place, from the normalized
      space into the client's canvas space. */
  method LineToCanvas(line: Line, canvasRect: Rect, maps: CanvasMaps) returns (r: Line)
    ensures r == MapLine(line, canvasRect, maps.toCanvas)
  {
    var coordinates := line.coordinates;
    for i := 0 to |coordinates|
      invariant |coordinates| == |line.coordinates|
      invariant forall j :: 0 <= j < i ==> coordinates[j] == maps.toCanvas(line.coordinates[j], canvasRect)
      invariant forall j :: i <= j < |coordinates| ==> coordinates[j] == line.coordinates[j]
    {
      coordinates := coordinates[i := maps.toCanvas(coordinates[i], canvasRect)];
    }
    r := line.(coordinates := coordinates);
  }
}
