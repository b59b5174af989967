/**
 * The editor's records: colour points, the filter settings, the canvas
 * geometry and the whole gradient state that the application holds.
 */
module GradientTypes {
  import opened JsNumber

  /** One control point: a colour placed at a percentage position. */
  datatype ColorPoint = ColorPoint(id: string, color: string, x: Num, y: Num)

  /**
   * Filter settings. The grain type and blend mode are free text: the blend-mode
   * menu offers two values outside the declared union, and nothing checks either.
   */
  datatype FilterState = FilterState(
    brightness: Num,
    contrast: Num,
    saturation: Num,
    hue: Num,
    blur: Num,
    grain: Num,
    grainType: string,
    grainBlendMode: string)

  /** Output size, display scale and the free-text ratio label ("W:H"). */
  datatype CanvasState = CanvasState(width: Num, height: Num, scale: Num, ratio: string)

  /** Everything the editor holds about one gradient. */
  datatype GradientState = GradientState(
    colors: seq<ColorPoint>,
    filters: FilterState,
    canvas: CanvasState,
    animationSpeed: Num,
    blendMode: string,
    adjustColorPosition: bool)

  /** The ids of a list of points, in order. */
  function Ids(colors: seq<ColorPoint>): (ids: seq<string>)
    ensures |ids| == |colors|
    ensures forall i :: 0 <= i < |colors| ==> ids[i] == colors[i].id
  {
    seq(|colors|, i requires 0 <= i < |colors| => colors[i].id)
  }

  /** No two points share an id. */
  predicate DistinctIds(colors: seq<ColorPoint>) {
    forall i, j :: 0 <= i < j < |colors| ==> colors[i].id != colors[j].id
  }

  /** A coordinate that is a finite percentage. */
  predicate InPercentRange(n: Num) {
    n.Fin? && 0.0 <= n.val <= 100.0
  }

  /** Two lists of points that agree on everything except the colour. */
  predicate SameExceptColor(a: seq<ColorPoint>, b: seq<ColorPoint>) {
    |a| == |b| &&
    forall i :: 0 <= i < |a| ==> a[i].id == b[i].id && a[i].x == b[i].x && a[i].y == b[i].y
  }

  /** Two lists of points that agree on everything except the position. */
  predicate SameExceptPosition(a: seq<ColorPoint>, b: seq<ColorPoint>) {
    |a| == |b| &&
    forall i :: 0 <= i < |a| ==> a[i].id == b[i].id && a[i].color == b[i].color
  }
}
