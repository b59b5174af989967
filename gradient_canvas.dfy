/**
 * The preview canvas: the sanitiser and compositor that turn a gradient state
 * into CSS (background layers, filter chain, size) or an error, and the view
 * state the canvas keeps between events (drag target, zoom, shown error, retry
 * counter).
 */
module GradientCanvas {
  import opened Wrappers
  import opened JsNumber
  import opened JsText
  import opened GradientTypes

  const EmptyColorsError := "Add at least one color to render the canvas."
  const NoValidColorsError := "No valid colors available for rendering."
  const DimensionsError := "Canvas dimensions must be positive numbers."
  const UnexpectedError := "Unexpected rendering error. Try refreshing the canvas."
  const GrainSegment := "url(#grainFilter)"

  /** What the preview draws: CSS text, the sanitised points and the size, or an error. */
  datatype Rendering = Rendering(
    background: string,
    filter: string,
    colors: seq<ColorPoint>,
    width: Num,
    height: Num,
    error: Option<string>,
    recoverable: bool)

  // ---------------------------------------------------------------------------
  // Point sanitising.

  /** A coordinate as the preview uses it: clamped into [0, 100], or 50 when not finite. */
  function SafeCoordinate(n: Num): (r: Num)
    ensures InPercentRange(r)
    ensures InPercentRange(n) ==> r == n
    ensures !n.Fin? ==> r == Fin(50.0)
    ensures n.Fin? && n.val < 0.0 ==> r == Fin(0.0)
    ensures n.Fin? && n.val > 100.0 ==> r == Fin(100.0)
  {
    if n.Fin? then Fin(Clamp(n.val, 0.0, 100.0)) else Fin(50.0)
  }

  /** A point the preview can draw as it is: a trimmed, non-empty colour at a percentage position. */
  predicate Clean(p: ColorPoint) {
    p.color != [] && !IsWhitespace(p.color[0]) && !IsWhitespace(p.color[|p.color| - 1]) &&
    InPercentRange(p.x) && InPercentRange(p.y)
  }

  /** A point with its colour trimmed and its coordinates made safe; the id is kept. */
  function CleanPoint(p: ColorPoint): ColorPoint {
    ColorPoint(p.id, Trim(p.color), SafeCoordinate(p.x), SafeCoordinate(p.y))
  }

  /** One point of the sanitiser's `map`: dropped (None) when its colour is blank. */
  function SanitizePoint(p: ColorPoint): (r: Option<ColorPoint>)
    ensures r.None? <==> AllWhitespace(p.color)
    ensures r.Some? ==> Clean(r.value) && r.value.id == p.id && r.value.color == Trim(p.color)
  {
    if Trim(p.color) == [] then None else Some(CleanPoint(p))
  }

  /** `.filter(Boolean)` after a `map` that yields a point or null. */
  function Somes<T>(xs: seq<Option<T>>): (r: seq<T>)
    ensures |r| <= |xs|
    ensures r == [] <==> forall i :: 0 <= i < |xs| ==> xs[i].None?
    ensures forall i :: 0 <= i < |r| ==> exists j :: 0 <= j < |xs| && xs[j] == Some(r[i])
  {
    if xs == [] then []
    else
      var rest := Somes(xs[1..]);
      assert forall i :: 0 <= i < |rest| ==> exists j :: 0 <= j < |xs| && xs[j] == Some(rest[i]) by {
        forall i | 0 <= i < |rest|
          ensures exists j :: 0 <= j < |xs| && xs[j] == Some(rest[i])
        {
          var j :| 0 <= j < |xs[1..]| && xs[1..][j] == Some(rest[i]);
          assert xs[j + 1] == Some(rest[i]);
        }
      }
      assert (forall i :: 0 <= i < |xs| ==> xs[i].None?) <==>
             xs[0].None? && forall i :: 0 <= i < |xs[1..]| ==> xs[1..][i].None? by {
        if forall i :: 0 <= i < |xs[1..]| ==> xs[1..][i].None? {
          assert forall i :: 1 <= i < |xs| ==> xs[i] == xs[1..][i - 1];
        }
      }
      if xs[0].Some? then [xs[0].value] + rest else rest
  }

  /** The sanitised point list: every point with a blank colour dropped, the rest cleaned. */
  function SanitizeColors(colors: seq<ColorPoint>): (r: seq<ColorPoint>)
    ensures |r| <= |colors|
    ensures forall i :: 0 <= i < |r| ==> Clean(r[i])
    ensures r == [] <==> forall i :: 0 <= i < |colors| ==> AllWhitespace(colors[i].color)
  {
    Somes(SanitizedEach(colors))
  }

  /** The sanitiser's `map` step. */
  function SanitizedEach(colors: seq<ColorPoint>): (r: seq<Option<ColorPoint>>)
    ensures |r| == |colors|
    ensures forall i :: 0 <= i < |colors| ==> r[i] == SanitizePoint(colors[i])
  {
    seq(|colors|, i requires 0 <= i < |colors| => SanitizePoint(colors[i]))
  }

  /** The input points whose colour is not blank, in input order. */
  function Kept(colors: seq<ColorPoint>): seq<ColorPoint> {
    if colors == [] then []
    else (if AllWhitespace(colors[0].color) then [] else [colors[0]]) + Kept(colors[1..])
  }

  /** Each point cleaned, in order. */
  function CleanAll(colors: seq<ColorPoint>): (r: seq<ColorPoint>)
    ensures |r| == |colors|
    ensures forall i :: 0 <= i < |colors| ==> r[i] == CleanPoint(colors[i])
  {
    seq(|colors|, i requires 0 <= i < |colors| => CleanPoint(colors[i]))
  }

  /** The sanitiser on a non-empty list: its head point, then the rest. */
  lemma SanitizeColorsCons(colors: seq<ColorPoint>)
    requires colors != []
    ensures SanitizeColors(colors) ==
              (if AllWhitespace(colors[0].color) then [] else [CleanPoint(colors[0])]) +
              SanitizeColors(colors[1..])
  {
    assert SanitizedEach(colors)[1..] == SanitizedEach(colors[1..]);
  }

  /**
   * The sanitised list is exactly the non-blank input points, in their input
   * order, each cleaned: ids and relative order survive.
   */
  lemma {:induction false} SanitizeColorsKeepsOrder(colors: seq<ColorPoint>)
    ensures SanitizeColors(colors) == CleanAll(Kept(colors))
  {
    if colors != [] {
      SanitizeColorsCons(colors);
      SanitizeColorsKeepsOrder(colors[1..]);
      var head := if AllWhitespace(colors[0].color) then [] else [colors[0]];
      assert Kept(colors) == head + Kept(colors[1..]);
      CleanAllAppend(head, Kept(colors[1..]));
      assert CleanAll(head) == if AllWhitespace(colors[0].color) then [] else [CleanPoint(colors[0])];
    }
  }

  lemma CleanAllAppend(a: seq<ColorPoint>, b: seq<ColorPoint>)
    ensures CleanAll(a + b) == CleanAll(a) + CleanAll(b)
  {
    forall i | 0 <= i < |a + b|
      ensures CleanAll(a + b)[i] == (CleanAll(a) + CleanAll(b))[i]
    {
      if i >= |a| {
        assert (a + b)[i] == b[i - |a|];
      }
    }
  }

  /** Sanitising keeps the ids of the non-blank points, in order. */
  lemma SanitizeColorsIds(colors: seq<ColorPoint>)
    ensures Ids(SanitizeColors(colors)) == Ids(Kept(colors))
  {
    SanitizeColorsKeepsOrder(colors);
  }

  /** A clean point survives the sanitiser unchanged. */
  lemma SanitizePointClean(p: ColorPoint)
    requires Clean(p)
    ensures SanitizePoint(p) == Some(p)
  {
    TrimUnpadded(p.color);
  }

  /** A list of clean points is its own sanitised list. */
  lemma {:induction false} SanitizeColorsClean(colors: seq<ColorPoint>)
    requires forall i :: 0 <= i < |colors| ==> Clean(colors[i])
    ensures SanitizeColors(colors) == colors
  {
    if colors != [] {
      SanitizePointClean(colors[0]);
      SanitizeColorsCons(colors);
      SanitizeColorsClean(colors[1..]);
      assert colors == [colors[0]] + colors[1..];
    }
  }

  /** Sanitising the sanitised list changes nothing. */
  lemma SanitizeColorsIdempotent(colors: seq<ColorPoint>)
    ensures SanitizeColors(SanitizeColors(colors)) == SanitizeColors(colors)
  {
    SanitizeColorsClean(SanitizeColors(colors));
  }

  // ---------------------------------------------------------------------------
  // Filter sanitising.

  /** The sanitiser's `clamp`: the fallback for non-finite values, else clamped into [lo, hi]. */
  function ClampFilter(value: Num, lo: real, hi: real, fallback: real): (r: Num)
    requires lo <= hi
    ensures r.Fin?
    ensures value.Fin? ==> lo <= r.val <= hi
    ensures !value.Fin? ==> r == Fin(fallback)
    ensures value.Fin? && lo <= value.val <= hi ==> r == value
    ensures value.Fin? && value.val < lo ==> r == Fin(lo)
    ensures value.Fin? && hi < value.val ==> r == Fin(hi)
  {
    if !value.Fin? then Fin(fallback) else Fin(Clamp(value.val, lo, hi))
  }

  /** Every numeric filter finite and inside the range the preview accepts. */
  predicate FiltersInRange(f: FilterState) {
    f.brightness.Fin? && 0.0 <= f.brightness.val <= 200.0 &&
    f.contrast.Fin? && 0.0 <= f.contrast.val <= 200.0 &&
    f.saturation.Fin? && 0.0 <= f.saturation.val <= 200.0 &&
    f.hue.Fin? && -360.0 <= f.hue.val <= 360.0 &&
    f.blur.Fin? && 0.0 <= f.blur.val <= 50.0 &&
    f.grain.Fin? && 0.0 <= f.grain.val <= 100.0
  }

  /** The filters the preview applies. */
  function SanitizeFilters(f: FilterState): (r: FilterState)
    ensures FiltersInRange(r)
    ensures r.grainType == f.grainType && r.grainBlendMode == f.grainBlendMode
    ensures FiltersInRange(f) ==> r == f
    ensures r.brightness == ClampFilter(f.brightness, 0.0, 200.0, 100.0)
    ensures r.contrast == ClampFilter(f.contrast, 0.0, 200.0, 100.0)
    ensures r.saturation == ClampFilter(f.saturation, 0.0, 200.0, 100.0)
    ensures r.hue == ClampFilter(f.hue, -360.0, 360.0, 0.0)
    ensures r.blur == ClampFilter(f.blur, 0.0, 50.0, 0.0)
    ensures r.grain == ClampFilter(f.grain, 0.0, 100.0, 0.0)
    ensures !f.brightness.Fin? ==> r.brightness == Fin(100.0)
    ensures !f.contrast.Fin? ==> r.contrast == Fin(100.0)
    ensures !f.saturation.Fin? ==> r.saturation == Fin(100.0)
    ensures !f.hue.Fin? ==> r.hue == Fin(0.0)
    ensures !f.blur.Fin? ==> r.blur == Fin(0.0)
    ensures !f.grain.Fin? ==> r.grain == Fin(0.0)
  {
    FilterState(
      ClampFilter(f.brightness, 0.0, 200.0, 100.0),
      ClampFilter(f.contrast, 0.0, 200.0, 100.0),
      ClampFilter(f.saturation, 0.0, 200.0, 100.0),
      ClampFilter(f.hue, -360.0, 360.0, 0.0),
      ClampFilter(f.blur, 0.0, 50.0, 0.0),
      ClampFilter(f.grain, 0.0, 100.0, 0.0),
      f.grainType,
      f.grainBlendMode)
  }

  /** Sanitising sanitised filters changes nothing. */
  lemma SanitizeFiltersIdempotent(f: FilterState)
    ensures SanitizeFilters(SanitizeFilters(f)) == SanitizeFilters(f)
  {
  }

  // ---------------------------------------------------------------------------
  // Background layers.

  /** Opacity of the i-th layer: `max(0.2, min(1, 0.75 - 0.1 i))`. */
  function LayerOpacity(i: nat): (r: real)
    ensures 0.2 <= r <= 0.75
    ensures i <= 5 ==> r == 0.75 - 0.1 * i as real
    ensures i >= 6 ==> r == 0.2
  {
    var o := 0.75 - i as real * 0.1;
    var capped := if 1.0 < o then 1.0 else o;
    if capped < 0.2 then 0.2 else capped
  }

  /** Later layers are never more opaque than earlier ones. */
  lemma LayerOpacityNonIncreasing(i: nat, j: nat)
    requires i <= j
    ensures LayerOpacity(j) <= LayerOpacity(i)
  {
  }

  /** `Math.round(LayerOpacity(i) * 255)`: an integer in [51, 191]. */
  function LayerAlpha(i: nat): (r: nat)
    ensures 51 <= r <= 191
  {
    var a := RoundReal(LayerOpacity(i) * 255.0);
    assert 51.0 - 0.5 < a as real < 191.25 + 0.5;
    a
  }

  /** The alpha suffix of the i-th layer: exactly two lower-case hex digits whose value is its alpha. */
  function PreviewAlphaHex(i: nat): (r: string)
    ensures |r| == 2 && AllDigits(r, 16)
    ensures DigitsValue(r, 16) == LayerAlpha(i)
  {
    var a := LayerAlpha(i);
    HexDigitsAtMost(a, 2);
    HexDigitsAtLeast(a, 2);
    NatDigitsRoundTrip(a, 16);
    PadStart(HexText(a), 2, '0')
  }

  /** `radial-gradient(circle at X% Y%, COLORAA 0%, transparent 50%)` for the i-th point. */
  function GradientLayer(p: ColorPoint, i: nat): string {
    "radial-gradient(circle at " + Show(p.x) + "% " + Show(p.y) + "%, " +
    p.color + PreviewAlphaHex(i) + " 0%, transparent 50%)"
  }

  /** `xs.map((x, i) => f(x, i))` */
  function MapIndexed<T, U>(xs: seq<T>, f: (T, nat) -> U): (r: seq<U>)
    ensures |r| == |xs|
    ensures forall i :: 0 <= i < |xs| ==> r[i] == f(xs[i], i)
  {
    seq(|xs|, i requires 0 <= i < |xs| => f(xs[i], i))
  }

  lemma MapIndexedSnoc<T, U>(xs: seq<T>, x: T, f: (T, nat) -> U)
    ensures MapIndexed(xs + [x], f) == MapIndexed(xs, f) + [f(x, |xs|)]
  {
    var a := MapIndexed(xs + [x], f);
    var b := MapIndexed(xs, f) + [f(x, |xs|)];
    forall i | 0 <= i < |a|
      ensures a[i] == b[i]
    {
      if i < |xs| {
        assert (xs + [x])[i] == xs[i];
      }
    }
  }

  /** One layer per point, in point order. */
  function Layers(colors: seq<ColorPoint>): seq<string> {
    MapIndexed(colors, GradientLayer)
  }

  /** The CSS `background`: the layers joined by ", ". */
  function Background(colors: seq<ColorPoint>): string {
    Join(Layers(colors), ", ")
  }

  /** Appending a point appends its layer, after ", ", and leaves the earlier text as it was. */
  lemma {:induction false} BackgroundSnoc(colors: seq<ColorPoint>, p: ColorPoint)
    requires colors != []
    ensures Background(colors + [p]) == Background(colors) + ", " + GradientLayer(p, |colors|)
  {
    MapIndexedSnoc(colors, p, GradientLayer);
    JoinSnoc(Layers(colors), GradientLayer(p, |colors|), ", ");
  }

  lemma {:induction false} JoinSnoc(parts: seq<string>, last: string, sep: string)
    requires parts != []
    ensures Join(parts + [last], sep) == Join(parts, sep) + sep + last
  {
    if |parts| > 1 {
      assert (parts + [last])[1..] == parts[1..] + [last];
      JoinSnoc(parts[1..], last, sep);
    }
  }

  // ---------------------------------------------------------------------------
  // Filter chain.

  /** The filter functions in their fixed order, with the grain reference last when grain is on. */
  function FilterSegments(f: FilterState): (r: seq<string>)
    ensures |r| == 5 || |r| == 6
    ensures |r| == 6 <==> Less(Fin(0.0), f.grain)
    ensures |r| == 6 ==> r[5] == GrainSegment
    ensures StartsWith(r[0], "brightness(") && StartsWith(r[1], "contrast(") &&
            StartsWith(r[2], "saturate(") && StartsWith(r[3], "hue-rotate(") &&
            StartsWith(r[4], "blur(")
  {
    var segments := [
      "brightness(" + Show(f.brightness) + "%)",
      "contrast(" + Show(f.contrast) + "%)",
      "saturate(" + Show(f.saturation) + "%)",
      "hue-rotate(" + Show(f.hue) + "deg)",
      "blur(" + Show(f.blur) + "px)"];
    if Less(Fin(0.0), f.grain) then segments + [GrainSegment] else segments
  }

  /** The CSS `filter`: the segments joined by single spaces. */
  function FilterChain(f: FilterState): string {
    Join(FilterSegments(f), " ")
  }

  // ---------------------------------------------------------------------------
  // The whole rendering.

  /** A finite size, or 0 for a non-finite one. */
  function FiniteOrZero(n: Num): Num {
    if n.Fin? then n else Fin(0.0)
  }

  /** The record every failure starts from. */
  function Fallback(canvas: CanvasState, error: string, recoverable: bool): (r: Rendering)
    ensures r.background == "none" && r.filter == "none" && r.colors == []
    ensures r.width.Fin? && r.height.Fin?
    ensures canvas.width.Fin? ==> r.width == canvas.width
    ensures canvas.height.Fin? ==> r.height == canvas.height
    ensures !canvas.width.Fin? ==> r.width == Fin(0.0)
    ensures !canvas.height.Fin? ==> r.height == Fin(0.0)
    ensures r.error == Some(error) && r.recoverable == recoverable
  {
    Rendering("none", "none", [], FiniteOrZero(canvas.width), FiniteOrZero(canvas.height),
              Some(error), recoverable)
  }

  /** The canvas size is a pair of finite positive numbers. */
  predicate PositiveSize(canvas: CanvasState) {
    canvas.width.Fin? && canvas.height.Fin? && canvas.width.val > 0.0 && canvas.height.val > 0.0
  }

  /** Some point has a colour that is not blank. */
  predicate HasVisibleColor(colors: seq<ColorPoint>) {
    exists i :: 0 <= i < |colors| && !AllWhitespace(colors[i].color)
  }

  /**
   * The validation step of the preview rendering, checked in a fixed order: no
   * points at all, then no drawable point, then a bad canvas size.
   */
  function ValidationError(state: GradientState): (r: Option<string>)
    ensures r == Some(EmptyColorsError) <==> state.colors == []
    ensures r == Some(NoValidColorsError) <==>
              state.colors != [] && !HasVisibleColor(state.colors)
    ensures r == Some(DimensionsError) <==>
              HasVisibleColor(state.colors) && !PositiveSize(state.canvas)
    ensures r.None? <==> HasVisibleColor(state.colors) && PositiveSize(state.canvas)
  {
    ErrorMessagesDistinct();
    SanitizedNonEmptyIffVisible(state.colors);
    var canvas := state.canvas;
    assert PositiveSize(canvas) <==>
      (canvas.width.Fin? && canvas.height.Fin? && Less(Fin(0.0), canvas.width) && Less(Fin(0.0), canvas.height));
    if |state.colors| == 0 then Some(EmptyColorsError)
    else if SanitizeColors(state.colors) == [] then Some(NoValidColorsError)
    else if !canvas.width.Fin? || !canvas.height.Fin? ||
            !Less(Fin(0.0), canvas.width) || !Less(Fin(0.0), canvas.height) then
      Some(DimensionsError)
    else None
  }

  /**
   * The preview rendering of a state: the fallback with the first validation
   * error, or the sanitised points drawn as layers under the filter chain.
   */
  function CanvasRendering(state: GradientState): (r: Rendering)
    ensures r.error.Some? ==> r == Fallback(state.canvas, r.error.value, false)
    ensures !r.recoverable
    ensures r.error == Some(EmptyColorsError) <==> state.colors == []
    ensures r.error == Some(NoValidColorsError) <==>
              state.colors != [] && !HasVisibleColor(state.colors)
    ensures r.error == Some(DimensionsError) <==>
              HasVisibleColor(state.colors) && !PositiveSize(state.canvas)
    ensures r.error.None? <==> HasVisibleColor(state.colors) && PositiveSize(state.canvas)
    ensures r.error.None? ==>
              r.colors == SanitizeColors(state.colors) && r.colors != [] &&
              r.width == state.canvas.width && r.height == state.canvas.height &&
              r.background == Background(r.colors) &&
              r.filter == FilterChain(SanitizeFilters(state.filters))
  {
    match ValidationError(state)
    case Some(error) => Fallback(state.canvas, error, false)
    case None =>
      var colors := SanitizeColors(state.colors);
      Rendering(Background(colors), FilterChain(SanitizeFilters(state.filters)), colors,
                state.canvas.width, state.canvas.height, None, false)
  }

  /** The sanitised list is non-empty exactly when some colour is not blank. */
  lemma SanitizedNonEmptyIffVisible(colors: seq<ColorPoint>)
    ensures SanitizeColors(colors) != [] <==> HasVisibleColor(colors)
  {
    if SanitizeColors(colors) != [] {
      var i :| 0 <= i < |colors| && !AllWhitespace(colors[i].color);
    }
  }

  /** The three validation messages differ from each other. */
  lemma ErrorMessagesDistinct()
    ensures EmptyColorsError != NoValidColorsError
    ensures EmptyColorsError != DimensionsError
    ensures NoValidColorsError != DimensionsError
  {
    assert EmptyColorsError[0] == 'A' && NoValidColorsError[0] == 'N' && DimensionsError[0] == 'C';
  }

  /**
   * The result of the exception handler around the rendering: the fallback
   * record with the generic message, marked recoverable.
   */
  function RecoverableFailure(canvas: CanvasState): (r: Rendering)
    ensures r.error == Some(UnexpectedError) && r.recoverable
    ensures r.colors == [] && r.background == "none" && r.filter == "none"
  {
    Fallback(canvas, UnexpectedError, true)
  }

  /** `safeScale`: the display scale clamped into [0.1, 4], or 1 when not finite. */
  function SafeScale(scale: Num): (r: real)
    ensures 0.1 <= r <= 4.0
    ensures !scale.Fin? ==> r == 1.0
    ensures scale.Fin? && 0.1 <= scale.val <= 4.0 ==> r == scale.val
    ensures scale.Fin? && scale.val < 0.1 ==> r == 0.1
    ensures scale.Fin? && scale.val > 4.0 ==> r == 4.0
  {
    if scale.Fin? then Clamp(scale.val, 0.1, 4.0) else 1.0
  }

  // ---------------------------------------------------------------------------
  // View state.

  /** The canvas element's bounding rectangle on screen. */
  datatype Rect = Rect(left: real, top: real, width: real, height: real)

  /** A request to move the dragged point to a percentage position. */
  datatype Move = Move(id: string, x: Num, y: Num)

  /** The pointer offset into the rectangle as a percentage, clamped into [0, 100]. */
  function PointerPercent(client: real, start: real, extent: real): (r: Num)
    ensures extent > 0.0 ==> InPercentRange(r)
    ensures extent > 0.0 && start <= client <= start + extent ==>
              r == Fin((client - start) / extent * 100.0)
    ensures extent > 0.0 && client < start ==> r == Fin(0.0)
    ensures extent > 0.0 && client > start + extent ==> r == Fin(100.0)
  {
    Max(Fin(0.0), Min(Fin(100.0), Mul(Div(Fin(client - start), Fin(extent)), Fin(100.0))))
  }

  class CanvasView {
    /** The id of the point being dragged, if any. */
    var dragging: Option<string>
    var zoom: real
    /** The error the canvas shows. */
    var renderError: Option<string>
    /** Bumped to force the rendering to be recomputed. */
    var retryKey: nat

    /** The zoom factor stays in [0.5, 3]. */
    predicate Valid()
      reads this
    {
      0.5 <= zoom <= 3.0
    }

    constructor()
      ensures Valid()
      ensures dragging.None? && zoom == 1.0 && renderError.None? && retryKey == 0
    {
      dragging := None;
      zoom := 1.0;
      renderError := None;
      retryKey := 0;
    }

    /**
     * The effect that follows the rendering's error: afterwards the shown error
     * is the rendering's error, or none when it has none (an empty message
     * counts as none).
     */
    method SyncRenderError(error: Option<string>)
      modifies this
      ensures renderError == if error.Some? && error.value != [] then error else None
      ensures dragging == old(dragging) && zoom == old(zoom) && retryKey == old(retryKey)
    {
      var current := if error.Some? && error.value != [] then error else None;
      if current.Some? && current != renderError {
        renderError := current;
      } else if current.None? && renderError.Some? {
        renderError := None;
      }
    }

    /** Retry: clear the shown error and bump the retry key. */
    method RetryRender()
      modifies this
      ensures renderError.None? && retryKey == old(retryKey) + 1
      ensures dragging == old(dragging) && zoom == old(zoom)
    {
      renderError := None;
      retryKey := retryKey + 1;
    }

    /** Mouse down on a point: starts dragging and selects it, only while adjustment is on. */
    method MouseDown(id: string, adjust: bool) returns (selected: Option<string>)
      modifies this
      ensures !adjust ==> selected.None? && dragging == old(dragging)
      ensures adjust ==> selected == Some(id) && dragging == Some(id)
      ensures zoom == old(zoom) && renderError == old(renderError) && retryKey == old(retryKey)
    {
      if !adjust {
        return None;
      }
      dragging := Some(id);
      selected := Some(id);
    }

    /**
     * Mouse move: while a point is dragged (an empty id counts as none), the
     * canvas is on screen and adjustment is on, asks to move that point to the
     * pointer's clamped percentage position.
     */
    method MouseMove(clientX: real, clientY: real, rect: Option<Rect>, adjust: bool)
      returns (move: Option<Move>)
      ensures move.Some? <==> dragging.Some? && dragging.value != [] && rect.Some? && adjust
      ensures move.Some? ==> move.value.id == dragging.value
      ensures move.Some? ==> move.value.x == PointerPercent(clientX, rect.value.left, rect.value.width) &&
                             move.value.y == PointerPercent(clientY, rect.value.top, rect.value.height)
      ensures move.Some? && rect.value.width > 0.0 && rect.value.height > 0.0 ==>
                InPercentRange(move.value.x) && InPercentRange(move.value.y)
    {
      if dragging.None? || dragging.value == [] || rect.None? || !adjust {
        return None;
      }
      var r := rect.value;
      move := Some(Move(dragging.value,
                        PointerPercent(clientX, r.left, r.width),
                        PointerPercent(clientY, r.top, r.height)));
    }

    /** Mouse up: the drag ends. */
    method MouseUp()
      modifies this
      ensures dragging.None?
      ensures zoom == old(zoom) && renderError == old(renderError) && retryKey == old(retryKey)
    {
      dragging := None;
    }

    /** Zoom in by 0.2, capped at 3. */
    method ZoomIn()
      requires Valid()
      modifies this
      ensures Valid()
      ensures zoom == ZoomStep(old(zoom), true)
      ensures dragging == old(dragging) && renderError == old(renderError) && retryKey == old(retryKey)
    {
      zoom := ZoomStep(zoom, true);
    }

    /** Zoom out by 0.2, floored at 0.5. */
    method ZoomOut()
      requires Valid()
      modifies this
      ensures Valid()
      ensures zoom == ZoomStep(old(zoom), false)
      ensures dragging == old(dragging) && renderError == old(renderError) && retryKey == old(retryKey)
    {
      zoom := ZoomStep(zoom, false);
    }
  }

  /**
   * One zoom step: in by 0.2 capped at 3, or out by 0.2 floored at 0.5. Zooming
   * in never passes 3, zooming out never passes 0.5, and a zoom in [0.5, 3]
   * stays there.
   */
  function ZoomStep(zoom: real, zoomIn: bool): (r: real)
    ensures zoomIn ==> r <= 3.0 && (zoom <= 2.8 ==> r == zoom + 0.2) && (zoom > 2.8 ==> r == 3.0)
    ensures !zoomIn ==> r >= 0.5 && (zoom >= 0.7 ==> r == zoom - 0.2) && (zoom < 0.7 ==> r == 0.5)
    ensures 0.5 <= zoom <= 3.0 ==> 0.5 <= r <= 3.0
  {
    if zoomIn then (if zoom + 0.2 < 3.0 then zoom + 0.2 else 3.0)
    else (if zoom - 0.2 > 0.5 then zoom - 0.2 else 0.5)
  }

  /** The zoom after a sequence of zoom-ins (true) and zoom-outs (false). */
  function ZoomAfter(zoom: real, steps: seq<bool>): real
    decreases steps
  {
    if steps == [] then zoom else ZoomAfter(ZoomStep(zoom, steps[0]), steps[1..])
  }

  /** Zoom stays in [0.5, 3] under any sequence of steps. */
  lemma {:induction false} ZoomStaysInRange(zoom: real, steps: seq<bool>)
    requires 0.5 <= zoom <= 3.0
    ensures 0.5 <= ZoomAfter(zoom, steps) <= 3.0
    decreases steps
  {
    if steps != [] {
      ZoomStaysInRange(ZoomStep(zoom, steps[0]), steps[1..]);
    }
  }
}
