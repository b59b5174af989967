/**
 * The application shell: the initial gradient, the record updates the panels
 * call, the randomise action, moving a point, and the editor object that holds
 * the single gradient state and the selected point.
 */
module App {
  import opened Wrappers
  import opened JsNumber
  import opened JsText
  import opened GradientTypes
  import opened GradientCanvas
  import opened ColorSection
  import opened FilterSection

  // ---------------------------------------------------------------------------
  // The initial state.

  function InitialColors(): (r: seq<ColorPoint>)
    ensures |r| == 4 && Ids(r) == ["1", "2", "3", "4"]
    ensures forall i :: 0 <= i < |r| ==> IsHexColor(r[i].color)
  {
    [ ColorPoint("1", "#ff6b9d", Fin(20.0), Fin(20.0)),
      ColorPoint("2", "#4ecdc4", Fin(80.0), Fin(20.0)),
      ColorPoint("3", "#45b7d1", Fin(20.0), Fin(80.0)),
      ColorPoint("4", "#f9ca24", Fin(80.0), Fin(80.0)) ]
  }

  /** The initial filters are the neutral record the panel's reset restores. */
  function InitialFilters(): (r: FilterState)
    ensures r == ResetFilters()
  {
    FilterState(Fin(100.0), Fin(100.0), Fin(100.0), Fin(0.0), Fin(0.0), Fin(0.0), "noise", "normal")
  }

  function InitialCanvas(): (r: CanvasState)
    ensures PositiveSize(r)
  {
    CanvasState(Fin(800.0), Fin(600.0), Fin(1.0), "4:3")
  }

  function InitialState(): (r: GradientState)
    ensures DistinctIds(r.colors)
    ensures !r.adjustColorPosition && r.animationSpeed == Fin(0.0) && r.blendMode == "normal"
  {
    var colors := InitialColors();
    assert forall i :: 0 <= i < 4 ==> colors[i].id == ["1", "2", "3", "4"][i];
    GradientState(colors, InitialFilters(), InitialCanvas(), Fin(0.0), "normal", false)
  }

  /** A well-formed hex colour has no whitespace at either end. */
  lemma HexColorTrimmed(c: string)
    requires IsHexColor(c)
    ensures c != [] && !IsWhitespace(c[0]) && !IsWhitespace(c[|c| - 1])
  {
  }

  /**
   * The preview draws the initial state as it is: every point survives the
   * sanitiser unchanged, the filters are already in range, and there is no error.
   */
  lemma InitialStateRendersUnchanged()
    ensures SanitizeColors(InitialState().colors) == InitialState().colors
    ensures SanitizeFilters(InitialState().filters) == InitialState().filters
    ensures CanvasRendering(InitialState()).error.None?
  {
    var colors := InitialColors();
    forall i | 0 <= i < |colors|
      ensures Clean(colors[i])
    {
      HexColorTrimmed(colors[i].color);
      assert InPercentRange(colors[i].x) && InPercentRange(colors[i].y) by {
        assert colors[i].x == [Fin(20.0), Fin(80.0), Fin(20.0), Fin(80.0)][i];
        assert colors[i].y == [Fin(20.0), Fin(20.0), Fin(80.0), Fin(80.0)][i];
      }
    }
    SanitizeColorsClean(colors);
    assert !AllWhitespace(colors[0].color) by {
      assert !IsWhitespace(colors[0].color[0]);
    }
  }

  // ---------------------------------------------------------------------------
  // Point edits.

  /** `onColorMove`: the points with that id move to (x, y); everything else stays. */
  function MoveColor(colors: seq<ColorPoint>, id: string, x: Num, y: Num): (r: seq<ColorPoint>)
    ensures SameExceptPosition(colors, r)
    ensures forall i :: 0 <= i < |r| ==>
              if colors[i].id == id then r[i].x == x && r[i].y == y else r[i] == colors[i]
  {
    seq(|colors|, i requires 0 <= i < |colors| =>
      if colors[i].id == id then colors[i].(x := x, y := y) else colors[i])
  }

  /**
   * A drag keeps the preview's points clean: moving a clean point to a clamped
   * pointer position leaves every point drawable unchanged.
   */
  lemma MoveColorKeepsClean(colors: seq<ColorPoint>, id: string, x: Num, y: Num)
    requires forall i :: 0 <= i < |colors| ==> Clean(colors[i])
    requires InPercentRange(x) && InPercentRange(y)
    ensures SanitizeColors(MoveColor(colors, id, x, y)) == MoveColor(colors, id, x, y)
  {
    var r := MoveColor(colors, id, x, y);
    forall i | 0 <= i < |r|
      ensures Clean(r[i])
    {
      assert r[i].color == colors[i].color;
    }
    SanitizeColorsClean(r);
  }

  /** Three `Math.random()` draws for one point: colour, x and y, each in [0, 1). */
  datatype Draw = Draw(color: real, x: real, y: real)

  predicate ValidDraws(draws: seq<Draw>) {
    forall i :: 0 <= i < |draws| ==>
      0.0 <= draws[i].color < 1.0 && 0.0 <= draws[i].x < 1.0 && 0.0 <= draws[i].y < 1.0
  }

  /**
   * `randomizeGradient`'s new list: every point gets a random colour and a
   * random position in [0, 100); ids and order stay.
   */
  function RandomizedColors(colors: seq<ColorPoint>, draws: seq<Draw>): (r: seq<ColorPoint>)
    requires |draws| == |colors| && ValidDraws(draws)
    ensures |r| == |colors| && Ids(r) == Ids(colors)
    ensures forall i :: 0 <= i < |r| ==>
              IsHexColor(r[i].color) &&
              r[i].x.Fin? && 0.0 <= r[i].x.val < 100.0 && r[i].y.Fin? && 0.0 <= r[i].y.val < 100.0
  {
    seq(|colors|, i requires 0 <= i < |colors| =>
      colors[i].(color := RandomHexColor(draws[i].color),
                 x := Fin(draws[i].x * 100.0),
                 y := Fin(draws[i].y * 100.0)))
  }

  /** The preview draws every randomised point as it is, so a non-empty list always renders. */
  lemma RandomizedColorsRender(colors: seq<ColorPoint>, draws: seq<Draw>)
    requires |draws| == |colors| && ValidDraws(draws)
    ensures SanitizeColors(RandomizedColors(colors, draws)) == RandomizedColors(colors, draws)
    ensures colors != [] ==> HasVisibleColor(RandomizedColors(colors, draws))
  {
    var r := RandomizedColors(colors, draws);
    forall i | 0 <= i < |r|
      ensures Clean(r[i])
    {
      HexColorTrimmed(r[i].color);
    }
    SanitizeColorsClean(r);
    if colors != [] {
      assert !AllWhitespace(r[0].color) by {
        assert !IsWhitespace(r[0].color[0]);
      }
    }
  }

  // ---------------------------------------------------------------------------
  // Partial updates.

  /** A `Partial<GradientState>`: the fields present in the update. */
  datatype GradientUpdate = GradientUpdate(
    colors: Option<seq<ColorPoint>>,
    filters: Option<FilterState>,
    canvas: Option<CanvasState>,
    animationSpeed: Option<Num>,
    blendMode: Option<string>,
    adjustColorPosition: Option<bool>)

  function Pick<T>(o: Option<T>, otherwise: T): T {
    if o.Some? then o.value else otherwise
  }

  /** `{ ...prev, ...updates }` */
  function ApplyUpdate(s: GradientState, u: GradientUpdate): (r: GradientState)
    ensures u.colors.Some? ==> r.colors == u.colors.value
    ensures u.colors.None? ==> r.colors == s.colors
    ensures u.filters.Some? ==> r.filters == u.filters.value
    ensures u.filters.None? ==> r.filters == s.filters
    ensures u.canvas.Some? ==> r.canvas == u.canvas.value
    ensures u.canvas.None? ==> r.canvas == s.canvas
    ensures u.animationSpeed.Some? ==> r.animationSpeed == u.animationSpeed.value
    ensures u.animationSpeed.None? ==> r.animationSpeed == s.animationSpeed
    ensures u.blendMode.Some? ==> r.blendMode == u.blendMode.value
    ensures u.blendMode.None? ==> r.blendMode == s.blendMode
    ensures u.adjustColorPosition.Some? ==> r.adjustColorPosition == u.adjustColorPosition.value
    ensures u.adjustColorPosition.None? ==> r.adjustColorPosition == s.adjustColorPosition
  {
    GradientState(
      Pick(u.colors, s.colors),
      Pick(u.filters, s.filters),
      Pick(u.canvas, s.canvas),
      Pick(u.animationSpeed, s.animationSpeed),
      Pick(u.blendMode, s.blendMode),
      Pick(u.adjustColorPosition, s.adjustColorPosition))
  }

  /** `{ ...u, ...v }`: the later update wins on the fields both carry. */
  function Combine(u: GradientUpdate, v: GradientUpdate): GradientUpdate {
    GradientUpdate(
      if v.colors.Some? then v.colors else u.colors,
      if v.filters.Some? then v.filters else u.filters,
      if v.canvas.Some? then v.canvas else u.canvas,
      if v.animationSpeed.Some? then v.animationSpeed else u.animationSpeed,
      if v.blendMode.Some? then v.blendMode else u.blendMode,
      if v.adjustColorPosition.Some? then v.adjustColorPosition else u.adjustColorPosition)
  }

  const NoUpdate := GradientUpdate(None, None, None, None, None, None)

  /**
   * An empty update changes nothing, and two updates in a row are one combined
   * update.
   */
  lemma ApplyUpdateLaws(s: GradientState, u: GradientUpdate, v: GradientUpdate)
    ensures ApplyUpdate(s, NoUpdate) == s
    ensures ApplyUpdate(ApplyUpdate(s, u), v) == ApplyUpdate(s, Combine(u, v))
  {
  }

  /** `updateColors`, `updateFilters` and `updateCanvas` are one-field updates. */
  function ColorsUpdate(colors: seq<ColorPoint>): GradientUpdate {
    NoUpdate.(colors := Some(colors))
  }

  function FiltersUpdate(filters: FilterState): GradientUpdate {
    NoUpdate.(filters := Some(filters))
  }

  function CanvasUpdate(canvas: CanvasState): GradientUpdate {
    NoUpdate.(canvas := Some(canvas))
  }

  /** The editor: the one gradient state and the selected point. */
  class Editor {
    var state: GradientState
    var selectedColorId: Option<string>

    constructor ()
      ensures state == InitialState() && selectedColorId == None
    {
      state := InitialState();
      selectedColorId := None;
    }

    /** `updateColors`: the list is replaced; every other field stays. */
    method UpdateColors(colors: seq<ColorPoint>)
      modifies this
      ensures state == old(state).(colors := colors)
      ensures state == ApplyUpdate(old(state), ColorsUpdate(colors))
      ensures selectedColorId == old(selectedColorId)
    {
      state := state.(colors := colors);
    }

    /** `updateFilters`: the filters are replaced; every other field stays. */
    method UpdateFilters(filters: FilterState)
      modifies this
      ensures state == old(state).(filters := filters)
      ensures state == ApplyUpdate(old(state), FiltersUpdate(filters))
      ensures selectedColorId == old(selectedColorId)
    {
      state := state.(filters := filters);
    }

    /** `updateCanvas`: the canvas is replaced; every other field stays. */
    method UpdateCanvas(canvas: CanvasState)
      modifies this
      ensures state == old(state).(canvas := canvas)
      ensures state == ApplyUpdate(old(state), CanvasUpdate(canvas))
      ensures selectedColorId == old(selectedColorId)
    {
      state := state.(canvas := canvas);
    }

    /** `updateGradientState`: exactly the fields present in the update are overwritten. */
    method UpdateGradientState(u: GradientUpdate)
      modifies this
      ensures state == ApplyUpdate(old(state), u)
      ensures selectedColorId == old(selectedColorId)
    {
      state := ApplyUpdate(state, u);
    }

    /** `randomizeGradient` with one draw triple per point. */
    method RandomizeGradient(draws: seq<Draw>)
      requires |draws| == |state.colors| && ValidDraws(draws)
      modifies this
      ensures state == old(state).(colors := RandomizedColors(old(state).colors, draws))
      ensures SanitizeColors(state.colors) == state.colors
      ensures selectedColorId == old(selectedColorId)
    {
      var colors := RandomizedColors(state.colors, draws);
      RandomizedColorsRender(state.colors, draws);
      UpdateColors(colors);
    }

    /** The canvas's `onColorMove` callback. */
    method OnColorMove(id: string, x: Num, y: Num)
      modifies this
      ensures state == old(state).(colors := MoveColor(old(state).colors, id, x, y))
      ensures selectedColorId == old(selectedColorId)
    {
      UpdateColors(MoveColor(state.colors, id, x, y));
    }

    /** `setSelectedColorId` */
    method SelectColor(id: Option<string>)
      modifies this
      ensures selectedColorId == id && state == old(state)
    {
      selectedColorId := id;
    }
  }
}
