/**
 * The filter panel: a single-field update of the filter record, the reset to
 * neutral values, the slider ranges, the hue quick presets and the grain menus.
 */
module FilterSection {
  import opened JsNumber
  import opened JsText
  import opened GradientTypes
  import opened GradientCanvas

  /** The numeric fields of the filter record. */
  datatype NumericFilter = Brightness | Contrast | Saturation | Hue | Blur | Grain

  /** The text fields of the filter record. */
  datatype TextFilter = GrainType | GrainBlendMode

  function Numeric(f: FilterState, key: NumericFilter): Num {
    match key
    case Brightness => f.brightness
    case Contrast => f.contrast
    case Saturation => f.saturation
    case Hue => f.hue
    case Blur => f.blur
    case Grain => f.grain
  }

  function Text(f: FilterState, key: TextFilter): string {
    match key
    case GrainType => f.grainType
    case GrainBlendMode => f.grainBlendMode
  }

  /** `updateFilter` on a numeric field: that field takes `value`, every other field stays. */
  function UpdateNumeric(f: FilterState, key: NumericFilter, value: Num): (r: FilterState)
    ensures Numeric(r, key) == value
    ensures forall other: NumericFilter :: other != key ==> Numeric(r, other) == Numeric(f, other)
    ensures forall t: TextFilter :: Text(r, t) == Text(f, t)
  {
    match key
    case Brightness => f.(brightness := value)
    case Contrast => f.(contrast := value)
    case Saturation => f.(saturation := value)
    case Hue => f.(hue := value)
    case Blur => f.(blur := value)
    case Grain => f.(grain := value)
  }

  /** `updateFilter` on a text field: that field takes `value`, every other field stays. */
  function UpdateText(f: FilterState, key: TextFilter, value: string): (r: FilterState)
    ensures Text(r, key) == value
    ensures forall other: TextFilter :: other != key ==> Text(r, other) == Text(f, other)
    ensures forall n: NumericFilter :: Numeric(r, n) == Numeric(f, n)
  {
    match key
    case GrainType => f.(grainType := value)
    case GrainBlendMode => f.(grainBlendMode := value)
  }

  /** Two records that agree on every field are the same record. */
  lemma FieldsDetermineFilters(a: FilterState, b: FilterState)
    requires forall n: NumericFilter :: Numeric(a, n) == Numeric(b, n)
    requires forall t: TextFilter :: Text(a, t) == Text(b, t)
    ensures a == b
  {
    assert Numeric(a, Brightness) == Numeric(b, Brightness);
    assert Numeric(a, Contrast) == Numeric(b, Contrast);
    assert Numeric(a, Saturation) == Numeric(b, Saturation);
    assert Numeric(a, Hue) == Numeric(b, Hue);
    assert Numeric(a, Blur) == Numeric(b, Blur);
    assert Numeric(a, Grain) == Numeric(b, Grain);
    assert Text(a, GrainType) == Text(b, GrainType);
    assert Text(a, GrainBlendMode) == Text(b, GrainBlendMode);
  }

  /** Writing back a field's own value changes nothing; a second write replaces the first. */
  lemma UpdateNumericLaws(f: FilterState, key: NumericFilter, a: Num, b: Num)
    ensures UpdateNumeric(f, key, Numeric(f, key)) == f
    ensures UpdateNumeric(UpdateNumeric(f, key, a), key, b) == UpdateNumeric(f, key, b)
  {
    FieldsDetermineFilters(UpdateNumeric(f, key, Numeric(f, key)), f);
    FieldsDetermineFilters(UpdateNumeric(UpdateNumeric(f, key, a), key, b), UpdateNumeric(f, key, b));
  }

  /** `resetFilters`: the neutral record, whatever was set before. */
  function ResetFilters(): (r: FilterState)
    ensures FiltersInRange(r)
    ensures SanitizeFilters(r) == r
    ensures r.grainType == "noise" && r.grainBlendMode == "normal"
  {
    FilterState(Fin(100.0), Fin(100.0), Fin(100.0), Fin(0.0), Fin(0.0), Fin(0.0), "noise", "normal")
  }

  /**
   * The reset values are exactly the values the preview falls back to when
   * every numeric filter is non-finite.
   */
  lemma ResetMatchesSanitizerFallbacks(f: FilterState)
    requires forall n: NumericFilter :: !Numeric(f, n).Fin?
    ensures forall n: NumericFilter :: Numeric(SanitizeFilters(f), n) == Numeric(ResetFilters(), n)
  {
    assert !Numeric(f, Brightness).Fin? && !Numeric(f, Contrast).Fin? && !Numeric(f, Saturation).Fin?;
    assert !Numeric(f, Hue).Fin? && !Numeric(f, Blur).Fin? && !Numeric(f, Grain).Fin?;
  }

  /** A slider of the panel: the field it sets and its range. */
  datatype FilterControl = FilterControl(key: NumericFilter, name: string, min: int, max: int, unit: string)

  /** The sliders, in panel order. Saturation has none. */
  function FilterControls(): (r: seq<FilterControl>)
    ensures |r| == 5
    ensures forall i :: 0 <= i < |r| ==> r[i].key != Saturation && r[i].min < r[i].max
  {
    [ FilterControl(Grain, "Grain", 0, 100, "%"),
      FilterControl(Blur, "Blur", 0, 10, "px"),
      FilterControl(Contrast, "Contrast", 0, 200, "%"),
      FilterControl(Brightness, "Brightness", 0, 200, "%"),
      FilterControl(Hue, "Hue", -180, 180, "°") ]
  }

  /**
   * Any value a slider can produce survives the preview's sanitiser unchanged:
   * each slider's range lies inside the clamp range of its field.
   */
  lemma SliderValueSurvivesSanitizer(f: FilterState, i: nat, v: real)
    requires i < |FilterControls()|
    requires FilterControls()[i].min as real <= v <= FilterControls()[i].max as real
    ensures var key := FilterControls()[i].key;
            Numeric(SanitizeFilters(UpdateNumeric(f, key, Fin(v))), key) == Fin(v)
  {
    assert [0, 1, 2, 3, 4][i] == i;
  }

  /** A hue preset button: its label and value in degrees. */
  datatype HuePreset = HuePreset(name: string, value: int)

  function QuickPresets(): (r: seq<HuePreset>)
    ensures |r| == 6
  {
    [ HuePreset("0°", 0), HuePreset("15°", 15), HuePreset("30°", 30),
      HuePreset("45°", 45), HuePreset("60°", 60), HuePreset("90°", 90) ]
  }

  /**
   * Every hue preset lies inside the hue slider's range, and choosing one
   * changes the hue alone, to a value the sanitiser keeps.
   */
  lemma QuickPresetInRange(f: FilterState, k: nat)
    requires k < |QuickPresets()|
    ensures var v := QuickPresets()[k].value;
            FilterControls()[4].min <= v <= FilterControls()[4].max &&
            Numeric(SanitizeFilters(UpdateNumeric(f, Hue, Fin(v as real))), Hue) == Fin(v as real)
  {
    assert [0, 1, 2, 3, 4, 5][k] == k;
    SliderValueSurvivesSanitizer(f, 4, QuickPresets()[k].value as real);
  }

  /** The grain pattern menu. */
  function GrainTypes(): (r: seq<string>)
    ensures |r| == 3
  {
    ["noise", "svg", "perlin"]
  }

  /** The blend modes the record's type declares. */
  function DeclaredBlendModes(): (r: seq<string>)
    ensures |r| == 12
  {
    ["normal", "multiply", "screen", "overlay", "soft-light", "hard-light",
     "color-dodge", "color-burn", "darken", "lighten", "difference", "exclusion"]
  }

  /** The blend-mode menu: the declared twelve and two more. */
  function BlendModes(): (r: seq<string>)
    ensures |r| == 14
    ensures r[..12] == DeclaredBlendModes()
  {
    DeclaredBlendModes() + ["luminosity", "plus-lighter"]
  }

  /**
   * The menu offers "luminosity" and "plus-lighter", which the declared type
   * does not list, and the preview passes any blend mode through unchanged.
   */
  lemma UndeclaredBlendModesPassThrough(f: FilterState, k: nat)
    requires k < |BlendModes()|
    ensures k >= 12 <==> BlendModes()[k] !in DeclaredBlendModes()
    ensures SanitizeFilters(UpdateText(f, GrainBlendMode, BlendModes()[k])).grainBlendMode == BlendModes()[k]
  {
    var m := BlendModes()[k];
    if k < 12 {
      assert m == DeclaredBlendModes()[k];
    } else {
      assert m == "luminosity" || m == "plus-lighter";
      assert m[0] == 'l' ==> m[1] == 'u';
    }
  }
}
