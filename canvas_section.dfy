/**
 * The canvas panel: the integer clamp on output sizes, the per-field error
 * messages, size templates, ratio presets, the orientation toggle and the
 * large-canvas warning.
 */
module CanvasSection {
  import opened Wrappers
  import opened JsNumber
  import opened JsText
  import opened GradientTypes

  const MaxDimension := 8000
  const MinDimension := 1
  const PerformanceDimension := 4000
  const PerformanceArea := 24000000

  const MaxMessage := "Maximum size is 8000px"
  const MinMessage := "Minimum size is 1px"
  const NumericMessage := "Enter a numeric value"
  const NoTemplate := "Choose Template"

  datatype Dimension = Width | Height

  /** A partial canvas record: the fields an update sets. */
  datatype CanvasUpdate = CanvasUpdate(
    width: Option<Num>,
    height: Option<Num>,
    scale: Option<Num>,
    ratio: Option<string>)

  // ---------------------------------------------------------------------------
  // Clamping sizes.

  /** An integer in [1, 8000]: a size the clamp leaves alone. */
  predicate InDimensionRange(n: Num) {
    n.Fin? && n.val == n.val.Floor as real && 1.0 <= n.val <= 8000.0
  }

  /** `clampDimension`: round to the nearest integer and clamp into [1, 8000]; 1 when not finite. */
  function ClampDimension(value: Num): (r: int)
    ensures MinDimension <= r <= MaxDimension
    ensures !value.Fin? ==> r == MinDimension
    ensures value.Fin? && 0.5 <= value.val < 8000.5 ==> r == RoundReal(value.val)
    ensures value.Fin? && value.val < 0.5 ==> r == MinDimension
    ensures value.Fin? && value.val >= 8000.5 ==> r == MaxDimension
  {
    if !value.Fin? then MinDimension
    else
      var rounded := RoundReal(value.val);
      if rounded < MinDimension then MinDimension
      else if rounded > MaxDimension then MaxDimension
      else rounded
  }

  /** The clamp leaves a size alone exactly when it is an integer in [1, 8000]. */
  lemma ClampDimensionFixedIff(value: Num)
    ensures Fin(ClampDimension(value) as real) == value <==> InDimensionRange(value)
  {
    if InDimensionRange(value) {
      RoundInteger(value.val.Floor);
    }
  }

  /** Rounding an integer gives it back. */
  lemma RoundInteger(n: int)
    ensures RoundReal(n as real) == n
  {
  }

  /** Clamping a clamped size changes nothing. */
  lemma ClampDimensionIdempotent(value: Num)
    ensures ClampDimension(Fin(ClampDimension(value) as real)) == ClampDimension(value)
  {
    ClampDimensionFixedIff(Fin(ClampDimension(value) as real));
  }

  /** The message for a size the clamp changed. */
  function DimensionMessage(raw: Num): (r: string)
    ensures r == MaxMessage <==> Less(Fin(8000.0), raw)
    ensures r == MinMessage <==> !Less(Fin(8000.0), raw)
  {
    if Less(Fin(8000.0), raw) then MaxMessage else MinMessage
  }

  /**
   * The error a field shows after an update: set when the clamp changed the
   * field, cleared when the update set the field to a value the clamp kept,
   * and otherwise left as it was.
   */
  function ErrorAfter(prev: Option<string>, raw: Num, updated: bool): (r: Option<string>)
    ensures !InDimensionRange(raw) ==> r == Some(DimensionMessage(raw))
    ensures InDimensionRange(raw) && updated ==> r.None?
    ensures InDimensionRange(raw) && !updated ==> r == prev
  {
    ClampDimensionFixedIff(raw);
    if Fin(ClampDimension(raw) as real) != raw then Some(DimensionMessage(raw))
    else if updated then None
    else prev
  }

  /** A size between the limits that is not an integer is reported as too small. */
  lemma FractionalSizeReportedAsMinimum(x: real, prev: Option<string>, updated: bool)
    requires 1.0 <= x <= 8000.0 && x != x.Floor as real
    ensures ErrorAfter(prev, Fin(x), updated) == Some(MinMessage)
  {
  }

  // ---------------------------------------------------------------------------
  // Merging an update.

  /** `{ ...canvas, ...updates }` */
  function Merge(c: CanvasState, u: CanvasUpdate): (r: CanvasState)
    ensures u.width.Some? ==> r.width == u.width.value
    ensures u.width.None? ==> r.width == c.width
    ensures u.height.Some? ==> r.height == u.height.value
    ensures u.height.None? ==> r.height == c.height
    ensures u.scale.Some? ==> r.scale == u.scale.value
    ensures u.scale.None? ==> r.scale == c.scale
    ensures u.ratio.Some? ==> r.ratio == u.ratio.value
    ensures u.ratio.None? ==> r.ratio == c.ratio
  {
    CanvasState(
      if u.width.Some? then u.width.value else c.width,
      if u.height.Some? then u.height.value else c.height,
      if u.scale.Some? then u.scale.value else c.scale,
      if u.ratio.Some? then u.ratio.value else c.ratio)
  }

  /** A canvas whose sizes are integers in [1, 8000]. */
  predicate InRangeCanvas(c: CanvasState) {
    InDimensionRange(c.width) && InDimensionRange(c.height)
  }

  /** The canvas pushed after an update: the merge with both sizes clamped. */
  function ClampedMerge(c: CanvasState, u: CanvasUpdate): (r: CanvasState)
    ensures InRangeCanvas(r)
    ensures r.width == Fin(ClampDimension(Merge(c, u).width) as real)
    ensures r.height == Fin(ClampDimension(Merge(c, u).height) as real)
    ensures r.scale == Merge(c, u).scale && r.ratio == Merge(c, u).ratio
    ensures InRangeCanvas(Merge(c, u)) ==> r == Merge(c, u)
  {
    var next := Merge(c, u);
    ClampDimensionFixedIff(next.width);
    ClampDimensionFixedIff(next.height);
    ClampDimensionIdempotent(next.width);
    ClampDimensionIdempotent(next.height);
    next.(width := Fin(ClampDimension(next.width) as real),
          height := Fin(ClampDimension(next.height) as real))
  }

  /** The other size field. */
  function Other(d: Dimension): (r: Dimension)
    ensures r != d
  {
    if d == Width then Height else Width
  }

  /** The size a field shows. */
  function SideOf(c: CanvasState, d: Dimension): Num {
    if d == Width then c.width else c.height
  }

  /** The error recorded for a field, if any. */
  function ErrorOf(errors: map<Dimension, string>, d: Dimension): Option<string> {
    if d in errors then Some(errors[d]) else None
  }

  /** `Boolean(errors.width || errors.height)` */
  predicate HasDimensionErrors(errors: map<Dimension, string>) {
    (Width in errors && errors[Width] != []) || (Height in errors && errors[Height] != [])
  }

  // ---------------------------------------------------------------------------
  // Templates.

  datatype Template = Template(platform: Option<string>, name: string, width: nat, height: nat, ratio: string)

  function Social(platform: string, name: string, width: nat, height: nat, ratio: string): Template {
    Template(Some(platform), name, width, height, ratio)
  }

  function Standard(name: string, width: nat, height: nat, ratio: string): Template {
    Template(None, name, width, height, ratio)
  }

  const SocialTemplates: seq<Template> := [
    Social("Facebook", "News Feed", 1200, 1200, "1:1"),
    Social("Facebook", "Stories", 1080, 1920, "9:16"),
    Social("Facebook", "Cover Photo", 830, 312, "2.7:1"),
    Social("Facebook", "Event Photo", 1336, 700, "1.9:1"),
    Social("Facebook", "Group Photo", 640, 334, "1.9:1"),
    Social("Instagram", "Feed", 1200, 1200, "1:1"),
    Social("Instagram", "Stories", 1080, 1920, "9:16"),
    Social("Instagram", "Reels", 1080, 1920, "9:16"),
    Social("Twitter", "Image", 1200, 675, "16:9"),
    Social("Twitter", "Cover Photo", 1200, 400, "3:1"),
    Social("Twitter", "Fleets", 1080, 1920, "9:16"),
    Social("LinkedIn", "Feed", 1200, 1200, "1:1"),
    Social("LinkedIn", "Cover Photo (Business)", 1128, 191, "5.9:1"),
    Social("LinkedIn", "Cover Photo (Personal)", 792, 198, "4:1"),
    Social("LinkedIn", "Stories", 1080, 1920, "9:16"),
    Social("YouTube", "Thumbnail", 1280, 720, "16:9"),
    Social("YouTube", "Banner", 2560, 1440, "16:9"),
    Social("YouTube", "Video (4K)", 3840, 2160, "16:9")]

  const StandardTemplates: seq<Template> := [
    Standard("Square", 800, 800, "1:1"),
    Standard("Landscape", 1200, 800, "3:2"),
    Standard("Portrait", 600, 800, "3:4"),
    Standard("Wide", 1600, 900, "16:9"),
    Standard("Ultra Wide", 2560, 1080, "21:9"),
    Standard("Mobile", 375, 667, "9:16"),
    Standard("Tablet", 768, 1024, "3:4"),
    Standard("Desktop", 1920, 1080, "16:9")]

  /** The options of the template menu, in menu order. */
  function AllTemplates(): (r: seq<Template>)
    ensures |r| == 26
    ensures r[..18] == SocialTemplates && r[18..] == StandardTemplates
  {
    SocialTemplates + StandardTemplates
  }

  /** Every template size is an integer in [1, 8000], and none is large enough to warn about. */
  lemma TemplatesInRange()
    ensures forall i :: 0 <= i < |AllTemplates()| ==>
              1 <= AllTemplates()[i].width <= 3840 && 1 <= AllTemplates()[i].height <= 2160
  {
  }

  /** The update a template applies. */
  function TemplateUpdate(t: Template): (u: CanvasUpdate)
    ensures u.scale.None? && u.ratio == Some(t.ratio)
    ensures u.width == Some(Fin(t.width as real)) && u.height == Some(Fin(t.height as real))
  {
    CanvasUpdate(Some(Fin(t.width as real)), Some(Fin(t.height as real)), None, Some(t.ratio))
  }

  /** The first template whose name matches: how the menu turns a choice into a template. */
  function FindTemplateByName(templates: seq<Template>, name: string): (r: Option<Template>)
    ensures r.Some? ==> r.value in templates && r.value.name == name
    ensures r.Some? ==> exists k :: 0 <= k < |templates| && templates[k] == r.value &&
                          forall j :: 0 <= j < k ==> templates[j].name != name
    ensures r.None? ==> forall t :: t in templates ==> t.name != name
  {
    if templates == [] then None
    else if templates[0].name == name then Some(templates[0])
    else
      var rest := FindTemplateByName(templates[1..], name);
      if rest.Some? then
        var k :| 0 <= k < |templates[1..]| && templates[1..][k] == rest.value &&
                 forall j :: 0 <= j < k ==> templates[1..][j].name != name;
        assert templates[k + 1] == rest.value;
        assert forall j :: 0 <= j < k + 1 ==> templates[j].name != name by {
          forall j | 0 <= j < k + 1 ensures templates[j].name != name {
            if j > 0 { assert templates[j] == templates[1..][j - 1]; }
          }
        }
        rest
      else rest
  }

  /** The menu offers a name that belongs to two templates of different size. */
  lemma MenuChoiceByNameAppliesWrongTemplate()
    ensures AllTemplates()[9].platform == Some("Twitter") && AllTemplates()[9].width == 1200
    ensures FindTemplateByName(AllTemplates(), AllTemplates()[9].name).Some?
    ensures FindTemplateByName(AllTemplates(), AllTemplates()[9].name).value.width == 830
  {
    var all := AllTemplates();
    assert all[9].name == "Cover Photo";
    assert all[0].name != "Cover Photo" && all[1].name != "Cover Photo";
    assert all[2].name == "Cover Photo";
    assert FindTemplateByName(all[2..], "Cover Photo") == Some(all[2]);
    assert all[1..][1..] == all[2..];
  }

  /** An option value that tells the options apart: the option's position, in decimal. */
  function OptionValue(k: nat): string {
    IntText(k)
  }

  /** The template an option value stands for; none for "Choose Template" or anything else. */
  function FindTemplateByIndex(templates: seq<Template>, value: string): (r: Option<Template>)
    ensures r.Some? ==> r.value in templates
  {
    match ParseNumber(value)
    case Fin(v) =>
      if v == v.Floor as real && 0 <= v.Floor < |templates| then Some(templates[v.Floor]) else None
    case _ => None
  }

  /** Choosing option k of the menu by its position applies option k, for every k. */
  lemma MenuChoiceByIndexAppliesChosenTemplate(k: nat)
    requires k < |AllTemplates()|
    ensures FindTemplateByIndex(AllTemplates(), OptionValue(k)) == Some(AllTemplates()[k])
  {
    IntTextParses(k);
  }

  // ---------------------------------------------------------------------------
  // Ratios.

  const RatioPresets: seq<string> := [
    "1:1", "2:1", "3:1", "3:2", "4:3", "7:4",
    "8:7", "16:9", "1:2", "1:3", "2:3", "3:4",
    "4:7", "7:8", "9:16"]

  /** `ratio.split(':').map(Number)` destructured into `[w, h]`; a missing part reads as NaN. */
  function ParseRatio(ratio: string): (r: (Num, Num))
    ensures ':' !in ratio ==> r == (ParseNumber(Trim(ratio)), NaN)
  {
    var parts := Split(ratio, ':');
    assert ':' !in ratio ==> parts == [ratio] by {
      if ':' !in ratio { SplitNoSeparator(ratio, ':'); }
    }
    (ParseNumber(Trim(parts[0])), if |parts| >= 2 then ParseNumber(Trim(parts[1])) else NaN)
  }

  /** One side for a ratio: `Math.round(800 * (side / Math.max(w, h)))`. */
  function RatioSide(side: Num, w: Num, h: Num): (r: Num)
    ensures side.NaN? || w.NaN? || h.NaN? ==> r.NaN?
    ensures r.Fin? ==> r.val == r.val.Floor as real
  {
    Round(Mul(Fin(800.0), Div(side, Max(w, h))))
  }

  /**
   * For positive finite w and h, the longer side becomes 800 and the other
   * `round(800 * shorter / longer)`, which stays in [1, 800] when the ratio is at most 1600.
   */
  lemma RatioSides(w: real, h: real)
    requires w > 0.0 && h > 0.0
    ensures var longer := if w < h then h else w;
            var rw := RatioSide(Fin(w), Fin(w), Fin(h));
            var rh := RatioSide(Fin(h), Fin(w), Fin(h));
            rw.Fin? && rh.Fin? &&
            rw == Fin(RoundReal(800.0 * (w / longer)) as real) &&
            rh == Fin(RoundReal(800.0 * (h / longer)) as real) &&
            (w >= h ==> rw == Fin(800.0)) && (h >= w ==> rh == Fin(800.0)) &&
            0.0 <= rw.val <= 800.0 && 0.0 <= rh.val <= 800.0 &&
            (longer <= 1600.0 * w ==> rw.val >= 1.0) && (longer <= 1600.0 * h ==> rh.val >= 1.0)
  {
    var longer := if w < h then h else w;
    assert Max(Fin(w), Fin(h)) == Fin(longer);
    RatioSideBounds(w, longer);
    RatioSideBounds(h, longer);
  }

  lemma RatioSideBounds(side: real, longer: real)
    requires 0.0 < side <= longer
    ensures var q := 800.0 * (side / longer);
            0.0 < q <= 800.0 && (side == longer ==> q == 800.0) &&
            0 <= RoundReal(q) <= 800 && (longer <= 1600.0 * side ==> RoundReal(q) >= 1)
  {
    var q := 800.0 * (side / longer);
    assert side / longer <= 1.0;
    if longer <= 1600.0 * side {
      DivAtLeast(800.0 * side, longer, 0.5);
      assert q == (800.0 * side) / longer;
    }
  }

  lemma DivAtLeast(a: real, b: real, c: real)
    requires b > 0.0 && a >= c * b
    ensures a / b >= c
  {
    assert a / b - c == (a - c * b) / b;
  }

  /** A label written as two positive integers. */
  function RatioLabel(a: nat, b: nat): string {
    NatDigits(a, 10) + ":" + NatDigits(b, 10)
  }

  /** A label of two integers reads back as those integers. */
  lemma ParseRatioLabel(a: nat, b: nat)
    ensures ParseRatio(RatioLabel(a, b)) == (Fin(a as real), Fin(b as real))
  {
    SplitRatioLabel(a, b);
    DigitsParse(a);
    DigitsParse(b);
  }

  /** A label splits at its colon into the two digit strings. */
  lemma SplitRatioLabel(a: nat, b: nat)
    ensures Split(RatioLabel(a, b), ':') == [NatDigits(a, 10), NatDigits(b, 10)]
  {
    var da := NatDigits(a, 10);
    var db := NatDigits(b, 10);
    NoColonInDigits(da);
    NoColonInDigits(db);
    assert RatioLabel(a, b) == da + [':'] + db;
    SplitAtSeparator(da, ':', db);
    SplitNoSeparator(db, ':');
  }

  lemma NoColonInDigits(d: string)
    requires AllDigits(d, 10)
    ensures ':' !in d
  {
    forall k | 0 <= k < |d| ensures d[k] != ':' {
      assert IsDigit(d[k], 10);
    }
  }

  /** The digits of a natural number, trimmed and read by `Number`, give the number back. */
  lemma DigitsParse(n: nat)
    ensures ParseNumber(Trim(NatDigits(n, 10))) == Fin(n as real)
  {
    var d := NatDigits(n, 10);
    assert IsDigit(d[0], 10) && IsDigit(d[|d| - 1], 10);
    TrimUnpadded(d);
    assert IntText(n) == d;
    IntTextParses(n);
  }

  /** Every ratio preset sets both sides to integers in [1, 800], the longer one to 800. */
  lemma RatioPresetsFit(k: nat)
    requires k < |RatioPresets|
    ensures var (w, h) := ParseRatio(RatioPresets[k]);
            var rw := RatioSide(w, w, h);
            var rh := RatioSide(h, w, h);
            InDimensionRange(rw) && InDimensionRange(rh) && rw.val <= 800.0 && rh.val <= 800.0 &&
            (rw == Fin(800.0) || rh == Fin(800.0))
  {
    RatioPresetLabel(k);
    RatioLabelFits(RatioPairs[k].0, RatioPairs[k].1);
  }

  /** A label of two positive sides at most 1600 to 1 apart gives sides in [1, 800], one of them 800. */
  lemma RatioLabelFits(a: nat, b: nat)
    requires 0 < a <= 1600 * b && 0 < b <= 1600 * a
    ensures var (w, h) := ParseRatio(RatioLabel(a, b));
            var rw := RatioSide(w, w, h);
            var rh := RatioSide(h, w, h);
            InDimensionRange(rw) && InDimensionRange(rh) && rw.val <= 800.0 && rh.val <= 800.0 &&
            (rw == Fin(800.0) || rh == Fin(800.0))
  {
    ParseRatioLabel(a, b);
    RatioSides(a as real, b as real);
  }

  /** The sides each ratio preset names. */
  const RatioPairs: seq<(nat, nat)> := [
    (1, 1), (2, 1), (3, 1), (3, 2), (4, 3), (7, 4),
    (8, 7), (16, 9), (1, 2), (1, 3), (2, 3), (3, 4),
    (4, 7), (7, 8), (9, 16)]

  /** Each preset label is the label of its pair of positive sides. */
  lemma RatioPresetLabel(k: nat)
    requires k < |RatioPresets|
    ensures k < |RatioPairs| && 0 < RatioPairs[k].0 <= 16 && 0 < RatioPairs[k].1 <= 16
    ensures RatioPresets[k] == RatioLabel(RatioPairs[k].0, RatioPairs[k].1)
  {
  }

  /** The label with its ':'-separated parts in reverse order. */
  function ReverseLabel(ratio: string): (r: string)
    ensures ':' !in ratio ==> r == ratio
  {
    assert ':' !in ratio ==> Split(ratio, ':') == [ratio] by {
      if ':' !in ratio { SplitNoSeparator(ratio, ':'); }
    }
    Join(Reverse(Split(ratio, ':')), ":")
  }

  /** Reversing a label twice gives it back. */
  lemma ReverseLabelInvolution(ratio: string)
    ensures ReverseLabel(ReverseLabel(ratio)) == ratio
  {
    var parts := Split(ratio, ':');
    var rev := Reverse(parts);
    assert forall i :: 0 <= i < |rev| ==> ':' !in rev[i];
    SplitJoin(rev, ':');
    assert Reverse(rev) == parts;
    JoinSplit(ratio, ':');
  }

  /** The update the orientation toggle applies. */
  function ToggleUpdate(c: CanvasState): (u: CanvasUpdate)
    ensures u.width == Some(c.height) && u.height == Some(c.width) && u.scale.None?
    ensures u.ratio == Some(ReverseLabel(c.ratio))
  {
    CanvasUpdate(Some(c.height), Some(c.width), None, Some(ReverseLabel(c.ratio)))
  }

  /** Toggling twice restores a canvas whose sizes are in range. */
  lemma ToggleTwice(c: CanvasState)
    requires InRangeCanvas(c)
    ensures var once := ClampedMerge(c, ToggleUpdate(c));
            ClampedMerge(once, ToggleUpdate(once)) == c
  {
    ReverseLabelInvolution(c.ratio);
  }

  // ---------------------------------------------------------------------------
  // Large canvases.

  /** `width >= 4000 || height >= 4000 || width * height >= 24000000` */
  predicate IsLargeCanvas(c: CanvasState) {
    LessEq(Fin(4000.0), c.width) || LessEq(Fin(4000.0), c.height) ||
    LessEq(Fin(24000000.0), Mul(c.width, c.height))
  }

  /** With both sides finite, non-negative and below 4000 the area clause cannot fire. */
  lemma SmallSidesNotLarge(c: CanvasState)
    requires c.width.Fin? && c.height.Fin?
    requires 0.0 <= c.width.val < 4000.0 && 0.0 <= c.height.val < 4000.0
    ensures !IsLargeCanvas(c)
  {
    assert c.width.val * c.height.val <= 4000.0 * c.height.val;
    assert 4000.0 * c.height.val < 16000000.0;
  }

  /** On finite sizes the warning is the three thresholds read as plain inequalities. */
  lemma LargeIffThresholds(c: CanvasState)
    requires c.width.Fin? && c.height.Fin?
    ensures IsLargeCanvas(c) <==>
              c.width.val >= 4000.0 || c.height.val >= 4000.0 || c.width.val * c.height.val >= 24000000.0
  {
  }

  // ---------------------------------------------------------------------------
  // The panel's state.

  class CanvasEditor {
    /** The canvas last pushed to the application. */
    var canvas: CanvasState
    /** The error shown under each size field. */
    var errors: map<Dimension, string>
    /** The name shown in the template menu. */
    var selectedTemplate: string

    constructor(initial: CanvasState)
      ensures canvas == initial && errors == map[] && selectedTemplate == NoTemplate
    {
      canvas := initial;
      errors := map[];
      selectedTemplate := NoTemplate;
    }

    /**
     * `applyCanvasUpdate`: pushes the merge with clamped sizes, and sets or
     * clears each field's error by the clamp.
     */
    method ApplyCanvasUpdate(u: CanvasUpdate)
      modifies this
      ensures canvas == ClampedMerge(old(canvas), u)
      ensures ErrorOf(errors, Width) ==
                ErrorAfter(ErrorOf(old(errors), Width), Merge(old(canvas), u).width, u.width.Some?)
      ensures ErrorOf(errors, Height) ==
                ErrorAfter(ErrorOf(old(errors), Height), Merge(old(canvas), u).height, u.height.Some?)
      ensures selectedTemplate == old(selectedTemplate)
    {
      var next := Merge(canvas, u);
      var clampedWidth := ClampDimension(next.width);
      var clampedHeight := ClampDimension(next.height);
      var e := errors;
      if Fin(clampedWidth as real) != next.width {
        e := e[Width := DimensionMessage(next.width)];
      } else if u.width.Some? {
        e := e - {Width};
      }
      if Fin(clampedHeight as real) != next.height {
        e := e[Height := DimensionMessage(next.height)];
      } else if u.height.Some? {
        e := e - {Height};
      }
      errors := e;
      canvas := next.(width := Fin(clampedWidth as real), height := Fin(clampedHeight as real));
    }

    /**
     * `updateDimension`: blank or non-numeric text only records "Enter a numeric
     * value" for that field; a number goes through `ApplyCanvasUpdate`.
     */
    method UpdateDimension(key: Dimension, raw: string)
      modifies this
      ensures var value := ParseNumber(Trim(raw));
              if Trim(raw) == [] || !value.Fin? then
                canvas == old(canvas) && errors == old(errors)[key := NumericMessage]
              else
                var u := if key == Width then CanvasUpdate(Some(value), None, None, None)
                         else CanvasUpdate(None, Some(value), None, None);
                canvas == ClampedMerge(old(canvas), u) &&
                ErrorOf(errors, key) == ErrorAfter(ErrorOf(old(errors), key), value, true) &&
                ErrorOf(errors, Other(key)) ==
                  ErrorAfter(ErrorOf(old(errors), Other(key)), SideOf(old(canvas), Other(key)), false)
      ensures selectedTemplate == old(selectedTemplate)
    {
      var trimmed := Trim(raw);
      if trimmed == [] {
        errors := errors[key := NumericMessage];
        return;
      }
      var value := ParseNumber(trimmed);
      if !value.Fin? {
        errors := errors[key := NumericMessage];
        return;
      }
      var u := if key == Width then CanvasUpdate(Some(value), None, None, None)
               else CanvasUpdate(None, Some(value), None, None);
      ApplyCanvasUpdate(u);
    }

    /** `applyTemplate`: the template's sizes and ratio, both errors cleared, its name shown. */
    method ApplyTemplate(t: Template)
      requires t in AllTemplates()
      modifies this
      ensures canvas == old(canvas).(width := Fin(t.width as real), height := Fin(t.height as real),
                                     ratio := t.ratio)
      ensures !HasDimensionErrors(errors) && Width !in errors && Height !in errors
      ensures selectedTemplate == t.name
    {
      TemplatesInRange();
      ApplyCanvasUpdate(TemplateUpdate(t));
      selectedTemplate := t.name;
    }

    /** `applyRatio`: sizes from the parsed ratio, clamped; the label as given. */
    method ApplyRatio(ratio: string)
      modifies this
      ensures var (w, h) := ParseRatio(ratio);
              canvas == ClampedMerge(old(canvas),
                          CanvasUpdate(Some(RatioSide(w, w, h)), Some(RatioSide(h, w, h)), None, Some(ratio)))
      ensures canvas.ratio == ratio && InRangeCanvas(canvas)
      ensures var (w, h) := ParseRatio(ratio);
              ErrorOf(errors, Width) == ErrorAfter(ErrorOf(old(errors), Width), RatioSide(w, w, h), true) &&
              ErrorOf(errors, Height) == ErrorAfter(ErrorOf(old(errors), Height), RatioSide(h, w, h), true)
      ensures selectedTemplate == old(selectedTemplate)
    {
      var (w, h) := ParseRatio(ratio);
      ApplyCanvasUpdate(CanvasUpdate(Some(RatioSide(w, w, h)), Some(RatioSide(h, w, h)), None, Some(ratio)));
    }

    /** `toggleOrientation`: sizes swapped (and clamped), label parts reversed. */
    method ToggleOrientation()
      modifies this
      ensures canvas == ClampedMerge(old(canvas), ToggleUpdate(old(canvas)))
      ensures ErrorOf(errors, Width) == ErrorAfter(ErrorOf(old(errors), Width), old(canvas).height, true)
      ensures ErrorOf(errors, Height) == ErrorAfter(ErrorOf(old(errors), Height), old(canvas).width, true)
      ensures InRangeCanvas(old(canvas)) ==>
                canvas.width == old(canvas).height && canvas.height == old(canvas).width &&
                Width !in errors && Height !in errors
      ensures selectedTemplate == old(selectedTemplate)
    {
      ApplyCanvasUpdate(ToggleUpdate(canvas));
    }
  }
}
