/**
 * The export dialog's text encoders: a CSS rule and an SVG document built from
 * the raw gradient state (nothing is sanitised here), and the dispatch from the
 * chosen format to the preview text and to the file that would be downloaded.
 */
module ExportModal {
  import opened Wrappers
  import opened JsNumber
  import opened JsText
  import opened GradientTypes
  import opened GradientCanvas

  const PngNotice := "PNG export requires server-side processing"

  // ---------------------------------------------------------------------------
  // CSS.

  /** `Math.round((0.7 - 0.1 i) * 255)`: no clamp, so it reaches 0 at i = 7 and goes negative after. */
  function CssAlpha(i: nat): (r: int)
    ensures i <= 7 ==> r >= 0
    ensures i >= 8 ==> r < 0
  {
    RoundReal((0.7 - i as real * 0.1) * 255.0)
  }

  /** The CSS alpha suffix: `toString(16)` of the alpha with no padding. */
  function CssAlphaHex(i: nat): (r: string)
    ensures CssAlpha(i) >= 0 ==> |r| >= 1 && AllDigits(r, 16) && DigitsValue(r, 16) == CssAlpha(i)
  {
    assert CssAlpha(i) >= 0 ==> DigitsValue(HexText(CssAlpha(i)), 16) == CssAlpha(i) by {
      if CssAlpha(i) >= 0 { NatDigitsRoundTrip(CssAlpha(i), 16); }
    }
    HexText(CssAlpha(i))
  }

  /** At index 7 the suffix is the single digit "0". */
  lemma CssAlphaHexSeven()
    ensures CssAlphaHex(7) == "0"
  {
    assert CssAlpha(7) == 0;
  }

  /** From index 8 on the suffix is a negative number: a minus sign, then hex digits. */
  lemma CssAlphaHexNegative(i: nat)
    requires i >= 8
    ensures |CssAlphaHex(i)| >= 2 && CssAlphaHex(i)[0] == '-'
    ensures AllDigits(CssAlphaHex(i)[1..], 16)
  {
    assert CssAlphaHex(i)[1..] == NatDigits(-CssAlpha(i), 16);
  }

  /** The export alpha is always below the preview's alpha for the same index. */
  lemma CssAlphaBelowPreview(i: nat)
    ensures CssAlpha(i) < LayerAlpha(i)
  {
    var c := (0.7 - i as real * 0.1) * 255.0;
    var o := LayerOpacity(i) * 255.0;
    assert CssAlpha(i) as real <= c + 0.5;
    assert LayerAlpha(i) as real >= o - 0.5;
    if i <= 5 {
      assert o == c + 12.75;
    } else {
      assert c <= 25.5;
    }
  }

  /** So the export never writes the alpha suffix that the preview shows. */
  lemma CssAlphaHexDiffersFromPreview(i: nat)
    ensures CssAlphaHex(i) != PreviewAlphaHex(i)
  {
    CssAlphaBelowPreview(i);
    if CssAlpha(i) >= 0 {
      NatDigitsRoundTrip(CssAlpha(i), 16);
      assert DigitsValue(CssAlphaHex(i), 16) != DigitsValue(PreviewAlphaHex(i), 16);
    } else {
      assert CssAlphaHex(i)[0] == '-';
      assert IsDigit(PreviewAlphaHex(i)[0], 16);
    }
  }

  /** The colour text and the alpha suffix of the i-th CSS layer follow this text. */
  function LayerHead(p: ColorPoint): string {
    "radial-gradient(circle at " + Show(p.x) + "% " + Show(p.y) + "%, " + p.color
  }

  const LayerTail := " 0%, transparent 50%)"

  /** The i-th CSS layer, with the point's coordinates as they are. */
  function CssLayer(p: ColorPoint, i: nat): (r: string)
    ensures |r| == |LayerHead(p)| + |CssAlphaHex(i)| + |LayerTail|
    ensures r[|LayerHead(p)|..|r| - |LayerTail|] == CssAlphaHex(i)
    ensures StartsWith(r, LayerHead(p)) && EndsWith(r, LayerTail)
  {
    var r := LayerHead(p) + CssAlphaHex(i) + LayerTail;
    assert r[|LayerHead(p)|..|r| - |LayerTail|] == CssAlphaHex(i);
    assert r == LayerHead(p) + (CssAlphaHex(i) + LayerTail);
    PrefixOfConcat(LayerHead(p), CssAlphaHex(i) + LayerTail);
    SuffixOfConcat(LayerHead(p) + CssAlphaHex(i), LayerTail);
    r
  }

  /**
   * For the same point and index, the exported layer is never the preview's layer:
   * only the alpha suffix differs, and it always does.
   */
  lemma CssLayerDiffersFromPreview(p: ColorPoint, i: nat)
    ensures CssLayer(p, i) != GradientLayer(p, i)
  {
    var g := GradientLayer(p, i);
    assert g == LayerHead(p) + PreviewAlphaHex(i) + LayerTail;
    assert g[|LayerHead(p)|..|g| - |LayerTail|] == PreviewAlphaHex(i);
    CssAlphaHexDiffersFromPreview(i);
  }

  /** The `filter` line: the five raw values in a fixed order, and never the grain. */
  function CssFilter(f: FilterState): string {
    "brightness(" + Show(f.brightness) + "%) contrast(" + Show(f.contrast) + "%) saturate(" +
    Show(f.saturation) + "%) hue-rotate(" + Show(f.hue) + "deg) blur(" + Show(f.blur) + "px)"
  }

  /** Grain settings never reach the exported CSS. */
  lemma CssFilterIgnoresGrain(f: FilterState, grain: Num, grainType: string, blend: string)
    ensures CssFilter(f.(grain := grain, grainType := grainType, grainBlendMode := blend)) == CssFilter(f)
  {
  }

  const CssHead := ".mesh-gradient {\n  background: "

  /** The exported `background`: the CSS layers joined by ", ". */
  function CssBackground(colors: seq<ColorPoint>): (r: string)
    ensures colors == [] ==> r == ""
    ensures colors != [] ==> StartsWith(r, CssLayer(colors[0], 0))
  {
    assert colors != [] ==> StartsWith(Join(MapIndexed(colors, CssLayer), ", "), CssLayer(colors[0], 0)) by {
      if colors != [] { JoinStartsWithFirst(MapIndexed(colors, CssLayer), ", "); }
    }
    Join(MapIndexed(colors, CssLayer), ", ")
  }

  /** Appending a point appends exactly its layer, after ", ", and leaves the earlier text as it was. */
  lemma CssBackgroundSnoc(colors: seq<ColorPoint>, p: ColorPoint)
    requires colors != []
    ensures CssBackground(colors + [p]) == CssBackground(colors) + ", " + CssLayer(p, |colors|)
  {
    MapIndexedSnoc(colors, p, CssLayer);
    JoinSnoc(MapIndexed(colors, CssLayer), CssLayer(p, |colors|), ", ");
  }

  /** The closing size lines: the canvas width and height, verbatim, in pixels. */
  function CssSizeLines(canvas: CanvasState): string {
    ";\n  width: " + Show(canvas.width) + "px;\n  height: " + Show(canvas.height) + "px;\n}"
  }

  /**
   * `.mesh-gradient { background; filter; width; height }`: the block opens
   * with the layers and the raw filter line and closes with the canvas size.
   */
  function GenerateCSS(state: GradientState): (r: string)
    ensures StartsWith(r, CssHead + CssBackground(state.colors) + ";\n  filter: " + CssFilter(state.filters))
    ensures EndsWith(r, CssSizeLines(state.canvas))
    ensures |r| == |CssHead + CssBackground(state.colors) + ";\n  filter: " + CssFilter(state.filters)|
                   + |CssSizeLines(state.canvas)|
  {
    var head := CssHead + CssBackground(state.colors) + ";\n  filter: " + CssFilter(state.filters);
    var tail := CssSizeLines(state.canvas);
    PrefixOfConcat(head, tail);
    SuffixOfConcat(head, tail);
    head + tail
  }

  // ---------------------------------------------------------------------------
  // SVG.

  /** The id of the i-th gradient definition: "gradient-" and the index in decimal. */
  function GradientId(i: nat): (r: string)
    ensures '"' !in r && ')' !in r
  {
    var digits := NatDigits(i, 10);
    assert forall k :: 0 <= k < |digits| ==> IsDigit(digits[k], 10);
    "gradient-" + digits
  }

  /** Distinct indexes get distinct ids. */
  lemma GradientIdsDistinct(i: nat, j: nat)
    ensures GradientId(i) == GradientId(j) <==> i == j
  {
    assert GradientId(i)[9..] == IntText(i);
    assert GradientId(j)[9..] == IntText(j);
    IntTextParses(i);
    IntTextParses(j);
  }

  const DefHead := "\n      <radialGradient id=\""

  /** Everything of a definition after its id: the same for every index. */
  function DefBody(p: ColorPoint): string {
    "\" cx=\"" + Show(p.x) + "%\" cy=\"" + Show(p.y) + "%\" r=\"50%\">\n" +
    "        <stop offset=\"0%\" style=\"stop-color:" + p.color + ";stop-opacity:0.7\" />\n" +
    "        <stop offset=\"100%\" style=\"stop-color:" + p.color + ";stop-opacity:0\" />\n" +
    "      </radialGradient>\n    "
  }

  /** The i-th `radialGradient` definition. */
  function SvgDef(p: ColorPoint, i: nat): string {
    DefHead + GradientId(i) + DefBody(p)
  }

  const RectHead := "<rect width=\"100%\" height=\"100%\" fill=\"url(#"

  /** The i-th `rect`, painted with the i-th definition. */
  function SvgRect(p: ColorPoint, i: nat): string {
    RectHead + GradientId(i) + ")\" />"
  }

  /** The characters of `s` before the first `c` (all of `s` when there is none). */
  function TakeUntil(s: string, c: char): (r: string)
    ensures |r| <= |s| && r == s[..|r|] && c !in r
  {
    if s == [] || s[0] == c then [] else [s[0]] + TakeUntil(s[1..], c)
  }

  lemma {:induction false} TakeUntilPrefix(a: string, c: char, b: string)
    requires c !in a
    ensures TakeUntil(a + [c] + b, c) == a
  {
    if a != [] {
      assert (a + [c] + b)[1..] == a[1..] + [c] + b;
      TakeUntilPrefix(a[1..], c, b);
    }
  }

  /** The id a definition declares: the text inside `id="..."`. */
  function DeclaredId(def: string): string {
    if |def| < |DefHead| then [] else TakeUntil(def[|DefHead|..], '"')
  }

  /** The id a rect refers to: the text inside `url(#...)`. */
  function ReferencedId(rect: string): string {
    if |rect| < |RectHead| then [] else TakeUntil(rect[|RectHead|..], ')')
  }

  /** The i-th definition declares the i-th id, and the i-th rect refers to it. */
  lemma SvgIds(p: ColorPoint, i: nat)
    ensures DeclaredId(SvgDef(p, i)) == GradientId(i)
    ensures ReferencedId(SvgRect(p, i)) == GradientId(i)
  {
    var d := SvgDef(p, i);
    assert d[|DefHead|..] == GradientId(i) + ['"'] + DefBody(p)[1..];
    TakeUntilPrefix(GradientId(i), '"', DefBody(p)[1..]);
    var r := SvgRect(p, i);
    assert r[|RectHead|..] == GradientId(i) + [')'] + "\" />";
    TakeUntilPrefix(GradientId(i), ')', "\" />");
  }

  /**
   * In the exported document, rect i refers to definition j exactly when i = j:
   * every rect resolves to its own point's gradient and to no other.
   */
  lemma SvgRectsResolve(colors: seq<ColorPoint>, i: nat, j: nat)
    requires i < |colors| && j < |colors|
    ensures ReferencedId(MapIndexed(colors, SvgRect)[i]) == DeclaredId(MapIndexed(colors, SvgDef)[j])
            <==> i == j
  {
    SvgIds(colors[i], i);
    SvgIds(colors[j], j);
    GradientIdsDistinct(i, j);
  }

  /** Every definition's stops carry opacity 0.7 then 0, whatever the index. */
  lemma SvgDefOpacityFixed(p: ColorPoint, i: nat, j: nat)
    ensures SvgDef(p, i)[|DefHead| + |GradientId(i)|..] == SvgDef(p, j)[|DefHead| + |GradientId(j)|..]
  {
    assert SvgDef(p, i)[|DefHead| + |GradientId(i)|..] == DefBody(p);
    assert SvgDef(p, j)[|DefHead| + |GradientId(j)|..] == DefBody(p);
  }

  /** The definitions, one per point in order, concatenated. */
  function SvgDefs(colors: seq<ColorPoint>): string {
    Join(MapIndexed(colors, SvgDef), "")
  }

  /** The rects, one per point in order, concatenated. */
  function SvgRects(colors: seq<ColorPoint>): string {
    Join(MapIndexed(colors, SvgRect), "")
  }

  /** Concatenating one more part appends it. */
  lemma ConcatSnoc(parts: seq<string>, last: string)
    requires parts != []
    ensures Join(parts + [last], "") == Join(parts, "") + last
  {
    JoinSnoc(parts, last, "");
    assert Join(parts, "") + "" == Join(parts, "");
  }

  /** One more point appends exactly its definition, for the next index. */
  lemma SvgDefsSnoc(colors: seq<ColorPoint>, p: ColorPoint)
    requires colors != []
    ensures SvgDefs(colors + [p]) == SvgDefs(colors) + SvgDef(p, |colors|)
  {
    MapIndexedSnoc(colors, p, SvgDef);
    ConcatSnoc(MapIndexed(colors, SvgDef), SvgDef(p, |colors|));
  }

  /** One more point appends exactly its rect, referring to the next index. */
  lemma SvgRectsSnoc(colors: seq<ColorPoint>, p: ColorPoint)
    requires colors != []
    ensures SvgRects(colors + [p]) == SvgRects(colors) + SvgRect(p, |colors|)
  {
    MapIndexedSnoc(colors, p, SvgRect);
    ConcatSnoc(MapIndexed(colors, SvgRect), SvgRect(p, |colors|));
  }

  /** The root element's opening tag, sized by the canvas as it is. */
  function SvgOpen(canvas: CanvasState): string {
    "<svg width=\"" + Show(canvas.width) + "\" height=\"" + Show(canvas.height) +
    "\" xmlns=\"http://www.w3.org/2000/svg\">"
  }

  /**
   * The SVG document: the sized root opens the definitions, which are
   * followed by the rects and the closing tag.
   */
  function GenerateSVG(state: GradientState): (r: string)
    ensures StartsWith(r, SvgOpen(state.canvas) + "\n  <defs>\n    " + SvgDefs(state.colors))
    ensures EndsWith(r, "\n  </defs>\n  " + SvgRects(state.colors) + "\n</svg>")
    ensures |r| == |SvgOpen(state.canvas) + "\n  <defs>\n    " + SvgDefs(state.colors)|
                   + |"\n  </defs>\n  " + SvgRects(state.colors) + "\n</svg>"|
  {
    var head := SvgOpen(state.canvas) + "\n  <defs>\n    " + SvgDefs(state.colors);
    var tail := "\n  </defs>\n  " + SvgRects(state.colors) + "\n</svg>";
    PrefixOfConcat(head, tail);
    SuffixOfConcat(head, tail);
    head + tail
  }

  // ---------------------------------------------------------------------------
  // Format dispatch.

  /** What the dialog shows for a format. */
  function ExportContent(format: string, state: GradientState): (r: string)
    ensures format == "css" ==> r == GenerateCSS(state)
    ensures format == "svg" ==> r == GenerateSVG(state)
    ensures format == "png" ==> r == PngNotice
    ensures format != "css" && format != "svg" && format != "png" ==> r == ""
  {
    match format
    case "css" => GenerateCSS(state)
    case "svg" => GenerateSVG(state)
    case "png" => PngNotice
    case _ => ""
  }

  /** A file to hand to the browser. */
  datatype Download = Download(content: string, filename: string, mime: string)

  /** The export button: a download for CSS and SVG, nothing for PNG or anything else. */
  function HandleExport(format: string, state: GradientState): (r: Option<Download>)
    ensures r.Some? <==> format == "css" || format == "svg"
    ensures r.Some? ==> r.value.content == ExportContent(format, state)
    ensures format == "css" ==> r == Some(Download(GenerateCSS(state), "mesh-gradient.css", "text/css"))
    ensures format == "svg" ==> r == Some(Download(GenerateSVG(state), "mesh-gradient.svg", "image/svg+xml"))
  {
    match format
    case "css" => Some(Download(GenerateCSS(state), "mesh-gradient.css", "text/css"))
    case "svg" => Some(Download(GenerateSVG(state), "mesh-gradient.svg", "image/svg+xml"))
    case _ => None
  }
}
