/**
 * The colour-list edits of the sidebar: adding a random point, recolouring one
 * point, removing points while keeping at least two, applying a palette preset
 * cyclically and recolouring every point at random. Each edit builds a new list.
 */
module ColorSection {
  import opened Wrappers
  import opened JsNumber
  import opened JsText
  import opened GradientTypes

  /** A named palette. */
  datatype ColorPreset = ColorPreset(name: string, colors: seq<string>)

  /** The largest value `Math.floor(Math.random() * 16777215)` can reach, plus one. */
  const RandomColorScale: real := 16777215.0

  /** `#` followed by exactly six lower-case hexadecimal digits. */
  predicate IsHexColor(c: string) {
    |c| == 7 && c[0] == '#' &&
    IsHexChar(c[1]) && IsHexChar(c[2]) && IsHexChar(c[3]) &&
    IsHexChar(c[4]) && IsHexChar(c[5]) && IsHexChar(c[6])
  }

  /** A lower-case hexadecimal digit. */
  predicate IsHexChar(ch: char) {
    '0' <= ch <= '9' || 'a' <= ch <= 'f'
  }

  lemma SixteenToTheSix()
    ensures Pow(16, 6) == 16777216
  {
    assert Pow(16, 1) == 16;
    assert Pow(16, 2) == 256;
    assert Pow(16, 3) == 4096;
    assert Pow(16, 4) == 65536;
    assert Pow(16, 5) == 1048576;
  }

  /**
   * A random colour from one `Math.random()` draw `random` in [0, 1): the hex
   * digits of floor(random * 16777215), left-padded with zeros to six.
   */
  function RandomHexColor(random: real): (c: string)
    requires 0.0 <= random < 1.0
    ensures IsHexColor(c)
    ensures DigitsValue(c[1..], 16) == (random * RandomColorScale).Floor
  {
    var n: nat := (random * RandomColorScale).Floor;
    SixteenToTheSix();
    PaddedHex(n);
    var padded := PadStart(NatDigits(n, 16), 6, '0');
    assert ("#" + padded)[1..] == padded;
    "#" + padded
  }

  /** A number below 16^6, in hex and padded with zeros to six digits. */
  lemma PaddedHex(n: nat)
    requires n < Pow(16, 6)
    ensures var p := PadStart(NatDigits(n, 16), 6, '0');
            |p| == 6 && DigitsValue(p, 16) == n &&
            IsHexChar(p[0]) && IsHexChar(p[1]) && IsHexChar(p[2]) &&
            IsHexChar(p[3]) && IsHexChar(p[4]) && IsHexChar(p[5])
  {
    var digits := NatDigits(n, 16);
    var padded := PadStart(digits, 6, '0');
    HexDigitsAtMost(n, 6);
    NatDigitsRoundTrip(n, 16);
    assert padded == padded[..6 - |digits|] + digits;
    LeadingZerosValue(padded[..6 - |digits|], digits, 16);
    forall k | 0 <= k < 6
      ensures IsHexChar(padded[k])
    {
      if k >= 6 - |digits| {
        assert padded[k] == digits[k - (6 - |digits|)];
        assert IsDigit(digits[k - (6 - |digits|)], 16);
      }
    }
  }

  /**
   * `addColor`: one new point appended, its id the text of the clock reading
   * `now`, its colour from the draw `rc` and its position from `rx`, `ry`.
   */
  function AddColor(colors: seq<ColorPoint>, now: nat, rc: real, rx: real, ry: real): (r: seq<ColorPoint>)
    requires 0.0 <= rc < 1.0 && 0.0 <= rx < 1.0 && 0.0 <= ry < 1.0
    ensures |r| == |colors| + 1 && r[..|colors|] == colors
    ensures r[|colors|].id == NatDigits(now, 10)
    ensures IsHexColor(r[|colors|].color)
    ensures var p := r[|colors|]; p.x.Fin? && 0.0 <= p.x.val < 100.0 && p.y.Fin? && 0.0 <= p.y.val < 100.0
  {
    colors + [ColorPoint(IntText(now), RandomHexColor(rc), Fin(rx * 100.0), Fin(ry * 100.0))]
  }

  /** `updateColor`: every point whose id is `id` takes `color`; nothing else changes. */
  function UpdateColor(colors: seq<ColorPoint>, id: string, color: string): (r: seq<ColorPoint>)
    ensures SameExceptColor(colors, r)
    ensures forall i :: 0 <= i < |r| ==> r[i].color == (if colors[i].id == id then color else colors[i].color)
  {
    seq(|colors|, i requires 0 <= i < |colors| =>
      if colors[i].id == id then colors[i].(color := color) else colors[i])
  }

  /** A second recolouring of the same id overrides the first. */
  lemma UpdateColorLastWins(colors: seq<ColorPoint>, id: string, a: string, b: string)
    ensures UpdateColor(UpdateColor(colors, id, a), id, b) == UpdateColor(colors, id, b)
  {
    var once := UpdateColor(colors, id, a);
    var twice := UpdateColor(once, id, b);
    var direct := UpdateColor(colors, id, b);
    forall i | 0 <= i < |colors|
      ensures twice[i] == direct[i]
    {
      assert once[i].id == colors[i].id;
    }
  }

  /** Recolouring keeps the ids, so distinct ids stay distinct. */
  lemma UpdateColorKeepsDistinctIds(colors: seq<ColorPoint>, id: string, color: string)
    requires DistinctIds(colors)
    ensures DistinctIds(UpdateColor(colors, id, color))
  {
    var r := UpdateColor(colors, id, color);
    forall i, j | 0 <= i < j < |r|
      ensures r[i].id != r[j].id
    {
      assert r[i].id == colors[i].id && r[j].id == colors[j].id;
    }
  }

  /** `colors.filter(c => c.id !== id)` */
  function Without(colors: seq<ColorPoint>, id: string): (r: seq<ColorPoint>)
    ensures |r| <= |colors|
    ensures forall p :: p in r <==> p in colors && p.id != id
  {
    if colors == [] then []
    else if colors[0].id == id then Without(colors[1..], id)
    else [colors[0]] + Without(colors[1..], id)
  }

  /** The filter keeps the surviving points in their order: it splits over concatenation. */
  lemma {:induction false} WithoutAppend(a: seq<ColorPoint>, b: seq<ColorPoint>, id: string)
    ensures Without(a + b, id) == Without(a, id) + Without(b, id)
  {
    if a != [] {
      assert (a + b)[1..] == a[1..] + b;
      WithoutAppend(a[1..], b, id);
    } else {
      assert a + b == b;
    }
  }

  /** Removing an id no point carries changes nothing. */
  lemma {:induction false} WithoutAbsent(colors: seq<ColorPoint>, id: string)
    requires forall i :: 0 <= i < |colors| ==> colors[i].id != id
    ensures Without(colors, id) == colors
  {
    if colors != [] {
      WithoutAbsent(colors[1..], id);
      assert colors == [colors[0]] + colors[1..];
    }
  }

  /** With distinct ids, removal takes away at most one point. */
  lemma {:induction false} WithoutDistinct(colors: seq<ColorPoint>, id: string)
    requires DistinctIds(colors)
    ensures |Without(colors, id)| >= |colors| - 1
  {
    if colors != [] {
      if colors[0].id == id {
        forall i | 0 <= i < |colors[1..]|
          ensures colors[1..][i].id != id
        {
          assert colors[1..][i] == colors[i + 1];
        }
        WithoutAbsent(colors[1..], id);
      } else {
        WithoutDistinct(colors[1..], id);
      }
    }
  }

  /** The point list and the selected id after an edit. */
  datatype ColorsAndSelection = ColorsAndSelection(colors: seq<ColorPoint>, selected: Option<string>)

  /**
   * `removeColor`: with more than two points, drop every point with that id and
   * clear the selection when it was that id; with two or fewer, do nothing.
   */
  function RemoveColor(colors: seq<ColorPoint>, selected: Option<string>, id: string): (r: ColorsAndSelection)
    ensures |colors| <= 2 ==> r == ColorsAndSelection(colors, selected)
    ensures |colors| > 2 ==> forall p :: p in r.colors <==> p in colors && p.id != id
    ensures |colors| > 2 ==> r.colors == Without(colors, id)
    ensures r.selected == None <==> selected == None || (|colors| > 2 && selected == Some(id))
    ensures r.selected != None ==> r.selected == selected
  {
    if |colors| > 2 then
      ColorsAndSelection(Without(colors, id), if selected == Some(id) then None else selected)
    else
      ColorsAndSelection(colors, selected)
  }

  /** With distinct ids, removing never leaves fewer than two points. */
  lemma RemoveColorKeepsTwo(colors: seq<ColorPoint>, selected: Option<string>, id: string)
    requires DistinctIds(colors) && |colors| >= 2
    ensures |RemoveColor(colors, selected, id).colors| >= 2
  {
    if |colors| > 2 {
      WithoutDistinct(colors, id);
    }
  }

  /**
   * `applyPreset`: point i takes colour `preset[i % k]` for a palette of k
   * colours; ids and positions stay.
   */
  function ApplyPreset(colors: seq<ColorPoint>, preset: ColorPreset): (r: seq<ColorPoint>)
    requires |preset.colors| > 0
    ensures SameExceptColor(colors, r)
    ensures forall i :: 0 <= i < |r| ==> r[i].color == preset.colors[i % |preset.colors|]
  {
    seq(|colors|, i requires 0 <= i < |colors| =>
      colors[i].(color := preset.colors[i % |preset.colors|]))
  }

  /** Applying the same preset again changes nothing. */
  lemma ApplyPresetIdempotent(colors: seq<ColorPoint>, preset: ColorPreset)
    requires |preset.colors| > 0
    ensures ApplyPreset(ApplyPreset(colors, preset), preset) == ApplyPreset(colors, preset)
  {
    var once := ApplyPreset(colors, preset);
    var twice := ApplyPreset(once, preset);
    forall i | 0 <= i < |colors|
      ensures twice[i] == once[i]
    {
    }
  }

  /** A list no longer than the palette takes the palette's first colours in order. */
  lemma ApplyPresetShortList(colors: seq<ColorPoint>, preset: ColorPreset)
    requires 0 < |colors| <= |preset.colors|
    ensures forall i :: 0 <= i < |colors| ==> ApplyPreset(colors, preset)[i].color == preset.colors[i]
  {
    forall i | 0 <= i < |colors|
      ensures ApplyPreset(colors, preset)[i].color == preset.colors[i]
    {
      assert i % |preset.colors| == i;
    }
  }

  /**
   * `randomizeColors`: point i takes the random colour of draw `randoms[i]`;
   * ids and positions stay.
   */
  function RandomizeColors(colors: seq<ColorPoint>, randoms: seq<real>): (r: seq<ColorPoint>)
    requires |randoms| == |colors|
    requires forall i :: 0 <= i < |randoms| ==> 0.0 <= randoms[i] < 1.0
    ensures SameExceptColor(colors, r)
    ensures forall i :: 0 <= i < |r| ==> IsHexColor(r[i].color)
  {
    seq(|colors|, i requires 0 <= i < |colors| => colors[i].(color := RandomHexColor(randoms[i])))
  }

  /** A palette of the menu: two or three colours, each `#` and six hex digits. */
  type MenuPalette = p: ColorPreset | 2 <= |p.colors| <= 3 && forall c :: c in p.colors ==> IsHexColor(c)
    witness ColorPreset("", ["#000000", "#000000"])

  function Palette2(name: string, a: string, b: string): (p: MenuPalette)
    requires IsHexColor(a) && IsHexColor(b)
  {
    ColorPreset(name, [a, b])
  }

  function Palette3(name: string, a: string, b: string, c: string): (p: MenuPalette)
    requires IsHexColor(a) && IsHexColor(b) && IsHexColor(c)
  {
    ColorPreset(name, [a, b, c])
  }

  /** The palettes offered in the preset menu, in menu order, written in parts of five. */
  function ColorPresets(): (r: seq<MenuPalette>)
    ensures |r| == 53
  {
    PresetsFirstHalf() + PresetsSecondHalf()
  }

  function PresetsFirstHalf(): (r: seq<MenuPalette>)
    ensures |r| == 30
  {
    PresetsPart1() + PresetsPart2() + PresetsPart3() + PresetsPart4() + PresetsPart5() + PresetsPart6()
  }

  function PresetsSecondHalf(): (r: seq<MenuPalette>)
    ensures |r| == 23
  {
    PresetsPart7() + PresetsPart8() + PresetsPart9() + PresetsPart10() + PresetsPart11()
  }

  function PresetsPart1(): (r: seq<MenuPalette>)
  {
    [ Palette3("Instagram", "#833ab4", "#fd1d1d", "#fcb045"),
      Palette3("Sunset", "#ff9a9e", "#fecfef", "#fecfef"),
      Palette3("Ocean Blue", "#2196f3", "#21cbf3", "#21f3f3"),
      Palette2("Purple Bliss", "#360033", "#0b8793"),
      Palette2("Mango Pulp", "#f09819", "#edde5d") ]
  }

  function PresetsPart2(): (r: seq<MenuPalette>)
  {
    [ Palette2("Bloody Mary", "#ff512f", "#dd2476"),
      Palette2("Aubergine", "#aa076b", "#61045f"),
      Palette2("Aqua Marine", "#1a2980", "#26d0ce"),
      Palette2("Sunrise", "#ff512f", "#f09819"),
      Palette2("Purple Paradise", "#1d2b64", "#f8cdda") ]
  }

  function PresetsPart3(): (r: seq<MenuPalette>)
  {
    [ Palette2("Sea Weed", "#4cb8c4", "#3cd3ad"),
      Palette2("Pinky", "#dd5e89", "#f7bb97"),
      Palette2("Cherry", "#eb3349", "#f45c43"),
      Palette2("Lemon Twist", "#3ca55c", "#b5ac49"),
      Palette2("Horizon", "#003973", "#e5e5be") ]
  }

  function PresetsPart4(): (r: seq<MenuPalette>)
  {
    [ Palette2("Rose Water", "#e55d87", "#5fc3e4"),
      Palette2("Frozen", "#403b4a", "#e7e9bb"),
      Palette2("Mango", "#ffe259", "#ffa751"),
      Palette2("Bloody", "#e73c7e", "#23a6d5"),
      Palette2("Sunset Orange", "#fa709a", "#fee140") ]
  }

  function PresetsPart5(): (r: seq<MenuPalette>)
  {
    [ Palette2("Blue Lagoon", "#43e97b", "#38f9d7"),
      Palette2("Pink Flavour", "#f093fb", "#f5576c"),
      Palette2("Sublime Vivid", "#fc466b", "#3f5efb"),
      Palette2("Sublime Light", "#a8edea", "#fed6e3"),
      Palette2("Pun Yeta", "#108dc7", "#ef8e38") ]
  }

  function PresetsPart6(): (r: seq<MenuPalette>)
  {
    [ Palette2("Quepal", "#11998e", "#38ef7d"),
      Palette2("Sand to Blue", "#3e5151", "#decba4"),
      Palette3("Wedding Day Blues", "#40e0d0", "#ff8c00", "#ff0080"),
      Palette2("Shifter", "#bc4e9c", "#f80759"),
      Palette3("Red Sunset", "#355c7d", "#6c5b7b", "#c06c84") ]
  }

  function PresetsPart7(): (r: seq<MenuPalette>)
  {
    [ Palette2("Moon Purple", "#4e54c8", "#8f94fb"),
      Palette2("Pure Lust", "#333333", "#dd1818"),
      Palette2("Slight Ocean View", "#a8c0ff", "#3f2b96"),
      Palette2("eXpresso", "#ad5389", "#3c1053"),
      Palette2("Shifty", "#636fa4", "#e8cbc0") ]
  }

  function PresetsPart8(): (r: seq<MenuPalette>)
  {
    [ Palette2("Vanusa", "#da4453", "#89216b"),
      Palette2("Evening Night", "#005aa7", "#fffde4"),
      Palette3("Magic", "#59c173", "#a17fe0", "#5d26c1"),
      Palette2("Moor", "#616161", "#9bc5c3"),
      Palette2("Almost", "#ddd6f3", "#faaca8") ]
  }

  function PresetsPart9(): (r: seq<MenuPalette>)
  {
    [ Palette2("Forever Lost", "#5d4e75", "#abb1bb"),
      Palette2("Winter", "#e6dada", "#274046"),
      Palette2("Autumn", "#dac292", "#6c5b7b"),
      Palette2("Candy", "#d3959b", "#bfe6ba"),
      Palette2("Reef", "#00d2ff", "#3a7bd5") ]
  }

  function PresetsPart10(): (r: seq<MenuPalette>)
  {
    [ Palette2("The Strain", "#870000", "#190a05"),
      Palette2("Dirty Fog", "#b993d6", "#8ca6db"),
      Palette2("Earthly", "#649173", "#dbd5a4"),
      Palette2("Virgin", "#c9ffbf", "#ffafbd"),
      Palette2("Ash", "#606c88", "#3f4c6b") ]
  }

  function PresetsPart11(): (r: seq<MenuPalette>)
  {
    [ Palette2("Cherryblossoms", "#fbb2bd", "#fbb2bd"),
      Palette2("Parklife", "#add100", "#7b920a"),
      Palette2("Dance To Forget", "#ff758c", "#ff7eb3") ]
  }

  /**
   * Any palette from the menu can be applied, and every point then carries a
   * well-formed colour, whatever the list length.
   */
  lemma MenuPresetGivesHexColors(colors: seq<ColorPoint>, preset: MenuPalette)
    ensures |preset.colors| > 0
    ensures forall i :: 0 <= i < |colors| ==> IsHexColor(ApplyPreset(colors, preset)[i].color)
  {
    forall i | 0 <= i < |colors|
      ensures IsHexColor(ApplyPreset(colors, preset)[i].color)
    {
      assert preset.colors[i % |preset.colors|] in preset.colors;
    }
  }
}
