/**
 * The animation panel: easing curves, the frame clock that advances a
 * progress value in [0, 1), the perturbation of the colour points around
 * their positions, the preview layers, and the settings handlers.
 */
module AnimationSection {
  import opened Wrappers
  import opened JsNumber
  import opened JsText
  import opened GradientTypes
  import opened GradientCanvas

  const EmptyPreview := "#f3f4f6"

  // ---------------------------------------------------------------------------
  // Easing.

  /** `applyEasing`: the curve named by `easing`; any other name is linear. */
  function ApplyEasing(t: real, easing: string): real {
    match easing
    case "ease-in" => t * t
    case "ease-out" => 1.0 - (1.0 - t) * (1.0 - t)
    case "ease-in-out" => EaseInOut(t)
    case "ease" => EaseInOut(t)
    case _ => t
  }

  /** The piecewise quadratic shared by "ease" and "ease-in-out". */
  function EaseInOut(t: real): real {
    if t < 0.5 then EaseInHalf(t) else EaseOutHalf(t)
  }

  /** The accelerating piece, used below one half. */
  function EaseInHalf(t: real): real {
    2.0 * t * t
  }

  /** The decelerating piece, used from one half on. */
  function EaseOutHalf(t: real): real {
    1.0 - (-2.0 * t + 2.0) * (-2.0 * t + 2.0) / 2.0
  }

  /** Every curve starts at 0 and ends at 1. */
  lemma EasingEndpoints(easing: string)
    ensures ApplyEasing(0.0, easing) == 0.0 && ApplyEasing(1.0, easing) == 1.0
  {
  }

  /** The two halves of the shared quadratic meet at (0.5, 0.5). */
  lemma EaseInOutContinuous()
    ensures EaseInHalf(0.5) == EaseOutHalf(0.5) == EaseInOut(0.5) == 0.5
  {
  }

  /** Names without a curve of their own ease linearly. */
  lemma UnknownEasingIsLinear(t: real, easing: string)
    requires easing !in {"ease-in", "ease-out", "ease-in-out", "ease"}
    ensures ApplyEasing(t, easing) == t
  {
  }

  lemma SquareMonotone(a: real, b: real)
    requires 0.0 <= a <= b
    ensures a * a <= b * b
  {
    assert a * a <= a * b;
    assert a * b <= b * b;
  }

  /** On [0, 1] every curve is non-decreasing. */
  lemma EasingMonotone(s: real, t: real, easing: string)
    requires 0.0 <= s <= t <= 1.0
    ensures ApplyEasing(s, easing) <= ApplyEasing(t, easing)
  {
    match easing
    case "ease-in" => SquareMonotone(s, t);
    case "ease-out" => SquareMonotone(1.0 - t, 1.0 - s);
    case "ease-in-out" => EaseInOutMonotone(s, t);
    case "ease" => EaseInOutMonotone(s, t);
    case _ =>
  }

  lemma EaseInOutMonotone(s: real, t: real)
    requires 0.0 <= s <= t <= 1.0
    ensures EaseInOut(s) <= EaseInOut(t)
  {
    if t < 0.5 {
      SquareMonotone(s, t);
    } else if s >= 0.5 {
      SquareMonotone(-2.0 * t + 2.0, -2.0 * s + 2.0);
    } else {
      SquareMonotone(s, 0.5);
      SquareMonotone(-2.0 * t + 2.0, 1.0);
    }
  }

  /** On [0, 1] every curve stays within [0, 1]. */
  lemma EasingBounds(t: real, easing: string)
    requires 0.0 <= t <= 1.0
    ensures 0.0 <= ApplyEasing(t, easing) <= 1.0
  {
    EasingEndpoints(easing);
    EasingMonotone(0.0, t, easing);
    EasingMonotone(t, 1.0, easing);
  }

  // ---------------------------------------------------------------------------
  // Progress.

  /** `x - Math.floor(x)`: the fractional part, in [0, 1). */
  function Frac(x: real): (r: real)
    ensures 0.0 <= r < 1.0
    ensures (x - r).Floor as real == x - r
  {
    x - x.Floor as real
  }

  /** `x % 1` in JavaScript, whose remainder takes the sign of `x`. */
  function RemOne(x: real): (r: real)
    ensures 0.0 <= x ==> r == Frac(x)
    ensures -1.0 < r < 1.0
  {
    if x >= 0.0 then Frac(x) else -Frac(-x)
  }

  /** The eased progress the points are moved by. */
  function EasedProgress(progress: real, easing: string): (r: real)
    ensures 0.0 <= progress ==> 0.0 <= r <= 1.0
  {
    var t := RemOne(progress);
    assert 0.0 <= progress ==> 0.0 <= ApplyEasing(t, easing) <= 1.0 by {
      if 0.0 <= progress { EasingBounds(t, easing); }
    }
    ApplyEasing(t, easing)
  }

  /** The frame length a tick divides by: `Math.max(200, duration * 1000)` milliseconds. */
  function DurationMs(duration: real): (r: real)
    ensures r >= 200.0 && r >= duration * 1000.0
    ensures r == 200.0 || r == duration * 1000.0
  {
    if duration * 1000.0 < 200.0 then 200.0 else duration * 1000.0
  }

  /** One step of the accumulator: add `delta * speed / durationMs` and keep the fractional part. */
  function Advance(progress: real, delta: real, speed: real, durationMs: real): (r: real)
    requires durationMs > 0.0
    ensures 0.0 <= r < 1.0
    ensures 0.0 <= progress + delta * speed / durationMs < 1.0 ==> r == progress + delta * speed / durationMs
  {
    Frac(progress + delta * speed / durationMs)
  }

  /** `Advance` is the fractional part of the sum. */
  lemma AdvanceStep(progress: real, delta: real, speed: real, durationMs: real)
    requires durationMs > 0.0
    ensures var next := progress + delta * speed / durationMs;
            Advance(progress, delta, speed, durationMs) == next - next.Floor as real
  {
  }

  lemma FloorShift(x: real, n: int)
    ensures (x - n as real).Floor == x.Floor - n
  {
  }

  /** Keeping the fractional part after each step or only at the end gives the same progress. */
  lemma FracOfSum(a: real, b: real)
    ensures Frac(Frac(a) + b) == Frac(a + b)
  {
    FloorShift(a + b, a.Floor);
    assert Frac(a) + b == a + b - a.Floor as real;
  }

  /** Two frames advance the progress as far as one frame covering both. */
  lemma AdvanceAdditive(p: real, d1: real, d2: real, speed: real, durationMs: real)
    requires durationMs > 0.0
    ensures Advance(Advance(p, d1, speed, durationMs), d2, speed, durationMs) ==
            Advance(p, d1 + d2, speed, durationMs)
  {
    var i1 := d1 * speed / durationMs;
    var i2 := d2 * speed / durationMs;
    assert (d1 + d2) * speed / durationMs == i1 + i2;
    FracOfSum(p + i1, i2);
    assert p + (d1 + d2) * speed / durationMs == p + i1 + i2;
  }

  /** The frame clock: the progress, the last frame's time and the pending frame request. */
  class AnimationClock {
    /** How far through one cycle the animation is. */
    var progress: real
    /** The time of the previous frame, if one has been seen since the last (re)start. */
    var lastFrame: Option<real>
    /** The handle of the last frame request; handles are positive. */
    var requestRef: Option<nat>
    /** The request that has not yet fired or been cancelled, if any. */
    var pending: Option<nat>

    predicate Valid()
      reads this
    {
      0.0 <= progress < 1.0 &&
      (requestRef.Some? ==> requestRef.value > 0) &&
      (pending.Some? ==> pending == requestRef)
    }

    constructor()
      ensures Valid()
      ensures progress == 0.0 && lastFrame.None? && requestRef.None? && pending.None?
    {
      progress := 0.0;
      lastFrame := None;
      requestRef := None;
      pending := None;
    }

    /** `cancelAnimationFrame(requestRef)` when there is a request. */
    method CancelRequest()
      requires Valid()
      modifies this
      ensures Valid()
      ensures pending.None?
      ensures progress == old(progress) && lastFrame == old(lastFrame) && requestRef == old(requestRef)
    {
      if requestRef.Some? {
        pending := None;
      }
    }

    /** The playing effect: request the first frame. */
    method Start(handle: nat)
      requires Valid() && handle > 0
      modifies this
      ensures Valid()
      ensures requestRef == Some(handle) && pending == Some(handle)
      ensures progress == old(progress) && lastFrame == old(lastFrame)
    {
      requestRef := Some(handle);
      pending := Some(handle);
    }

    /**
     * `animate(timestamp)`: the pending frame fires. The first frame after a
     * (re)start only records its time; later frames advance the progress by
     * `delta * speed / durationMs` unless the speed is not positive. A new
     * frame is requested.
     */
    method Tick(timestamp: real, speed: real, duration: real, handle: nat)
      requires Valid() && pending.Some? && handle > 0
      modifies this
      ensures Valid()
      ensures old(lastFrame).None? || speed <= 0.0 ==> progress == old(progress)
      ensures old(lastFrame).Some? && speed > 0.0 ==>
                progress == Advance(old(progress), timestamp - old(lastFrame).value, speed, DurationMs(duration))
      ensures lastFrame == Some(timestamp) && requestRef == Some(handle) && pending == Some(handle)
    {
      if lastFrame.Some? {
        var delta := timestamp - lastFrame.value;
        var durationMs := DurationMs(duration);
        var s := if speed < 0.0 then 0.0 else speed;
        if s > 0.0 {
          var increment := delta * s / durationMs;
          var next := progress + increment;
          AdvanceStep(progress, delta, s, durationMs);
          assert s == speed;
          progress := next - next.Floor as real;
        }
      }
      lastFrame := Some(timestamp);
      requestRef := Some(handle);
      pending := Some(handle);
    }

    /** The playing effect's cleanup: cancel the request and forget the last frame. */
    method Cleanup()
      requires Valid()
      modifies this
      ensures Valid()
      ensures pending.None? && lastFrame.None?
      ensures progress == old(progress) && requestRef == old(requestRef)
    {
      CancelRequest();
      lastFrame := None;
    }

    /** The effect when not playing: cancel, forget the last frame and rewind to 0. */
    method Stop()
      requires Valid()
      modifies this
      ensures Valid()
      ensures pending.None? && lastFrame.None? && progress == 0.0
      ensures requestRef == old(requestRef)
    {
      CancelRequest();
      lastFrame := None;
      progress := 0.0;
    }

    /** Unmounting: cancel the request. */
    method Unmount()
      requires Valid()
      modifies this
      ensures Valid()
      ensures pending.None?
      ensures progress == old(progress) && lastFrame == old(lastFrame) && requestRef == old(requestRef)
    {
      CancelRequest();
    }
  }

  // ---------------------------------------------------------------------------
  // Animated points.

  /** `0.6 + (i / Math.max(n - 1, 1)) * 0.4`: how far point i of n may move, as a share of the base. */
  function AmplitudeFactor(i: nat, n: nat): (r: real)
    requires i < n
    ensures 0.6 <= r <= 1.0
    ensures i == 0 ==> r == 0.6
    ensures n >= 2 && i == n - 1 ==> r == 1.0
  {
    var denominator := if n - 1 > 1 then n - 1 else 1;
    QuotientAtMostOne(i as real, denominator as real);
    assert n >= 2 && i == n - 1 ==> i as real / denominator as real == 1.0;
    0.6 + (i as real / denominator as real) * 0.4
  }

  /** A share of a positive whole lies in [0, 1]. */
  lemma QuotientAtMostOne(x: real, d: real)
    requires 0.0 <= x <= d && d > 0.0
    ensures 0.0 <= x / d <= 1.0
  {
    QuotientMonotone(0.0, x, d);
    QuotientMonotone(x, d, d);
  }

  /** Dividing by a positive number keeps the order. */
  lemma QuotientMonotone(a: real, b: real, d: real)
    requires a <= b && d > 0.0
    ensures a / d <= b / d
  {
    var k := 1.0 / d;
    assert k > 0.0;
    assert a / d == a * k && b / d == b * k;
    assert b * k - a * k == (b - a) * k;
  }

  /** Later points move at least as far as earlier ones. */
  lemma AmplitudeFactorMonotone(i: nat, j: nat, n: nat)
    requires i <= j < n
    ensures AmplitudeFactor(i, n) <= AmplitudeFactor(j, n)
  {
    var d := if n - 1 > 1 then n - 1 else 1;
    QuotientMonotone(i as real, j as real, d as real);
  }

  /** `clamp(v, 0, 100)` on a JavaScript number: NaN stays NaN, everything else lands in [0, 100]. */
  function ClampPercent(v: Num): (r: Num)
    ensures !v.NaN? ==> InPercentRange(r)
    ensures InPercentRange(v) ==> r == v
    ensures Less(v, Fin(0.0)) ==> r == Fin(0.0)
    ensures Less(Fin(100.0), v) ==> r == Fin(100.0)
  {
    Min(Fin(100.0), Max(Fin(0.0), v))
  }

  /**
   * One point moved around its position by the angle of its index plus the
   * eased phase; `cos`, `sin` and `pi` stand for `Math.cos`, `Math.sin` and
   * `Math.PI`.
   */
  function AnimatePoint(p: ColorPoint, i: nat, n: nat, eased: real, speed: real,
                        cos: real -> real, sin: real -> real, pi: real): (r: ColorPoint)
    requires i < n
    ensures r.id == p.id && r.color == p.color
    ensures !p.x.NaN? ==> InPercentRange(r.x)
    ensures !p.y.NaN? ==> InPercentRange(r.y)
    ensures UnitRange(cos) && speed >= 0.0 && InPercentRange(p.x) ==>
              -(6.0 + speed * 4.0) <= r.x.val - p.x.val <= 6.0 + speed * 4.0
    ensures UnitRange(sin) && speed >= 0.0 && InPercentRange(p.y) ==>
              -(6.0 + speed * 4.0) <= r.y.val - p.y.val <= 6.0 + speed * 4.0
    ensures speed == -1.5 && InPercentRange(p.x) ==> r.x == p.x
    ensures speed == -1.5 && InPercentRange(p.y) ==> r.y == p.y
  {
    var baseAmplitude := 6.0 + speed * 4.0;
    var angle := (i as real / (if n > 1 then n else 1) as real) * pi * 2.0;
    var phase := eased * pi * 2.0;
    var factor := AmplitudeFactor(i, n);
    var amplitude := baseAmplitude * factor;
    var offsetX := cos(angle + phase) * amplitude;
    var offsetY := sin(angle + phase) * amplitude;
    assert UnitRange(cos) && speed >= 0.0 ==> -baseAmplitude <= offsetX <= baseAmplitude by {
      if UnitRange(cos) && speed >= 0.0 {
        OffsetBound(cos(angle + phase), baseAmplitude, factor, amplitude, offsetX);
      }
    }
    assert UnitRange(sin) && speed >= 0.0 ==> -baseAmplitude <= offsetY <= baseAmplitude by {
      if UnitRange(sin) && speed >= 0.0 {
        OffsetBound(sin(angle + phase), baseAmplitude, factor, amplitude, offsetY);
      }
    }
    assert speed == -1.5 ==> offsetX == 0.0 && offsetY == 0.0 by {
      if speed == -1.5 {
        assert amplitude == 0.0;
        ZeroProduct(cos(angle + phase), amplitude, offsetX);
        ZeroProduct(sin(angle + phase), amplitude, offsetY);
      }
    }
    p.(x := Oscillate(p.x, offsetX), y := Oscillate(p.y, offsetY))
  }

  /**
   * One coordinate of one frame: `clamp(v + offset, 0, 100)`. An in-range
   * coordinate moves in the direction of the offset and never further than it.
   */
  function Oscillate(v: Num, offset: real): (r: Num)
    ensures !v.NaN? ==> InPercentRange(r)
    ensures InPercentRange(v) && offset >= 0.0 ==> 0.0 <= r.val - v.val <= offset
    ensures InPercentRange(v) && offset <= 0.0 ==> offset <= r.val - v.val <= 0.0
  {
    ClampPercent(Add(v, Fin(offset)))
  }

  /** A stand-in for `Math.cos` or `Math.sin` that stays in [-1, 1]. */
  ghost predicate UnitRange(f: real -> real) {
    forall t :: -1.0 <= f(t) <= 1.0
  }

  lemma NonNegativeProduct(x: real, y: real)
    requires x >= 0.0 && y >= 0.0
    ensures x * y >= 0.0
  {
  }

  lemma ZeroProduct(x: real, y: real, product: real)
    requires y == 0.0 && product == x * y
    ensures product == 0.0
  {
  }

  /** A unit factor times a share in [0.6, 1] of the base moves at most the base. */
  lemma OffsetBound(c: real, base: real, factor: real, amplitude: real, offset: real)
    requires -1.0 <= c <= 1.0 && base >= 0.0 && 0.6 <= factor <= 1.0
    requires amplitude == base * factor && offset == c * amplitude
    ensures -base <= offset <= base
  {
    assert base - amplitude == base * (1.0 - factor);
    NonNegativeProduct(base, factor);
    NonNegativeProduct(base, 1.0 - factor);
    if c >= 0.0 {
      assert amplitude - c * amplitude == amplitude * (1.0 - c);
      NonNegativeProduct(c, amplitude);
      NonNegativeProduct(amplitude, 1.0 - c);
    } else {
      assert amplitude + c * amplitude == amplitude * (1.0 + c);
      assert (-c) * amplitude == -(c * amplitude);
      NonNegativeProduct(-c, amplitude);
      NonNegativeProduct(amplitude, 1.0 + c);
    }
  }

  /**
   * `animatedColors`: the same points in the same order with the same ids and
   * colours; only positions move, and they stay in [0, 100] whatever `cos` and
   * `sin` return.
   */
  function AnimatedColors(colors: seq<ColorPoint>, eased: real, speed: real,
                          cos: real -> real, sin: real -> real, pi: real): (r: seq<ColorPoint>)
    ensures SameExceptPosition(colors, r)
    ensures colors == [] ==> r == []
    ensures forall i :: 0 <= i < |r| && !colors[i].x.NaN? ==> InPercentRange(r[i].x)
    ensures forall i :: 0 <= i < |r| && !colors[i].y.NaN? ==> InPercentRange(r[i].y)
  {
    if |colors| == 0 then colors
    else
      seq(|colors|, i requires 0 <= i < |colors| =>
        AnimatePoint(colors[i], i, |colors|, eased, speed, cos, sin, pi))
  }

  // ---------------------------------------------------------------------------
  // Preview.

  /** `clamp(0.7 - 0.12 i, 0.25, 0.7)` */
  function AnimationAlpha(i: nat): (r: real)
    ensures 0.25 <= r <= 0.7
    ensures i <= 3 ==> r == 0.7 - 0.12 * i as real
    ensures i >= 4 ==> r == 0.25
  {
    Clamp(0.7 - i as real * 0.12, 0.25, 0.7)
  }

  /** The i-th preview alpha suffix: two lower-case hex digits worth `round(alpha * 255)`. */
  function AnimationAlphaHex(i: nat): (r: string)
    ensures |r| == 2 && AllDigits(r, 16)
    ensures DigitsValue(r, 16) == RoundReal(AnimationAlpha(i) * 255.0)
  {
    var a := RoundReal(AnimationAlpha(i) * 255.0);
    assert 63 < a < 180;
    HexDigitsAtMost(a, 2);
    HexDigitsAtLeast(a, 2);
    NatDigitsRoundTrip(a, 16);
    PadStart(HexText(a), 2, '0')
  }

  const PreviewLayerHead := "radial-gradient(circle at "
  const PreviewLayerTail := " 0%, transparent 55%)"

  /**
   * The i-th preview layer: centred on the point, its colour with the i-th
   * clamped alpha at 0%, fading to transparent at a radius of 55%.
   */
  function PreviewLayer(p: ColorPoint, i: nat): (r: string)
    ensures StartsWith(r, PreviewLayerHead + Show(p.x) + "% " + Show(p.y) + "%, ")
    ensures EndsWith(r, p.color + AnimationAlphaHex(i) + PreviewLayerTail)
    ensures |r| == |PreviewLayerHead + Show(p.x) + "% " + Show(p.y) + "%, "|
                   + |p.color + AnimationAlphaHex(i) + PreviewLayerTail|
  {
    var head := PreviewLayerHead + Show(p.x) + "% " + Show(p.y) + "%, ";
    var tail := p.color + AnimationAlphaHex(i) + PreviewLayerTail;
    PrefixOfConcat(head, tail);
    SuffixOfConcat(head, tail);
    head + tail
  }

  /** Every preview layer opens with the `r` of `radial-gradient`. */
  lemma PreviewLayerOpensWithR(p: ColorPoint, i: nat)
    ensures |PreviewLayer(p, i)| > 0 && PreviewLayer(p, i)[0] == 'r'
  {
    var head := PreviewLayerHead + Show(p.x) + "% " + Show(p.y) + "%, ";
    assert PreviewLayer(p, i)[0] == head[0] == PreviewLayerHead[0];
  }

  /** `previewGradient`: one layer per point joined by ", ", or a flat grey for no points. */
  function PreviewGradient(colors: seq<ColorPoint>): (r: string)
    ensures colors == [] ==> r == EmptyPreview
    ensures colors != [] ==> StartsWith(r, PreviewLayer(colors[0], 0))
  {
    if |colors| == 0 then EmptyPreview
    else
      JoinStartsWithFirst(MapIndexed(colors, PreviewLayer), ", ");
      Join(MapIndexed(colors, PreviewLayer), ", ")
  }

  /** The flat grey appears exactly when there are no points. */
  lemma PreviewGradientEmptyIff(colors: seq<ColorPoint>)
    ensures PreviewGradient(colors) == EmptyPreview <==> colors == []
  {
    if colors != [] {
      PreviewLayerOpensWithR(colors[0], 0);
      assert PreviewGradient(colors)[0] == 'r' != EmptyPreview[0];
    }
  }

  /** One more point adds exactly one layer, for that point at the next index, at the end. */
  lemma PreviewGradientSnoc(colors: seq<ColorPoint>, p: ColorPoint)
    requires colors != []
    ensures PreviewGradient(colors + [p]) == PreviewGradient(colors) + ", " + PreviewLayer(p, |colors|)
  {
    MapIndexedSnoc(colors, p, PreviewLayer);
    JoinSnoc(MapIndexed(colors, PreviewLayer), PreviewLayer(p, |colors|), ", ");
  }

  // ---------------------------------------------------------------------------
  // Settings.

  /** The animation settings the panel edits. */
  datatype AnimationState = AnimationState(isPlaying: bool, speed: real, duration: real, easing: string)

  /** `Number(x.toFixed(2))`: the nearest multiple of 0.01, halves away from zero. */
  function RoundTo2(x: real): (r: real)
    ensures -0.005 <= r - x <= 0.005
    ensures x >= 0.0 ==> -0.005 < r - x
    ensures x <= 0.0 ==> r - x < 0.005
    ensures (r * 100.0).Floor as real == r * 100.0
  {
    var k := if x >= 0.0 then RoundReal(x * 100.0) else -RoundReal(-x * 100.0);
    assert k as real - 0.5 <= x * 100.0 <= k as real + 0.5;
    var r := k as real / 100.0;
    assert r * 100.0 == k as real;
    r
  }

  /** The speed slider: the value rounded to two decimals; nothing else changes. */
  function SpeedChange(a: AnimationState, value: real): (r: AnimationState)
    ensures r.isPlaying == a.isPlaying && r.duration == a.duration && r.easing == a.easing
    ensures -0.005 <= r.speed - value <= 0.005 && (r.speed * 100.0).Floor as real == r.speed * 100.0
    ensures value >= 0.0 ==> -0.005 < r.speed - value
    ensures value <= 0.0 ==> r.speed - value < 0.005
  {
    a.(speed := RoundTo2(value))
  }

  /** The duration slider: the value rounded to an integer; nothing else changes. */
  function DurationChange(a: AnimationState, value: real): (r: AnimationState)
    ensures r.isPlaying == a.isPlaying && r.speed == a.speed && r.easing == a.easing
    ensures r.duration == r.duration.Floor as real && -0.5 < r.duration - value <= 0.5
  {
    a.(duration := RoundReal(value) as real)
  }

  function EasingChange(a: AnimationState, easing: string): (r: AnimationState)
    ensures r.easing == easing && r.isPlaying == a.isPlaying && r.speed == a.speed && r.duration == a.duration
  {
    a.(easing := easing)
  }

  /** Play/pause flips `isPlaying` and nothing else; flipping twice restores the state. */
  function TogglePlayback(a: AnimationState): (r: AnimationState)
    ensures r.isPlaying != a.isPlaying && r.(isPlaying := a.isPlaying) == a
  {
    a.(isPlaying := !a.isPlaying)
  }

  /** Reset: stopped, speed 1, 8 seconds, "ease-in-out", whatever the state was. */
  function ResetAnimation(a: AnimationState): (r: AnimationState)
    ensures !r.isPlaying && r.speed == 1.0 && r.duration == 8.0 && r.easing == "ease-in-out"
  {
    a.(isPlaying := false, speed := 1.0, duration := 8.0, easing := "ease-in-out")
  }

  /** Every speed the slider offers (0.5 to 3 in steps of 0.1) survives the rounding unchanged. */
  lemma SliderSpeedsKept(k: nat)
    requires k <= 25
    ensures RoundTo2(0.5 + k as real / 10.0) == 0.5 + k as real / 10.0
  {
    var x := 0.5 + k as real / 10.0;
    var n := 50 + 10 * k;
    assert x * 100.0 == n as real;
    RoundIntegerValue(n);
  }

  lemma RoundIntegerValue(n: int)
    ensures RoundReal(n as real) == n
  {
  }
}
