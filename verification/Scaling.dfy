/** Dimmer position <-> Alexa brightness, and axis mirroring. */
module Scaling {
  import opened AlexaModel
  import opened JsNumbers

  function DimmerToBrightness(position: real, min: Option<real>, max: Option<real>): (b: int)
    ensures 0 <= b <= 100
  {
    var lo := if min.Some? then min.value else 0.0;
    var hi := if max.Some? then max.value else 100.0;
    if hi <= lo then (if position > lo then 100 else 0)
    else Clamp(Round((position - lo) / (hi - lo) * 100.0), 0, 100)
  }

  /** The point a fraction `share` of the way from `lo` to `hi`. */
  function At(share: real, lo: real, hi: real): real {
    lo + share * (hi - lo)
  }

  function BrightnessToDimmer(brightness: int, min: Option<real>, max: Option<real>): real {
    var lo := if min.Some? then min.value else 0.0;
    var hi := if max.Some? then max.value else 100.0;
    if hi <= lo then lo
    else ClampReal(Round(At(Clamp(brightness, 0, 100) as real / 100.0, lo, hi)) as real, lo, hi)
  }

  function MirrorInRange(value: real, bounds: Bounds): real {
    bounds.max + bounds.min - value
  }

  /** The wire command of SetBrightness on a Dimmer: 0 is sent as `off`. */
  datatype DimmerCommand = OffCommand | Position(position: real)

  function DimmerWrite(target: int, min: Option<real>, max: Option<real>): DimmerCommand {
    if target == 0 then OffCommand else Position(BrightnessToDimmer(target, min, max))
  }

  /** `off` sets the position to 0, otherwise the dimmer rests where it was sent. */
  function DimmerSettled(c: DimmerCommand): real {
    match c
    case OffCommand => 0.0
    case Position(p) => p
  }

  // ----- Real arithmetic ------------------------------------------------------------

  lemma MulMono(a: real, b: real, c: real)
    requires a <= b && c >= 0.0
    ensures a * c <= b * c
  {
    assert (b - a) * c >= 0.0;
  }

  lemma DivMono(a: real, b: real, c: real)
    requires a <= b && c > 0.0
    ensures a / c <= b / c
  {
    assert (b - a) / c >= 0.0;
    assert b / c == a / c + (b - a) / c;
  }

  lemma DivStrict(a: real, b: real, c: real)
    requires a < b && c > 0.0
    ensures a / c < b / c
  {
    assert (b - a) / c > 0.0;
    assert b / c == a / c + (b - a) / c;
  }

  lemma DivSelf(c: real)
    requires c > 0.0
    ensures 0.0 / c == 0.0 && c / c == 1.0
  {
  }

  lemma AtMono(s1: real, s2: real, lo: real, hi: real)
    requires s1 <= s2 && lo <= hi
    ensures At(s1, lo, hi) <= At(s2, lo, hi)
  {
    MulMono(s1, s2, hi - lo);
  }

  lemma AtBetween(share: real, lo: real, hi: real)
    requires 0.0 <= share <= 1.0 && lo <= hi
    ensures lo <= At(share, lo, hi) <= hi
  {
    AtMono(0.0, share, lo, hi);
    AtMono(share, 1.0, lo, hi);
  }

  lemma RoundBetween(x: real, lo: int, hi: int)
    requires lo as real <= x <= hi as real
    ensures lo <= Round(x) <= hi
  {
  }

  // ----- Round trips over integer bounds ------------------------------------------

  function I(n: int): Option<real> { Some(n as real) }

  function Exact(b: int, lo: int, hi: int): real {
    At(b as real / 100.0, lo as real, hi as real)
  }

  /** The written position is the exact one, rounded. */
  lemma PositionError(b: int, lo: int, hi: int)
    requires lo < hi && 0 <= b <= 100
    ensures var p := BrightnessToDimmer(b, I(lo), I(hi));
      && p == Round(Exact(b, lo, hi)) as real
      && lo as real <= p <= hi as real
      && -0.5 < p - Exact(b, lo, hi) <= 0.5
  {
    AtBetween(b as real / 100.0, lo as real, hi as real);
    RoundBetween(Exact(b, lo, hi), lo, hi);
  }

  /** Brightness written, settled and read back: unchanged on a dimmer with at
      least 100 steps, and never further off than 50/span + 1/2. */
  lemma BrightnessRoundTrip(b: int, lo: int, hi: int)
    requires lo < hi && 0 <= b <= 100
    ensures var back := DimmerToBrightness(BrightnessToDimmer(b, I(lo), I(hi)), I(lo), I(hi));
      && (hi - lo >= 100 ==> back == b)
      && Abs((back - b) as real) <= 50.0 / (hi as real - lo as real) + 0.5
  {
    var span := hi as real - lo as real;
    var p := BrightnessToDimmer(b, I(lo), I(hi));
    PositionError(b, lo, hi);
    var e := p - Exact(b, lo, hi);
    ReadError(p, b as real, lo as real, span);
    var x := (p - lo as real) / span * 100.0;
    assert x == b as real + e * 100.0 / span;
    ScaledError(e, span);
    if hi - lo == 100 {
      assert Exact(b, lo, hi) == (lo + b) as real;
      RoundUnique(Exact(b, lo, hi), lo + b);
    }
    if hi - lo >= 100 {
      RoundUnique(x, b);
    } else {
      NearClamp(x, b, 50.0 / span);
    }
  }

  lemma ReadError(p: real, b: real, lo: real, span: real)
    requires span > 0.0
    ensures (p - lo) / span * 100.0 == b + (p - (lo + b / 100.0 * span)) * 100.0 / span
  {
    var exact := lo + b / 100.0 * span;
    assert (p - lo) / span == (p - exact) / span + (exact - lo) / span;
    assert (b / 100.0 * span) / span == b / 100.0;
  }

  lemma ScaledError(e: real, span: real)
    requires -0.5 < e <= 0.5 && span > 0.0
    ensures -(50.0 / span) < e * 100.0 / span <= 50.0 / span
    ensures span > 100.0 ==> 50.0 / span < 0.5
  {
    DivMono(e * 100.0, 50.0, span);
    DivStrict(-50.0, e * 100.0, span);
    assert -50.0 / span == -(50.0 / span);
    if span > 100.0 {
      DivStrict(50.0, 0.5 * span, span);
      assert 0.5 * span / span == 0.5;
    }
  }

  lemma NearClamp(x: real, b: int, bound: real)
    requires 0 <= b <= 100 && 0.0 <= bound
    requires -bound <= x - b as real <= bound
    ensures Abs((Clamp(Round(x), 0, 100) - b) as real) <= bound + 0.5
  {
  }

  /** Rounding to a whole percent moves the position by less than half a step. */
  lemma PercentMovesLittle(k: int, steps: int, x: real, b: int, error: real)
    requires 0 <= k <= steps && 0 < steps <= 100 && x == k as real / steps as real * 100.0
    requires b == Round(x) && error == (b as real - x) * steps as real
    ensures -50.0 <= error < 50.0
  {
    if steps == 100 {
      HundredSteps(k as real, steps as real, x);
      RoundUnique(x, k);
      assert b as real == x;
    } else {
      SmallProduct(b as real - x, steps as real, error);
    }
  }

  /** A position read, written back and settled is unchanged when the dimmer has
      at most 100 steps. */
  lemma PositionRoundTrip(p: int, lo: int, hi: int)
    requires lo <= p <= hi && lo < hi && hi - lo <= 100
    ensures BrightnessToDimmer(DimmerToBrightness(p as real, I(lo), I(hi)), I(lo), I(hi)) == p as real
  {
    var k, span := p as real - lo as real, hi as real - lo as real;
    var x := k / span * 100.0;
    PercentBounds(k, span);
    RoundBetween(x, 0, 100);
    var b := Round(x);
    assert DimmerToBrightness(p as real, I(lo), I(hi)) == b;
    var error := (b as real - x) * span;
    WriteError(k, span, x, b as real, error);
    PercentMovesLittle(p - lo, hi - lo, x, b, error);
    assert Exact(b, lo, hi) == p as real + error / 100.0;
    RoundUnique(Exact(b, lo, hi), p);
    PositionError(b, lo, hi);
  }

  lemma HundredSteps(k: real, span: real, x: real)
    requires span == 100.0 && x == k / span * 100.0
    ensures x == k
  {
  }

  lemma PercentBounds(k: real, span: real)
    requires 0.0 <= k <= span && span > 0.0
    ensures 0.0 <= k / span * 100.0 <= 100.0
  {
    DivMono(0.0, k, span);
    DivMono(k, span, span);
    DivSelf(span);
  }

  lemma UpperProduct(d: real, w: real, m: real)
    requires d <= 0.5 && 0.0 < w <= 99.0 && m == d * w
    ensures m <= 49.5
  {
    MulMono(d, 0.5, w);
    assert m <= 0.5 * w;
  }

  lemma SmallProduct(d: real, w: real, m: real)
    requires -0.5 <= d <= 0.5 && 0.0 < w <= 99.0 && m == d * w
    ensures -49.5 <= m <= 49.5
  {
    UpperProduct(d, w, m);
    UpperProduct(-d, w, -m);
  }

  lemma WriteError(k: real, span: real, x: real, b: real, error: real)
    requires span > 0.0 && x == k / span * 100.0 && error == (b - x) * span
    ensures b / 100.0 * span == k + error / 100.0
  {
    assert k / span * span == k;
    assert x * span == k * 100.0;
  }

  /** Brighter never means a lower position. */
  lemma WriteMonotone(b1: int, b2: int, min: Option<real>, max: Option<real>)
    requires b1 <= b2
    ensures BrightnessToDimmer(b1, min, max) <= BrightnessToDimmer(b2, min, max)
  {
    var lo := if min.Some? then min.value else 0.0;
    var hi := if max.Some? then max.value else 100.0;
    if hi > lo {
      var s1, s2 := Clamp(b1, 0, 100) as real / 100.0, Clamp(b2, 0, 100) as real / 100.0;
      AtMono(s1, s2, lo, hi);
      RoundMonotone(At(s1, lo, hi), At(s2, lo, hi));
    }
  }

  /** A higher position never reads darker. */
  lemma ReadMonotone(p1: real, p2: real, min: Option<real>, max: Option<real>)
    requires p1 <= p2
    ensures DimmerToBrightness(p1, min, max) <= DimmerToBrightness(p2, min, max)
  {
    var lo := if min.Some? then min.value else 0.0;
    var hi := if max.Some? then max.value else 100.0;
    if hi > lo {
      DivMono(p1 - lo, p2 - lo, hi - lo);
      RoundMonotone((p1 - lo) / (hi - lo) * 100.0, (p2 - lo) / (hi - lo) * 100.0);
    }
  }

  /** SetBrightness on a Dimmer with integer bounds, `off` included: with at least
      100 steps and a minimum that is not negative, what ReportState reads after
      the dimmer settled is what was requested, and so is the power state. */
  lemma DimmerWriteReadBack(target: int, lo: int, hi: int)
    requires 0 <= target <= 100 && 0 <= lo && 100 <= hi - lo
    ensures var rest := DimmerSettled(DimmerWrite(target, I(lo), I(hi)));
      && DimmerToBrightness(rest, I(lo), I(hi)) == target
      && (rest == 0.0 <==> target == 0)
  {
    var span := hi as real - lo as real;
    BrightnessRoundTrip(target, lo, hi);
    if target == 0 {
      DivMono(0.0 - lo as real, 0.0, span);
      assert 0.0 / span == 0.0;
      RoundMonotone((0.0 - lo as real) / span * 100.0, 0.0);
    } else {
      PositionError(target, lo, hi);
      MulMono(0.01, target as real / 100.0, span);
    }
  }

  /** On a coarse dimmer starting at 0 a low request rounds down to position 0,
      which is read back as OFF: it happens exactly when target * span < 50. */
  lemma LowRequestReadsOffIff(target: int, hi: int)
    requires 1 <= target <= 100 && 1 <= hi
    ensures DimmerSettled(DimmerWrite(target, I(0), I(hi))) == 0.0 <==> target * hi < 50
  {
    PositionError(target, 0, hi);
    assert Exact(target, 0, hi) == (target * hi) as real / 100.0;
    if target * hi < 50 {
      RoundUnique(Exact(target, 0, hi), 0);
    } else {
      RoundMonotone(0.5, Exact(target, 0, hi));
    }
  }
}
