/** The end-loaded cantilever: its maximum deflection and the two deflection
    curves the pages draw. */
module Cantilever {
  import opened Outcomes
  import opened Arith
  import Units

  /** The page inputs: span L, end load P, modulus E in GPa, second moment of area I. */
  datatype BeamInputs = BeamInputs(span: real, load: real, eGpa: real, inertia: real)

  /** The bounds of the slider and the number inputs. */
  predicate InWidgetRange(b: BeamInputs) {
    && 1.0 <= b.span <= 10.0
    && 1.0 <= b.load <= 100.0
    && 100.0 <= b.eGpa <= 400.0
    && 0.0001 <= b.inertia <= 0.1
  }

  /** The inputs a page starts with. */
  const Defaults: BeamInputs := BeamInputs(5.0, 10.0, 200.0, 0.001)

  /** The defaults lie within the bounds. */
  lemma DefaultsInRange()
    ensures InWidgetRange(Defaults)
  {
  }

  /** delta_max = P·L³/(3·E·I), or the ZeroDivisionError raised when E·I is zero. */
  function DeltaMax(p: real, l: real, e: real, i: real): (r: Result<real>)
    ensures r.Raised? <==> e == 0.0 || i == 0.0
    ensures r.Raised? ==> r.error == ZeroDivisionError
    ensures r.Ok? ==> r.value * (3.0 * e * i) == p * (l * l * l)
  {
    ProductZero(3.0, e, i);
    if 3.0 * e * i == 0.0 then Raised(ZeroDivisionError)
    else
      DivMul(p * (l * l * l), 3.0 * e * i);
      Ok(p * (l * l * l) / (3.0 * e * i))
  }

  /** With E·I non-zero, delta_max is the quotient P·L³/(3EI). */
  lemma DeltaMaxValue(p: real, l: real, e: real, i: real)
    requires e != 0.0 && i != 0.0
    ensures 3.0 * e * i != 0.0
    ensures DeltaMax(p, l, e, i) == Ok(p * (l * l * l) / (3.0 * e * i))
  {
    ProductZero(3.0, e, i);
  }

  /** The maximum deflection of a page: E converted from GPa, then delta_max. */
  function Deflection(b: BeamInputs): (r: Result<real>)
    ensures r.Raised? <==> b.eGpa == 0.0 || b.inertia == 0.0
    ensures r.Raised? ==> r.error == ZeroDivisionError
    ensures r.Ok? ==> r.value * (3.0 * Units.GpaToKnPerM2(b.eGpa) * b.inertia) == b.load * (b.span * b.span * b.span)
  {
    DeltaMax(b.load, b.span, Units.GpaToKnPerM2(b.eGpa), b.inertia)
  }

  /** Positive P, L, E and I (so every input within the widget bounds) give
      a positive deflection. */
  lemma DeflectionPositive(b: BeamInputs)
    requires b.load > 0.0 && b.span > 0.0 && b.eGpa > 0.0 && b.inertia > 0.0
    ensures Deflection(b).Ok? && Deflection(b).value > 0.0
  {
    var e := Units.GpaToKnPerM2(b.eGpa);
    var l := b.span;
    assert l * l > 0.0;
    assert l * l * l > 0.0;
    assert b.load * (l * l * l) > 0.0;
    assert e * b.inertia > 0.0;
    assert 3.0 * e * b.inertia > 0.0;
    var d := Deflection(b).value;
    assert d * (3.0 * e * b.inertia) > 0.0;
  }

  /** delta_max is linear in P: scaling P by c scales it by c. */
  lemma DeltaMaxLinearInLoad(p: real, l: real, e: real, i: real, c: real)
    requires DeltaMax(p, l, e, i).Ok?
    ensures DeltaMax(c * p, l, e, i).Ok?
    ensures DeltaMax(c * p, l, e, i).value == c * DeltaMax(p, l, e, i).value
  {
    ProductZero(3.0, e, i);
    var n := 3.0 * e * i;
    var x := p * (l * l * l);
    assert DeltaMax(c * p, l, e, i).value == c * p * (l * l * l) / n;
    assert c * p * (l * l * l) == c * x;
    ScaleQuotient(c, x, n);
  }

  /** delta_max is cubic in L: scaling L by c scales it by c³, so doubling the
      span multiplies it by 8. */
  lemma DeltaMaxCubicInSpan(p: real, l: real, e: real, i: real, c: real)
    requires DeltaMax(p, l, e, i).Ok?
    ensures DeltaMax(p, c * l, e, i).Ok? && DeltaMax(p, 2.0 * l, e, i).Ok?
    ensures DeltaMax(p, c * l, e, i).value == c * c * c * DeltaMax(p, l, e, i).value
    ensures DeltaMax(p, 2.0 * l, e, i).value == 8.0 * DeltaMax(p, l, e, i).value
  {
    ProductZero(3.0, e, i);
    var n := 3.0 * e * i;
    var x := p * (l * l * l);
    assert DeltaMax(p, c * l, e, i).value == p * ((c * l) * (c * l) * (c * l)) / n;
    assert DeltaMax(p, 2.0 * l, e, i).value == p * ((2.0 * l) * (2.0 * l) * (2.0 * l)) / n;
    CubeOfProduct(c, l);
    CubeOfProduct(2.0, l);
    assert p * ((c * l) * (c * l) * (c * l)) == (c * c * c) * x;
    assert p * ((2.0 * l) * (2.0 * l) * (2.0 * l)) == 8.0 * x;
    ScaleQuotient(c * c * c, x, n);
    ScaleQuotient(8.0, x, n);
  }

  /** At the default inputs delta_max = 10·125/(3·2e8·0.001) = 1/480 m. */
  lemma DefaultDeflection()
    ensures Deflection(Defaults) == Ok(1.0 / 480.0)
  {
    assert Units.GpaToKnPerM2(200.0) == 200000000.0;
    assert 3.0 * 200000000.0 * 0.001 == 600000.0;
    assert 10.0 * (5.0 * 5.0 * 5.0) == 1250.0;
  }

  /** The number of points the curves are sampled at. */
  const SampleCount: nat := 100

  /** `np.linspace(0, L, 100)`: evenly spaced points from 0 to L inclusive. */
  function Linspace(l: real): (xs: seq<real>)
    ensures |xs| == SampleCount
    ensures xs[0] == 0.0 && xs[SampleCount - 1] == l
  {
    seq(SampleCount, j requires 0 <= j < SampleCount => (j as real) * (l / 99.0))
  }

  /** Neighbouring samples are L/99 apart. */
  lemma LinspaceStep(l: real, j: int)
    requires 0 < j < SampleCount
    ensures Linspace(l)[j] - Linspace(l)[j - 1] == l / 99.0
  {
  }

  /** The samples from 0 to a non-negative L are ordered and lie in [0, L]. */
  lemma LinspaceOrdered(l: real, j: int, k: int)
    requires l >= 0.0 && 0 <= j <= k < SampleCount
    ensures 0.0 <= Linspace(l)[j] <= Linspace(l)[k] <= l
  {
    var step := l / 99.0;
    var a, b := j as real, k as real;
    assert Linspace(l)[j] == a * step;
    assert Linspace(l)[k] == b * step;
    MulMono(a, b, step);
    MulMono(b, 99.0, step);
    MulMono(0.0, a, step);
    assert a * step <= b * step;
    assert b * step <= 99.0 * step;
  }

  /** Each sample divided by L is its index over 99. */
  lemma LinspaceRatio(l: real, j: int)
    requires l != 0.0 && 0 <= j < SampleCount
    ensures Linspace(l)[j] / l == (j as real) / 99.0
  {
    var x := Linspace(l)[j];
    assert x == (j as real) * (l / 99.0);
    assert x == (j as real) / 99.0 * l;
    DivMul((j as real) / 99.0, l);
    assert x / l * l == x by { DivMul(x, l); }
  }

  /** The unscaled deflection shape P·x²/(6EI)·(3L − x) of the German page. */
  function CubicShape(p: real, l: real, e: real, i: real, x: real): real
    requires e != 0.0 && i != 0.0
  {
    p * (x * x) / (6.0 * e * i) * (3.0 * l - x)
  }

  /** The shape is zero at the support and equals delta_max at the free end. */
  lemma CubicShapeEnds(p: real, l: real, e: real, i: real)
    requires e != 0.0 && i != 0.0
    ensures CubicShape(p, l, e, i, 0.0) == 0.0
    ensures DeltaMax(p, l, e, i) == Ok(CubicShape(p, l, e, i, l))
  {
    var n := 3.0 * e * i;
    assert n != 0.0 by { ProductZero(3.0, e, i); }
    calc {
      CubicShape(p, l, e, i, l);
      p * (l * l) / (2.0 * n) * (2.0 * l);
      { ScaleQuotient(2.0 * l, p * (l * l), 2.0 * n); }
      (2.0 * l) * (p * (l * l)) / (2.0 * n);
      { assert (2.0 * l) * (p * (l * l)) == 2.0 * (p * (l * l * l)); }
      2.0 * (p * (l * l * l)) / (2.0 * n);
      p * (l * l * l) / n;
    }
  }

  /** The shape is P/(6EI) times the cubic x²·(3L − x). */
  lemma CubicShapeFactor(p: real, l: real, e: real, i: real, x: real)
    requires e != 0.0 && i != 0.0
    ensures 6.0 * e * i != 0.0
    ensures CubicShape(p, l, e, i, x) == p / (6.0 * e * i) * (x * x * (3.0 * l - x))
  {
    ProductZero(6.0, e, i);
    QuotientRegroup(p, x * x, 3.0 * l - x, 6.0 * e * i);
  }

  /** For positive P and E·I the shape is non-negative and grows on [0, L]. */
  lemma CubicShapeGrows(p: real, l: real, e: real, i: real, x: real, y: real)
    requires p > 0.0 && e * i > 0.0
    requires 0.0 <= x <= y <= l
    ensures 0.0 <= CubicShape(p, l, e, i, x) <= CubicShape(p, l, e, i, y)
  {
    CubicShapeFactor(p, l, e, i, x);
    CubicShapeFactor(p, l, e, i, y);
    var q := p / (6.0 * e * i);
    assert q > 0.0;
    var gx, gy := x * x * (3.0 * l - x), y * y * (3.0 * l - y);
    CubicGrows(l, 0.0, x);
    CubicGrows(l, x, y);
    assert 0.0 <= gx <= gy;
    MulMono(0.0, gx, q);
    MulMono(gx, gy, q);
    assert q * gx <= q * gy;
  }

  /** x²·(3L − x) grows on [0, L]. */
  lemma CubicGrows(l: real, x: real, y: real)
    requires 0.0 <= x <= y <= l
    ensures x * x * (3.0 * l - x) <= y * y * (3.0 * l - y)
  {
    var d := y - x;
    assert y * y * (3.0 * l - y) - x * x * (3.0 * l - x)
        == d * (3.0 * l * (x + y) - (x * x + x * y + y * y));
    assert x * x <= l * x && x * y <= l * y && y * y <= l * y;
    assert x * x + x * y + y * y <= 3.0 * l * (x + y);
  }

  /** The scale factor of the German page: delta_max / y_raw(L), guarded to 0
      when y_raw(L) is zero. */
  function MaxScaling(delta: real, yEnd: real): (s: real)
    ensures yEnd != 0.0 ==> s * yEnd == delta
    ensures yEnd == 0.0 ==> s == 0.0
  {
    if yEnd != 0.0 then
      DivMul(delta, yEnd);
      delta / yEnd
    else 0.0
  }

  /** Since y_raw(L) is delta_max itself, the scale factor is exactly 1 for a
      non-zero deflection and 0 by the guard otherwise. */
  lemma MaxScalingIsUnit(p: real, l: real, e: real, i: real)
    requires e != 0.0 && i != 0.0
    ensures var d := DeltaMax(p, l, e, i).value;
      MaxScaling(d, CubicShape(p, l, e, i, l)) == if d != 0.0 then 1.0 else 0.0
  {
    CubicShapeEnds(p, l, e, i);
    var d := DeltaMax(p, l, e, i).value;
    if d != 0.0 {
      assert d / d == 1.0;
    }
  }

  /** 1e-9, added to delta_max before the drawn curve is normalised. */
  const DisplayEpsilon: real := 1e-9

  /** The curve the German page draws: −y_raw·scale·(0.5/(delta_max + 1e-9)) at
      the samples, or the ZeroDivisionError that normalising raises when
      delta_max + 1e-9 is zero. */
  function CubicCurve(p: real, l: real, e: real, i: real, delta: real): (r: Result<seq<real>>)
    requires e != 0.0 && i != 0.0
    ensures r.Raised? <==> delta + DisplayEpsilon == 0.0
    ensures r.Raised? ==> r.error == ZeroDivisionError
    ensures r.Ok? ==> |r.value| == SampleCount
  {
    var xs := Linspace(l);
    var raw := seq(SampleCount, j requires 0 <= j < SampleCount => CubicShape(p, l, e, i, xs[j]));
    var s := MaxScaling(delta, raw[SampleCount - 1]);
    if delta + DisplayEpsilon == 0.0 then Raised(ZeroDivisionError)
    else
      var norm := 0.5 / (delta + DisplayEpsilon);
      Ok(seq(SampleCount, j requires 0 <= j < SampleCount => -raw[j] * s * norm))
  }

  /** What a page shows for the cantilever: delta_max and the drawn curve. */
  datatype Sketch = Sketch(deltaMax: real, curve: seq<real>)

  /** The cantilever view of the German page. */
  function CubicView(b: BeamInputs): (r: Result<Sketch>)
    ensures r.Raised? <==> Deflection(b).Raised? || Deflection(b).value + DisplayEpsilon == 0.0
    ensures r.Raised? ==> r.error == ZeroDivisionError
    ensures r.Ok? ==> Deflection(b) == Ok(r.value.deltaMax) && |r.value.curve| == SampleCount
  {
    var e := Units.GpaToKnPerM2(b.eGpa);
    match DeltaMax(b.load, b.span, e, b.inertia)
    case Raised(err) => Raised(err)
    case Ok(d) =>
      match CubicCurve(b.load, b.span, e, b.inertia, d)
      case Raised(err) => Raised(err)
      case Ok(ys) => Ok(Sketch(d, ys))
  }

  /** The points of the German page's curve for positive P, L, E and I: the
      scale factor is 1, so point j is −y_raw(x_j)·0.5/(delta_max + 1e-9). */
  lemma CubicCurveAt(p: real, l: real, e: real, i: real, j: int)
    requires p > 0.0 && l > 0.0 && e > 0.0 && i > 0.0 && 0 <= j < SampleCount
    ensures DeltaMax(p, l, e, i).Ok? && DeltaMax(p, l, e, i).value > 0.0
    ensures var d := DeltaMax(p, l, e, i).value;
      && CubicCurve(p, l, e, i, d).Ok?
      && CubicCurve(p, l, e, i, d).value[j]
         == -CubicShape(p, l, e, i, Linspace(l)[j]) * (0.5 / (d + DisplayEpsilon))
  {
    DeltaMaxValue(p, l, e, i);
    var d := DeltaMax(p, l, e, i).value;
    var l3 := l * l * l;
    assert l3 > 0.0 by { assert l * l > 0.0; }
    assert p * l3 > 0.0;
    assert 3.0 * e * i > 0.0 by { assert e * i > 0.0; }
    assert d > 0.0;
    MaxScalingIsUnit(p, l, e, i);
  }

  /** For positive P, L, E and I the German page's curve falls along the span. */
  lemma CubicCurveFalls(p: real, l: real, e: real, i: real, j: int, k: int)
    requires p > 0.0 && l > 0.0 && e > 0.0 && i > 0.0 && 0 <= j <= k < SampleCount
    ensures DeltaMax(p, l, e, i).Ok?
    ensures var d := DeltaMax(p, l, e, i).value;
      && CubicCurve(p, l, e, i, d).Ok?
      && CubicCurve(p, l, e, i, d).value[k] <= CubicCurve(p, l, e, i, d).value[j] <= 0.0
  {
    CubicCurveAt(p, l, e, i, 0);
    var d := DeltaMax(p, l, e, i).value;
    var ys := CubicCurve(p, l, e, i, d).value;
    var norm := 0.5 / (d + DisplayEpsilon);
    var xs := Linspace(l);
    var rj, rk := CubicShape(p, l, e, i, xs[j]), CubicShape(p, l, e, i, xs[k]);
    assert ys[j] == -rj * norm by { CubicCurveAt(p, l, e, i, j); }
    assert ys[k] == -rk * norm by { CubicCurveAt(p, l, e, i, k); }
    assert 0.0 <= rj <= rk by {
      LinspaceOrdered(l, j, k);
      assert e * i > 0.0;
      CubicShapeGrows(p, l, e, i, 0.0, xs[j]);
      CubicShapeGrows(p, l, e, i, xs[j], xs[k]);
    }
    assert norm > 0.0 by { assert d + DisplayEpsilon > 0.0; }
    NegScaledOrder(ys[j], ys[k], rj, rk, norm);
  }

  /** The German page's curve for positive P, L, E and I: it starts at 0 and
      ends at −0.5·delta_max/(delta_max + 1e-9), strictly between −0.5 and 0. */
  lemma CubicCurveEnds(p: real, l: real, e: real, i: real)
    requires p > 0.0 && l > 0.0 && e > 0.0 && i > 0.0
    ensures DeltaMax(p, l, e, i).Ok?
    ensures var d := DeltaMax(p, l, e, i).value;
      && CubicCurve(p, l, e, i, d).Ok?
      && var ys := CubicCurve(p, l, e, i, d).value;
      && ys[0] == 0.0
      && ys[SampleCount - 1] == -0.5 * d / (d + DisplayEpsilon)
      && -0.5 < ys[SampleCount - 1] < 0.0
  {
    CubicCurveAt(p, l, e, i, 0);
    CubicCurveAt(p, l, e, i, SampleCount - 1);
    CubicShapeEnds(p, l, e, i);
    var d := DeltaMax(p, l, e, i).value;
    var q := d + DisplayEpsilon;
    assert q > d > 0.0;
    assert d / q < 1.0 by {
      DivMul(d, q);
    }
    assert d / q > 0.0;
    ScaleQuotient(0.5, d, q);
    assert -d * (0.5 / q) == -(0.5 * d / q);
  }

  /** For positive inputs the German page draws a curve that starts at 0, falls
      monotonically, and ends at −0.5·delta_max/(delta_max + 1e-9), which lies
      strictly between −0.5 and 0. */
  lemma CubicViewShape(b: BeamInputs)
    requires b.load > 0.0 && b.span > 0.0 && b.eGpa > 0.0 && b.inertia > 0.0
    ensures CubicView(b).Ok?
    ensures var ys, d := CubicView(b).value.curve, CubicView(b).value.deltaMax;
      && ys[0] == 0.0
      && ys[SampleCount - 1] == -0.5 * d / (d + DisplayEpsilon)
      && -0.5 < ys[SampleCount - 1] < 0.0
      && (forall j, k :: 0 <= j <= k < SampleCount ==> ys[k] <= ys[j] <= 0.0)
  {
    var e := Units.GpaToKnPerM2(b.eGpa);
    CubicCurveEnds(b.load, b.span, e, b.inertia);
    forall j, k | 0 <= j <= k < SampleCount
      ensures CubicView(b).value.curve[k] <= CubicView(b).value.curve[j] <= 0.0
    {
      CubicCurveFalls(b.load, b.span, e, b.inertia, j, k);
    }
  }

  /** The curve the Indonesian page draws: −delta_max·(x/L)² at the samples. */
  function ParabolaCurve(l: real, delta: real): (ys: seq<real>)
    requires l != 0.0
    ensures |ys| == SampleCount
  {
    var xs := Linspace(l);
    seq(SampleCount, j requires 0 <= j < SampleCount => -delta * ((xs[j] / l) * (xs[j] / l)))
  }

  /** The j-th point of the parabola is −delta_max·(j/99)², whatever L is. */
  lemma ParabolaAt(l: real, delta: real, j: int)
    requires l != 0.0 && 0 <= j < SampleCount
    ensures ParabolaCurve(l, delta)[j] == -delta * (((j as real) / 99.0) * ((j as real) / 99.0))
  {
    LinspaceRatio(l, j);
  }

  /** For delta_max >= 0 the parabola lies at or below 0 and falls along the span. */
  lemma ParabolaFalls(l: real, delta: real, j: int, k: int)
    requires l != 0.0 && delta >= 0.0 && 0 <= j <= k < SampleCount
    ensures ParabolaCurve(l, delta)[k] <= ParabolaCurve(l, delta)[j] <= 0.0
  {
    ParabolaAt(l, delta, j);
    ParabolaAt(l, delta, k);
    var s, t := (j as real) / 99.0, (k as real) / 99.0;
    assert 0.0 <= s <= t;
    SquareMono(s, t);
    MulMono(0.0, s * s, delta);
    MulMono(s * s, t * t, delta);
  }

  /** The parabola starts at 0 and ends at −delta_max; for delta_max >= 0 it
      never rises above 0 and falls monotonically along the span. */
  lemma ParabolaShape(l: real, delta: real)
    requires l != 0.0
    ensures var ys := ParabolaCurve(l, delta);
      && ys[0] == 0.0
      && ys[SampleCount - 1] == -delta
      && (delta >= 0.0 ==> forall j :: 0 <= j < SampleCount ==> ys[j] <= 0.0)
      && (delta >= 0.0 ==> forall j, k :: 0 <= j <= k < SampleCount ==> ys[k] <= ys[j])
  {
    ParabolaAt(l, delta, 0);
    ParabolaAt(l, delta, SampleCount - 1);
    if delta >= 0.0 {
      forall j, k | 0 <= j <= k < SampleCount
        ensures ParabolaCurve(l, delta)[k] <= ParabolaCurve(l, delta)[j] <= 0.0
      {
        ParabolaFalls(l, delta, j, k);
      }
      forall j | 0 <= j < SampleCount
        ensures ParabolaCurve(l, delta)[j] <= 0.0
      {
        ParabolaFalls(l, delta, j, j);
      }
    }
  }

  /** The cantilever view of the Indonesian page: delta_max, then the parabola. */
  function ParabolaView(b: BeamInputs): (r: Result<Sketch>)
    requires b.span != 0.0
    ensures r.Raised? <==> b.eGpa == 0.0 || b.inertia == 0.0
    ensures r.Raised? ==> r.error == ZeroDivisionError
    ensures r.Ok? ==> && Deflection(b) == Ok(r.value.deltaMax)
                      && |r.value.curve| == SampleCount
                      && r.value.curve[0] == 0.0
                      && r.value.curve[SampleCount - 1] == -r.value.deltaMax
  {
    match Deflection(b)
    case Raised(err) => Raised(err)
    case Ok(d) =>
      ParabolaShape(b.span, d);
      Ok(Sketch(d, ParabolaCurve(b.span, d)))
  }

  /** For positive inputs the Indonesian page draws a curve at or below the beam
      that falls monotonically from 0 to −delta_max. */
  lemma ParabolaViewShape(b: BeamInputs)
    requires b.load > 0.0 && b.span > 0.0 && b.eGpa > 0.0 && b.inertia > 0.0
    ensures ParabolaView(b).Ok?
    ensures var ys := ParabolaView(b).value.curve;
      && (forall j :: 0 <= j < SampleCount ==> ys[j] <= 0.0)
      && (forall j, k :: 0 <= j <= k < SampleCount ==> ys[k] <= ys[j])
  {
    DeflectionPositive(b);
    ParabolaShape(b.span, Deflection(b).value);
  }
}
