/** The simplified stiffness analysis of a single-bay portal frame under a
    horizontal load at beam level. */
module PortalFrame {
  import opened Outcomes
  import opened Linalg
  import opened Arith
  import Units
  import MemberForces

  /** The page inputs: span L, column height H, modulus E in GPa, second
      moment of area I, cross-section area A, horizontal load P. */
  datatype FrameInputs = FrameInputs(
    span: real, height: real, eGpa: real, inertia: real, area: real, load: real)

  /** The bounds of the number inputs. */
  predicate InWidgetRange(p: FrameInputs) {
    && 1.0 <= p.span <= 10.0
    && 1.0 <= p.height <= 5.0
    && 100.0 <= p.eGpa <= 400.0
    && 0.0001 <= p.inertia <= 0.1
    && 0.001 <= p.area <= 0.5
    && 0.0 <= p.load <= 50.0
  }

  /** The inputs a page starts with. */
  const Defaults: FrameInputs := FrameInputs(5.0, 3.0, 200.0, 0.001, 0.01, 10.0)

  /** The defaults lie within the bounds. */
  lemma DefaultsInRange()
    ensures InWidgetRange(Defaults)
  {
  }

  /** The decoupled global stiffness matrix diag(24EI/H³, 2EA/L, 8EI/L), or
      the ZeroDivisionError that building it raises when H or L is zero. */
  function Stiffness(e: real, i: real, a: real, l: real, h: real): (r: Result<Mat3>)
    ensures r.Raised? <==> h == 0.0 || l == 0.0
    ensures r.Raised? ==> r.error == ZeroDivisionError
    ensures r.Ok? ==> && IsDiagonal(r.value)
                      && r.value.r1.x1 * (h * h * h) == 24.0 * e * i
                      && r.value.r2.x2 * l == 2.0 * e * a
                      && r.value.r3.x3 * l == 8.0 * e * i
  {
    CubeZero(h);
    if h * h * h == 0.0 then Raised(ZeroDivisionError)
    else if l == 0.0 then Raised(ZeroDivisionError)
    else
      DivMul(24.0 * e * i, h * h * h);
      DivMul(2.0 * e * a, l);
      DivMul(8.0 * e * i, l);
      Ok(Diagonal(24.0 * e * i / (h * h * h), 2.0 * e * a / l, 8.0 * e * i / l))
  }

  /** The load vector F = (P, 0, 0). */
  function Load(p: real): (f: Vec3)
    ensures f.x1 == p && f.x2 == 0.0 && f.x3 == 0.0
  {
    Vec3(p, 0.0, 0.0)
  }

  /** Where the try block of a portal page ends: the displacements and the
      matrix they solve, the LinAlgError handler, or the generic handler. */
  datatype PortalOutcome =
    | Solved(k: Mat3, u: Vec3)
    | Singular
    | Failed(cause: PyError)

  /** The except clauses in their order: LinAlgError first, then Exception. */
  function Handle(e: PyError): (r: PortalOutcome)
    ensures !r.Solved?
    ensures r.Singular? <==> e == LinAlgError
    ensures r.Failed? ==> r.cause == e
  {
    if e == LinAlgError then Singular else Failed(e)
  }

  /** Convert E, build K and F, and solve K·u = F. */
  function Analyze(p: FrameInputs): (r: PortalOutcome)
    ensures r.Solved? ==> IsDiagonal(r.k) && Apply(r.k, r.u) == Load(p.load)
    ensures r.Solved? ==> Stiffness(Units.GpaToKnPerM2(p.eGpa), p.inertia, p.area, p.span, p.height) == Ok(r.k)
    ensures r.Failed? <==> p.height == 0.0 || p.span == 0.0
    ensures r.Failed? ==> r.cause == ZeroDivisionError
    ensures r.Singular? <==>
      && p.height != 0.0 && p.span != 0.0
      && (p.eGpa == 0.0 || p.inertia == 0.0 || p.area == 0.0)
  {
    var e := Units.GpaToKnPerM2(p.eGpa);
    match Stiffness(e, p.inertia, p.area, p.span, p.height)
    case Raised(err) => Handle(err)
    case Ok(k) =>
      StiffnessSingular(e, p.inertia, p.area, p.span, p.height);
      match Solve(k, Load(p.load))
      case Raised(err) => Handle(err)
      case Ok(u) => Solved(k, u)
  }

  /** With H and L non-zero, K is diag(24EI/H³, 2EA/L, 8EI/L). */
  lemma StiffnessValue(e: real, i: real, a: real, l: real, h: real)
    requires h != 0.0 && l != 0.0
    ensures Stiffness(e, i, a, l, h)
         == Ok(Diagonal(24.0 * e * i / (h * h * h), 2.0 * e * a / l, 8.0 * e * i / l))
  {
    CubeZero(h);
  }

  /** With H and L non-zero, K is singular exactly when E, I or A is zero. */
  lemma StiffnessSingular(e: real, i: real, a: real, l: real, h: real)
    requires h != 0.0 && l != 0.0
    ensures Stiffness(e, i, a, l, h).Ok?
    ensures Det(Stiffness(e, i, a, l, h).value) == 0.0 <==> e == 0.0 || i == 0.0 || a == 0.0
  {
    ProductZero(h, h, h);
    var h3 := h * h * h;
    var n1, n2, n3 := 24.0 * e * i, 2.0 * e * a, 8.0 * e * i;
    var k11, k22, k33 := n1 / h3, n2 / l, n3 / l;
    assert Stiffness(e, i, a, l, h).value == Diagonal(k11, k22, k33);
    ProductZero(k11, k22, k33);
    QuotientZero(n1, h3);
    QuotientZero(n2, l);
    QuotientZero(n3, l);
    ProductZero(24.0, e, i);
    ProductZero(2.0, e, a);
    ProductZero(8.0, e, i);
  }

  /** For positive L, H, E, I and A every diagonal entry of K is positive. */
  lemma StiffnessPositive(e: real, i: real, a: real, l: real, h: real)
    requires l > 0.0 && h > 0.0 && e > 0.0 && i > 0.0 && a > 0.0
    ensures Stiffness(e, i, a, l, h).Ok?
    ensures var k := Stiffness(e, i, a, l, h).value;
      k.r1.x1 > 0.0 && k.r2.x2 > 0.0 && k.r3.x3 > 0.0
  {
    var h3 := h * h * h;
    assert h * h > 0.0;
    assert h3 > 0.0;
    assert e * i > 0.0 && e * a > 0.0;
    assert Stiffness(e, i, a, l, h).value == Diagonal(24.0 * e * i / h3, 2.0 * e * a / l, 8.0 * e * i / l);
  }

  /** A successful analysis returns u = (P/k11, 0, 0) for the k11 = 24EI/H³ of K. */
  lemma SolvedDisplacements(p: FrameInputs)
    requires Analyze(p).Solved?
    ensures var e := Units.GpaToKnPerM2(p.eGpa);
      && p.height != 0.0 && p.span != 0.0
      && Analyze(p).k.r1.x1 == 24.0 * e * p.inertia / (p.height * p.height * p.height)
      && Analyze(p).k.r1.x1 != 0.0
      && Analyze(p).u == Vec3(p.load / Analyze(p).k.r1.x1, 0.0, 0.0)
  {
    var e := Units.GpaToKnPerM2(p.eGpa);
    StiffnessValue(e, p.inertia, p.area, p.span, p.height);
    var k := Stiffness(e, p.inertia, p.area, p.span, p.height).value;
    assert Solve(k, Load(p.load)).Ok?;
    DiagonalDet(k);
  }

  /** The solved displacements in closed form: u = (P·H³/(24EI), 0, 0). */
  lemma DisplacementClosedForm(p: FrameInputs)
    requires Analyze(p).Solved?
    ensures var e := Units.GpaToKnPerM2(p.eGpa);
      Analyze(p).u == Vec3(p.load * (p.height * p.height * p.height) / (24.0 * e * p.inertia), 0.0, 0.0)
  {
    SolvedDisplacements(p);
    var e := Units.GpaToKnPerM2(p.eGpa);
    var h3 := p.height * p.height * p.height;
    var n := 24.0 * e * p.inertia;
    CubeZero(p.height);
    QuotientZero(n, h3);
    DivQuotient(p.load, n, h3);
  }

  /** Without load the frame does not move. */
  lemma ZeroLoadAtRest(p: FrameInputs)
    requires p.load == 0.0 && Analyze(p).Solved?
    ensures Analyze(p).u == Vec3(0.0, 0.0, 0.0)
  {
    DisplacementClosedForm(p);
  }

  /** Every input within the widget bounds solves, displacing the frame in
      the direction of the load: u1 >= 0, and u1 = 0 only without load. */
  lemma InRangeSolves(p: FrameInputs)
    requires InWidgetRange(p)
    ensures Analyze(p).Solved?
    ensures Analyze(p).u.x1 >= 0.0
    ensures Analyze(p).u.x1 == 0.0 <==> p.load == 0.0
  {
    var e := Units.GpaToKnPerM2(p.eGpa);
    StiffnessSingular(e, p.inertia, p.area, p.span, p.height);
    DisplacementClosedForm(p);
    var h3 := p.height * p.height * p.height;
    var n := 24.0 * e * p.inertia;
    assert p.height * p.height > 0.0;
    assert h3 > 0.0;
    assert e * p.inertia > 0.0;
    assert n > 0.0;
    var x := p.load * h3;
    assert x >= 0.0;
    ProductZero(p.load, h3, 1.0);
    QuotientZero(x, n);
  }

  /** The outcome does not depend on the load, and u1 is linear in it. */
  lemma LoadLinear(p: FrameInputs, c: real)
    ensures var q := p.(load := c * p.load);
      && Analyze(q).Solved? == Analyze(p).Solved?
      && Analyze(q).Singular? == Analyze(p).Singular?
      && (Analyze(p).Solved? ==> Analyze(q).u.x1 == c * Analyze(p).u.x1)
  {
    var q := p.(load := c * p.load);
    if Analyze(p).Solved? {
      DisplacementClosedForm(p);
      DisplacementClosedForm(q);
      var e := Units.GpaToKnPerM2(p.eGpa);
      var h3 := p.height * p.height * p.height;
      var n := 24.0 * e * p.inertia;
      assert (c * p.load) * h3 == c * (p.load * h3);
      ScaleQuotient(c, p.load * h3, n);
    }
  }

  /** At the default inputs K = diag(24·2e8·0.001/27, 800000, 320000) and
      u = (5.625e-5, 0, 0). */
  lemma DefaultDisplacement()
    ensures Analyze(Defaults) == Solved(Diagonal(4800000.0 / 27.0, 800000.0, 320000.0), Vec3(0.00005625, 0.0, 0.0))
  {
    var e := Units.GpaToKnPerM2(200.0);
    assert e == 200000000.0;
    var k := Diagonal(4800000.0 / 27.0, 800000.0, 320000.0);
    assert Stiffness(e, 0.001, 0.01, 5.0, 3.0) == Ok(k) by {
      StiffnessValue(e, 0.001, 0.01, 5.0, 3.0);
      assert 24.0 * e * 0.001 / (3.0 * 3.0 * 3.0) == 4800000.0 / 27.0;
      assert 2.0 * e * 0.01 / 5.0 == 800000.0;
      assert 8.0 * e * 0.001 / 5.0 == 320000.0;
    }
    var u := Vec3(0.00005625, 0.0, 0.0);
    assert Det(k) != 0.0 by { DiagonalDet(k); }
    assert Apply(k, u) == Load(10.0) by {
      DiagonalApply(k, u);
      assert 4800000.0 / 27.0 * 0.00005625 == 10.0;
    }
    SolveUnique(k, Load(10.0), u);
  }

  /** The member forces a portal page shows: only after the solve succeeded,
      and then from statics alone. */
  function ForcesShown(p: FrameInputs, m: MemberForces.Member): (r: Option<MemberForces.Forces>)
    ensures r.Some? <==> Analyze(p).Solved?
    ensures r.Some? ==> r.value == MemberForces.Recover(m, p.load, p.height)
  {
    if Analyze(p).Solved? then Some(MemberForces.Recover(m, p.load, p.height)) else None
  }
}
