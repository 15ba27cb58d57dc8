/** Three-component vectors, 3×3 matrices and the linear solve the portal frame uses. */
module Linalg {
  import opened Outcomes
  import opened Arith

  datatype Vec3 = Vec3(x1: real, x2: real, x3: real)

  /** A 3×3 matrix, given by its rows. */
  datatype Mat3 = Mat3(r1: Vec3, r2: Vec3, r3: Vec3)

  function Dot(a: Vec3, b: Vec3): real {
    a.x1 * b.x1 + a.x2 * b.x2 + a.x3 * b.x3
  }

  /** The product k·u. */
  function Apply(k: Mat3, u: Vec3): Vec3 {
    Vec3(Dot(k.r1, u), Dot(k.r2, u), Dot(k.r3, u))
  }

  predicate IsDiagonal(k: Mat3) {
    && k.r1.x2 == 0.0 && k.r1.x3 == 0.0
    && k.r2.x1 == 0.0 && k.r2.x3 == 0.0
    && k.r3.x1 == 0.0 && k.r3.x2 == 0.0
  }

  /** The determinant, by the rule of Sarrus. */
  function Det(k: Mat3): real {
    var a, b, c := k.r1, k.r2, k.r3;
    a.x1 * b.x2 * c.x3 + a.x2 * b.x3 * c.x1 + a.x3 * b.x1 * c.x2
    - a.x3 * b.x2 * c.x1 - a.x1 * b.x3 * c.x2 - a.x2 * b.x1 * c.x3
  }

  /** The diagonal matrix diag(d1, d2, d3). */
  function Diagonal(d1: real, d2: real, d3: real): (k: Mat3)
    ensures IsDiagonal(k)
  {
    Mat3(Vec3(d1, 0.0, 0.0), Vec3(0.0, d2, 0.0), Vec3(0.0, 0.0, d3))
  }

  /** A diagonal matrix scales each component on its own. */
  lemma DiagonalApply(k: Mat3, u: Vec3)
    requires IsDiagonal(k)
    ensures Apply(k, u) == Vec3(k.r1.x1 * u.x1, k.r2.x2 * u.x2, k.r3.x3 * u.x3)
  {
  }

  /** The determinant of a diagonal matrix is the product of its diagonal,
      so it vanishes exactly when a diagonal entry does. */
  lemma DiagonalDet(k: Mat3)
    requires IsDiagonal(k)
    ensures Det(k) == k.r1.x1 * k.r2.x2 * k.r3.x3
    ensures Det(k) == 0.0 <==> k.r1.x1 == 0.0 || k.r2.x2 == 0.0 || k.r3.x3 == 0.0
  {
    ProductZero(k.r1.x1, k.r2.x2, k.r3.x3);
  }

  /** `solve(K, F)` for a diagonal K: the solution of K·u = F, or LinAlgError
      when K is singular (a zero on its diagonal). */
  function Solve(k: Mat3, f: Vec3): (r: Result<Vec3>)
    requires IsDiagonal(k)
    ensures r.Ok? <==> Det(k) != 0.0
    ensures r.Raised? ==> r.error == LinAlgError
    ensures r.Ok? ==> Apply(k, r.value) == f
  {
    DiagonalDet(k);
    if k.r1.x1 == 0.0 || k.r2.x2 == 0.0 || k.r3.x3 == 0.0 then Raised(LinAlgError)
    else Ok(Vec3(f.x1 / k.r1.x1, f.x2 / k.r2.x2, f.x3 / k.r3.x3))
  }

  /** A non-singular diagonal K has one solution only, and Solve returns it. */
  lemma SolveUnique(k: Mat3, f: Vec3, v: Vec3)
    requires IsDiagonal(k) && Det(k) != 0.0
    requires Apply(k, v) == f
    ensures Solve(k, f) == Ok(v)
  {
    DiagonalDet(k);
    assert f.x1 == k.r1.x1 * v.x1 && f.x2 == k.r2.x2 * v.x2 && f.x3 == k.r3.x3 * v.x3;
    assert f.x1 / k.r1.x1 == v.x1;
    assert f.x2 / k.r2.x2 == v.x2;
    assert f.x3 / k.r3.x3 == v.x3;
  }
}
