# Structural analysis pages: portal frame and cantilever

This project models the calculating core of a small teaching application for
structural analysis. The application has two analyses. It shows them on
four pages: a German multi-page app (`Start_App.py`), an Indonesian one
(`A_Home.py`), and two stand-alone pages (`1_Portal_Frame.py`,
`2_Block_Kantilever.py`). Pages that compute the same quantity compute it the
same way. `Start_App.py`, `A_Home.py` and `1_Portal_Frame.py` compute K and u.
`Start_App.py`, `A_Home.py` and `2_Block_Kantilever.py` compute delta_max. The
member forces and the deflection curves appear only on the two multi-page apps.

- **Portal frame.** Inputs are span L, column height H, modulus E in GPa, second moment
  of area I, area A and a horizontal load P at beam level. E is converted to kN/m²
  (× 10⁶). The page builds the decoupled stiffness matrix
  K = diag(24EI/H³, 2EA/L, 8EI/L) and the load vector F = (P, 0, 0), then solves K·u = F.
  A `LinAlgError` from the solver goes to the "singular matrix" handler. Any other
  exception goes to the generic handler.
- **Member forces** (`Start_App.py` and `A_Home.py` only; the stand-alone portal page
  shows only u). After a successful solve the page shows the internal forces of the
  member chosen in a selector. These come from statics alone:
  - each column carries shear P/2 and base moment P·H/2;
  - the beam carries P axially.
- **Cantilever.** The page computes delta_max = P·L³/(3EI); E·I = 0 raises
  `ZeroDivisionError`.
- **Deflection curves** (`Start_App.py` and `A_Home.py` only; the stand-alone
  cantilever page draws the beam, its support and the load, but no curve). The page
  samples 100 points x from 0 to L and draws one of two curves:
  - the German page's cubic y = −y_raw(x)·scale·0.5/(delta_max + 1e-9), where
    y_raw = P·x²/(6EI)·(3L − x) and scale = delta_max / y_raw(L);
  - the Indonesian page's parabola y = −delta_max·(x/L)².

Modules:
- `Outcomes`: the Python exceptions that matter, and `Result`/`Option`.
- `Units`: the GPa → kN/m² conversion.
- `Arith`: small facts about real arithmetic.
- `Linalg`: 3-vectors, 3×3 matrices, the determinant, and the solve for diagonal K.
- `PortalFrame`: stiffness, analysis and its outcome.
- `MemberForces`: internal forces and the member selector.
- `Cantilever`: deflection, sampling and both curves.

Numbers are exact `real`s, not IEEE doubles.

Two edge cases follow from the order of the operations:
- H = 0 is not reported as singular. Building K raises `ZeroDivisionError` before
  the solver runs, and the generic handler reports it (`PortalFrame.Analyze`, `Failed`).
  The same holds for L = 0.
- In the cantilever, L = 0 raises nothing: delta_max is 0. Only E·I = 0 raises
  (`Cantilever.DeltaMax`).

## Model

| member | source | states |
|---|---|---|
| Units.GpaToKnPerM2 | 1_Portal_Frame.py:28 | the modulus in kN/m² is the GPa value times 10⁶; it is zero, or positive, exactly when the GPa value is |
| PortalFrame.InWidgetRange | Start_App.py:31-38 | the bounds of the portal inputs: L in [1, 10], H in [1, 5], E in [100, 400] GPa, I in [0.0001, 0.1], A in [0.001, 0.5], P in [0, 50] |
| PortalFrame.DefaultsInRange | A_Home.py:32-38 | the default inputs (L 5, H 3, E 200, I 0.001, A 0.01, P 10) lie within the bounds |
| PortalFrame.Stiffness | Start_App.py:45-49 | raises ZeroDivisionError exactly when H or L is zero; otherwise K is diagonal with k11·H³ = 24EI, k22·L = 2EA, k33·L = 8EI |
| PortalFrame.StiffnessValue | A_Home.py:45-49 | with H, L non-zero, K is exactly diag(24EI/H³, 2EA/L, 8EI/L) |
| PortalFrame.StiffnessSingular | 1_Portal_Frame.py:47-54 | with H, L non-zero, det K = 0 exactly when E, I or A is zero |
| PortalFrame.StiffnessPositive | 1_Portal_Frame.py:47-54 | for positive L, H, E, I, A every diagonal stiffness is positive |
| Linalg.Diagonal | Start_App.py:45-49 | the matrix built from three diagonal entries is diagonal |
| Linalg.DiagonalApply | Start_App.py:51 | for diagonal K, K·u is the componentwise product of the diagonal with u |
| Linalg.DiagonalDet | 1_Portal_Frame.py:60 | for diagonal K, det K is the product of the diagonal, zero exactly when one entry is |
| Linalg.Solve | Start_App.py:51 | raises LinAlgError exactly when det K = 0; otherwise returns u with K·u = F |
| Linalg.SolveUnique | 1_Portal_Frame.py:59-60 | any v with K·v = F for non-singular K is what the solve returns |
| PortalFrame.Load | 1_Portal_Frame.py:57 | the load vector carries P on the horizontal degree of freedom and 0 on the other two |
| PortalFrame.Handle | Start_App.py:162-165 | the LinAlgError clause comes first and reports "singular"; every other exception goes to the generic clause with its cause |
| PortalFrame.Analyze | Start_App.py:40-51 | solved results carry the assembled stiffness K of the inputs and satisfy K·u = F; the generic handler (ZeroDivisionError) is reached exactly when H or L is zero; the singular handler exactly when H, L are non-zero and E, I or A is zero |
| PortalFrame.SolvedDisplacements | 1_Portal_Frame.py:60-64 | a solved frame has H, L non-zero, k11 = 24EI/H³ ≠ 0 and u = (P/k11, 0, 0) |
| PortalFrame.DisplacementClosedForm | A_Home.py:45-56 | a solved frame displaces by u = (P·H³/(24EI), 0, 0) |
| PortalFrame.ZeroLoadAtRest | 1_Portal_Frame.py:57-64 | a solved frame without load has u = 0 |
| PortalFrame.InRangeSolves | Start_App.py:31-51 | every input inside the widget bounds solves, with u1 ≥ 0 and u1 = 0 exactly when P = 0 |
| PortalFrame.LoadLinear | 1_Portal_Frame.py:57-62 | scaling P by c keeps the outcome and scales u1 by c |
| PortalFrame.DefaultDisplacement | A_Home.py:32-51 | at the default inputs K = diag(4800000/27, 800000, 320000) and u = (5.625e-5, 0, 0) |
| PortalFrame.ForcesShown | Start_App.py:51-101 | member forces are shown exactly when the solve succeeded, and they are the statics values for the chosen member |
| MemberForces.Recover | Start_App.py:74-95 | the beam carries N = P, V = M = 0; a column carries N = 0, 2V = P, M = V·H |
| MemberForces.ColumnsAgree | A_Home.py:68-98 | both columns give (0, P/2, P·H/2) |
| MemberForces.FrameEquilibrium | Start_App.py:74-95 | column shears sum to P, column axial forces to 0, base moments to P·H |
| MemberForces.Label | A_Home.py:62 | the option strings of the selector: "1. Linke Stütze", "2. Oberer Balken", "3. Rechte Stütze" and "1. Kolom Kiri", "2. Balok Atas", "3. Kolom Kanan" (definition) |
| MemberForces.LabelInjective | Start_App.py:67 | different members carry different labels |
| MemberForces.Select | A_Home.py:60-93 | a chosen option enters the branch of the member whose label it is; no branch is entered exactly when it is no member's label |
| MemberForces.SelectLabel | Start_App.py:65-92 | every offered label selects its own member |
| Cantilever.InWidgetRange | Start_App.py:178-181 | the bounds of the cantilever inputs: L in [1, 10], P in [1, 100], E in [100, 400] GPa, I in [0.0001, 0.1] |
| Cantilever.DefaultsInRange | 2_Block_Kantilever.py:12-15 | the default inputs (L 5, P 10, E 200, I 0.001) lie within the bounds |
| Cantilever.DeltaMax | 2_Block_Kantilever.py:21-22 | raises ZeroDivisionError exactly when E or I is zero; otherwise delta_max·3EI = P·L³ |
| Cantilever.DeltaMaxValue | Start_App.py:188 | with E, I non-zero, delta_max is P·L³/(3EI) |
| Cantilever.Deflection | 2_Block_Kantilever.py:14-22 | after the GPa conversion, raises ZeroDivisionError exactly when E or I is zero; otherwise delta_max·3·E·10⁶·I = P·L³ |
| Cantilever.DeflectionPositive | 2_Block_Kantilever.py:12-22 | positive P, L, E, I (every input in the widget bounds) give a positive deflection |
| Cantilever.DeltaMaxLinearInLoad | 2_Block_Kantilever.py:22 | scaling P by c scales delta_max by c |
| Cantilever.DeltaMaxCubicInSpan | 2_Block_Kantilever.py:22 | scaling L by c scales delta_max by c³; doubling L multiplies it by 8 |
| Cantilever.DefaultDeflection | 2_Block_Kantilever.py:12-22 | at the default inputs delta_max = 1/480 m |
| Cantilever.Linspace | Start_App.py:215 | 100 samples, the first 0 and the last L |
| Cantilever.LinspaceStep | A_Home.py:184 | neighbouring samples are L/99 apart |
| Cantilever.LinspaceOrdered | Start_App.py:215 | for L ≥ 0 the samples are ordered and lie in [0, L] |
| Cantilever.LinspaceRatio | A_Home.py:184-185 | each sample over L is its index over 99 |
| Cantilever.CubicShape | Start_App.py:216 | the unscaled cubic y_raw(x) = P·x²/(6EI)·(3L − x) (definition; its properties are the lemmas below) |
| Cantilever.CubicShapeEnds | Start_App.py:216-217 | y_raw(0) = 0 and y_raw(L) equals delta_max |
| Cantilever.CubicShapeFactor | Start_App.py:216 | y_raw(x) = P/(6EI)·x²(3L − x) |
| Cantilever.CubicShapeGrows | Start_App.py:216 | for positive P and EI, y_raw is non-negative and non-decreasing on [0, L] |
| Cantilever.CubicGrows | Start_App.py:216 | x²(3L − x) is non-decreasing on [0, L] |
| Cantilever.MaxScaling | Start_App.py:217 | for y_raw(L) ≠ 0 the scale times y_raw(L) is delta_max; otherwise the scale is 0 |
| Cantilever.MaxScalingIsUnit | Start_App.py:216-217 | the scale is 1 for a non-zero delta_max and 0 otherwise |
| Cantilever.CubicCurve | Start_App.py:215-218 | raises ZeroDivisionError exactly when delta_max + 1e-9 = 0; otherwise 100 points |
| Cantilever.CubicView | Start_App.py:187-232 | raises exactly when delta_max raises or delta_max + 1e-9 = 0, always ZeroDivisionError; otherwise the shown delta_max is the deflection and the curve has 100 points |
| Cantilever.CubicCurveAt | Start_App.py:215-218 | for positive inputs delta_max > 0 and point j is −y_raw(x_j)·0.5/(delta_max + 1e-9) |
| Cantilever.CubicCurveFalls | Start_App.py:218-220 | for positive inputs the curve is at or below 0 and non-increasing along the span |
| Cantilever.CubicCurveEnds | Start_App.py:218-221 | for positive inputs the curve starts at 0 and ends at −0.5·delta_max/(delta_max + 1e-9), strictly between −0.5 and 0 |
| Cantilever.CubicViewShape | Start_App.py:187-221 | for positive inputs the view is drawn; the curve starts at 0, falls monotonically at or below 0, and ends in (−0.5, 0) |
| Cantilever.ParabolaAt | A_Home.py:184-185 | point j of the parabola is −delta_max·(j/99)², whatever L is |
| Cantilever.ParabolaFalls | A_Home.py:185 | for delta_max ≥ 0 the parabola is at or below 0 and non-increasing |
| Cantilever.ParabolaCurve | A_Home.py:184-185 | the parabola has 100 points |
| Cantilever.ParabolaShape | A_Home.py:184-187 | the parabola starts at 0 and ends at −delta_max; for delta_max ≥ 0 it stays at or below 0 and falls monotonically |
| Cantilever.ParabolaView | A_Home.py:160-186 | raises ZeroDivisionError exactly when E or I is zero; otherwise the curve runs from 0 to −delta_max over 100 points |
| Cantilever.ParabolaViewShape | A_Home.py:151-186 | for positive inputs the parabola is drawn at or below the beam and falls monotonically |

## Left out

- The Streamlit widgets, the page navigation and the text, metrics and messages they show.
  The inputs are parameters; only their bounds (`InWidgetRange`) and their defaults (`Defaults`) are modelled.
- All matplotlib drawing: node positions, supports, arrows, labels and axis limits.
  Only the numbers that the drawn deflection curves are made of are modelled.
- The "compute" button of the stand-alone portal page. The model takes the button as pressed.
- IEEE floating point: rounding, overflow, NaN and infinities. Every quantity is an exact real.
  `np.linspace` is modelled as x_j = j·(L/99), its exact value.
- String formatting of results (`:.6f`, `:.5f`, `:.2f`).
- Linalg.Solve: requires a diagonal K. It does not model the general LU solve of `scipy.linalg.solve`, which only ever receives a diagonal matrix here.
- Cantilever.ParabolaView: requires span ≠ 0. With L = 0, NumPy divides the samples by zero and yields NaN points without raising. Real numbers cannot represent NaN, and the slider never allows L = 0.
- Order of effects. The success message for delta_max is shown before the curve is computed. A `ZeroDivisionError` from the normalisation of the cubic curve therefore follows a shown result. The model reduces this to the view's single outcome.
- The difference between Python ints and floats in the load vector, and NumPy's dtype promotion, are not modelled.
- The stand-alone cantilever page has no generic handler. This does not matter: its only possible exception is `ZeroDivisionError`.
