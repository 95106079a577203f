# AISC 360-16 LRFD member checks and fillet-weld strength in Dafny

This project models the capacity arithmetic of a small set of steel-design
calculation sheets that re-derive the results of a STAAD.Pro design report
under AISC 360-16 (LRFD). It covers three pieces of code:

- **`calculate_checks`** (`StaadCheck`). From the section properties, material,
  design parameters and factored forces of one W-shape member, it computes:
  - tension yielding and rupture (section D2);
  - flexural buckling about both axes (section E3);
  - doubly symmetric torsional buckling (section E4);
  - shear (section G2.1);
  - weak-axis yielding (section F6);
  - three-regime lateral-torsional buckling (section F2);
  - flange local buckling;
  - the H1.1 axial-flexure interaction.
- **The function-level engine** of the report-driven calculation sheet (`Staad2`).
  It is a second, divergent implementation of tensile capacity, the critical
  stress `fcr_from_fe`, compression capacity, flexural capacity (with the
  `non_compact_mn` line) and the interaction ratio. It works on the values
  parsed from the report.
- **The fillet-weld group in shear** (`Weld`, section J2.4): effective throat,
  nominal strength, LRFD or ASD design strength, utilisation and verdict.

Shared pieces:
- `Aisc` holds the constants and the two formulas of the standard that both
  engines are measured against: the critical stress of Eq. E3-2/E3-3, and
  the interaction of Eq. H1-1a/H1-1b.
- `EngineComparison` relates the two engines where they compute the same
  limit state.
- `Numerics` supplies the real-valued stand-ins for the transcendental
  operations.
- `Wrappers` supplies `Option` and `Result`. `Result` carries the Python
  exception (`ZeroDivisionError`, `TypeError`) that the source raises on a
  given input.

Modelling choices:
- **Transcendentals.** `**0.5`, `0.658 ** x` and `math.pi` are modelled as
  follows:
  - The module constants `SquareRoot` and `Power658` belong to subset types
    of `real -> real`. Each type's predicate states the laws the proofs use.
    The functions `Sqrt` and `Pow658` apply these constants.
  - Sqrt laws: zero at 0, non-negative, positive on positives, monotone, and
    `x <= Sqrt(x)^2`.
  - Pow658 laws: 1 at 0, positive, strictly decreasing.
  - A witness function shows that each set of laws is consistent.
  - `Pi` is the literal value of Python's `math.pi`.
- **Arithmetic.** All arithmetic is on unbounded `real`. Floating-point
  rounding is not modelled.
- **Input dictionaries.** Absent report entries take the source's defaults
  before they reach `StaadCheck`. An entry the parser stores as `None` is not
  modelled there (see "## Left out").
  - In `Staad2`, an entry is an `Option<real>` where a missing key and `None`
    behave alike.
  - It is an `Entry` (`Absent | Null | Num`) where they differ. That is the
    case for a `values.get(key, default)` whose default only covers a
    missing key, because the report parser stores every key it looks for.

## Model

| member | source | states |
|---|---|---|
| Numerics.Ratio | STAAD_CHECK.py:220 | the guarded ratio `demand/capacity if capacity else 0`: multiplied back by a non-zero capacity it returns the demand; it is 0 for a zero capacity; it is non-negative for a non-negative demand over a positive capacity; against a positive capacity it is at most 1 exactly when the demand is within the capacity |
| Numerics.Interpolate | STAAD_CHECK.py:330 | the straight line from `hi` at `x0` to `lo` at `x1` hits both endpoints and stays between them on `[x0, x1]`; outside that interval it stays on the far side of the nearer endpoint; both hold for either ordering of `hi` and `lo` |
| Numerics.InterpolateMonotone | STAAD_CHECK.py:330 | a falling line (`lo <= hi`) never rises: a larger `x` gives a value no larger |
| Aisc.CriticalStress | STAAD_CHECK.py:269-275 | Fcr by the Fy/Fe rule of section E3: `0.658^(Fy/Fe) Fy` when `Fy/Fe <= 2.25` (stated as `Fy <= 2.25 Fe`, the same test for positive Fe), `0.877 Fe` otherwise; always positive and never above Fy; in the elastic range it is below Fe |
| Aisc.InelasticGrowsWithFe | STAAD_CHECK.py:269-275 | in the inelastic range a larger elastic buckling stress never gives a smaller `0.658^(Fy/Fe) Fy` |
| Aisc.H1 | STAAD_CHECK.py:360-367 | Eq. H1-1a is chosen exactly when `Pr/Pc >= 0.2`, with ratio `Pr/Pc + 8/9 M`; otherwise Eq. H1-1b with `Pr/Pc / 2 + M` |
| Aisc.H1Bounds | STAAD_CHECK.py:360-367 | for non-negative terms the ratio is non-negative, grows with the flexural term, and covers at least half the axial term and 8/9 of the flexural term |
| Aisc.H1BranchesMeetOnlyAtNineTenths | STAAD_CHECK.py:362-367 | at `Pr/Pc = 0.2` the two equations agree only when the flexural term is 0.9 |
| StaadCheck.DemandRatioVerdict | STAAD_CHECK.py:220 | a ratio that is the demand over the design capacity is non-negative against a non-negative capacity and, against a positive capacity, at most 1 exactly when the demand is within the capacity |
| StaadCheck.Assess | STAAD_CHECK.py:218-220 | a check's design capacity is phi times the nominal one and its ratio is the demand over the design capacity (0 for a zero capacity), so the check passes exactly when the demand is within the capacity |
| StaadCheck.RadiusOfGyration | STAAD_CHECK.py:211-212 | `r = sqrt(I/Ag)` (0 unless Ag > 0) is positive exactly when both Ag and I are, and `r^2` is at least `I/Ag` |
| StaadCheck.FlangeDistance | STAAD_CHECK.py:214 | h0 is non-negative and positive exactly when both Iyy and Cw are |
| StaadCheck.EffectiveRadius | STAAD_CHECK.py:308 | rts is non-negative and positive exactly when Sx, Iyy and Cw all are |
| StaadCheck.PlasticLength | STAAD_CHECK.py:304 | Lp of Eq. F2-5 is non-negative and positive exactly when ry is |
| StaadCheck.LimitingLength | STAAD_CHECK.py:314-320 | Lr of Eq. F2-6 is non-negative and positive exactly when rts and h0 both are |
| StaadCheck.TensionYielding | STAAD_CHECK.py:218-220 | `Pn = Fy Ag`, `phi Pn = 0.9 Pn`, demand `abs(Pz)`; it passes exactly when `abs(Pz) <= 0.9 Fy Ag` |
| StaadCheck.TensionRupture | STAAD_CHECK.py:223-226 | `Ae = Ag NSF SLF`, `Pn = Fu Ae`, `phi Pn = 0.75 Pn`; it passes exactly when `abs(Pz) <= 0.75 Fu Ae` |
| StaadCheck.InelasticLimit | STAAD_CHECK.py:232 | the slenderness limit `4.71 sqrt(E/Fy)` satisfies `22.1841 E <= Fy limit^2` |
| StaadCheck.EulerStress | STAAD_CHECK.py:231 | for positive KL/r, Fe is positive and `Fe (KL/r)^2 = pi^2 E`; otherwise Fe is 0 |
| StaadCheck.FlexuralCriticalStress | STAAD_CHECK.py:231-235 | Fcr lies in `[0, Fy]` and is positive exactly when KL/r is; it follows Eq. E3-2 up to the slenderness limit and `0.877 Fe` beyond, where `22.1841 Fe < pi^2 Fy` |
| StaadCheck.FlexuralBuckling | STAAD_CHECK.py:230-249 | `KL/r` (0 when r is 0), Fe, Fcr, `Pn = Fcr Ag`, `phi = 0.9`; a member without a radius of gyration has zero Fe, Fcr, capacity and ratio; the ratio is non-negative for a non-negative area |
| StaadCheck.EulerStressDecreasing | STAAD_CHECK.py:231 | Fe is positive and does not grow with KL/r |
| StaadCheck.TorsionalBuckling | STAAD_CHECK.py:253-279 | raises ZeroDivisionError exactly when Ag is 0; otherwise `ro^2 Ag = Ixx + Iyy` and `Fez (Ixx + Iyy)` is the warping plus St. Venant stiffness (Fez is 0 when `Ixx + Iyy <= 0`); Fcr follows section E3 for a positive Fez and is 0 otherwise, always within `[0, Fy]`; `Pn = Fcr Ag`; the reported H is 1.0 |
| StaadCheck.Shear | STAAD_CHECK.py:286-293 | `Vn = 0.6 Fy Aw` with Cv = 1, `phi = 0.9`; it passes exactly when `abs(Vu) <= 0.54 Fy Aw` |
| StaadCheck.WeakAxisYielding | STAAD_CHECK.py:297-300 | Mn is one of `Fy Zy` and `1.6 Fy Sy` and exceeds neither |
| StaadCheck.EulerLtbStress | STAAD_CHECK.py:333 | the warping-only term of Eq. F2-4 times `(Lb/rts)^2` gives back `Cb pi^2 E`, and it is non-negative for non-negative Cb |
| StaadCheck.LtbTorsionFactor | STAAD_CHECK.py:333 | the square-root factor of Eq. F2-4 squares to at least `1 + 0.078 J c / (Sx h0) (Lb/rts)^2`, and it is at least 1 for non-negative J and positive `Sx h0` |
| StaadCheck.ElasticLtbStress | STAAD_CHECK.py:333 | the elastic LTB stress of Eq. F2-4 is at least its warping-only term for non-negative Cb |
| StaadCheck.InelasticLtbMoment | STAAD_CHECK.py:330-331 | the Cb-scaled line of Eq. F2-2 capped at Mp never exceeds Mp, and is non-negative for non-negative Cb, Mp, Mr with Lb in `[Lp, Lr]` |
| StaadCheck.ElasticLtbMoment | STAAD_CHECK.py:333-335 | the moment is Mp or `Fcr Sx` and exceeds neither; for non-negative Cb and Sx it is Mp or at least the warping-only moment `Cb pi^2 E Sx / (Lb/rts)^2`, so at least the smaller of that and Mp; it is non-negative for non-negative Cb, Mp and Sx |
| StaadCheck.LtbMoment | STAAD_CHECK.py:322-335 | Mp up to Lp, the capped inelastic line up to Lr, the capped elastic moment beyond; raises ZeroDivisionError exactly when Lb > Lp while rts is 0; never exceeds Mp and is non-negative for non-negative Cb, Mp and Sx |
| StaadCheck.LateralTorsionalBuckling | STAAD_CHECK.py:337-338 | reports Lp, Lr, rts, Cb and the LTB moment with `phi = 0.9` against `abs(Mx)`, and raises ZeroDivisionError exactly when the moment does |
| StaadCheck.Interact | STAAD_CHECK.py:356-369 | Pc is the least compression design capacity and Mcx, Mcy the least flexural ones per axis; raises ZeroDivisionError exactly when Mcx or Mcy is 0; Eq. H1-1a is chosen exactly when Pc > 0 and `Pu >= 0.2 Pc`, each branch with its formula (the axial term is 0 when Pc <= 0); the reported caption is "Eq.H1-1a" or "Eq.H1-1b" to match |
| StaadCheck.AxialThreshold | STAAD_CHECK.py:360-362 | for positive Pc, `Pu/Pc >= 0.2` exactly when `Pu >= 0.2 Pc` |
| StaadCheck.CalculateChecks | STAAD_CHECK.py:173-371 | raises ZeroDivisionError for Fy = 0 and TypeError for negative Fy; otherwise raises (ZeroDivisionError) exactly when Ag is 0, when the elastic LTB branch meets rts = 0, or when an interaction flexural capacity is 0; on success every limit state is the one its component defines |
| StaadCheck.InteractionCapacitiesGovern | STAAD_CHECK.py:344-358 | Mcx is `0.9` times the LTB moment and at most `0.9 Fy Zx`, Mcy is the weak-axis yielding capacity, both non-zero, and Pc is the least of the three compression capacities and equal to one of them |
| StaadCheck.DirectRatiosNonNegative | STAAD_CHECK.py:218-300 | for physical data the tension, shear and weak-axis ratios are non-negative |
| StaadCheck.FlexureRatiosNonNegative | STAAD_CHECK.py:337-346 | for physical data the LTB and strong-axis flange ratios are non-negative |
| StaadCheck.ReportedDirectRatiosNonNegative | STAAD_CHECK.py:204-300 | in a successful check of physical data the tension, shear and weak-axis ratios are non-negative |
| StaadCheck.ReportedBucklingRatiosNonNegative | STAAD_CHECK.py:238-279 | in a successful check of physical data the three compression ratios are non-negative |
| StaadCheck.ReportedFlexureRatiosNonNegative | STAAD_CHECK.py:338-351 | in a successful check of physical data the LTB and both flange local buckling ratios are non-negative |
| StaadCheck.InteractionNonNegative | STAAD_CHECK.py:356-369 | in a successful check of physical data the interaction ratio is non-negative |
| StaadCheck.InteractNonNegative | STAAD_CHECK.py:356-369 | on non-negative demands and non-negative flexural design capacities a successful interaction has a non-negative ratio |
| StaadCheck.FlexuralDesignsNonNegative | STAAD_CHECK.py:296-351 | for physical data the LTB, both flange local buckling and the weak-axis design capacities are non-negative |
| StaadCheck.InteractionRatioNonNegative | STAAD_CHECK.py:360-367 | with non-negative demands and positive flexural capacities, either H1 equation gives a non-negative ratio |
| Staad2.Get | STAAD2.py:272 | `values.get(key, default)` is `None` exactly for a key stored as `None`, the default for an absent key, the stored number otherwise |
| Staad2.TensileCapacity | STAAD2.py:268-286 | as written: raises TypeError exactly when the effective area is stored as `None`; otherwise `phi Pn = 0.9 fy ag` for yielding and `0.75 fu ae` for rupture, with ae falling back to ag only for an absent key |
| Staad2.TensileCapacityCorrected | STAAD2.py:268-286 | with the fallback intended for a report without Ae: never raises, takes ag for an absent or `None` ae, and agrees with the as-written function wherever that succeeds |
| Staad2.FcrFromFe | STAAD2.py:289-292 | as written: `0.658^(fe/fy) fy` when `fe/fy <= 2.25`, `0.877 fe` otherwise; non-zero whenever fe is |
| Staad2.EulerFromSlenderness | STAAD2.py:303-304 | Fe is present exactly for a truthy `Lc/r`, and then positive with `Fe (Lc/r)^2 = pi^2 E` |
| Staad2.FromElasticStress | STAAD2.py:306-314 | Fcr and Pn are present exactly when Fe is truthy, and then `Pn = Fcr ag` with Fcr from `fcr_from_fe` |
| Staad2.FlexuralAxis | STAAD2.py:303-311 | for one axis, Fe, Fcr and Pn are present exactly for a truthy `Lc/r`, and then `Fe (Lc/r)^2 = pi^2 E`, Fcr is `fcr_from_fe` of Fe and `Pn = Fcr ag` |
| Staad2.CompressionCapacity | STAAD2.py:295-326 | raises ZeroDivisionError exactly when fy is 0 and some input is truthy; otherwise each computed Fe and every reported Fcr and Pn is present exactly when its input is present and non-zero, with `Fe (Lc/r)^2 = pi^2 E`, each Fcr the as-written `fcr_from_fe` of its Fe and `Pn = Fcr ag` |
| Staad2.LtbMoment | STAAD2.py:342-345 | the uncapped Cb-scaled line gives `cb mp` at `lb = lp` and `cb mr` at `lb = lr` when `lr and lp and lr > lp`, and mp otherwise |
| Staad2.NonCompactMn | STAAD2.py:356-359 | the flange line gives mp at lamP and mr at lamR, stays within `[mr, mp]` on `[lamP, lamR]` when `mr <= mp`, and is mp when the guard fails |
| Staad2.NonCompactMnMonotone | STAAD2.py:356-359 | for `mr <= mp` a more slender flange never carries more moment |
| Staad2.FlexuralCapacity | STAAD2.py:329-375 | raises TypeError exactly when the LTB line applies and Cb or the length is stored as `None`; otherwise `mp = fy z`, `mr = 0.7 fy s` per axis, the uncapped LTB line (mp when it does not apply), flange local buckling per axis, and weak-axis yielding `fy Zy` without the 1.6 cap |
| Staad2.DefaultFlangeIsNonCompact | STAAD2.py:349-351 | with the defaults 9.2, 9.15 and 24.08, the flange moment lies strictly between Mr and Mp whenever `0 <= Mr < Mp` |
| Staad2.LtbMomentExceedsPlastic | STAAD2.py:342-343 | the LTB line is not capped: with Cb > 1 and Mp > 0 it exceeds Mp at `lb = lp` |
| Staad2.LtbMomentExtrapolates | STAAD2.py:342-343 | for `lb < lp` the line is extrapolated above `cb mp` whenever `mr < mp` and Cb > 0 |
| Staad2.AxialTerm | STAAD2.py:389 | `pu/pc if pc else 0`: multiplied back by a non-zero pc it returns pu; 0 for pc = 0 |
| Staad2.Magnitude | STAAD2.py:379-382 | `abs(values.get(key, 0.0))` is absent exactly for a force stored as `None`, non-negative otherwise, 0 for an absent key |
| Staad2.InteractionRatio | STAAD2.py:378-393 | raises TypeError exactly when a force is stored as `None`; no ratio when pc, mcx or mcy is missing; raises ZeroDivisionError exactly when all are present and mcx or mcy is zero; otherwise always a ratio: `axial/2 + moment` for an axial term up to and including 0.2, `axial + 8/9 moment` above |
| Staad2.InteractionRatioVersusH1 | STAAD2.py:389-393 | the ratio equals that of section H1.1 exactly when the axial term is not 0.2 or the flexural term is 0.9 |
| Staad2.InteractionRatioAtBoundaryExample | STAAD2.py:391-392 | `|pz| = 20`, `pc = 100`, `|mx| = 50`, `mcx = 100` gives 0.6 as written where Eq. H1-1a gives `0.2 + 8/9 * 0.5` |
| Staad2.FcrFromFeMatchesE3OnlyAtYield | STAAD2.py:289-292 | within the inelastic range of both formulas, `fcr_from_fe` agrees with section E3 exactly when fe = fy |
| Staad2.FcrFromFeOverestimatesSlender | STAAD2.py:289-292 | for `fy/2.25 <= fe < fy`, the as-written Fcr is strictly above that of section E3 |
| Staad2.FcrFromFeUnderestimatesStocky | STAAD2.py:289-292 | for `fy < fe <= 2.25 fy`, the as-written Fcr is strictly below that of section E3 |
| Staad2.FcrFromFeFallsWithFe | STAAD2.py:290-291 | in its power-law range the as-written Fcr strictly decreases as fe grows, the reverse of section E3 |
| Staad2.FcrFromFeExample | STAAD2.py:289-292 | fe = 100, fy = 50 gives `0.658^2 * 50` as written and `0.658^0.5 * 50` by Eq. E3-2 |
| Weld.DesignStrength | Weld.py:237-245 | `0.75 Rn` for LRFD and `Rn/2.0` for ASD; for positive Rn the design strength is positive and below Rn |
| Weld.Compute | Weld.py:223-248 | throat `0.707 w`, weld stress `0.6 Fexx`, strength per length `Fw t` and `Rn = (Fw t)(n L)`; for a positive design strength the utilisation times the design strength is Ru, otherwise it is 0; the verdict holds exactly when the utilisation is at most 1 |
| Weld.WithinBoundsRatioIsExact | Weld.py:162-248 | within the widget ranges the design strength is positive, the utilisation non-negative and exact, and the weld passes exactly when Ru does not exceed the design strength |
| Weld.LrfdIsOneAndAHalfAsd | Weld.py:237-245 | the LRFD design strength of any weld group is 1.5 times its ASD design strength |
| Weld.DesignStrengthGrowsWithSize | Weld.py:223-245 | within the widget ranges a larger leg size never lowers the design strength |
| Weld.UtilizationGrowsWithDemand | Weld.py:247 | within the widget ranges more shear never lowers the utilisation |
| EngineComparison.WeakAxisYieldingUncapped | STAAD2.py:364 | the report-driven `fy Zy` is never below the capped Eq. F6-1 moment and equals it exactly when `1.6 Fy Sy` does not bind |
| EngineComparison.InelasticLtbIsCappedLine | STAAD_CHECK.py:329-331 | between Lp and Lr (Lp > 0) the checked LTB moment is the report-driven line capped at Mp, and the two agree exactly when the line does not exceed Mp |
| EngineComparison.DefaultFlangeBelowCompact | STAAD_CHECK.py:344-346 | the compact-flange Mp of the check is strictly above the report-driven default-flange moment whenever `0 <= Mr < Mp` |

## Left out

- User interface: Streamlit layout, CSS, LaTeX and HTML rendering, metric cards, tables, the governing-ratio and PASS/FAIL summary. They present results and compute no capacity.
- Report parsing: the regular-expression extraction of values from the report text, and the flange slenderness lookup inside `flexural_capacity`. Parsed values are inputs. The flange slenderness is the input `lam`, with its 9.2 default.
- Floating-point rounding and the exact values of square roots, powers of 0.658 and pi. Only the laws listed above are available, so no worked numeric example is reproduced.
- StaadCheck.FlexuralCriticalStress: the model does not prove that the slenderness test `KL/r <= 4.71 sqrt(E/Fy)` and the Fy/Fe test `Fy/Fe <= 2.25` agree up to rounding of 4.71. That needs `Sqrt(x)^2 == x` exactly, which has no definable witness.
- StaadCheck.ElasticLtbStress: monotonicity in Lb is not stated, for the same reason.
- StaadCheck.CalculateChecks: negative Ixx, Iyy, Cw or J are excluded by its precondition as physically meaningless section constants. The source does not reject them, and what it does depends on the constant. With a positive Ag, a negative Ixx or Iyy makes `(I/Ag)**0.5` a complex number, and the next comparison `r > 0` raises TypeError (STAAD_CHECK.py:211-212, 230, 241). With a non-positive Ag no root is taken. A negative Cw with a positive Iyy, or a negative Iyy with a positive Cw, makes `rts` complex when Sxx is positive, and `rts > 0` raises TypeError (STAAD_CHECK.py:308, 314). A negative J keeps Lr real, because `a + sqrt(a^2 + b)` stays positive (STAAD_CHECK.py:316-318); a negative Fez gives Fcr = 0 (STAAD_CHECK.py:269-275). The results stay real unless the elastic LTB root at STAAD_CHECK.py:333 has a negative argument; then `Mn_ltb > Mp` raises TypeError (STAAD_CHECK.py:335).
- StaadCheck.CalculateChecks: every input is a number. The report parser stores `None` for a key whose line is present but has no parsable value (STAAD_CHECK.py:57-63, 97-126). On such an entry the source raises TypeError at its first arithmetic use or comparison, such as `abs(None)` for a force (STAAD_CHECK.py:204-208) or `Ag > 0` (STAAD_CHECK.py:211). The `Staad2` model does carry that distinction, as `Entry.Null`.
- Staad2.TensileCapacity, Staad2.CompressionCapacity, Staad2.FlexuralCapacity: `fy`, `fu`, `ag` and the section moduli are taken as numbers. A report without them makes every engine function raise TypeError on its first use of the value.
- Weld.Compute: the widget bounds are not preconditions. The function is total, and the bounds appear as the predicate `WithinWidgetBounds` in the lemmas that need them. The integer step of n is modelled by its `int` type; the other widget steps only affect input entry.

## Findings

| source | as written | input that shows it | evidently intended | confidence | as-written member | corrected member |
|---|---|---|---|---|---|---|
| STAAD2.py:289-292 | exponent and regime test use `fe/fy` | fe = 100, fy = 50 gives `0.658^2 * 50` instead of `0.658^0.5 * 50` | `0.658^(Fy/Fe) Fy` when `Fy/Fe <= 2.25` (Eq. E3-2), as in STAAD_CHECK.py:270-271 | high; not executed | Staad2.FcrFromFe | Aisc.CriticalStress |
| STAAD2.py:391-393 | H1-1b taken when the axial term is `<= 0.2` | `|pz| = 20`, `pc = 100`, `|mx| = 50`, `mcx = 100` gives 0.6 instead of `0.2 + 8/9 * 0.5` | Eq. H1-1a for `Pr/Pc >= 0.2`, as in STAAD_CHECK.py:362 | high; not executed | Staad2.InteractionRatio | Aisc.H1 |
| STAAD2.py:272 | `values.get("ae", ag)` only falls back for an absent key, but the parser stores `ae` as `None` when the report has no effective area | a report without an "Effective area" line: `fu * None` raises TypeError | use ag when the report gives no Ae | medium; not executed | Staad2.TensileCapacity | Staad2.TensileCapacityCorrected |
