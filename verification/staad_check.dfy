/**
 * The calculation engine of the auto-calculating design check
 * (`calculate_checks`): from the section properties, material, design
 * parameters and factored forces of one W-shape member it derives every
 * AISC 360-16 LRFD limit state the report lists (tension yielding and rupture,
 * flexural buckling about both axes, torsional buckling, shear on both axes,
 * weak-axis yielding, lateral-torsional buckling, flange local buckling) and
 * the H1 axial-flexure interaction.
 *
 * Absent report entries take the source's defaults before they reach this
 * model: 0 for every section property and the length, 1.0 for Kx, Ky, Cb, NSF
 * and SLF, 0 for every force.
 */
module StaadCheck {
  import opened Wrappers
  import opened Numerics
  import opened Aisc

  /** Section properties of a W-shape (in, in^2, in^3, in^4, in^6). */
  datatype Section = Section(
    ag: real,    // gross area
    ixx: real,   // strong-axis moment of inertia
    iyy: real,   // weak-axis moment of inertia
    j: real,     // torsional constant
    cw: real,    // warping constant
    sxx: real,   // strong-axis elastic section modulus
    syy: real,   // weak-axis elastic section modulus
    zxx: real,   // strong-axis plastic section modulus
    zyy: real,   // weak-axis plastic section modulus
    axx: real,   // shear area along x
    ayy: real)   // shear area along y

  /** Yield and ultimate strength, ksi. */
  datatype Material = Material(fy: real, fu: real)

  /**
   * Design parameters: member length (also the unbraced length), effective
   * length factors, LTB modification factor, net-section and shear-lag factors.
   */
  datatype Params = Params(length: real, kx: real, ky: real, cb: real, nsf: real, slf: real)

  /** Factored forces as reported (signed); the checks use their magnitudes. */
  datatype Forces = Forces(pz: real, vx: real, vy: real, mx: real, my: real)

  datatype Member = Member(section: Section, material: Material, params: Params, forces: Forces)

  /**
   * Section constants whose square roots stay real: non-negative inertias,
   * warping and torsional constants.
   */
  predicate Admissible(m: Member) {
    && 0.0 <= m.section.ixx
    && 0.0 <= m.section.iyy
    && 0.0 <= m.section.cw
    && 0.0 <= m.section.j
  }

  /** Admissible data with a positive yield stress, which every limit state past tension needs. */
  predicate WellPosed(m: Member) {
    0.0 < m.material.fy && Admissible(m)
  }

  /** Shear buckling coefficient, taken as 1.0 for rolled shapes. */
  const Cv: real := 1.0
  /** LTB coefficient c of section F2.2, 1.0 for doubly symmetric I-shapes. */
  const C: real := 1.0
  /** Effective length factor for torsional buckling. */
  const Kz: real := 1.0
  /** Flexural constant H of section E4, 1.0 when the shear centre is at the centroid. */
  const H: real := 1.0

  // ---------------------------------------------------------------------------
  // One limit-state check: nominal capacity, design capacity, demand, ratio.
  // ---------------------------------------------------------------------------

  datatype Check = Check(nominal: real, design: real, demand: real, ratio: real)

  /**
   * The ratio of a check is its (non-negative) demand over its design
   * capacity, or 0 when that capacity is 0.
   */
  predicate DemandRatio(c: Check) {
    && 0.0 <= c.demand
    && (c.design != 0.0 ==> c.ratio * c.design == c.demand)
    && (c.design == 0.0 ==> c.ratio == 0.0)
  }

  /**
   * A demand ratio against a non-negative capacity is non-negative, and
   * against a positive capacity it is at most 1 exactly when the demand is
   * within the capacity.
   */
  lemma {:induction false} DemandRatioVerdict(c: Check)
    requires DemandRatio(c)
    ensures 0.0 <= c.design ==> 0.0 <= c.ratio
    ensures 0.0 < c.design ==> (c.ratio <= 1.0 <==> c.demand <= c.design)
  {
    if 0.0 < c.design {
      assert c.ratio == c.demand / c.design by {
        QuotientTimes(c.demand, c.design);
        CancelEqual(c.ratio, c.demand / c.design, c.design);
      }
      QuotientNonNegative(c.demand, c.design);
      RatioAtMostOne(c.demand, c.design);
    }
  }

  /**
   * The check of a demand against `phi` times a nominal capacity; the ratio is
   * the demand over the design capacity, or 0 when that capacity is 0.
   */
  function Assess(nominal: real, phi: real, demand: real): (c: Check)
    requires 0.0 <= demand
    ensures c.nominal == nominal && c.design == phi * nominal && c.demand == demand
    ensures DemandRatio(c)
    ensures 0.0 <= c.design ==> 0.0 <= c.ratio
    ensures 0.0 < c.design ==> (c.ratio <= 1.0 <==> demand <= c.design)
  {
    Check(nominal, phi * nominal, demand, Ratio(demand, phi * nominal))
  }

  // ---------------------------------------------------------------------------
  // Derived section quantities.
  // ---------------------------------------------------------------------------

  /** `(I/Ag)**0.5 if Ag > 0 else 0`: positive exactly for a positive area and inertia. */
  function RadiusOfGyration(i: real, ag: real): (r: real)
    requires 0.0 <= i
    ensures 0.0 <= r
    ensures 0.0 < r <==> 0.0 < ag && 0.0 < i
    ensures 0.0 < ag ==> i / ag <= r * r
  {
    if 0.0 < ag then
      QuotientNonNegative(i, ag);
      QuotientPositive(i, ag);
      Sqrt(i / ag)
    else
      0.0
  }

  /**
   * Distance between flange centroids from `Cw = Iy * h0^2 / 4`, i.e.
   * `(4*Cw/Iy)**0.5 if Iy > 0 else 0`: positive exactly when Iy and Cw are.
   */
  function FlangeDistance(cw: real, iyy: real): (h0: real)
    requires 0.0 <= cw && 0.0 <= iyy
    ensures 0.0 <= h0
    ensures 0.0 < h0 <==> 0.0 < iyy && 0.0 < cw
  {
    if 0.0 < iyy then
      QuotientNonNegative(4.0 * cw, iyy);
      QuotientPositive(4.0 * cw, iyy);
      Sqrt(4.0 * cw / iyy)
    else
      0.0
  }

  /**
   * Effective radius of gyration `rts = (sqrt(Iy*Cw)/Sx)**0.5 if Sx > 0 else 0`:
   * positive exactly when Sx, Iy and Cw are.
   */
  function EffectiveRadius(iyy: real, cw: real, sxx: real): (rts: real)
    requires 0.0 <= cw && 0.0 <= iyy
    ensures 0.0 <= rts
    ensures 0.0 < rts <==> 0.0 < sxx && 0.0 < iyy && 0.0 < cw
  {
    if 0.0 < sxx then
      var w := Sqrt(iyy * cw);
      QuotientNonNegative(w, sxx);
      QuotientPositive(w, sxx);
      Sqrt(w / sxx)
    else
      0.0
  }

  function Rx(s: Section): real
    requires 0.0 <= s.ixx
  {
    RadiusOfGyration(s.ixx, s.ag)
  }

  function Ry(s: Section): real
    requires 0.0 <= s.iyy
  {
    RadiusOfGyration(s.iyy, s.ag)
  }

  function H0(s: Section): real
    requires 0.0 <= s.cw && 0.0 <= s.iyy
  {
    FlangeDistance(s.cw, s.iyy)
  }

  function Rts(s: Section): real
    requires 0.0 <= s.cw && 0.0 <= s.iyy
  {
    EffectiveRadius(s.iyy, s.cw, s.sxx)
  }

  /**
   * Limiting unbraced length for yielding, Eq. F2-5, `1.76 ry sqrt(E/Fy)`
   * (0 when ry is 0): never negative, positive exactly when ry is.
   */
  function PlasticLength(ry: real, fy: real): (lp: real)
    requires 0.0 < fy && 0.0 <= ry
    ensures 0.0 <= lp
    ensures 0.0 < lp <==> 0.0 < ry
  {
    if 0.0 < ry then
      QuotientPositive(E, fy);
      1.76 * ry * Sqrt(E / fy)
    else
      0.0
  }

  function Lp(m: Member): real
    requires WellPosed(m)
  {
    PlasticLength(Ry(m.section), m.material.fy)
  }

  /**
   * Limiting unbraced length for inelastic LTB, Eq. F2-6, with c = 1; 0 when
   * rts or h0 is 0. It is never negative and is positive exactly when both
   * rts and h0 are.
   */
  function LimitingLength(s: Section, fy: real): (lr: real)
    requires 0.0 < fy && 0.0 <= s.cw && 0.0 <= s.iyy && 0.0 <= s.j
    ensures 0.0 <= lr
    ensures 0.0 < lr <==> 0.0 < Rts(s) && 0.0 < H0(s)
  {
    var rts := Rts(s);
    var h0 := H0(s);
    if 0.0 < rts && 0.0 < h0 then
      var term1 := 1.95 * rts * E / (0.7 * fy);
      QuotientPositive(1.95 * rts * E, 0.7 * fy);
      var term2 := s.j * C / (s.sxx * h0);
      QuotientNonNegative(s.j * C, s.sxx * h0);
      var yieldStrain := 0.7 * fy / E;
      var term3 := Sqrt(term2 * term2 + 6.76 * (yieldStrain * yieldStrain));
      var root := Sqrt(term2 + term3);
      term1 * root
    else
      0.0
  }

  function Lr(m: Member): real
    requires WellPosed(m)
  {
    LimitingLength(m.section, m.material.fy)
  }

  /** Plastic moment about the strong axis, Eq. F2-1. */
  function Mp(m: Member): real {
    m.material.fy * m.section.zxx
  }

  // ---------------------------------------------------------------------------
  // Tension, section D2.
  // ---------------------------------------------------------------------------

  /**
   * Tensile yielding, Eq. D2-1: `Pn = Fy Ag`, phi = 0.90. The check passes
   * (ratio at most 1) exactly when |Pz| is within 0.9 Fy Ag.
   */
  function TensionYielding(m: Member): (c: Check)
    ensures c.nominal == m.material.fy * m.section.ag
    ensures c.design == PhiYield * c.nominal && c.demand == Abs(m.forces.pz)
    ensures DemandRatio(c)
    ensures 0.0 < c.design ==> (c.ratio <= 1.0 <==> Abs(m.forces.pz) <= 0.9 * m.material.fy * m.section.ag)
  {
    Assess(m.material.fy * m.section.ag, PhiYield, Abs(m.forces.pz))
  }

  datatype Rupture = Rupture(ae: real, check: Check)

  /**
   * Tensile rupture, Eq. D2-2, on the effective area `Ae = Ag * NSF * SLF`:
   * `Pn = Fu Ae`, phi = 0.75. The check passes exactly when |Pz| is within
   * 0.75 Fu Ae.
   */
  function TensionRupture(m: Member): (r: Rupture)
    ensures r.ae == m.section.ag * m.params.nsf * m.params.slf
    ensures r.check.nominal == m.material.fu * r.ae
    ensures r.check.design == PhiRupture * r.check.nominal && r.check.demand == Abs(m.forces.pz)
    ensures DemandRatio(r.check)
    ensures 0.0 < r.check.design ==> (r.check.ratio <= 1.0 <==> Abs(m.forces.pz) <= 0.75 * m.material.fu * r.ae)
  {
    var ae := m.section.ag * m.params.nsf * m.params.slf;
    Rupture(ae, Assess(m.material.fu * ae, PhiRupture, Abs(m.forces.pz)))
  }

  // ---------------------------------------------------------------------------
  // Compression, sections E3 and E4.
  // ---------------------------------------------------------------------------

  /** Slenderness at which Eq. E3-2 gives way to Eq. E3-3: `4.71 sqrt(E/Fy)`. */
  function InelasticLimit(fy: real): (limit: real)
    requires 0.0 < fy
    ensures 0.0 <= limit
    ensures 22.1841 * E <= fy * (limit * limit)
  {
    QuotientPositive(E, fy);
    var q := Sqrt(E / fy);
    ScaledSquare(q, E / fy, fy);
    4.71 * q
  }

  lemma ScaledSquare(q: real, x: real, fy: real)
    requires 0.0 < fy && x <= q * q && 0.0 <= q
    requires x == E / fy
    ensures 22.1841 * E <= fy * ((4.71 * q) * (4.71 * q))
  {
    QuotientTimes(E, fy);
    assert (4.71 * q) * (4.71 * q) == 22.1841 * (q * q);
    ScaleMonotone(fy, x, q * q);
  }

  /** Elastic buckling stress of Eq. E3-4, `pi^2 E / (KL/r)^2`, or 0 for a non-positive slenderness. */
  function EulerStress(klr: real): (fe: real)
    ensures 0.0 < klr ==> 0.0 < fe && fe * (klr * klr) == Pi * Pi * E
    ensures klr <= 0.0 ==> fe == 0.0
  {
    if 0.0 < klr then
      QuotientPositive(Pi * Pi * E, klr * klr);
      QuotientTimes(Pi * Pi * E, klr * klr);
      Pi * Pi * E / (klr * klr)
    else
      0.0
  }

  /**
   * Critical stress of flexural buckling, with the regime chosen on the
   * slenderness as the source does: Eq. E3-2 `0.658^(Fy/Fe) Fy` while
   * `KL/r <= 4.71 sqrt(E/Fy)` (0 when Fe is 0), Eq. E3-3 `0.877 Fe` beyond.
   * It is positive exactly for a positive slenderness, stays within Fy in the
   * inelastic regime, and in the elastic regime `Fy/Fe > 4.71^2/pi^2`.
   */
  function FlexuralCriticalStress(klr: real, fy: real): (fcr: real)
    requires 0.0 < fy
    ensures 0.0 <= fcr <= fy
    ensures 0.0 < fcr <==> 0.0 < klr
    ensures 0.0 < klr <= InelasticLimit(fy) ==> fcr == Pow658(fy / EulerStress(klr)) * fy
    ensures InelasticLimit(fy) < klr ==> fcr == 0.877 * EulerStress(klr) && 22.1841 * EulerStress(klr) < Pi * Pi * fy
  {
    var fe := EulerStress(klr);
    var limit := InelasticLimit(fy);
    if klr <= limit then
      if 0.0 < fe then
        QuotientPositive(fy, fe);
        InelasticRange(fy / fe, fy);
        Pow658(fy / fe) * fy
      else
        0.0
    else
      ElasticEulerBound(klr, limit, fe, fy);
      0.877 * fe
  }

  lemma ElasticEulerBound(klr: real, limit: real, fe: real, fy: real)
    requires 0.0 < fy && 0.0 <= limit < klr
    requires 22.1841 * E <= fy * (limit * limit)
    requires fe * (klr * klr) == Pi * Pi * E
    ensures 22.1841 * fe < Pi * Pi * fy
    ensures 0.877 * fe < fy
  {
    SquareGrows(limit, klr);
    ScaleMonotone(fy, limit * limit, klr * klr);
    // 22.1841 * fe * klr^2 = 22.1841 * pi^2 E <= pi^2 fy limit^2 < pi^2 fy klr^2
    assert 22.1841 * fe * (klr * klr) < Pi * Pi * fy * (klr * klr) by {
      assert 22.1841 * fe * (klr * klr) == Pi * Pi * (22.1841 * E);
      ScaleMonotone(Pi * Pi, 22.1841 * E, fy * (limit * limit));
      assert fy * (limit * limit) < fy * (klr * klr);
      StrictScale(Pi * Pi, fy * (limit * limit), fy * (klr * klr));
    }
    CancelPositive(22.1841 * fe, Pi * Pi * fy, klr * klr);
  }

  /** Flexural buckling about one axis: slenderness, Fe, Fcr and the check of |Pz|. */
  datatype Buckling = Buckling(slenderness: real, fe: real, fcr: real, check: Check)

  /**
   * Flexural buckling, section E3: `KL/r` (0 when r is 0), `Fe`, `Fcr` and
   * `Pn = Fcr Ag` with phi = 0.90. A member with no radius of gyration (or a
   * non-positive KL) has zero capacity and a zero ratio.
   */
  function FlexuralBuckling(k: real, l: real, r: real, fy: real, ag: real, pu: real): (b: Buckling)
    requires 0.0 < fy && 0.0 <= pu
    ensures 0.0 < r ==> b.slenderness * r == k * l
    ensures r <= 0.0 ==> b.slenderness == 0.0
    ensures b.fe == EulerStress(b.slenderness) && b.fcr == FlexuralCriticalStress(b.slenderness, fy)
    ensures b.check.nominal == b.fcr * ag && b.check.design == PhiYield * b.check.nominal && b.check.demand == pu
    ensures DemandRatio(b.check)
    ensures 0.0 <= ag ==> 0.0 <= b.check.ratio
    ensures b.slenderness <= 0.0 ==> b.fe == 0.0 && b.fcr == 0.0 && b.check.nominal == 0.0 && b.check.ratio == 0.0
  {
    var klr := if 0.0 < r then QuotientTimes(k * l, r); k * l / r else 0.0;
    var fcr := FlexuralCriticalStress(klr, fy);
    NonNegativeProduct(fcr, ag);
    Buckling(klr, EulerStress(klr), fcr, Assess(fcr * ag, PhiYield, pu))
  }

  /** A more slender column has a smaller, still positive, elastic buckling stress. */
  lemma EulerStressDecreasing(klr1: real, klr2: real)
    requires 0.0 < klr1 <= klr2
    ensures 0.0 < EulerStress(klr2) <= EulerStress(klr1)
  {
    PositiveProduct(klr1, klr1);
    if klr1 < klr2 {
      SquareGrows(klr1, klr2);
    }
    DivideByLarger(Pi * Pi * E, klr1 * klr1, klr2 * klr2);
  }

  /** Torsional buckling of a doubly symmetric member: ro^2, H, Fez, Fcr and the check of |Pz|. */
  datatype Torsional = Torsional(ro2: real, h: real, fez: real, fcr: real, check: Check)

  /** Warping plus St. Venant resistance `pi^2 E Cw / Lcz^2 + G J` (first term 0 when Lcz is 0). */
  function TorsionalStiffness(s: Section, l: real): real {
    var lcz := Kz * l;
    var term1 := if 0.0 < lcz then Pi * Pi * E * s.cw / (lcz * lcz) else 0.0;
    term1 + G * s.j
  }

  /**
   * Torsional buckling, section E4 with xo = yo = 0: `ro^2 = (Ixx+Iyy)/Ag`,
   * `Fez = (pi^2 E Cw / Lcz^2 + G J) / (Ag ro^2)` (0 when Ag ro^2 is 0), Fcr by
   * the Fy/Fe rule of section E3 (0 when Fez is not positive), `Pn = Fcr Ag`,
   * phi = 0.90. The division by Ag raises for a zero area.
   */
  function TorsionalBuckling(s: Section, l: real, fy: real, pu: real): (r: Result<Torsional>)
    requires 0.0 < fy && 0.0 <= pu
    ensures r.Failure? <==> s.ag == 0.0
    ensures r.Failure? ==> r.error == ZeroDivisionError
    ensures r.Success? ==> r.value.ro2 * s.ag == s.ixx + s.iyy && r.value.h == H
    ensures r.Success? && 0.0 < s.ixx + s.iyy ==> r.value.fez * (s.ixx + s.iyy) == TorsionalStiffness(s, l)
    ensures r.Success? && s.ixx + s.iyy <= 0.0 ==> r.value.fez == 0.0
    ensures r.Success? && 0.0 < r.value.fez ==> r.value.fcr == CriticalStress(r.value.fez, fy)
    ensures r.Success? && r.value.fez <= 0.0 ==> r.value.fcr == 0.0 && r.value.check.ratio == 0.0
    ensures r.Success? ==> 0.0 <= r.value.fcr <= fy
    ensures r.Success? ==> r.value.check.nominal == r.value.fcr * s.ag
    ensures r.Success? ==> r.value.check.design == PhiYield * r.value.check.nominal && r.value.check.demand == pu
    ensures r.Success? ==> DemandRatio(r.value.check)
    ensures r.Success? && 0.0 <= s.ag ==> 0.0 <= r.value.check.ratio
  {
    if s.ag == 0.0 then
      Failure(ZeroDivisionError)
    else
      var ro2 := (s.ixx + s.iyy) / s.ag;
      QuotientTimes(s.ixx + s.iyy, s.ag);
      assert s.ag * ro2 == s.ixx + s.iyy;
      var fez :=
        if 0.0 < s.ag * ro2 then
          ReciprocalTimes(TorsionalStiffness(s, l), s.ag * ro2);
          TorsionalStiffness(s, l) * (1.0 / (s.ag * ro2))
        else
          0.0;
      var fcr := if 0.0 < fez then CriticalStress(fez, fy) else 0.0;
      NonNegativeProduct(fcr, s.ag);
      Success(Torsional(ro2, H, fez, fcr, Assess(fcr * s.ag, PhiYield, pu)))
  }

  // ---------------------------------------------------------------------------
  // Shear, section G2.1.
  // ---------------------------------------------------------------------------

  /**
   * Shear yielding `Vn = 0.6 Fy Aw Cv` with Cv = 1 and phi = 0.90: the check
   * passes exactly when |Vu| is within 0.54 Fy Aw.
   */
  function Shear(fy: real, aw: real, vu: real): (c: Check)
    ensures c.nominal == 0.6 * fy * aw && c.design == PhiYield * c.nominal && c.demand == Abs(vu)
    ensures DemandRatio(c)
    ensures 0.0 < c.design ==> (c.ratio <= 1.0 <==> Abs(vu) <= 0.54 * fy * aw)
  {
    Assess(0.6 * fy * aw * Cv, PhiYield, Abs(vu))
  }

  // ---------------------------------------------------------------------------
  // Flexure, sections F2 and F6.
  // ---------------------------------------------------------------------------

  /**
   * Weak-axis flexural yielding, Eq. F6-1: `Mn = min(Fy Zy, 1.6 Fy Sy)`, so
   * the nominal moment is one of the two bounds and exceeds neither.
   */
  function WeakAxisYielding(fy: real, zyy: real, syy: real, muy: real): (c: Check)
    ensures c.nominal <= fy * zyy && c.nominal <= 1.6 * fy * syy
    ensures c.nominal == fy * zyy || c.nominal == 1.6 * fy * syy
    ensures c.design == PhiYield * c.nominal && c.demand == Abs(muy)
    ensures DemandRatio(c)
  {
    var mn := if fy * zyy > 1.6 * fy * syy then 1.6 * fy * syy else fy * zyy;
    Assess(mn, PhiYield, Abs(muy))
  }

  /** The warping-only part of Eq. F2-4, `Cb pi^2 E / (Lb/rts)^2`. */
  function EulerLtbStress(cb: real, lb: real, rts: real): (fe: real)
    requires 0.0 < lb && 0.0 < rts
    ensures fe * ((lb / rts) * (lb / rts)) == cb * Pi * Pi * E
    ensures 0.0 <= cb ==> 0.0 <= fe
  {
    var slender := lb / rts;
    QuotientPositive(lb, rts);
    StrictScale(slender, 0.0, slender);
    QuotientNonNegative(cb * Pi * Pi * E, slender * slender);
    QuotientTimes(cb * Pi * Pi * E, slender * slender);
    cb * Pi * Pi * E / (slender * slender)
  }

  /**
   * The torsional factor of Eq. F2-4, `sqrt(1 + 0.078 J c / (Sx h0) (Lb/rts)^2)`;
   * it is at least 1 because J is non-negative.
   */
  function LtbTorsionFactor(lb: real, rts: real, j: real, sxx: real, h0: real): (f: real)
    requires 0.0 < lb && 0.0 < rts && 0.0 < sxx * h0 && 0.0 <= j
    ensures 1.0 <= f
    ensures 1.0 + 0.078 * (j * C) / (sxx * h0) * ((lb / rts) * (lb / rts)) <= f * f
  {
    var slender := lb / rts;
    var torsion := 0.078 * (j * C) / (sxx * h0) * (slender * slender);
    QuotientNonNegative(0.078 * (j * C), sxx * h0);
    SqrtAtLeastOne(1.0 + torsion);
    Sqrt(1.0 + torsion)
  }

  /**
   * Elastic LTB critical stress, Eq. F2-4: the warping-only part scaled by the
   * torsional factor. For a non-negative Cb it is at least the warping-only part.
   */
  function ElasticLtbStress(cb: real, lb: real, rts: real, j: real, sxx: real, h0: real): (fcr: real)
    requires 0.0 < lb && 0.0 < rts && 0.0 < sxx * h0 && 0.0 <= j
    ensures 0.0 <= cb ==> EulerLtbStress(cb, lb, rts) <= fcr
  {
    var euler := EulerLtbStress(cb, lb, rts);
    var factor := LtbTorsionFactor(lb, rts, j, sxx, h0);
    ScaleMonotone(euler, 1.0, factor);
    euler * factor
  }

  /** Lateral-torsional buckling: Lp, Lr, rts, Cb, the nominal moment and the check of |Mx|. */
  datatype Ltb = Ltb(lp: real, lr: real, rts: real, cb: real, mn: real, check: Check)

  /**
   * Eq. F2-2 capped at Mp: the Cb-scaled line from Mp at Lp to Mr at Lr,
   * evaluated at Lb. It never exceeds Mp and, for non-negative Cb, Mp and Mr
   * and Lb within [Lp, Lr], it is non-negative.
   */
  function InelasticLtbMoment(cb: real, mp: real, mr: real, lb: real, lp: real, lr: real): (mn: real)
    requires lp < lr
    ensures mn <= mp
    ensures 0.0 <= cb && 0.0 <= mp && 0.0 <= mr && lp <= lb <= lr ==> 0.0 <= mn
  {
    var line := Interpolate(mp, mr, lb, lp, lr);
    NonNegativeProduct(cb, line);
    Min(cb * line, mp)
  }

  /**
   * Eq. F2-3 capped at Mp: `Fcr Sx` with the elastic stress of Eq. F2-4. It
   * is one of Mp and `Fcr Sx` and exceeds neither; for non-negative Cb and Sx
   * it is at least the smaller of Mp and the Euler part `Cb pi^2 E Sx /
   * (Lb/rts)^2`, and for non-negative Cb, Mp and Sx it is non-negative.
   */
  function ElasticLtbMoment(cb: real, mp: real, lb: real, rts: real, j: real, sxx: real, h0: real): (mn: real)
    requires 0.0 < lb && 0.0 < rts && 0.0 < sxx * h0 && 0.0 <= j
    ensures mn <= mp && mn <= ElasticLtbStress(cb, lb, rts, j, sxx, h0) * sxx
    ensures mn == mp || mn == ElasticLtbStress(cb, lb, rts, j, sxx, h0) * sxx
    ensures 0.0 <= cb && 0.0 <= mp && 0.0 <= sxx ==> 0.0 <= mn
    ensures 0.0 <= cb && 0.0 <= sxx ==> mn == mp || EulerLtbStress(cb, lb, rts) * sxx <= mn
    ensures 0.0 <= cb && 0.0 <= sxx ==> Min(EulerLtbStress(cb, lb, rts) * sxx, mp) <= mn
  {
    var fcr := ElasticLtbStress(cb, lb, rts, j, sxx, h0);
    NonNegativeProduct(fcr, sxx);
    ScaleMonotoneRight(sxx, EulerLtbStress(cb, lb, rts), fcr);
    Min(fcr * sxx, mp)
  }

  /** Mr of section F2, `0.7 Fy Sx`. */
  function Mr(m: Member): real {
    0.7 * m.material.fy * m.section.sxx
  }

  /**
   * The nominal LTB moment of section F2 with Lb = L: Mp up to Lp, the capped
   * inelastic line up to Lr, the capped elastic moment beyond. The elastic
   * branch divides by rts and raises when rts is 0, which happens exactly when
   * the member is longer than Lp while rts is 0. The moment never exceeds Mp.
   */
  function LtbMoment(m: Member): (r: Result<real>)
    requires WellPosed(m)
    ensures r.Failure? <==> Lp(m) < m.params.length && Rts(m.section) == 0.0
    ensures r.Failure? ==> r.error == ZeroDivisionError
    ensures r.Success? ==> r.value <= Mp(m)
    ensures m.params.length <= Lp(m) ==> r == Success(Mp(m))
    ensures Lp(m) < m.params.length <= Lr(m) ==>
      r == Success(InelasticLtbMoment(m.params.cb, Mp(m), Mr(m), m.params.length, Lp(m), Lr(m)))
    ensures Lp(m) < m.params.length && Lr(m) < m.params.length && r.Success? ==>
      0.0 < Rts(m.section) && 0.0 < m.section.sxx * H0(m.section) &&
      r.value == ElasticLtbMoment(m.params.cb, Mp(m), m.params.length, Rts(m.section), m.section.j, m.section.sxx, H0(m.section))
    ensures 0.0 <= m.params.cb && 0.0 <= Mp(m) && 0.0 <= m.section.sxx && r.Success? ==> 0.0 <= r.value
  {
    var s := m.section;
    var lb := m.params.length;
    var lp, lr := Lp(m), Lr(m);
    if lb <= lp then
      Success(Mp(m))
    else if lb <= lr then
      NonNegativeProduct(0.7 * m.material.fy, s.sxx);
      Success(InelasticLtbMoment(m.params.cb, Mp(m), Mr(m), lb, lp, lr))
    else if Rts(s) == 0.0 then
      Failure(ZeroDivisionError)
    else
      var h0 := H0(s);
      StrictScale(s.sxx, 0.0, h0);
      Success(ElasticLtbMoment(m.params.cb, Mp(m), lb, Rts(s), s.j, s.sxx, h0))
  }

  /**
   * Lateral-torsional buckling, section F2: Lp, Lr, rts and the nominal moment
   * of `LtbMoment`, phi = 0.90, checked against |Mx|.
   */
  function LateralTorsionalBuckling(m: Member): (r: Result<Ltb>)
    requires WellPosed(m)
    ensures r.Failure? <==> LtbMoment(m).Failure?
    ensures r.Failure? ==> r.error == ZeroDivisionError
    ensures r.Success? ==> r.value.mn == LtbMoment(m).value && r.value.cb == m.params.cb
    ensures r.Success? ==> r.value.lp == Lp(m) && r.value.lr == Lr(m) && r.value.rts == Rts(m.section)
    ensures r.Success? ==> r.value.check.nominal == r.value.mn && r.value.check.design == PhiYield * r.value.mn
    ensures r.Success? ==> r.value.check.demand == Abs(m.forces.mx) && DemandRatio(r.value.check)
  {
    match LtbMoment(m)
    case Failure(e) => Failure(e)
    case Success(mn) =>
      Success(Ltb(Lp(m), Lr(m), Rts(m.section), m.params.cb, mn, Assess(mn, PhiYield, Abs(m.forces.mx))))
  }

  // ---------------------------------------------------------------------------
  // Interaction, section H1.1.
  // ---------------------------------------------------------------------------

  /** The governing ratio, its equation and the caption the report prints for it, and Pc, Mcx, Mcy. */
  datatype Interaction = Interaction(ratio: real, equation: H1Equation, caption: string, pc: real, mcx: real, mcy: real)

  /**
   * Axial-flexure interaction: `Pc` is the least compression design capacity,
   * `Mcx` and `Mcy` the least flexural design capacities per axis;
   * `Pr/Pc = Pu/Pc` (0 when Pc is not positive) selects Eq. H1-1a at 0.2 and
   * above, Eq. H1-1b below. The moment terms `Mux/Mcx + Muy/Mcy` are not
   * guarded: a zero Mcx or Mcy raises.
   */
  function Interact(pu: real, mux: real, muy: real,
                    compX: Check, compY: Check, ftb: Check,
                    ltbX: Check, flbX: Check, flexY: Check, flbY: Check): (r: Result<Interaction>)
    requires 0.0 <= pu
    ensures r.Failure? <==> Min(ltbX.design, flbX.design) == 0.0 || Min(flexY.design, flbY.design) == 0.0
    ensures r.Failure? ==> r.error == ZeroDivisionError
    ensures r.Success? ==> r.value.pc == Min3(compX.design, compY.design, ftb.design)
    ensures r.Success? ==> r.value.mcx == Min(ltbX.design, flbX.design) && r.value.mcy == Min(flexY.design, flbY.design)
    ensures r.Success? ==> (r.value.equation == H1_1a <==> 0.0 < r.value.pc && 0.2 * r.value.pc <= pu)
    ensures r.Success? ==> r.value.caption == (if r.value.equation == H1_1a then "Eq.H1-1a" else "Eq.H1-1b")
    ensures r.Success? && r.value.equation == H1_1a ==>
      r.value.ratio == pu / r.value.pc + 8.0 / 9.0 * (mux / r.value.mcx + muy / r.value.mcy)
    ensures r.Success? && r.value.equation == H1_1b ==>
      r.value.ratio == (if 0.0 < r.value.pc then pu / r.value.pc else 0.0) / 2.0 + (mux / r.value.mcx + muy / r.value.mcy)
  {
    var pc := Min3(compX.design, compY.design, ftb.design);
    var mcx := Min(ltbX.design, flbX.design);
    var mcy := Min(flexY.design, flbY.design);
    var axial := if 0.0 < pc then AxialThreshold(pu, pc); pu / pc else 0.0;
    if mcx == 0.0 || mcy == 0.0 then
      Failure(ZeroDivisionError)
    else
      var h := H1(axial, mux / mcx + muy / mcy);
      Success(Interaction(h.ratio, h.equation, Label(h.equation), pc, mcx, mcy))
  }

  lemma AxialThreshold(pu: real, pc: real)
    requires 0.0 < pc
    ensures 0.2 <= pu / pc <==> 0.2 * pc <= pu
  {
    if 0.2 <= pu / pc {
      ScaleMonotone(pc, 0.2, pu / pc);
      QuotientTimes(pu, pc);
    }
    if 0.2 * pc <= pu {
      QuotientAtLeast(pu, pc, 0.2);
    }
  }

  // ---------------------------------------------------------------------------
  // The whole check.
  // ---------------------------------------------------------------------------

  /** Every limit state of the report, in the order the source computes them. */
  datatype Checks = Checks(
    tensionYielding: Check,
    tensionRupture: Rupture,
    compX: Buckling,
    compY: Buckling,
    ftb: Torsional,
    shearX: Check,
    shearY: Check,
    flexY: Check,
    ltbX: Ltb,
    flbX: Check,
    flbY: Check,
    interaction: Interaction)

  /**
   * `calculate_checks`: every limit state of the member, or the exception the
   * source raises. The slenderness limit `4.71 sqrt(E/Fy)` divides by Fy
   * (ZeroDivisionError for Fy = 0) and is complex for a negative Fy, which the
   * comparison with KL/r rejects (TypeError). Otherwise it raises
   * ZeroDivisionError exactly when the gross area is 0 (torsional buckling),
   * when the member is longer than Lp while rts is 0 (elastic LTB), or when a
   * flexural interaction capacity is 0.
   */
  function CalculateChecks(m: Member): (r: Result<Checks>)
    requires Admissible(m)
    ensures m.material.fy == 0.0 ==> r == Failure(ZeroDivisionError)
    ensures m.material.fy < 0.0 ==> r == Failure(TypeError)
    ensures r.Success? ==> WellPosed(m)
    ensures WellPosed(m) ==> (r.Failure? <==>
      || m.section.ag == 0.0
      || LtbMoment(m).Failure?
      || PhiYield * LtbMoment(m).value == 0.0
      || WeakAxisYielding(m.material.fy, m.section.zyy, m.section.syy, m.forces.my).design == 0.0)
    ensures WellPosed(m) && r.Failure? ==> r.error == ZeroDivisionError
    ensures r.Success? ==> r.value.tensionYielding == TensionYielding(m) && r.value.tensionRupture == TensionRupture(m)
    ensures r.Success? ==> r.value.ltbX == LateralTorsionalBuckling(m).value
    ensures r.Success? ==>
      && r.value.compX == FlexuralBuckling(m.params.kx, m.params.length, Rx(m.section), m.material.fy, m.section.ag, Abs(m.forces.pz))
      && r.value.compY == FlexuralBuckling(m.params.ky, m.params.length, Ry(m.section), m.material.fy, m.section.ag, Abs(m.forces.pz))
      && r.value.ftb == TorsionalBuckling(m.section, m.params.length, m.material.fy, Abs(m.forces.pz)).value
    ensures r.Success? ==>
      && r.value.shearX == Shear(m.material.fy, m.section.axx, m.forces.vx)
      && r.value.shearY == Shear(m.material.fy, m.section.ayy, m.forces.vy)
      && r.value.flexY == WeakAxisYielding(m.material.fy, m.section.zyy, m.section.syy, m.forces.my)
    ensures r.Success? ==>
      && r.value.flbX == Assess(Mp(m), PhiYield, Abs(m.forces.mx))
      && r.value.flbY == Assess(r.value.flexY.nominal, PhiYield, Abs(m.forces.my))
    ensures r.Success? ==>
      Success(r.value.interaction) == Interact(Abs(m.forces.pz), Abs(m.forces.mx), Abs(m.forces.my),
                                               r.value.compX.check, r.value.compY.check, r.value.ftb.check,
                                               r.value.ltbX.check, r.value.flbX, r.value.flexY, r.value.flbY)
  {
    if m.material.fy == 0.0 then
      Failure(ZeroDivisionError)
    else if m.material.fy < 0.0 then
      Failure(TypeError)
    else
      var s := m.section;
      var fy := m.material.fy;
      var pu := Abs(m.forces.pz);
      var tensionYielding := TensionYielding(m);
      var tensionRupture := TensionRupture(m);
      var compX := FlexuralBuckling(m.params.kx, m.params.length, Rx(s), fy, s.ag, pu);
      var compY := FlexuralBuckling(m.params.ky, m.params.length, Ry(s), fy, s.ag, pu);
      var ftb := TorsionalBuckling(s, m.params.length, fy, pu);
      var shearX := Shear(fy, s.axx, m.forces.vx);
      var shearY := Shear(fy, s.ayy, m.forces.vy);
      var flexY := WeakAxisYielding(fy, s.zyy, s.syy, m.forces.my);
      var ltb := LateralTorsionalBuckling(m);
      var flbX := Assess(Mp(m), PhiYield, Abs(m.forces.mx));
      var flbY := Assess(flexY.nominal, PhiYield, Abs(m.forces.my));
      if ftb.Failure? || ltb.Failure? then
        Failure(ZeroDivisionError)
      else
        var interaction := Interact(pu, Abs(m.forces.mx), Abs(m.forces.my),
                                    compX.check, compY.check, ftb.value.check,
                                    ltb.value.check, flbX, flexY, flbY);
        if interaction.Failure? then
          Failure(interaction.error)
        else
          Success(Checks(tensionYielding, tensionRupture, compX, compY, ftb.value,
                         shearX, shearY, flexY, ltb.value, flbX, flbY, interaction.value))
  }

  // ---------------------------------------------------------------------------
  // Properties of the whole check.
  // ---------------------------------------------------------------------------

  /**
   * A member with physically meaningful data: well posed, with non-negative
   * area, moduli, shear areas, ultimate strength, area factors and Cb.
   */
  predicate Physical(m: Member) {
    && WellPosed(m)
    && 0.0 <= m.section.ag
    && 0.0 <= m.section.sxx && 0.0 <= m.section.syy
    && 0.0 <= m.section.zxx && 0.0 <= m.section.zyy
    && 0.0 <= m.section.axx && 0.0 <= m.section.ayy
    && 0.0 <= m.material.fu && 0.0 <= m.params.nsf && 0.0 <= m.params.slf
    && 0.0 <= m.params.cb
  }

  /**
   * The capacities the interaction uses: strong-axis flexure is governed by
   * lateral-torsional buckling (the flange local buckling capacity is the
   * plastic moment, which the LTB moment never exceeds), weak-axis flexure by
   * weak-axis yielding, and axial compression by the least of the three
   * buckling capacities.
   */
  lemma {:induction false} InteractionCapacitiesGovern(m: Member)
    requires Admissible(m) && CalculateChecks(m).Success?
    ensures
      var c := CalculateChecks(m).value;
      && c.interaction.mcx == PhiYield * LtbMoment(m).value
      && c.interaction.mcx <= PhiYield * Mp(m)
      && c.interaction.mcx != 0.0
      && c.interaction.mcy == c.flexY.design
      && c.interaction.mcy != 0.0
      && c.interaction.pc <= c.compX.check.design
      && c.interaction.pc <= c.compY.check.design
      && c.interaction.pc <= c.ftb.check.design
      && (c.interaction.pc == c.compX.check.design || c.interaction.pc == c.compY.check.design
          || c.interaction.pc == c.ftb.check.design)
  {
    var c := CalculateChecks(m).value;
    var ltb := LtbMoment(m).value;
    assert c.ltbX.check.design == PhiYield * ltb;
    assert c.flbX.design == PhiYield * Mp(m);
    ScaleMonotone(PhiYield, ltb, Mp(m));
    assert c.flbY.design == c.flexY.design;
  }

  /** For physical data the tension, shear and weak-axis ratios are non-negative. */
  lemma {:induction false} DirectRatiosNonNegative(m: Member)
    requires Physical(m)
    ensures 0.0 <= TensionYielding(m).ratio && 0.0 <= TensionRupture(m).check.ratio
    ensures 0.0 <= Shear(m.material.fy, m.section.axx, m.forces.vx).ratio
    ensures 0.0 <= Shear(m.material.fy, m.section.ayy, m.forces.vy).ratio
    ensures 0.0 <= WeakAxisYielding(m.material.fy, m.section.zyy, m.section.syy, m.forces.my).ratio
  {
    var s := m.section;
    var fy := m.material.fy;
    NonNegativeProduct(fy, s.ag);
    DemandRatioVerdict(TensionYielding(m));
    NonNegativeProduct(s.ag, m.params.nsf);
    NonNegativeProduct(s.ag * m.params.nsf, m.params.slf);
    NonNegativeProduct(m.material.fu, TensionRupture(m).ae);
    DemandRatioVerdict(TensionRupture(m).check);
    NonNegativeProduct(0.6 * fy, s.axx);
    DemandRatioVerdict(Shear(fy, s.axx, m.forces.vx));
    NonNegativeProduct(0.6 * fy, s.ayy);
    DemandRatioVerdict(Shear(fy, s.ayy, m.forces.vy));
    NonNegativeProduct(fy, s.zyy);
    NonNegativeProduct(1.6 * fy, s.syy);
    DemandRatioVerdict(WeakAxisYielding(fy, s.zyy, s.syy, m.forces.my));
  }

  /** For physical data the strong-axis flexural ratios are non-negative. */
  lemma {:induction false} FlexureRatiosNonNegative(m: Member)
    requires Physical(m) && LateralTorsionalBuckling(m).Success?
    ensures 0.0 <= LateralTorsionalBuckling(m).value.check.ratio
    ensures 0.0 <= Assess(Mp(m), PhiYield, Abs(m.forces.mx)).ratio
  {
    NonNegativeProduct(m.material.fy, m.section.zxx);
    DemandRatioVerdict(LateralTorsionalBuckling(m).value.check);
    NonNegativeProduct(m.material.fy, m.section.zxx);
  }

  /**
   * For physical data every ratio the check reports is non-negative: the
   * tension, shear and weak-axis checks, ...
   */
  lemma {:induction false} ReportedDirectRatiosNonNegative(m: Member)
    requires Physical(m) && CalculateChecks(m).Success?
    ensures
      var c := CalculateChecks(m).value;
      && 0.0 <= c.tensionYielding.ratio && 0.0 <= c.tensionRupture.check.ratio
      && 0.0 <= c.shearX.ratio && 0.0 <= c.shearY.ratio && 0.0 <= c.flexY.ratio
  {
    DirectRatiosNonNegative(m);
  }

  /** ... the three compression checks, ... */
  lemma {:induction false} ReportedBucklingRatiosNonNegative(m: Member)
    requires Physical(m) && CalculateChecks(m).Success?
    ensures
      var c := CalculateChecks(m).value;
      0.0 <= c.compX.check.ratio && 0.0 <= c.compY.check.ratio && 0.0 <= c.ftb.check.ratio
  {
  }

  /** ... and the strong-axis LTB and both flange local buckling checks. */
  lemma {:induction false} ReportedFlexureRatiosNonNegative(m: Member)
    requires Physical(m) && CalculateChecks(m).Success?
    ensures
      var c := CalculateChecks(m).value;
      0.0 <= c.ltbX.check.ratio && 0.0 <= c.flbX.ratio && 0.0 <= c.flbY.ratio
  {
    var c := CalculateChecks(m).value;
    FlexureRatiosNonNegative(m);
    DirectRatiosNonNegative(m);
    DemandRatioVerdict(c.flbY);
  }

  /** For physical data the interaction ratio is non-negative. */
  lemma {:induction false} InteractionNonNegative(m: Member)
    requires Physical(m) && CalculateChecks(m).Success?
    ensures 0.0 <= CalculateChecks(m).value.interaction.ratio
  {
    var c := CalculateChecks(m).value;
    FlexuralDesignsNonNegative(m);
    InteractNonNegative(Abs(m.forces.pz), Abs(m.forces.mx), Abs(m.forces.my),
                        c.compX.check, c.compY.check, c.ftb.check, c.ltbX.check, c.flbX, c.flexY, c.flbY);
  }

  /** For physical data every flexural design capacity is non-negative. */
  lemma {:induction false} FlexuralDesignsNonNegative(m: Member)
    requires Physical(m) && LateralTorsionalBuckling(m).Success?
    ensures 0.0 <= LateralTorsionalBuckling(m).value.check.design
    ensures 0.0 <= Assess(Mp(m), PhiYield, Abs(m.forces.mx)).design
    ensures
      var flexY := WeakAxisYielding(m.material.fy, m.section.zyy, m.section.syy, m.forces.my);
      0.0 <= flexY.design && 0.0 <= Assess(flexY.nominal, PhiYield, Abs(m.forces.my)).design
  {
    var fy, s := m.material.fy, m.section;
    NonNegativeProduct(fy, s.zxx);
    NonNegativeProduct(fy, s.zyy);
    NonNegativeProduct(1.6 * fy, s.syy);
  }

  /**
   * On non-negative demands and non-negative flexural design capacities, a
   * successful interaction has a non-negative ratio.
   */
  lemma {:induction false} InteractNonNegative(pu: real, mux: real, muy: real,
                                                compX: Check, compY: Check, ftb: Check,
                                                ltbX: Check, flbX: Check, flexY: Check, flbY: Check)
    requires 0.0 <= pu && 0.0 <= mux && 0.0 <= muy
    requires 0.0 <= ltbX.design && 0.0 <= flbX.design && 0.0 <= flexY.design && 0.0 <= flbY.design
    requires Interact(pu, mux, muy, compX, compY, ftb, ltbX, flbX, flexY, flbY).Success?
    ensures 0.0 <= Interact(pu, mux, muy, compX, compY, ftb, ltbX, flbX, flexY, flbY).value.ratio
  {
    var i := Interact(pu, mux, muy, compX, compY, ftb, ltbX, flbX, flexY, flbY).value;
    InteractionRatioNonNegative(i, pu, mux, muy);
  }

  lemma InteractionRatioNonNegative(i: Interaction, pu: real, mux: real, muy: real)
    requires 0.0 <= pu && 0.0 <= mux && 0.0 <= muy && 0.0 < i.mcx && 0.0 < i.mcy
    requires i.equation == H1_1a ==> 0.0 < i.pc && i.ratio == pu / i.pc + 8.0 / 9.0 * (mux / i.mcx + muy / i.mcy)
    requires i.equation == H1_1b ==> i.ratio == (if 0.0 < i.pc then pu / i.pc else 0.0) / 2.0 + (mux / i.mcx + muy / i.mcy)
    ensures 0.0 <= i.ratio
  {
    QuotientNonNegative(mux, i.mcx);
    QuotientNonNegative(muy, i.mcy);
    if 0.0 < i.pc {
      QuotientNonNegative(pu, i.pc);
    }
  }
}
