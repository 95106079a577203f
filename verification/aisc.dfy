/**
 * Rules of the AISC 360-16 specification that both calculation engines draw
 * on: the material constants, the resistance factors, the critical-stress rule
 * of section E3 and the two-branch axial-flexure interaction of section H1.1.
 */
module Aisc {
  import opened Numerics

  /** Modulus of elasticity of steel, ksi. */
  const E: real := 29000.0
  /** Shear modulus of steel, ksi. */
  const G: real := 11200.0

  /** Resistance factor for tension yielding, compression, shear and flexure (LRFD). */
  const PhiYield: real := 0.9
  /** Resistance factor for tension rupture (LRFD). */
  const PhiRupture: real := 0.75

  /**
   * Critical stress of section E3 (Eq. E3-2 and E3-3) written in terms of the
   * elastic buckling stress: inelastic buckling `0.658^(Fy/Fe) * Fy` while
   * `Fy/Fe <= 2.25`, elastic buckling `0.877 * Fe` beyond. Fe is positive, so
   * the regime test is stated as `Fy <= 2.25 Fe`. In both regimes the
   * critical stress is positive and never exceeds the yield stress.
   */
  function CriticalStress(fe: real, fy: real): (fcr: real)
    requires 0.0 < fe && 0.0 < fy
    ensures 0.0 < fcr <= fy
    ensures fy <= 2.25 * fe ==> fcr == Pow658(fy / fe) * fy
    ensures 2.25 * fe < fy ==> fcr == 0.877 * fe && fcr < fe
  {
    if fy <= 2.25 * fe then
      InelasticRange(fy / fe, fy);
      Pow658(fy / fe) * fy
    else
      0.877 * fe
  }

  /** On a non-negative exponent the power law `0.658^x Fy` lies in `(0, Fy]`. */
  lemma InelasticRange(x: real, fy: real)
    requires 0.0 <= x && 0.0 < fy
    ensures 0.0 < Pow658(x) * fy <= fy
  {
    Pow658AtMostOne(x);
    PositiveProduct(Pow658(x), fy);
    ScaleMonotoneRight(fy, Pow658(x), 1.0);
  }

  /**
   * A stiffer member (larger Fe) never has a smaller inelastic critical
   * stress: the power law `0.658^(Fy/Fe) Fy` never falls as Fe grows.
   */
  lemma InelasticGrowsWithFe(fe1: real, fe2: real, fy: real)
    requires 0.0 < fe1 <= fe2 && 0.0 < fy
    ensures Pow658(fy / fe1) * fy <= Pow658(fy / fe2) * fy
  {
    var x1, x2 := fy / fe1, fy / fe2;
    DivideByLarger(fy, fe1, fe2);
    assert Pow658(x1) <= Pow658(x2) by {
      if x2 < x1 {
        Pow658Decreasing(x2, x1);
      }
    }
    ScaleMonotoneRight(fy, Pow658(x1), Pow658(x2));
  }

  /** The two interaction equations of section H1.1. */
  datatype H1Equation = H1_1a | H1_1b

  /** The label the report prints for an interaction equation. */
  function Label(eq: H1Equation): string {
    match eq
    case H1_1a => "Eq.H1-1a"
    case H1_1b => "Eq.H1-1b"
  }

  /** The governing interaction ratio and the equation that produced it. */
  datatype H1Result = H1Result(ratio: real, equation: H1Equation)

  /**
   * Interaction of axial force and flexure, section H1.1: with `axial = Pr/Pc`
   * and `moment = Mrx/Mcx + Mry/Mcy`, Eq. H1-1a `axial + 8/9 * moment` applies
   * when `Pr/Pc >= 0.2` and Eq. H1-1b `axial/2 + moment` when `Pr/Pc < 0.2`.
   */
  function H1(axial: real, moment: real): (r: H1Result)
    ensures r.equation == H1_1a <==> 0.2 <= axial
    ensures r.equation == H1_1a ==> r.ratio == axial + 8.0 / 9.0 * moment
    ensures r.equation == H1_1b ==> r.ratio == axial / 2.0 + moment
  {
    if 0.2 <= axial then
      H1Result(axial + 8.0 / 9.0 * moment, H1_1a)
    else
      H1Result(axial / 2.0 + moment, H1_1b)
  }

  /**
   * For non-negative utilisations the interaction ratio is non-negative, grows
   * with the flexural term, and covers at least half the axial term and 8/9 of
   * the flexural term.
   */
  lemma H1Bounds(axial: real, moment: real, moment': real)
    requires 0.0 <= axial && 0.0 <= moment <= moment'
    ensures 0.0 <= H1(axial, moment).ratio <= H1(axial, moment').ratio
    ensures axial / 2.0 <= H1(axial, moment).ratio
    ensures 8.0 / 9.0 * moment <= H1(axial, moment).ratio
  {
  }

  /**
   * The two equations do not meet at the 0.2 boundary: at `Pr/Pc = 0.2` they
   * agree only when the flexural term is exactly 0.9.
   */
  lemma H1BranchesMeetOnlyAtNineTenths(moment: real)
    ensures 0.2 + 8.0 / 9.0 * moment == 0.2 / 2.0 + moment <==> moment == 0.9
  {
  }
}
