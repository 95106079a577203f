/**
 * Fillet-weld group in shear under section J2.4: effective throat 0.707 w,
 * nominal stress 0.6 Fexx, nominal strength per length and for n equal
 * lines of length L, the LRFD (phi = 0.75) or ASD (Omega = 2.0) design
 * strength, and the utilisation of the applied shear.
 */
module Weld {
  import opened Numerics

  datatype DesignMethod = Lrfd | Asd

  const Phi: real := 0.75
  const Omega: real := 2.0

  /** The inputs the form collects. */
  datatype WeldInput = WeldInput(scheme: DesignMethod, fexx: real, size: real, length: real, lines: int, ru: real)

  /** Every intermediate quantity and the verdict. */
  datatype WeldResult = WeldResult(
    throat: real, fw: real, rnPerLength: real, totalLength: real,
    rn: real, design: real, utilization: real, ok: bool)

  /**
   * The ranges the input widgets enforce: Fexx in [10, 120] ksi, w in
   * [1/16, 1] in, L in [0.5, 200] in, n an integer in [1, 20] and Ru in
   * [0, 5000] kips.
   */
  predicate WithinWidgetBounds(w: WeldInput) {
    10.0 <= w.fexx <= 120.0
    && 0.0625 <= w.size <= 1.0
    && 0.5 <= w.length <= 200.0
    && 1 <= w.lines <= 20
    && 0.0 <= w.ru <= 5000.0
  }

  /** Design strength from the nominal strength: phi Rn for LRFD, Rn / Omega for ASD. */
  function DesignStrength(scheme: DesignMethod, rn: real): (r: real)
    ensures scheme == Lrfd ==> r == Phi * rn
    ensures scheme == Asd ==> r * Omega == rn
    ensures 0.0 < rn ==> 0.0 < r < rn
  {
    match scheme
    case Lrfd => Phi * rn
    case Asd => rn / Omega
  }

  /**
   * Nominal strength of the group, `Rn = (0.6 Fexx)(0.707 w)(n L)`: weld
   * stress times effective throat times total weld length.
   */
  function NominalStrength(fexx: real, size: real, lines: int, length: real): real {
    var fw := 0.6 * fexx;
    var throat := 0.707 * size;
    fw * throat * (lines as real * length)
  }

  /**
   * The weld-group calculation. The nominal strength is the product of the
   * throat, the weld stress and the total length; the verdict holds exactly
   * when the utilisation is at most 1, and a non-positive design strength
   * yields utilisation 0.
   */
  function Compute(w: WeldInput): (r: WeldResult)
    ensures r.throat == 0.707 * w.size && r.fw == 0.6 * w.fexx
    ensures r.totalLength == w.lines as real * w.length
    ensures r.rnPerLength == r.fw * r.throat && r.rn == r.rnPerLength * r.totalLength
    ensures r.rn == NominalStrength(w.fexx, w.size, w.lines, w.length)
    ensures r.design == DesignStrength(w.scheme, r.rn)
    ensures 0.0 < r.design ==> r.utilization * r.design == w.ru
    ensures r.design <= 0.0 ==> r.utilization == 0.0
    ensures r.ok <==> r.utilization <= 1.0
  {
    var throat := 0.707 * w.size;
    var fw := 0.6 * w.fexx;
    var rnPerLength := fw * throat;
    var totalLength := w.lines as real * w.length;
    var rn := rnPerLength * totalLength;
    var design := DesignStrength(w.scheme, rn);
    var utilization := if design > 0.0 then w.ru / design else 0.0;
    WeldResult(throat, fw, rnPerLength, totalLength, rn, design, utilization, utilization <= 1.0)
  }

  /**
   * Within the widget ranges the design strength is positive, so the
   * utilisation is the exact demand-to-capacity ratio, is non-negative, and
   * the weld passes exactly when Ru does not exceed the design strength.
   */
  lemma {:induction false} WithinBoundsRatioIsExact(w: WeldInput)
    requires WithinWidgetBounds(w)
    ensures 0.0 < Compute(w).design
    ensures 0.0 <= Compute(w).utilization
    ensures Compute(w).utilization * Compute(w).design == w.ru
    ensures Compute(w).ok <==> w.ru <= Compute(w).design
  {
    var r := Compute(w);
    NominalPositive(w);
    assert 0.0 < r.design;
    QuotientNonNegative(w.ru, r.design);
    assert r.utilization == w.ru / r.design;
    RatioAtMostOne(w.ru, r.design);
  }

  lemma NominalPositive(w: WeldInput)
    requires WithinWidgetBounds(w)
    ensures 0.0 < NominalStrength(w.fexx, w.size, w.lines, w.length)
  {
    var fw, throat, total := 0.6 * w.fexx, 0.707 * w.size, w.lines as real * w.length;
    assert 0.0 < fw && 0.0 < throat;
    assert 0.0 < total by {
      assert 1.0 <= w.lines as real;
      PositiveProduct(w.lines as real, w.length);
    }
    PositiveProduct(fw, throat);
    PositiveProduct(fw * throat, total);
    assert NominalStrength(w.fexx, w.size, w.lines, w.length) == fw * throat * total;
  }

  /**
   * The two methods differ only in the factor: the LRFD design strength of
   * any weld group is 1.5 times its ASD design strength.
   */
  lemma {:induction false} LrfdIsOneAndAHalfAsd(w: WeldInput)
    ensures Compute(w.(scheme := Lrfd)).design == 1.5 * Compute(w.(scheme := Asd)).design
  {
    var rn := NominalStrength(w.fexx, w.size, w.lines, w.length);
    assert DesignStrength(Asd, rn) * Omega == rn;
  }

  /**
   * A larger weld never has a smaller design strength: with the other inputs
   * within the widget ranges, increasing the leg size w does not decrease it.
   */
  lemma {:induction false} DesignStrengthGrowsWithSize(w: WeldInput, size2: real)
    requires WithinWidgetBounds(w) && w.size <= size2
    ensures Compute(w).design <= Compute(w.(size := size2)).design
  {
    var rn1 := NominalStrength(w.fexx, w.size, w.lines, w.length);
    var rn2 := NominalStrength(w.fexx, size2, w.lines, w.length);
    assert 0.0 < w.lines as real * w.length by {
      PositiveProduct(w.lines as real, w.length);
    }
    NominalGrowsWithThroat(0.6 * w.fexx, 0.707 * w.size, 0.707 * size2, w.lines as real * w.length);
    DesignStrengthMonotone(w.scheme, rn1, rn2);
  }

  lemma NominalGrowsWithThroat(fw: real, t1: real, t2: real, len: real)
    requires 0.0 <= fw && 0.0 <= len && t1 <= t2
    ensures fw * t1 * len <= fw * t2 * len
  {
    ScaleMonotone(fw, t1, t2);
    assert fw * t1 * len == len * (fw * t1);
    assert fw * t2 * len == len * (fw * t2);
    ScaleMonotone(len, fw * t1, fw * t2);
  }

  /** More demand on the same group never lowers its utilisation. */
  lemma {:induction false} UtilizationGrowsWithDemand(w: WeldInput, ru2: real)
    requires WithinWidgetBounds(w) && w.ru <= ru2
    ensures Compute(w).utilization <= Compute(w.(ru := ru2)).utilization
  {
    var r1, r2 := Compute(w), Compute(w.(ru := ru2));
    NominalPositive(w);
    var d := r1.design;
    assert r2.design == d && 0.0 < d;
    assert r1.utilization == w.ru / d;
    assert r2.utilization == ru2 / d;
    QuotientOrder(w.ru, ru2, d);
  }

  lemma DesignStrengthMonotone(scheme: DesignMethod, rn1: real, rn2: real)
    requires rn1 <= rn2
    ensures DesignStrength(scheme, rn1) <= DesignStrength(scheme, rn2)
  {
  }
}
