/**
 * How the two calculation engines relate where they compute the same limit
 * state: the auto-calculating check applies the caps of sections F2 and F6
 * and takes compact flanges, while the report-driven engine leaves the LTB
 * line and weak-axis yielding uncapped and interpolates flange local
 * buckling from default slenderness limits.
 */
module EngineComparison {
  import opened Wrappers
  import opened Numerics
  import Aisc
  import StaadCheck
  import Staad2

  /**
   * Weak-axis yielding: the report-driven engine's `Fy Zy` is never below the
   * capped moment of Eq. F6-1, and the two agree exactly when the
   * `1.6 Fy Sy` cap does not bind.
   */
  lemma {:induction false} WeakAxisYieldingUncapped(f: Staad2.FlexureInput, muy: real)
    requires Staad2.FlexuralCapacity(f).Success?
    ensures
      var capped := StaadCheck.WeakAxisYielding(f.fy, f.zyy, f.syy, muy).nominal;
      var uncapped := Staad2.FlexuralCapacity(f).value.mnYieldY;
      && capped <= uncapped
      && (capped == uncapped <==> f.fy * f.zyy <= 1.6 * f.fy * f.syy)
  {
  }

  /**
   * Inelastic lateral-torsional buckling: for a member between Lp and Lr with
   * a positive Lp, the check's moment is the report-driven engine's Cb-scaled
   * line capped at Mp, so the two agree exactly when that line does not
   * exceed Mp.
   */
  lemma {:induction false} InelasticLtbIsCappedLine(m: StaadCheck.Member)
    requires StaadCheck.WellPosed(m)
    requires 0.0 < StaadCheck.Lp(m) < m.params.length <= StaadCheck.Lr(m)
    ensures
      var line := Staad2.LtbMoment(StaadCheck.Mp(m), StaadCheck.Mr(m), m.params.cb,
                                   StaadCheck.Lp(m), StaadCheck.Lr(m), m.params.length);
      && StaadCheck.LtbMoment(m) == Success(Min(line, StaadCheck.Mp(m)))
      && (StaadCheck.LtbMoment(m).value == line <==> line <= StaadCheck.Mp(m))
  {
    var lp, lr := StaadCheck.Lp(m), StaadCheck.Lr(m);
    var mp, mr := StaadCheck.Mp(m), StaadCheck.Mr(m);
    assert Staad2.LineApplies(lp, lr);
    CappedLine(m.params.cb, mp, mr, m.params.length, lp, lr);
  }

  lemma CappedLine(cb: real, mp: real, mr: real, lb: real, lp: real, lr: real)
    requires Staad2.LineApplies(lp, lr)
    ensures StaadCheck.InelasticLtbMoment(cb, mp, mr, lb, lp, lr) == Min(Staad2.LtbMoment(mp, mr, cb, lp, lr, lb), mp)
  {
  }

  /**
   * Flange local buckling: the check takes a compact flange and uses Mp,
   * while the report-driven engine with its default slenderness 9.2 between
   * the limits 9.15 and 24.08 gives strictly less whenever 0 <= Mr < Mp.
   */
  lemma {:induction false} DefaultFlangeBelowCompact(m: StaadCheck.Member)
    requires 0.0 <= StaadCheck.Mr(m) < StaadCheck.Mp(m)
    ensures
      Staad2.NonCompactMn(StaadCheck.Mp(m), StaadCheck.Mr(m), Staad2.DefaultFlangeLambda,
                          Staad2.DefaultFlangeLambdaP, Staad2.DefaultFlangeLambdaR)
      < StaadCheck.Assess(StaadCheck.Mp(m), Aisc.PhiYield, Abs(m.forces.mx)).nominal
  {
    Staad2.DefaultFlangeIsNonCompact(StaadCheck.Mp(m), StaadCheck.Mr(m));
  }
}
