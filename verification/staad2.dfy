/**
 * The function-level calculation engine of the calculation-sheet generator:
 * tensile capacity, compression capacity from reported slenderness ratios,
 * flexural capacity from reported limiting lengths and flange slenderness,
 * and the H1 interaction ratio from reported capacities.
 *
 * Its inputs are entries of the dictionary built from the report, in which
 * the parser stores every key it looks for, with `None` for a value the
 * report lacks. Where the source treats a missing key and `None` alike (both
 * are falsy), an entry is an `Option<real>`; where the two differ (a
 * `values.get(key, default)` whose default only covers a missing key), it is
 * an `Entry`.
 */
module Staad2 {
  import opened Wrappers
  import opened Numerics
  import opened Aisc

  /** One slot of the report dictionary: key absent, key mapped to `None`, or a number. */
  datatype Entry = Absent | Null | Num(v: real)

  /**
   * `values.get(key, default)`: the default for an absent key, the stored
   * number otherwise, and `None` for a key stored as `None`.
   */
  function Get(e: Entry, default: real): (r: Option<real>)
    ensures r.None? <==> e.Null?
    ensures e.Absent? ==> r == Some(default)
    ensures e.Num? ==> r == Some(e.v)
  {
    match e
    case Absent => Some(default)
    case Null => None
    case Num(v) => Some(v)
  }

  /** Python truthiness of an optional float: present and non-zero. */
  predicate Truthy(x: Option<real>) {
    x.Some? && x.value != 0.0
  }

  // ---------------------------------------------------------------------------
  // Tension.
  // ---------------------------------------------------------------------------

  datatype Tension = Tension(pnYield: real, phiPnYield: real, pnRupture: real, phiPnRupture: real)

  /**
   * `tensile_capacity` as written: yielding `0.9 fy ag`, rupture `0.75 fu ae`
   * with `ae = values.get("ae", ag)`. The fallback to ag applies only when the
   * key is absent; a key mapped to `None` reaches `fu * None` and raises.
   */
  function TensileCapacity(ag: real, fy: real, fu: real, ae: Entry): (r: Result<Tension>)
    ensures r.Failure? <==> ae.Null?
    ensures r.Failure? ==> r.error == TypeError
    ensures r.Success? ==> r.value.pnYield == fy * ag && r.value.phiPnYield == 0.9 * r.value.pnYield
    ensures r.Success? ==> r.value.phiPnRupture == 0.75 * r.value.pnRupture
    ensures ae.Absent? ==> r.Success? && r.value.pnRupture == fu * ag
    ensures ae.Num? ==> r.Success? && r.value.pnRupture == fu * ae.v
  {
    var area := Get(ae, ag);
    var pnYield := fy * ag;
    if area.None? then
      Failure(TypeError)
    else
      var pnRupture := fu * area.value;
      Success(Tension(pnYield, PhiYield * pnYield, pnRupture, PhiRupture * pnRupture))
  }

  /**
   * Tensile capacity with the evidently intended fallback: an effective area
   * the report does not give, whether its key is absent or holds `None`, is
   * taken as ag. It never raises and agrees with `TensileCapacity` wherever
   * that succeeds.
   */
  function TensileCapacityCorrected(ag: real, fy: real, fu: real, ae: Entry): (r: Tension)
    ensures r.pnYield == fy * ag && r.phiPnYield == 0.9 * r.pnYield
    ensures r.phiPnRupture == 0.75 * r.pnRupture
    ensures !ae.Num? ==> r.pnRupture == fu * ag
    ensures ae.Num? ==> r.pnRupture == fu * ae.v
    ensures TensileCapacity(ag, fy, fu, ae).Success? ==> TensileCapacity(ag, fy, fu, ae).value == r
  {
    var area := if ae.Num? then ae.v else ag;
    Tension(fy * ag, PhiYield * (fy * ag), fu * area, PhiRupture * (fu * area))
  }

  // ---------------------------------------------------------------------------
  // Compression.
  // ---------------------------------------------------------------------------

  /**
   * `fcr_from_fe` as written: `0.658 ** (fe/fy) * fy` when `fe/fy <= 2.25`,
   * else `0.877 fe`. Both the exponent and the regime test use fe/fy, the
   * reciprocal of the Fy/Fe of Eq. E3-2. The result is non-zero whenever fe is.
   */
  function FcrFromFe(fe: real, fy: real): (fcr: real)
    requires fy != 0.0
    ensures fe / fy <= 2.25 ==> fcr == Pow658(fe / fy) * fy
    ensures 2.25 < fe / fy ==> fcr == 0.877 * fe
    ensures fe != 0.0 ==> fcr != 0.0
  {
    if fe / fy <= 2.25 then Pow658(fe / fy) * fy else 0.877 * fe
  }

  /** Elastic buckling stress, Fcr and nominal strength of one compression check; `None` where not computed. */
  datatype Axial = Axial(fe: Option<real>, fcr: Option<real>, pn: Option<real>)

  /**
   * `(pi**2 * e) / (lc_r**2) if lc_r else None`: present exactly for a truthy
   * slenderness, and then positive with `Fe (Lc/r)^2 = pi^2 E`.
   */
  function EulerFromSlenderness(lcr: Option<real>): (fe: Option<real>)
    ensures fe.Some? <==> Truthy(lcr)
    ensures Truthy(lcr) ==> 0.0 < fe.value && fe.value * (lcr.value * lcr.value) == Pi * Pi * E
  {
    if Truthy(lcr) then
      var s := lcr.value;
      QuotientPositive(Pi * Pi * E, s * s);
      QuotientTimes(Pi * Pi * E, s * s);
      Some(Pi * Pi * E / (s * s))
    else
      None
  }

  /**
   * `fcr = fcr_from_fe(fe, fy) if fe else None` and `pn = fcr * ag if fcr else
   * None`: Fcr and Pn are present exactly when fe is truthy, and then
   * `Pn = Fcr ag`.
   */
  function FromElasticStress(fe: Option<real>, fy: real, ag: real): (a: Axial)
    requires Truthy(fe) ==> fy != 0.0
    ensures a.fe == fe
    ensures a.fcr.Some? <==> Truthy(fe)
    ensures a.pn.Some? <==> Truthy(fe)
    ensures Truthy(fe) ==> a.fcr.value == FcrFromFe(fe.value, fy) && a.pn.value == a.fcr.value * ag
  {
    var fcr := if Truthy(fe) then Some(FcrFromFe(fe.value, fy)) else None;
    var pn := if Truthy(fcr) then Some(fcr.value * ag) else None;
    Axial(fe, fcr, pn)
  }

  /**
   * Fe as reported from a slenderness `Lc/r`: present exactly for a truthy
   * slenderness, and then positive with `Fe (Lc/r)^2 = pi^2 E`.
   */
  predicate EulerFrom(fe: Option<real>, lcr: Option<real>) {
    && (fe.Some? <==> Truthy(lcr))
    && (Truthy(lcr) ==> fe.Some? && 0.0 < fe.value && fe.value * (lcr.value * lcr.value) == Pi * Pi * E)
  }

  /**
   * Fcr and Pn of a check as reported from its Fe: both present exactly for a
   * truthy Fe, and then Fcr is `fcr_from_fe` of Fe and `Pn = Fcr ag`.
   */
  predicate CriticalFrom(a: Axial, fy: real, ag: real) {
    && (a.fcr.Some? <==> Truthy(a.fe))
    && (a.pn.Some? <==> Truthy(a.fe))
    && (Truthy(a.fe) ==>
          && fy != 0.0 && a.fcr.Some? && a.pn.Some?
          && a.fcr.value == FcrFromFe(a.fe.value, fy)
          && a.pn.value == a.fcr.value * ag)
  }

  /** Flexural buckling about one axis from the reported `Lc/r`. */
  function FlexuralAxis(lcr: Option<real>, fy: real, ag: real): (a: Axial)
    requires Truthy(lcr) ==> fy != 0.0
    ensures EulerFrom(a.fe, lcr)
    ensures CriticalFrom(a, fy, ag)
  {
    FromElasticStress(EulerFromSlenderness(lcr), fy, ag)
  }

  datatype Compression = Compression(x: Axial, y: Axial, ftb: Axial)

  /**
   * `compression_capacity`: flexural buckling about x and y from the reported
   * `Lc/r` ratios and flexural-torsional buckling from the reported Fe. Every
   * Fe, Fcr and Pn is absent exactly when its input is missing or zero;
   * otherwise Fe follows from `Lc/r`, Fcr is `fcr_from_fe` of Fe and
   * `Pn = Fcr ag`. The ratio fe/fy raises for a zero fy as soon as one Fcr is
   * computed.
   */
  function CompressionCapacity(ag: real, fy: real, lcxRx: Option<real>, lcyRy: Option<real>, feFtb: Option<real>): (r: Result<Compression>)
    ensures r.Failure? <==> fy == 0.0 && (Truthy(lcxRx) || Truthy(lcyRy) || Truthy(feFtb))
    ensures r.Failure? ==> r.error == ZeroDivisionError
    ensures r.Success? ==>
      && (r.value.x.pn.Some? <==> Truthy(lcxRx))
      && (r.value.y.pn.Some? <==> Truthy(lcyRy))
      && (r.value.ftb.pn.Some? <==> Truthy(feFtb))
    ensures r.Success? ==>
      && (r.value.x.fcr.Some? <==> Truthy(lcxRx))
      && (r.value.y.fcr.Some? <==> Truthy(lcyRy))
      && (r.value.ftb.fcr.Some? <==> Truthy(feFtb))
    ensures r.Success? ==> EulerFrom(r.value.x.fe, lcxRx) && EulerFrom(r.value.y.fe, lcyRy) && r.value.ftb.fe == feFtb
    ensures r.Success? ==> CriticalFrom(r.value.x, fy, ag) && CriticalFrom(r.value.y, fy, ag) && CriticalFrom(r.value.ftb, fy, ag)
  {
    if fy == 0.0 && (Truthy(lcxRx) || Truthy(lcyRy) || Truthy(feFtb)) then
      Failure(ZeroDivisionError)
    else
      var x := FlexuralAxis(lcxRx, fy, ag);
      var y := FlexuralAxis(lcyRy, fy, ag);
      var ftb := FromElasticStress(feFtb, fy, ag);
      Success(Compression(x, y, ftb))
  }

  // ---------------------------------------------------------------------------
  // Flexure.
  // ---------------------------------------------------------------------------

  /** Default Cb when the key is absent. */
  const DefaultCb: real := 1.0
  /** Default flange width-thickness ratio when the report gives none. */
  const DefaultFlangeLambda: real := 9.2
  /** Default compact limit of the flange width-thickness ratio. */
  const DefaultFlangeLambdaP: real := 9.15
  /** Default noncompact limit of the flange width-thickness ratio. */
  const DefaultFlangeLambdaR: real := 24.08

  /**
   * Inputs of `flexural_capacity`: section moduli, the reported Cb, Lp, Lr,
   * the member length used as Lb, and the flange slenderness with its
   * limits. A missing or `None` Lp or Lr is falsy in the source and is 0
   * here; Cb and Lb keep the distinction, since their defaults (1.0 and 0)
   * only cover a missing key.
   */
  datatype FlexureInput = FlexureInput(
    fy: real, zxx: real, zyy: real, sxx: real, syy: real,
    cb: Entry, lp: real, lr: real, lb: Entry,
    lam: real, lamP: real, lamR: real)

  datatype Flexure = Flexure(
    mpX: real, mrX: real, mnLtb: real, mnFlbX: real,
    mpY: real, mrY: real, mnFlbY: real, mnYieldY: real)

  /** The guard `hi and lo and hi > lo` of a straight-line reduction. */
  predicate LineApplies(lo: real, hi: real) {
    hi != 0.0 && lo != 0.0 && hi > lo
  }

  /**
   * The LTB moment as written: when `lr and lp and lr > lp`, the Cb-scaled line
   * from mp at lp to mr at lr evaluated at lb, with no cap and no check of
   * where lb lies; otherwise mp. The line gives cb mp at lp and cb mr at lr.
   */
  function LtbMoment(mp: real, mr: real, cb: real, lp: real, lr: real, lb: real): (mn: real)
    ensures !LineApplies(lp, lr) ==> mn == mp
    ensures LineApplies(lp, lr) && lb == lp ==> mn == cb * mp
    ensures LineApplies(lp, lr) && lb == lr ==> mn == cb * mr
  {
    if LineApplies(lp, lr) then cb * Interpolate(mp, mr, lb, lp, lr) else mp
  }

  /**
   * `non_compact_mn`: the straight line from mp at the compact limit lamP to
   * mr at the noncompact limit lamR, evaluated at lam, when `lam_r and lam_p
   * and lam_r > lam_p`; otherwise mp. It gives mp at lamP and mr at lamR and,
   * for mr <= mp, stays within [mr, mp] on [lamP, lamR].
   */
  function NonCompactMn(mp: real, mr: real, lam: real, lamP: real, lamR: real): (mn: real)
    ensures !LineApplies(lamP, lamR) ==> mn == mp
    ensures LineApplies(lamP, lamR) && lam == lamP ==> mn == mp
    ensures LineApplies(lamP, lamR) && lam == lamR ==> mn == mr
    ensures LineApplies(lamP, lamR) && mr <= mp && lamP <= lam <= lamR ==> mr <= mn <= mp
  {
    if LineApplies(lamP, lamR) then Interpolate(mp, mr, lam, lamP, lamR) else mp
  }

  /**
   * A more slender flange never carries more moment: for mr <= mp the
   * local-buckling moment does not grow with lam.
   */
  lemma {:induction false} NonCompactMnMonotone(mp: real, mr: real, lam1: real, lam2: real, lamP: real, lamR: real)
    requires mr <= mp && lam1 <= lam2
    ensures NonCompactMn(mp, mr, lam2, lamP, lamR) <= NonCompactMn(mp, mr, lam1, lamP, lamR)
  {
    if LineApplies(lamP, lamR) {
      InterpolateMonotone(mp, mr, lam1, lam2, lamP, lamR);
    }
  }

  /**
   * `flexural_capacity`: plastic and yield moments `fy Z`, `0.7 fy S` per axis,
   * the uncapped LTB line, flange local buckling about both axes, and
   * weak-axis yielding `fy Zy` without the `1.6 Fy Sy` limit of Eq. F6-1.
   * The LTB line multiplies by Cb and subtracts Lp from Lb, so it raises when
   * it applies and either is stored as `None`.
   */
  function FlexuralCapacity(f: FlexureInput): (r: Result<Flexure>)
    ensures r.Failure? <==> LineApplies(f.lp, f.lr) && (f.cb.Null? || f.lb.Null?)
    ensures r.Failure? ==> r.error == TypeError
    ensures r.Success? ==> r.value.mpX == f.fy * f.zxx && r.value.mrX == 0.7 * f.fy * f.sxx
    ensures r.Success? ==> r.value.mpY == f.fy * f.zyy && r.value.mrY == 0.7 * f.fy * f.syy
    ensures r.Success? ==> r.value.mnYieldY == r.value.mpY
    ensures !LineApplies(f.lp, f.lr) ==> r.Success? && r.value.mnLtb == r.value.mpX
    ensures r.Success? && LineApplies(f.lp, f.lr) ==>
      r.value.mnLtb == LtbMoment(r.value.mpX, r.value.mrX, Get(f.cb, DefaultCb).value, f.lp, f.lr, Get(f.lb, 0.0).value)
    ensures r.Success? ==> r.value.mnFlbX == NonCompactMn(r.value.mpX, r.value.mrX, f.lam, f.lamP, f.lamR)
    ensures r.Success? ==> r.value.mnFlbY == NonCompactMn(r.value.mpY, r.value.mrY, f.lam, f.lamP, f.lamR)
  {
    var mpX := f.fy * f.zxx;
    var mrX := 0.7 * f.fy * f.sxx;
    var cb, lb := Get(f.cb, DefaultCb), Get(f.lb, 0.0);
    if LineApplies(f.lp, f.lr) && (cb.None? || lb.None?) then
      Failure(TypeError)
    else
      var mnLtb := if LineApplies(f.lp, f.lr) then LtbMoment(mpX, mrX, cb.value, f.lp, f.lr, lb.value) else mpX;
      var mpY := f.fy * f.zyy;
      var mrY := 0.7 * f.fy * f.syy;
      Success(Flexure(
        mpX, mrX, mnLtb,
        NonCompactMn(mpX, mrX, f.lam, f.lamP, f.lamR),
        mpY, mrY, NonCompactMn(mpY, mrY, f.lam, f.lamP, f.lamR),
        f.fy * f.zyy))
  }

  /**
   * With the default flange slenderness 9.2 between the default limits 9.15
   * and 24.08, a section with 0 <= Mr <= Mp is noncompact: its local-buckling
   * moment lies strictly between Mr and Mp when Mr < Mp.
   */
  lemma {:induction false} DefaultFlangeIsNonCompact(mp: real, mr: real)
    requires 0.0 <= mr < mp
    ensures mr < NonCompactMn(mp, mr, DefaultFlangeLambda, DefaultFlangeLambdaP, DefaultFlangeLambdaR) < mp
  {
    var t := (DefaultFlangeLambda - DefaultFlangeLambdaP) / (DefaultFlangeLambdaR - DefaultFlangeLambdaP);
    assert 0.0 < t < 1.0;
    assert (mp - mr) * (DefaultFlangeLambda - DefaultFlangeLambdaP) / (DefaultFlangeLambdaR - DefaultFlangeLambdaP) == (mp - mr) * t;
    StrictScale(mp - mr, 0.0, t);
    StrictScale(mp - mr, t, 1.0);
  }

  /**
   * The LTB line is not capped at Mp: with a truthy lr > lp, any Cb above 1
   * and a positive plastic moment, the moment at lb = lp exceeds Mp.
   */
  lemma {:induction false} LtbMomentExceedsPlastic(mp: real, mr: real, cb: real, lp: real, lr: real)
    requires LineApplies(lp, lr) && 1.0 < cb && 0.0 < mp
    ensures mp < LtbMoment(mp, mr, cb, lp, lr, lp)
  {
    StrictScale(mp, 1.0, cb);
  }

  /**
   * Nor does it look at where lb lies: for lb below lp the line is extrapolated
   * beyond Cb Mp whenever mr < mp and Cb > 0.
   */
  lemma {:induction false} LtbMomentExtrapolates(mp: real, mr: real, cb: real, lp: real, lr: real, lb: real)
    requires LineApplies(lp, lr) && lb < lp && mr < mp && 0.0 < cb
    ensures cb * mp < LtbMoment(mp, mr, cb, lp, lr, lb)
  {
    var d := lr - lp;
    var t := (lb - lp) / d;
    QuotientNegative(lb - lp, d);
    assert (mp - mr) * (lb - lp) / d == (mp - mr) * t;
    StrictScale(mp - mr, t, 0.0);
    StrictScale(cb, mp, Interpolate(mp, mr, lb, lp, lr));
  }

  // ---------------------------------------------------------------------------
  // Interaction.
  // ---------------------------------------------------------------------------

  /** `pu / pc if pc else 0`. */
  function AxialTerm(pu: real, pc: real): (a: real)
    ensures pc != 0.0 ==> a * pc == pu
    ensures pc == 0.0 ==> a == 0.0
  {
    Ratio(pu, pc)
  }

  /** `abs(values.get(key, 0.0))`: the magnitude of a force, `None` when stored as `None`. */
  function Magnitude(e: Entry): (r: Option<real>)
    ensures r.None? <==> e.Null?
    ensures r.Some? ==> 0.0 <= r.value
    ensures e.Absent? ==> r == Some(0.0)
    ensures e.Num? ==> r == Some(Abs(e.v))
  {
    match Get(e, 0.0)
    case None => None
    case Some(v) => Some(Abs(v))
  }

  /**
   * `interaction_ratio` as written: the force magnitudes `|pz|`, `|mx|`,
   * `|my|` (0 for an absent key; `abs(None)` raises for a force stored as
   * `None`); no ratio (`None`) when pc, mcx or mcy is missing; the axial term
   * `|pz|/pc` (0 when pc is 0); the moment term `|mx|/mcx + |my|/mcy`, which
   * raises for a zero mcx or mcy; then `axial/2 + moment` when the axial term
   * is at most 0.2 and `axial + 8/9 moment` above it.
   */
  function InteractionRatio(pz: Entry, mx: Entry, my: Entry, pc: Option<real>, mcx: Option<real>, mcy: Option<real>): (r: Result<Option<real>>)
    ensures r == Failure(TypeError) <==> pz.Null? || mx.Null? || my.Null?
    ensures !(pz.Null? || mx.Null? || my.Null?) && (pc.None? || mcx.None? || mcy.None?) ==> r == Success(None)
    ensures r == Failure(ZeroDivisionError) <==>
      !(pz.Null? || mx.Null? || my.Null?) && pc.Some? && mcx.Some? && mcy.Some? && (mcx.value == 0.0 || mcy.value == 0.0)
    ensures !(pz.Null? || mx.Null? || my.Null?) && pc.Some? && mcx.Some? && mcy.Some? && mcx.value != 0.0 && mcy.value != 0.0 ==>
      r.Success? && r.value.Some?
    ensures r.Success? && r.value.Some? ==>
      && pc.Some? && mcx.Some? && mcy.Some? && mcx.value != 0.0 && mcy.value != 0.0
      && Magnitude(pz).Some? && Magnitude(mx).Some? && Magnitude(my).Some?
    ensures r.Success? && r.value.Some? && AxialTerm(Magnitude(pz).value, pc.value) <= 0.2 ==>
      r.value.value == AxialTerm(Magnitude(pz).value, pc.value) / 2.0
                       + (Magnitude(mx).value / mcx.value + Magnitude(my).value / mcy.value)
    ensures r.Success? && r.value.Some? && 0.2 < AxialTerm(Magnitude(pz).value, pc.value) ==>
      r.value.value == AxialTerm(Magnitude(pz).value, pc.value)
                       + 8.0 / 9.0 * (Magnitude(mx).value / mcx.value + Magnitude(my).value / mcy.value)
  {
    var pu, mux, muy := Magnitude(pz), Magnitude(mx), Magnitude(my);
    if pu.None? || mux.None? || muy.None? then
      Failure(TypeError)
    else if pc.None? || mcx.None? || mcy.None? then
      Success(None)
    else
      var axial := AxialTerm(pu.value, pc.value);
      if mcx.value == 0.0 || mcy.value == 0.0 then
        Failure(ZeroDivisionError)
      else
        var moment := mux.value / mcx.value + muy.value / mcy.value;
        if axial <= 0.2 then
          Success(Some(axial / 2.0 + moment))
        else
          Success(Some(axial + 8.0 / 9.0 * moment))
  }

  /**
   * Against section H1.1: the ratio equals the one of `Aisc.H1` except when the
   * axial term is exactly 0.2, where it takes Eq. H1-1b instead of Eq. H1-1a;
   * there the two agree only if the flexural term is 0.9.
   */
  lemma {:induction false} InteractionRatioVersusH1(pz: real, mx: real, my: real, pc: real, mcx: real, mcy: real)
    requires mcx != 0.0 && mcy != 0.0
    ensures
      var axial := AxialTerm(Abs(pz), pc);
      var moment := Abs(mx) / mcx + Abs(my) / mcy;
      InteractionRatio(Num(pz), Num(mx), Num(my), Some(pc), Some(mcx), Some(mcy)) == Success(Some(H1(axial, moment).ratio))
      <==> axial != 0.2 || moment == 0.9
  {
    var axial := AxialTerm(Abs(pz), pc);
    var moment := Abs(mx) / mcx + Abs(my) / mcy;
    if axial == 0.2 {
      H1BranchesMeetOnlyAtNineTenths(moment);
    }
  }

  /**
   * A concrete input on the boundary: |pz| = 20 against pc = 100 and
   * |mx| = 50 against mcx = 100 give 0.6 as written, where Eq. H1-1a gives
   * 0.2 + 8/9 * 0.5.
   */
  lemma InteractionRatioAtBoundaryExample()
    ensures InteractionRatio(Num(20.0), Num(50.0), Num(0.0), Some(100.0), Some(100.0), Some(100.0)) == Success(Some(0.6))
    ensures H1(0.2, 0.5).ratio == 0.2 + 8.0 / 9.0 * 0.5 && H1(0.2, 0.5).equation == H1_1a
  {
    assert AxialTerm(20.0, 100.0) * 100.0 == 20.0;
  }

  // ---------------------------------------------------------------------------
  // The critical stress as written against section E3.
  // ---------------------------------------------------------------------------

  /**
   * Wherever both formulas are in the inelastic range of Eq. E3-2
   * (`fy/2.25 <= fe <= 2.25 fy`), `fcr_from_fe` agrees with the critical
   * stress of section E3 exactly when fe = fy.
   */
  lemma {:induction false} FcrFromFeMatchesE3OnlyAtYield(fe: real, fy: real)
    requires 0.0 < fy && 0.0 < fe
    requires fy <= 2.25 * fe && fe <= 2.25 * fy
    ensures FcrFromFe(fe, fy) == CriticalStress(fe, fy) <==> fe == fy
  {
    if fe < fy {
      FcrFromFeOverestimatesSlender(fe, fy);
    } else if fy < fe {
      FcrFromFeUnderestimatesStocky(fe, fy);
    }
  }

  /**
   * For a slender column in the inelastic range (`fy/2.25 <= fe < fy`) the
   * formula as written overestimates the critical stress of section E3.
   */
  lemma {:induction false} FcrFromFeOverestimatesSlender(fe: real, fy: real)
    requires 0.0 < fy && 0.0 < fe
    requires fy <= 2.25 * fe && fe < fy
    ensures CriticalStress(fe, fy) < FcrFromFe(fe, fy)
  {
    InelasticBoth(fe, fy);
    ExponentsOrdered(fe, fy);
    var stocky, slender := fe / fy, fy / fe;
    Pow658Decreasing(stocky, slender);
    calc {
      CriticalStress(fe, fy);
    ==
      Pow658(slender) * fy;
    < { StrictScale(fy, Pow658(slender), Pow658(stocky)); }
      Pow658(stocky) * fy;
    ==
      FcrFromFe(fe, fy);
    }
  }

  /**
   * For a stocky column in the inelastic range (`fy < fe <= 2.25 fy`) the
   * formula as written underestimates the critical stress of section E3.
   */
  lemma {:induction false} FcrFromFeUnderestimatesStocky(fe: real, fy: real)
    requires 0.0 < fy && fy < fe && fe <= 2.25 * fy
    ensures FcrFromFe(fe, fy) < CriticalStress(fe, fy)
  {
    InelasticBoth(fe, fy);
    ExponentsOrdered(fy, fe);
    var stocky, slender := fe / fy, fy / fe;
    Pow658Decreasing(slender, stocky);
    calc {
      FcrFromFe(fe, fy);
    ==
      Pow658(stocky) * fy;
    < { StrictScale(fy, Pow658(stocky), Pow658(slender)); }
      Pow658(slender) * fy;
    ==
      CriticalStress(fe, fy);
    }
  }

  /**
   * Where the formula as written uses its power law (`fe/fy <= 2.25`), a
   * stockier column (larger fe) gets a smaller critical stress: the reverse
   * of `Aisc.InelasticGrowsWithFe`.
   */
  lemma {:induction false} FcrFromFeFallsWithFe(fe1: real, fe2: real, fy: real)
    requires 0.0 < fy && fe1 < fe2 && fe2 / fy <= 2.25
    ensures FcrFromFe(fe2, fy) < FcrFromFe(fe1, fy)
  {
    var x1, x2 := fe1 / fy, fe2 / fy;
    assert x1 < x2 by {
      QuotientTimes(fe1, fy);
      QuotientTimes(fe2, fy);
      if x2 <= x1 {
        ScaleMonotone(fy, x2, x1);
      }
    }
    Pow658Decreasing(x1, x2);
    calc {
      FcrFromFe(fe2, fy);
    ==
      Pow658(x2) * fy;
    < { StrictScale(fy, Pow658(x2), Pow658(x1)); }
      Pow658(x1) * fy;
    ==
      FcrFromFe(fe1, fy);
    }
  }

  /**
   * A concrete input: fe = 100 ksi and fy = 50 ksi give `0.658^2 * 50` as
   * written, against `0.658^0.5 * 50` by Eq. E3-2.
   */
  lemma FcrFromFeExample()
    ensures FcrFromFe(100.0, 50.0) == Pow658(2.0) * 50.0
    ensures CriticalStress(100.0, 50.0) == Pow658(0.5) * 50.0
    ensures FcrFromFe(100.0, 50.0) < CriticalStress(100.0, 50.0)
  {
    Pow658Decreasing(0.5, 2.0);
  }

  lemma InelasticBoth(fe: real, fy: real)
    requires 0.0 < fy && 0.0 < fe
    requires fy <= 2.25 * fe && fe <= 2.25 * fy
    ensures fe / fy <= 2.25 && fy / fe <= 2.25
  {
    QuotientBound(fe, fy, 2.25);
    QuotientBound(fy, fe, 2.25);
  }

  lemma ExponentsOrdered(a: real, b: real)
    requires 0.0 < a < b
    ensures a / b < 1.0 < b / a
  {
    QuotientTimes(a, b);
    QuotientTimes(b, a);
    if 1.0 <= a / b {
      ScaleMonotone(b, 1.0, a / b);
    }
    if b / a <= 1.0 {
      ScaleMonotone(a, b / a, 1.0);
    }
  }
}
