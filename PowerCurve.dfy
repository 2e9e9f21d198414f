/**
 * The wind-turbine power curve: wind speed [m/s] to electrical power [kW],
 * sample by sample (WindGen.py:10-64).
 *
 * Quantities are reals, not floating point. np.pi is the parameter `pi`,
 * an otherwise unknown real between 3.14159 and 3.1416.
 */
module PowerCurve {

  /** The values np.pi may stand for. */
  type PiValue = r: real | 3.14159 < r < 3.1416 witness 3.14159265

  // Turbine constants (WindGen.py:14-29).
  const Scale: real := 1.0
  const RatedPower: real := 1.5           // P_rt [MW]
  const RotorDiameter: real := 82.5       // D [m]
  const AirDensity: real := 1.225         // rho [kg/m^3]
  const MaxCp: real := 0.300              // cpm
  const RatedCp: real := 0.250            // cpr
  const CutOut: real := 26.0              // u_co [m/s]
  const CutIn: real := 4.0                // u_ci [m/s]
  const RatedSpeed: real := 12.0          // u_r [m/s]
  const Stages: real := 3.0               // S, stages of the gearbox
  const ElectricalEfficiency: real := 0.95  // n_e
  const F1: real := 1.2521
  const F2: real := 0.7010
  const MaxCpSpeed: real := 7.0           // u_m [m/s]

  /** Generator efficiency: the floor, and where it stops applying (WindGen.py:56-60). */
  const EfficiencyFloor: real := 0.1
  const EfficiencyThreshold: real := (Stages * RatedPower) / 90.0
  const EfficiencyLoss: real := 0.01 * Stages * RatedPower

  /** Cp between cut-in and rated speed (WindGen.py:43-46). */
  function BelowRatedCp(u: real): real
    requires u > 0.0
  {
    var a := MaxCpSpeed / u - 1.0;
    MaxCp * (1.0 - F1 * (a * a) - F2 * (a * a * a))
  }

  /** Cp between rated and cut-out speed (WindGen.py:49). */
  function RatedRangeCp(u: real): real
    requires u > 0.0
  {
    var q := RatedSpeed / u;
    RatedCp * (q * q * q)
  }

  /**
   * Reference definition of the coefficient of performance, as one
   * exclusive dispatch over half-open speed ranges. The loop in WindGen
   * computes Cp by overwriting assignments instead; its postcondition
   * says the two agree at every speed, the boundaries 4, 12 and 26
   * included (only at 12 do two of the source's conditions hold).
   */
  function CoefficientOfPerformance(u: real): real
  {
    if u < CutIn then 0.0
    else if u < RatedSpeed then BelowRatedCp(u)
    else if u <= CutOut then RatedRangeCp(u)
    else 0.0
  }

  /** Mechanical power P_m for a given Cp and wind speed (WindGen.py:54). */
  function MechanicalPower(cp: real, u: real, pi: PiValue): real
  {
    (1.0 / 8.0) * cp * AirDensity * pi * (RotorDiameter * RotorDiameter) * (u * u * u)
  }

  /**
   * Generator efficiency n_g for a mechanical power P_m (WindGen.py:56-60).
   * The division happens only above a positive threshold, so it is never
   * by zero; the result is the floor exactly when P_m is at or below the
   * threshold, and otherwise strictly between the floor and 1.
   */
  function GeneratorEfficiency(pm: real): (eff: real)
    ensures EfficiencyFloor <= eff < 1.0
    ensures eff == EfficiencyFloor <==> pm <= EfficiencyThreshold
  {
    if pm <= EfficiencyThreshold then EfficiencyFloor
    else 1.0 - EfficiencyLoss / pm
  }

  /** Output power [kW] of one sample (WindGen.py:62). */
  function OutputPower(ng: real, pm: real): real
  {
    Scale * ElectricalEfficiency * ng * pm / 1000.0
  }

  /** The whole per-sample chain: the reference for one element of WindGen's output. */
  function SamplePower(u: real, pi: PiValue): real
  {
    var pm := MechanicalPower(CoefficientOfPerformance(u), u, pi);
    OutputPower(GeneratorEfficiency(pm), pm)
  }

  /** The reference for WindGen's whole output. */
  function PowerSeries(wind: seq<real>, pi: PiValue): seq<real>
  {
    seq(|wind|, i requires 0 <= i < |wind| => SamplePower(wind[i], pi))
  }

  /**
   * One pass of WindGen's loop body (WindGen.py:39-62): sets element i of
   * C_p, P_m, n_g and P and leaves every other element as it was. Cp is
   * set by four non-exclusive ifs in source order, so a later one
   * overwrites an earlier one where the ranges share a boundary; the
   * efficiency by two complementary ifs. Each element set agrees with the
   * reference functions.
   */
  method FillSample(u: real, pi: PiValue, i: nat, cP: array<real>, pM: array<real>, nG: array<real>, p: array<real>)
    requires i < cP.Length && i < pM.Length && i < nG.Length && i < p.Length
    requires cP != pM && cP != nG && cP != p && pM != nG && pM != p && nG != p
    modifies cP, pM, nG, p
    ensures cP[i] == CoefficientOfPerformance(u)
    ensures pM[i] == MechanicalPower(cP[i], u, pi)
    ensures nG[i] == GeneratorEfficiency(pM[i])
    ensures p[i] == SamplePower(u, pi)
    ensures forall j :: 0 <= j < cP.Length && j != i ==> cP[j] == old(cP[j])
    ensures forall j :: 0 <= j < pM.Length && j != i ==> pM[j] == old(pM[j])
    ensures forall j :: 0 <= j < nG.Length && j != i ==> nG[j] == old(nG[j])
    ensures forall j :: 0 <= j < p.Length && j != i ==> p[j] == old(p[j])
  {
    if u < CutIn {
      cP[i] := 0.0;
    }
    if u >= CutIn && u <= RatedSpeed {
      cP[i] := BelowRatedCp(u);
    }
    if u >= RatedSpeed && u <= CutOut {
      cP[i] := RatedRangeCp(u);
    }
    if u > CutOut {
      cP[i] := 0.0;
    }

    pM[i] := MechanicalPower(cP[i], u, pi);

    if pM[i] <= EfficiencyThreshold {
      nG[i] := EfficiencyFloor;
    }
    if pM[i] > EfficiencyThreshold {
      nG[i] := 1.0 - EfficiencyLoss / pM[i];
    }

    p[i] := Scale * ElectricalEfficiency * nG[i] * pM[i] / 1000.0;
  }

  /**
   * WindGen (WindGen.py:32-64): allocates C_p, P_m, n_g and P as zeros,
   * then fills them index by index. The result has the input's length and
   * each element is the reference power of the wind speed at the same
   * index, so the overwriting ifs agree with the reference at every
   * speed, the boundaries 4, 12 and 26 included.
   */
  method WindGen(wind: seq<real>, pi: PiValue) returns (power: seq<real>)
    ensures |power| == |wind|
    ensures forall i :: 0 <= i < |wind| ==> power[i] == SamplePower(wind[i], pi)
    ensures power == PowerSeries(wind, pi)
  {
    var k := |wind|;
    var pM := new real[k](_ => 0.0);
    var p := new real[k](_ => 0.0);
    var cP := new real[k](_ => 0.0);
    var nG := new real[k](_ => 0.0);

    for i := 0 to k
      invariant forall j :: 0 <= j < i ==> cP[j] == CoefficientOfPerformance(wind[j])
      invariant forall j :: 0 <= j < i ==> pM[j] == MechanicalPower(cP[j], wind[j], pi)
      invariant forall j :: 0 <= j < i ==> nG[j] == GeneratorEfficiency(pM[j])
      invariant forall j :: 0 <= j < i ==> p[j] == SamplePower(wind[j], pi)
    {
      FillSample(wind[i], pi, i, cP, pM, nG, p);
    }
    power := p[..];
  }

  /**
   * Below cut-in and above cut-out, Cp, the mechanical power and the
   * output power are all zero; wind speed 0 is one such sample.
   */
  lemma ZeroOutsideBand(u: real, pi: PiValue)
    requires u < CutIn || u > CutOut
    ensures CoefficientOfPerformance(u) == 0.0
    ensures MechanicalPower(CoefficientOfPerformance(u), u, pi) == 0.0
    ensures GeneratorEfficiency(MechanicalPower(CoefficientOfPerformance(u), u, pi)) == EfficiencyFloor
    ensures SamplePower(u, pi) == 0.0
  {
  }

  /**
   * At exactly the rated speed both the below-rated and the rated-range
   * conditions hold; the rated-range value wins, and it differs from the
   * value the below-rated formula would have given.
   */
  lemma RatedSpeedTieBreak()
    ensures CoefficientOfPerformance(RatedSpeed) == RatedRangeCp(RatedSpeed) == RatedCp
    ensures BelowRatedCp(RatedSpeed) != RatedCp
  {
  }

  /**
   * At exactly the cut-in speed the below-rated formula applies, and it
   * gives a Cp slightly below zero, so the output power is negative there.
   */
  lemma CutInSpeedPower(pi: PiValue)
    ensures CoefficientOfPerformance(CutIn) == BelowRatedCp(CutIn) == -0.0000121875
    ensures MechanicalPower(CoefficientOfPerformance(CutIn), CutIn, pi) < 0.0
    ensures GeneratorEfficiency(MechanicalPower(CoefficientOfPerformance(CutIn), CutIn, pi)) == EfficiencyFloor
    ensures SamplePower(CutIn, pi) < 0.0
  {
  }

  /** At exactly the cut-out speed the rated-range formula still applies. */
  lemma CutOutSpeedCp()
    ensures CoefficientOfPerformance(CutOut) == RatedCp * (RatedSpeed / CutOut) * (RatedSpeed / CutOut) * (RatedSpeed / CutOut)
    ensures CoefficientOfPerformance(CutOut) > 0.0
  {
  }

  /**
   * Above the efficiency threshold the generator loses a fixed amount of
   * power: efficiency times mechanical power is the mechanical power minus
   * 0.01 * S * P_rt.
   */
  lemma EfficiencyAsFixedLoss(pm: real)
    requires pm > EfficiencyThreshold
    ensures GeneratorEfficiency(pm) * pm == pm - EfficiencyLoss
    ensures OutputPower(GeneratorEfficiency(pm), pm) == ElectricalEfficiency * (pm - EfficiencyLoss) / 1000.0
  {
  }

  /**
   * The efficiency never decreases as mechanical power grows, and meets
   * the floor without a jump at the threshold.
   */
  lemma EfficiencyMonotone(p: real, q: real)
    requires p <= q
    ensures GeneratorEfficiency(p) <= GeneratorEfficiency(q)
  {
  }

  /**
   * Between rated and cut-out speed, Cp falls as the cube of the speed, so
   * the mechanical power, and hence the output power, is the same at every
   * speed of that range: the rated plateau.
   */
  lemma RatedPlateau(u: real, pi: PiValue)
    requires RatedSpeed <= u <= CutOut
    ensures MechanicalPower(CoefficientOfPerformance(u), u, pi) == 0.125 * RatedCp * 1728.0 * AirDensity * pi * 6806.25
    ensures SamplePower(u, pi) == SamplePower(RatedSpeed, pi)
  {
  }

  /**
   * The 8 m/s regression sample: Cp from the below-rated formula, the
   * efficiency from the branch above the threshold.
   */
  lemma EightMetresPerSecond(pi: PiValue)
    ensures CoefficientOfPerformance(8.0) == 0.2945415234375
    ensures MechanicalPower(CoefficientOfPerformance(8.0), 8.0, pi) == 0.2945415234375 * 533610.0 * pi
    ensures SamplePower(8.0, pi) == ElectricalEfficiency * (0.2945415234375 * 533610.0 * pi - EfficiencyLoss) / 1000.0
  {
  }

  /**
   * Element-wise independence: changing one wind sample changes exactly
   * the power sample at the same index and no other.
   */
  lemma {:induction false} PowerSeriesPointwise(wind: seq<real>, pi: PiValue, i: int, v: real)
    requires 0 <= i < |wind|
    ensures PowerSeries(wind[i := v], pi) == PowerSeries(wind, pi)[i := SamplePower(v, pi)]
  {
  }
}
