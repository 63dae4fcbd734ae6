/** PVT properties of a slightly compressible fluid with constant viscosity:
    the `Opm::MiscibilityWater` property provider. Doubles are modelled as reals. */
module Opm {
  import opened StdVector

  /** The single failure the provider reports: its input record asks for a
      pressure-dependent viscosity ("viscosibility"), which this fluid cannot represent. */
  datatype Error = UnsupportedViscosibility

  datatype Result<T> = Success(value: T) | Failure(error: Error)

  datatype Outcome = Pass | Fail(error: Error)

  /** The first record of a PVTW keyword, every item already in SI units. */
  datatype PvtwRecord = PvtwRecord(
    pRef: real,
    waterVolFactor: real,
    waterCompressibility: real,
    waterViscosity: real,
    waterViscosibility: real)

  /** The first record of a PVCDO keyword, every item already in SI units. */
  datatype PvcdoRecord = PvcdoRecord(
    pRef: real,
    oilVolFactor: real,
    oilCompressibility: real,
    oilViscosity: real,
    oilViscosibility: real)

  /** The second-order expansion 1 + x + x^2/2 of exp(x) that the volume factor divides by.
      It equals (x + 1)^2 / 2 + 1/2, so it never comes near zero: the volume factor
      is defined at every pressure. */
  function Denominator(x: real): (d: real)
    ensures d >= 0.5
  {
    1.0 + x + 0.5 * x * x
  }

  /** To the right of its minimum at x = -1 the denominator grows with x. */
  lemma DenominatorGrows(x1: real, x2: real)
    requires -1.0 <= x1 <= x2
    ensures Denominator(x1) <= Denominator(x2)
  {
  }

  /** The rational approximation refB / (1 + x + x^2/2) of refB * exp(-x), defined for every x. */
  function RationalVolumeFactor(refB: real, x: real): (r: real)
    ensures x == 0.0 ==> r == refB
    ensures r > 0.0 <==> refB > 0.0
    ensures r == 0.0 <==> refB == 0.0
  {
    refB / Denominator(x)
  }

  /** The approximation solves b * (1 + x + x^2/2) == refB. */
  lemma RationalLaw(refB: real, x: real)
    ensures RationalVolumeFactor(refB, x) * Denominator(x) == refB
  {
  }

  /** For a positive refB the approximation lies in (0, 2 * refB]. */
  lemma RationalBounds(refB: real, x: real)
    requires refB > 0.0
    ensures 0.0 < RationalVolumeFactor(refB, x) <= 2.0 * refB
  {
    RationalLaw(refB, x);
    QuotientBounds(RationalVolumeFactor(refB, x), Denominator(x), refB);
  }

  /** From x = -1 upwards, the minimum of the denominator, the approximation
      of a non-negative refB does not grow with x. */
  lemma RationalNonIncreasing(refB: real, x1: real, x2: real)
    requires refB >= 0.0 && -1.0 <= x1 <= x2
    ensures RationalVolumeFactor(refB, x2) <= RationalVolumeFactor(refB, x1)
  {
    DenominatorGrows(x1, x2);
    RationalLaw(refB, x1);
    RationalLaw(refB, x2);
    QuotientOrder(RationalVolumeFactor(refB, x1), Denominator(x1),
                  RationalVolumeFactor(refB, x2), Denominator(x2), refB);
  }

  /** Every pressure entry has a component at index `phase`. */
  predicate PhaseInRange(pressures: seq<seq<real>>, phase: int)
  {
    (pressures == [] || 0 <= phase) && forall i :: 0 <= i < |pressures| ==> phase < |pressures[i]|
  }

  class MiscibilityWater {
    var refPress: real
    var refB: real
    var comp: real
    var viscosity: real

    /** Only the allocation step of `FromPvtw`, not an entry point of its own: it copies
        the four items, and `FromPvtw` then applies the viscosibility guard. */
    constructor FromPvtwItems(rec: PvtwRecord)
      ensures refPress == rec.pRef && refB == rec.waterVolFactor
      ensures comp == rec.waterCompressibility && viscosity == rec.waterViscosity
    {
      refPress := rec.pRef;
      refB := rec.waterVolFactor;
      comp := rec.waterCompressibility;
      viscosity := rec.waterViscosity;
    }

    /** Construction from a PVTW record: the four items are copied, and the whole
        construction fails when the viscosibility item is not zero. */
    static method FromPvtw(rec: PvtwRecord) returns (r: Result<MiscibilityWater>)
      ensures r.Failure? <==> rec.waterViscosibility != 0.0
      ensures r.Failure? ==> r.error == UnsupportedViscosibility
      ensures r.Success? ==> fresh(r.value)
      ensures r.Success? ==> r.value.refPress == rec.pRef && r.value.refB == rec.waterVolFactor
      ensures r.Success? ==> r.value.comp == rec.waterCompressibility
      ensures r.Success? ==> r.value.viscosity == rec.waterViscosity
    {
      var w := new MiscibilityWater.FromPvtwItems(rec);
      if rec.waterViscosibility != 0.0 {
        return Failure(UnsupportedViscosibility);
      }
      return Success(w);
    }

    /** An incompressible fluid of the given viscosity with unit volume factor. */
    constructor (visc: real)
      ensures refPress == 0.0 && refB == 1.0 && comp == 0.0 && viscosity == visc
    {
      refPress := 0.0;
      refB := 1.0;
      comp := 0.0;
      viscosity := visc;
    }

    /** Re-initialisation from a PVCDO (oil) record. The fields are overwritten
        first, so they hold the record's items even when the guard then fails. */
    method InitFromPvcdo(rec: PvcdoRecord) returns (outcome: Outcome)
      modifies this
      ensures refPress == rec.pRef && refB == rec.oilVolFactor
      ensures comp == rec.oilCompressibility && viscosity == rec.oilViscosity
      ensures outcome.Fail? <==> rec.oilViscosibility != 0.0
      ensures outcome.Fail? ==> outcome.error == UnsupportedViscosibility
    {
      refPress := rec.pRef;
      refB := rec.oilVolFactor;
      comp := rec.oilCompressibility;
      viscosity := rec.oilViscosity;
      if rec.oilViscosibility != 0.0 {
        return Fail(UnsupportedViscosibility);
      }
      return Pass;
    }

    /** Scalar viscosity: the stored constant, whatever the pressure. */
    function GetViscosity(press: real): (mu: real)
      reads this
      ensures mu == viscosity
    {
      viscosity
    }

    /** Batch viscosity: one copy of the constant viscosity per input entry. */
    method GetViscosityBatch(pressures: seq<seq<real>>, output: Vector)
      modifies output
      ensures |output.elems| == |pressures|
      ensures forall i :: 0 <= i < |pressures| ==> output.elems[i] == viscosity
    {
      var num := |pressures|;
      output.Clear();
      output.Resize(num, viscosity);
    }

    /** Formation-volume factor: refB when incompressible, otherwise the rational
        approximation refB / (1 + x + x^2/2) of refB * exp(-x), x = comp * (press - refPress). */
    function B(press: real): (r: real)
      reads this
      ensures comp == 0.0 || press == refPress ==> r == refB
      ensures r > 0.0 <==> refB > 0.0
    {
      if comp != 0.0 then RationalVolumeFactor(refB, comp * (press - refPress)) else
        refB
    }

    /** Batch volume factor, element by element the scalar one. */
    method BBatch(pressures: seq<seq<real>>, phase: int, output: Vector)
      requires comp != 0.0 ==> PhaseInRange(pressures, phase)
      modifies output
      ensures |output.elems| == |pressures|
      ensures forall i :: 0 <= i < |pressures| && 0 <= phase < |pressures[i]| ==>
        output.elems[i] == B(pressures[i][phase])
      ensures comp == 0.0 ==> forall i :: 0 <= i < |pressures| ==> output.elems[i] == refB
    {
      var num := |pressures|;
      if comp != 0.0 {
        output.Resize(num, 0.0);
        for i := 0 to num
          invariant |output.elems| == num
          invariant forall k :: 0 <= k < i ==> output.elems[k] == B(pressures[k][phase])
        {
          var x := comp * (pressures[i][phase] - refPress);
          output.Set(i, RationalVolumeFactor(refB, x));
        }
      } else {
        output.Clear();
        output.Resize(num, refB);
      }
    }

    /** Pressure derivative of the volume factor, taken as -comp times the
        approximated volume factor itself (zero when incompressible). */
    function DBdp(press: real): (r: real)
      reads this
      ensures r == -comp * B(press)
    {
      if comp != 0.0 then -comp * B(press) else 0.0
    }

    /** Batch derivative. `outputB` receives the batch volume factor first; the two
        outputs may be one and the same vector, in which case it ends up holding the
        derivatives. */
    method DBdpBatch(pressures: seq<seq<real>>, phase: int, outputB: Vector, outputDBdp: Vector)
      requires comp != 0.0 ==> PhaseInRange(pressures, phase)
      modifies outputB, outputDBdp
      ensures |outputDBdp.elems| == |pressures|
      ensures forall i :: 0 <= i < |pressures| && 0 <= phase < |pressures[i]| ==>
        outputDBdp.elems[i] == DBdp(pressures[i][phase])
      ensures comp == 0.0 ==> forall i :: 0 <= i < |pressures| ==> outputDBdp.elems[i] == 0.0
      ensures outputB != outputDBdp ==> |outputB.elems| == |pressures|
      ensures outputB != outputDBdp ==>
        forall i :: 0 <= i < |pressures| && 0 <= phase < |pressures[i]| ==>
          outputB.elems[i] == B(pressures[i][phase])
      ensures outputB != outputDBdp && comp == 0.0 ==>
        forall i :: 0 <= i < |pressures| ==> outputB.elems[i] == refB
    {
      BBatch(pressures, phase, outputB);
      ghost var bs := outputB.elems;
      var num := |pressures|;
      if comp != 0.0 {
        ScaleVolumeFactors(outputB, outputDBdp);
        forall i | 0 <= i < num
          ensures outputDBdp.elems[i] == DBdp(pressures[i][phase])
        {
          assert bs[i] == B(pressures[i][phase]);
        }
      } else {
        outputDBdp.Clear();
        outputDBdp.Resize(num, 0.0);
      }
    }

    /** The compressible branch of the batch derivative: `outputDBdp[i] = -comp * outputB[i]`
        for every index of `outputB`, which is left as it was unless the two are one vector. */
    method ScaleVolumeFactors(outputB: Vector, outputDBdp: Vector)
      modifies outputDBdp
      ensures |outputDBdp.elems| == |old(outputB.elems)|
      ensures forall k :: 0 <= k < |outputDBdp.elems| ==> outputDBdp.elems[k] == -comp * old(outputB.elems)[k]
      ensures outputB != outputDBdp ==> outputB.elems == old(outputB.elems)
    {
      ghost var bs := outputB.elems;
      var num := |outputB.elems|;
      outputDBdp.Resize(num, 0.0);
      for i := 0 to num
        invariant |outputB.elems| == num && |outputDBdp.elems| == num
        invariant outputB != outputDBdp ==> outputB.elems == bs
        invariant outputB.elems[i..] == bs[i..]
        invariant forall k :: 0 <= k < i ==> outputDBdp.elems[k] == -comp * bs[k]
      {
        var d := -comp * outputB.elems[i];
        assert d == -comp * bs[i] by {
          assert outputB.elems[i] == outputB.elems[i..][0];
        }
        outputDBdp.Set(i, d);
      }
    }

    /** Scalar dissolved ratio: this fluid dissolves nothing. */
    function R(press: real): (r: real)
      ensures r == 0.0
    {
      0.0
    }

    /** Batch dissolved ratio: all zero. */
    method RBatch(pressures: seq<seq<real>>, output: Vector)
      modifies output
      ensures |output.elems| == |pressures|
      ensures forall i :: 0 <= i < |pressures| ==> output.elems[i] == 0.0
    {
      var num := |pressures|;
      output.Clear();
      output.Resize(num, 0.0);
    }

    /** Scalar derivative of the dissolved ratio. */
    function DRdp(press: real): (r: real)
      ensures r == 0.0
    {
      0.0
    }

    /** Batch dissolved ratio and its derivative: both all zero (the two may alias). */
    method DRdpBatch(pressures: seq<seq<real>>, outputR: Vector, outputDRdp: Vector)
      modifies outputR, outputDRdp
      ensures |outputR.elems| == |pressures| && |outputDRdp.elems| == |pressures|
      ensures forall i :: 0 <= i < |pressures| ==> outputR.elems[i] == 0.0 && outputDRdp.elems[i] == 0.0
    {
      var num := |pressures|;
      outputR.Clear();
      outputR.Resize(num, 0.0);
      outputDRdp.Clear();
      outputDRdp.Resize(num, 0.0);
    }
  }

  /** The scalar constructor yields an incompressible fluid: unit volume factor,
      zero derivative, and the given viscosity at every pressure. */
  method ConstantFluidQueries(visc: real, press: real) returns (b: real, dbdp: real, mu: real)
    ensures b == 1.0 && dbdp == 0.0 && mu == visc
  {
    var w := new MiscibilityWater(visc);
    IncompressibleFluid(w, press);
    b, dbdp, mu := w.B(press), w.DBdp(press), w.GetViscosity(press);
  }

  /** Viscosity depends on nothing but the stored constant. */
  lemma ViscosityIsConstant(w: MiscibilityWater, p1: real, p2: real)
    ensures w.GetViscosity(p1) == w.GetViscosity(p2) == w.viscosity
  {
  }

  /** The volume factor solves B * (1 + x + x^2/2) == refB with x = comp * (press - refPress),
      and is refB itself when the fluid is incompressible. */
  lemma VolumeFactorLaw(w: MiscibilityWater, press: real)
    ensures w.comp == 0.0 ==> w.B(press) == w.refB
    ensures w.comp != 0.0 ==> w.B(press) * Denominator(w.comp * (press - w.refPress)) == w.refB
  {
    RationalLaw(w.refB, w.comp * (press - w.refPress));
  }

  /** At the reference pressure the volume factor is the reference volume factor. */
  lemma VolumeFactorAtReference(w: MiscibilityWater)
    ensures w.B(w.refPress) == w.refB
  {
  }

  /** A positive reference volume factor gives a positive volume factor of at most
      twice the reference value at any pressure. */
  lemma VolumeFactorBounds(w: MiscibilityWater, press: real)
    requires w.refB > 0.0
    ensures 0.0 < w.B(press) <= 2.0 * w.refB
  {
    var x := w.comp * (press - w.refPress);
    if w.comp != 0.0 {
      assert w.B(press) == RationalVolumeFactor(w.refB, x);
      RationalBounds(w.refB, x);
    }
  }

  /** For a positive compressibility the volume factor does not grow with pressure,
      from x = -1 upwards (the minimum of the denominator). */
  lemma VolumeFactorNonIncreasing(w: MiscibilityWater, p1: real, p2: real)
    requires w.comp > 0.0 && w.refB >= 0.0
    requires -1.0 <= w.comp * (p1 - w.refPress)
    requires p1 <= p2
    ensures w.B(p2) <= w.B(p1)
  {
    var x1, x2 := w.comp * (p1 - w.refPress), w.comp * (p2 - w.refPress);
    assert x1 <= x2 by {
      assert x2 - x1 == w.comp * (p2 - p1);
    }
    assert w.B(p1) == RationalVolumeFactor(w.refB, x1);
    assert w.B(p2) == RationalVolumeFactor(w.refB, x2);
    RationalNonIncreasing(w.refB, x1, x2);
  }

  /** b = r / d with d at least 1/2 and r positive lies in (0, 2r]. */
  lemma QuotientBounds(b: real, d: real, r: real)
    requires d >= 0.5 && r > 0.0 && b * d == r
    ensures 0.0 < b <= 2.0 * r
  {
  }

  /** Dividing a non-negative r by a larger positive denominator gives a smaller quotient. */
  lemma QuotientOrder(b1: real, d1: real, b2: real, d2: real, r: real)
    requires 0.0 < d1 <= d2 && r >= 0.0 && b1 * d1 == r && b2 * d2 == r
    ensures b2 <= b1
  {
  }

  /** An incompressible fluid has a constant volume factor and a zero derivative. */
  lemma IncompressibleFluid(w: MiscibilityWater, press: real)
    requires w.comp == 0.0
    ensures w.B(press) == w.refB && w.DBdp(press) == 0.0
  {
  }

  /** A compressible fluid with a positive volume factor shrinks under pressure. */
  lemma DerivativeNegative(w: MiscibilityWater, press: real)
    requires w.comp > 0.0 && w.refB > 0.0
    ensures w.DBdp(press) < 0.0
  {
    VolumeFactorBounds(w, press);
  }

  /** No second component is dissolved: R and dR/dp vanish at every pressure. */
  lemma NoDissolvedComponent(w: MiscibilityWater, press: real)
    ensures w.R(press) == 0.0 && w.DRdp(press) == 0.0
  {
  }

  /** A worked case: reference pressure 1e7, reference volume factor 1.02,
      compressibility 1e-9; at pressure 2e7, x = 0.01. */
  lemma WorkedExample(w: MiscibilityWater)
    requires w.refPress == 10000000.0 && w.refB == 1.02 && w.comp == 0.000000001
    ensures w.B(20000000.0) == 1.02 / 1.01005
    ensures w.DBdp(20000000.0) == -0.000000001 * (1.02 / 1.01005)
  {
  }
}
