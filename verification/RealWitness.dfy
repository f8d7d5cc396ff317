/** A run of ADC codes on which a first output of the converter is not a plain half-band sum. */
module RealWitness {
  import opened Numbers
  import opened Rings
  import opened Baseband
  import opened Decimation
  import opened Converter
  import opened Sums
  import opened RealConverter
  import opened RealBaseband
  import opened RealBounds
  import ShippedKernels

  /** Mid-scale codes, with one at the bottom of the scale. */
  const SPIKE: seq<Word> := [2048, 2048, 2048, 2048, 0, 2048, 2048, 2048]

  /** Mid-scale codes leave the DC tracker at zero. */
  lemma {:induction false} MidScaleAvg(o: Arith<real>, s: seq<Word>)
    requires HalfBandKernels(o) && forall i :: 0 <= i < |s| ==> s[i] == 2048
    ensures Avg(o, s) == 0.0
    decreases |s|
  {
    hide HalfBandKernels, AdcToFloat12;
    if |s| == 0 {
      TrackerStart(o);
      assert s == [];
    } else {
      MidScaleAvg(o, s[..|s| - 1]);
      CodeBound(o, s[|s| - 1]);
      TrackerMean(o, s);
    }
  }

  lemma SpikeResiduals(o: Arith<real>, n: nat)
    requires HalfBandKernels(o) && n <= 4
    ensures Residual(o, SPIKE, n) == if n == 4 then -1.0 else 0.0
  {
    hide HalfBandKernels, AdcToFloat12, Avg;
    RealOps(o);
    MidScaleAvg(o, SPIKE[..n]);
    CodeBound(o, SPIKE[n]);
  }

  /** The values the spike pushes into the filter: two zeros, and then a one. */
  lemma SpikePushes(o: Arith<real>, n: nat)
    requires HalfBandKernels(o) && n < 3
    ensures |FirIn(o, SPIKE)| == 4 && FirIn(o, SPIKE)[n] == if n == 2 then 1.0 else 0.0
  {
    hide HalfBandKernels, FirIn, Residual;
    RealOps(o);
    FirInAt(o, SPIKE, n);
    SpikeResiduals(o, 2 * n);
  }

  /** So the third I sample is the filter's outermost tap. */
  lemma SpikeThirdSample(o: Arith<real>)
    requires HalfBandKernels(o)
    ensures BasebandOut(o, SPIKE)[4] == o.hb47(0)
  {
    hide HalfBandKernels, FirIn, DelayIn, OutI, OutQ, BasebandOut, Sum;
    var v, tap, x := FirIn(o, SPIKE), EvenTaps(o.hb47), Pushed(FirIn(o, SPIKE), 2);
    BasebandAt(o, SPIKE, 2);
    OutIIsEvenTaps(o, v, 2);
    var none := (k: int) => 0.0;
    SpikePushes(o, 0);
    SpikePushes(o, 1);
    SpikePushes(o, 2);
    forall k {:trigger x(k)} | 0 <= k < 24
      ensures x(k) == if k == 0 then 1.0 else 0.0
    {
      assert x(k) == At(0.0, v, 2 - k) == if k <= 2 then v[2 - k] else 0.0;
    }
    ConvolveChangeOne(tap, 24, x, none, 0);
    SumZero(24, Weighted(tap, none));
  }

  /** Plain FIR equality fails on ADC codes, at decimation by two: the very first output differs
      from the half-band sum. */
  lemma SpikeDiffers(o: Arith<real>)
    requires HalfBandKernels(o) && o.hb33(1) != 0.0 && o.hb47(0) != 0.0
    ensures |Pipeline(o, SPIKE, 1)| == 4
    ensures Pipeline(o, SPIKE, 1)[0] != Convolve(o.hb33, 33, Plain(BasebandOut(o, SPIKE), 0, 1))
  {
    hide HalfBandKernels, StageOut, BasebandOut, Convolve, Plain;
    var h := BasebandOut(o, SPIKE);
    assert Whole(SPIKE, 4) == SPIKE && Whole(h, 8) == h;
    assert Pipeline(o, SPIKE, 1) == StageOut(o, Hb33, h);
    SpikeThirdSample(o);
    FirstOutputPlainIff(o, Hb33, h, 0, 0);
  }

  /** In particular with the kernels the converter ships with. */
  lemma ShippedConverterDiffers()
    ensures var o := ShippedKernels.ARITH;
      && |Pipeline(o, SPIKE, 1)| == 4
      && Pipeline(o, SPIKE, 1)[0] != Convolve(o.hb33, 33, Plain(BasebandOut(o, SPIKE), 0, 1))
  {
    hide HalfBandKernels, StageOut, BasebandOut, Convolve, Plain, Pipeline;
    ShippedKernels.ShippedKernelsAreHalfBand();
    assert ShippedKernels.ARITH.hb47(0) == -0.0009986063;
    SpikeDiffers(ShippedKernels.ARITH);
  }
}
