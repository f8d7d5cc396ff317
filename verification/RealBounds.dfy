/** How large the converter's values can get, over the real numbers and for streams of any
    length, and how fast the DC tracker settles. */
module RealBounds {
  import opened Numbers
  import opened Rings
  import opened Baseband
  import opened Decimation
  import opened Converter
  import opened Sums
  import opened RealConverter
  import opened RealBaseband

  lemma CodeBound(o: Arith<real>, w: Word)
    requires HalfBandKernels(o)
    ensures AdcToFloat12(o, w) == (w % 4096) as real / 2048.0 - 1.0
    ensures -1.0 <= AdcToFloat12(o, w) < 1.0
  {
    hide HalfBand;
  }

  /** One step of the DC tracker is a weighted mean of the average and the new sample. */
  lemma TrackerMean(o: Arith<real>, s: seq<Word>)
    requires HalfBandKernels(o) && |s| > 0
    ensures Avg(o, s) == 0.99 * Avg(o, s[..|s| - 1]) + 0.01 * AdcToFloat12(o, s[|s| - 1])
  {
    hide HalfBandKernels, AdcToFloat12, Arith.Add, Arith.Sub, Arith.Mul;
    RealOps(o);
  }

  lemma {:induction false} AvgBound(o: Arith<real>, s: seq<Word>)
    requires HalfBandKernels(o)
    ensures -1.0 <= Avg(o, s) <= 1.0
    decreases |s|
  {
    hide HalfBandKernels, AdcToFloat12;
    RealOps(o);
    if |s| > 0 {
      AvgBound(o, s[..|s| - 1]);
      CodeBound(o, s[|s| - 1]);
      TrackerMean(o, s);
    }
  }

  /** Every DC-removed sample is within 2. */
  lemma ResidualBound(o: Arith<real>, s: seq<Word>, n: nat)
    requires HalfBandKernels(o) && n < |s|
    ensures Abs(Residual(o, s, n)) <= 2.0
  {
    hide HalfBandKernels, AdcToFloat12, Avg;
    RealOps(o);
    AvgBound(o, s[..n]);
    CodeBound(o, s[n]);
  }

  /** On a constant code the DC component decays geometrically: the n-th residual is exactly
      `a * 0.99^n`. */
  lemma {:induction false} ConstantCodeDecays(o: Arith<real>, w: Word, s: seq<Word>, n: nat)
    requires HalfBandKernels(o) && n < |s| && forall i :: 0 <= i < |s| ==> s[i] == w
    ensures Residual(o, s, n) == AdcToFloat12(o, w) * Power99(n)
  {
    hide HalfBandKernels, AdcToFloat12, Avg;
    RealOps(o);
    var a := AdcToFloat12(o, w);
    assert AdcToFloat12(o, s[n]) == a;
    if n == 0 {
      assert s[..0] == [];
      assert Avg(o, s[..0]) == 0.0 by { TrackerStart(o); }
    } else {
      ConstantCodeDecays(o, w, s, n - 1);
      AvgAt(o, s, n - 1);
      assert s[..n - 1 + 1] == s[..n];
      assert AdcToFloat12(o, s[n - 1]) == a;
      var before, r := Avg(o, s[..n - 1]), Residual(o, s, n - 1);
      assert r == a - before == a * Power99(n - 1);
      assert Avg(o, s[..n]) == before + 0.01 * r by { Share(o.alpha, 0.01, r, 0.0); }
      Decay(a, Power99(n - 1));
    }
  }

  function Power99(n: nat): real {
    if n == 0 then 1.0 else 0.99 * Power99(n - 1)
  }

  lemma TrackerStart(o: Arith<real>)
    requires HalfBandKernels(o)
    ensures Avg(o, []) == 0.0
  {
    hide HalfBand;
  }

  lemma Decay(a: real, p: real)
    ensures a * p - 0.01 * (a * p) == a * (0.99 * p)
  {
  }

  /** The value of a code: its low twelve bits, 2048 being zero. */
  function Level(w: Word): real { (w % 4096) as real / 2048.0 - 1.0 }

  /** What is left in the average, after `n` codes, of the i-th of them. */
  function Remembered(s: seq<Word>, n: nat): int -> real {
    i => if 0 <= i < n <= |s| then 0.01 * Power99(n - 1 - i) * Level(s[i]) else 0.0
  }

  /** The DC tracker is the exponential average with factor 0.99 of all the codes so far, and a
      residual is the value of its code less that of the codes before it. */
  lemma ResidualIs(o: Arith<real>, s: seq<Word>, n: nat)
    requires HalfBandKernels(o) && n < |s|
    ensures Residual(o, s, n) == Level(s[n]) - Sum(n, Remembered(s, n))
  {
    hide HalfBandKernels, AdcToFloat12, Avg, Sum;
    RealOps(o);
    CodeBound(o, s[n]);
    AvgIsExponential(o, s[..n]);
    SumSame(n, Remembered(s[..n], n), Remembered(s, n));
  }

  lemma {:induction false} AvgIsExponential(o: Arith<real>, s: seq<Word>)
    requires HalfBandKernels(o)
    ensures Avg(o, s) == Sum(|s|, Remembered(s, |s|))
    decreases |s|
  {
    hide HalfBandKernels, AdcToFloat12, Avg;
    if |s| == 0 {
      TrackerStart(o);
      assert s == [];
    } else {
      var n := |s| - 1;
      AvgIsExponential(o, s[..n]);
      TrackerMean(o, s);
      CodeBound(o, s[n]);
      forall i {:trigger Remembered(s, n + 1)(i)} | 0 <= i < n
        ensures Remembered(s, n + 1)(i) == 0.99 * Remembered(s[..n], n)(i)
      {
        Fade(Power99(n - 1 - i), Level(s[i]));
      }
      SumScale(n, 0.99, Remembered(s[..n], n), Remembered(s, n + 1));
    }
  }

  lemma Fade(p: real, x: real)
    ensures 0.01 * (0.99 * p) * x == 0.99 * (0.01 * p * x)
  {
  }

  lemma {:induction false} SumScale(n: nat, a: real, f: int -> real, g: int -> real)
    requires forall i {:trigger g(i)} :: 0 <= i < n ==> g(i) == a * f(i)
    ensures Sum(n, g) == a * Sum(n, f)
  {
    if n > 0 { SumScale(n - 1, a, f, g); }
  }

  // ---- Bounds ----

  ghost predicate Within(z: seq<real>, c: nat, bound: real) {
    forall n {:trigger z[n]} :: 0 <= n < |z| && n % 2 == c ==> Abs(z[n]) <= bound
  }

  /** The sum of the absolute values of a kernel's taps. */
  function L1(kernel: int -> real, taps: nat): real {
    Sum(taps, Magnitude(kernel))
  }

  function Magnitude(kernel: int -> real): int -> real { k => Abs(kernel(k)) }

  lemma ConvolveBound(kernel: int -> real, taps: nat, x: int -> real, bound: real)
    requires bound >= 0.0 && forall k {:trigger x(k)} :: 0 <= k < taps ==> Abs(x(k)) <= bound
    ensures Abs(Convolve(kernel, taps, x)) <= bound * L1(kernel, taps)
  {
    hide Sum;
    var f := Weighted(kernel, x);
    forall k {:trigger f(k)} | 0 <= k < taps
      ensures Abs(f(k)) <= bound * Abs(kernel(k))
    {
      AbsProduct(kernel(k), x(k), bound);
    }
    SumBound(taps, f, kernel, bound);
    SumSame(taps, i => Abs(kernel(i)), Magnitude(kernel));
  }

  lemma AbsProduct(k: real, x: real, bound: real)
    requires Abs(x) <= bound
    ensures Abs(k * x) <= bound * Abs(k)
  {
    if k >= 0.0 {
      assert -(bound * k) <= k * x <= bound * k;
    } else {
      assert -(bound * -k) <= k * x <= bound * -k;
    }
  }

  /** A stage multiplies the bound of either component by at most the L1 norm of its kernel. The
      first output of each group, which is not a plain half-band sum, is no exception. */
  lemma StageBound(o: Arith<real>, f: Filter, h: seq<real>, c: nat, bound: real)
    requires HalfBandKernels(o) && |h| % 8 == 0 && c < 2 && bound >= 0.0 && Within(h, c, bound)
    ensures Within(StageOut(o, f, h), c, bound * L1(Kernel(o, f), Taps(f)))
  {
    hide StageOut, HalfBandKernels, L1, Kernel, Taps;
    var z := StageOut(o, f, h);
    forall n {:trigger z[n]} | 0 <= n < |z| && n % 2 == c
      ensures Abs(z[n]) <= bound * L1(Kernel(o, f), Taps(f))
    {
      InGroup(|h|, n, c);
      GroupBound(o, f, h, c, n / 4, bound);
    }
  }

  lemma InGroup(len: nat, n: nat, c: nat)
    requires len % 8 == 0 && n < len / 2 && n % 2 == c
    ensures 8 * (n / 4) + 8 <= len && (n == 4 * (n / 4) + c || n == 4 * (n / 4) + 2 + c)
  {
    var groups, g, k := len / 8, n / 4, n % 4;
    assert len == 8 * groups && n == 4 * g + k;
    assert g < groups;
    assert k % 2 == c;
  }

  lemma GroupBound(o: Arith<real>, f: Filter, h: seq<real>, c: nat, g: nat, bound: real)
    requires HalfBandKernels(o) && |h| % 8 == 0 && c < 2 && bound >= 0.0 && Within(h, c, bound)
    requires 8 * g + 8 <= |h|
    ensures Abs(StageOut(o, f, h)[4 * g + c]) <= bound * L1(Kernel(o, f), Taps(f))
    ensures Abs(StageOut(o, f, h)[4 * g + 2 + c]) <= bound * L1(Kernel(o, f), Taps(f))
  {
    hide StageOut, Convolve, HalfBandKernels, L1, Within, Kernel, Taps, Overwritten, Plain;
    StageEquations(o, f, h, c, g);
    FirstBound(o, f, h, c, g, bound);
    SecondBound(o, f, h, c, 4 * g + 3, bound);
  }

  lemma FirstBound(o: Arith<real>, f: Filter, h: seq<real>, c: nat, g: nat, bound: real)
    requires c < 2 && bound >= 0.0 && Within(h, c, bound)
    ensures Abs(Convolve(Kernel(o, f), Taps(f), Overwritten(f, h, c, g))) <= bound * L1(Kernel(o, f), Taps(f))
  {
    hide Convolve, L1, Within, Kernel, Taps, Overwritten;
    OverwrittenBound(f, h, c, g, bound);
    ConvolveBound(Kernel(o, f), Taps(f), Overwritten(f, h, c, g), bound);
  }

  lemma SecondBound(o: Arith<real>, f: Filter, h: seq<real>, c: nat, n: int, bound: real)
    requires c < 2 && bound >= 0.0 && Within(h, c, bound)
    ensures Abs(Convolve(Kernel(o, f), Taps(f), Plain(h, c, n))) <= bound * L1(Kernel(o, f), Taps(f))
  {
    hide Convolve, L1, Within, Kernel, Taps, Plain;
    PlainBound(h, c, n, bound);
    ConvolveBound(Kernel(o, f), Taps(f), Plain(h, c, n), bound);
  }

  lemma OverwrittenBound(f: Filter, h: seq<real>, c: nat, g: int, bound: real)
    requires c < 2 && bound >= 0.0 && Within(h, c, bound)
    ensures forall k {:trigger Overwritten(f, h, c, g)(k)} :: Abs(Overwritten(f, h, c, g)(k)) <= bound
  {
    hide Within, Input;
    InputBound(h, c, bound);
  }

  lemma PlainBound(h: seq<real>, c: nat, n: int, bound: real)
    requires c < 2 && bound >= 0.0 && Within(h, c, bound)
    ensures forall k {:trigger Plain(h, c, n)(k)} :: Abs(Plain(h, c, n)(k)) <= bound
  {
    hide Within, Input;
    InputBound(h, c, bound);
  }

  lemma InputBound(h: seq<real>, c: nat, bound: real)
    requires c < 2 && bound >= 0.0 && Within(h, c, bound)
    ensures forall n {:trigger Input(h, c, n)} :: Abs(Input(h, c, n)) <= bound
  {
    forall n {:trigger Input(h, c, n)} | true
      ensures Abs(Input(h, c, n)) <= bound
    {
      if 0 <= 2 * n + c < |h| { assert Abs(h[2 * n + c]) <= bound; }
    }
  }

  /** `|I|` is at most twice the L1 norm of the 24 filter taps, and `|Q|` at most 1. */
  lemma FrontEndBound(o: Arith<real>, s: seq<Word>)
    requires HalfBandKernels(o) && |s| % 4 == 0
    ensures Within(BasebandOut(o, s), 0, 2.0 * L1(EvenTaps(o.hb47), 24))
    ensures Within(BasebandOut(o, s), 1, 1.0)
  {
    hide BasebandOut, HalfBandKernels, L1, FirIn, DelayIn, OutI, OutQ;
    var z := BasebandOut(o, s);
    forall n {:trigger z[n]} | 0 <= n < |z|
      ensures n % 2 == 0 ==> Abs(z[n]) <= 2.0 * L1(EvenTaps(o.hb47), 24)
      ensures n % 2 == 1 ==> Abs(z[n]) <= 1.0
    {
      BasebandAt(o, s, n / 2);
      OutIBound(o, s, n / 2);
      OutQBound(o, s, n / 2);
    }
  }

  function EvenTaps(kernel: int -> real): int -> real { i => kernel(2 * i) }

  lemma PushedBound(o: Arith<real>, s: seq<Word>, n: int)
    requires HalfBandKernels(o) && |s| % 4 == 0
    ensures Abs(At(0.0, FirIn(o, s), n)) <= 2.0
    ensures Abs(At(0.0, DelayIn(o, s), n)) <= 1.0
  {
    hide HalfBandKernels, FirIn, DelayIn, Residual;
    if 0 <= n < |s| / 2 {
      RealOps(o);
      FirInAt(o, s, n);
      ResidualBound(o, s, 2 * n);
      ResidualBound(o, s, 2 * n + 1);
    }
  }

  lemma OutQBound(o: Arith<real>, s: seq<Word>, m: nat)
    requires HalfBandKernels(o) && |s| % 4 == 0
    ensures Abs(OutQ(o, DelayIn(o, s), m)) <= 1.0
  {
    hide HalfBandKernels, DelayIn, FirIn;
    RealOps(o);
    PushedBound(o, s, m - 12);
  }

  lemma OutIBound(o: Arith<real>, s: seq<Word>, m: nat)
    requires HalfBandKernels(o) && |s| % 4 == 0
    ensures Abs(OutI(o, FirIn(o, s), m)) <= 2.0 * L1(EvenTaps(o.hb47), 24)
  {
    hide HalfBandKernels, FirIn, OutI, Sum;
    var v, x := FirIn(o, s), Pushed(FirIn(o, s), m);
    OutIIsEvenTaps(o, v, m);
    forall k {:trigger x(k)} | 0 <= k < 24
      ensures Abs(x(k)) <= 2.0
    {
      PushedBound(o, s, m - k);
    }
    ConvolveBound(EvenTaps(o.hb47), 24, x, 2.0);
  }

  function Pushed(v: seq<real>, m: int): int -> real { k => At(0.0, v, m - k) }

  /** The folded accumulation is the plain 24-tap convolution. */
  lemma OutIIsEvenTaps(o: Arith<real>, v: seq<real>, m: nat)
    requires HalfBandKernels(o)
    ensures OutI(o, v, m) == Convolve(EvenTaps(o.hb47), 24, Pushed(v, m))
  {
    hide HalfBandKernels, OutI, Sum, Even, Branch;
    OutIIsSum(o, v, m);
    forall i | 0 <= i < 12
      ensures Branch(o.hb47, v, m)(i) == Even(o.hb47, v, m)(i) + Even(o.hb47, v, m)(23 - i)
    {
      EvenFold(o, v, m, i);
    }
    SumFold(12, Even(o.hb47, v, m), Branch(o.hb47, v, m));
    EvenIsWeighted(o.hb47, v, m);
  }

  lemma EvenIsWeighted(kernel: int -> real, v: seq<real>, m: int)
    ensures Sum(24, Even(kernel, v, m)) == Convolve(EvenTaps(kernel), 24, Pushed(v, m))
  {
    SumSame(24, Even(kernel, v, m), Weighted(EvenTaps(kernel), Pushed(v, m)));
  }

  /** The bound after the front end and `k` stages. */
  function PipelineLimit(o: Arith<real>, c: nat, k: nat): real {
    if k == 0 then (if c == 0 then 2.0 * L1(EvenTaps(o.hb47), 24) else 1.0)
    else PipelineLimit(o, c, k - 1) * L1(Kernel(o, StageFilter(k - 1)), Taps(StageFilter(k - 1)))
  }

  lemma L1Positive(kernel: int -> real, taps: nat)
    ensures L1(kernel, taps) >= 0.0
  {
    if taps > 0 {
      L1Positive(kernel, taps - 1);
      assert L1(kernel, taps) == L1(kernel, taps - 1) + Magnitude(kernel)(taps - 1);
      assert Magnitude(kernel)(taps - 1) == Abs(kernel(taps - 1)) >= 0.0;
    }
  }

  /** Output of a stream of any length stays within a limit that depends on the kernels only. */
  lemma {:induction false} PipelineBound(o: Arith<real>, s: seq<Word>, c: nat, k: nat)
    requires HalfBandKernels(o) && c < 2
    ensures PipelineLimit(o, c, k) >= 0.0
    ensures Within(Pipeline(o, s, k), c, PipelineLimit(o, c, k))
  {
    hide StageOut, BasebandOut, HalfBandKernels, L1, Kernel, Taps, StageFilter;
    if k == 0 {
      L1Positive(EvenTaps(o.hb47), 24);
      FrontEndBound(o, Whole(s, 4));
    } else {
      PipelineBound(o, s, c, k - 1);
      var f := StageFilter(k - 1);
      L1Positive(Kernel(o, f), Taps(f));
      var h := Pipeline(o, s, k - 1);
      WithinPrefix(Whole(h, 8), h, c, PipelineLimit(o, c, k - 1));
      StageBound(o, f, Whole(h, 8), c, PipelineLimit(o, c, k - 1));
    }
  }

  lemma WithinPrefix(z: seq<real>, z': seq<real>, c: nat, bound: real)
    requires z <= z' && Within(z', c, bound)
    ensures Within(z, c, bound)
  {
    forall n {:trigger z[n]} | 0 <= n < |z| && n % 2 == c
      ensures Abs(z[n]) <= bound
    {
      assert z[n] == z'[n];
    }
  }
}
