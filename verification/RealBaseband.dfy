/** The front end over the real numbers: the folded polyphase ring and the delay line together
    are one 47-tap complex half-band filter, applied after a quarter-rate frequency shift. */
module RealBaseband {
  import opened Numbers
  import opened Rings
  import opened Baseband
  import opened Sums
  import opened RealConverter

  // ---- Closed forms of what is pushed and what comes out ----

  lemma {:induction false} FirInAt(o: Arith<real>, s: seq<Word>, m: nat)
    requires |s| % 4 == 0 && m < |s| / 2
    ensures FirIn(o, s)[m] == if m % 2 == 0 then o.Neg(Residual(o, s, 2 * m)) else Residual(o, s, 2 * m)
    ensures DelayIn(o, s)[m]
         == o.Mul(if m % 2 == 0 then o.Neg(Residual(o, s, 2 * m + 1)) else Residual(o, s, 2 * m + 1), o.half)
    decreases |s|
  {
    hide Residual, FirIn, DelayIn, Arith.Mul, Arith.Neg;
    FirInLast(o, s);
    var n := |s| - 4;
    if m < n / 2 {
      FirInAt(o, s[..n], m);
      ResidualPrefix(o, s, n, 2 * m);
      ResidualPrefix(o, s, n, 2 * m + 1);
    } else {
      assert m == n / 2 || m == n / 2 + 1;
    }
  }

  lemma ResidualPrefix(o: Arith<real>, s: seq<Word>, n: nat, i: nat)
    requires i < n <= |s|
    ensures Residual(o, s[..n], i) == Residual(o, s, i)
  {
    assert s[..n][..i] == s[..i];
  }

  /** The m-th output is computed from the values pushed up to then. */
  lemma {:induction false} BasebandAt(o: Arith<real>, s: seq<Word>, m: nat)
    requires |s| % 4 == 0 && m < |s| / 2
    ensures BasebandOut(o, s)[2 * m] == OutI(o, FirIn(o, s), m)
    ensures BasebandOut(o, s)[2 * m + 1] == OutQ(o, DelayIn(o, s), m)
    decreases |s|
  {
    hide Residual, FirIn, DelayIn, OutI, OutQ;
    var n := |s| - 4;
    if m < n / 2 {
      BasebandAt(o, s[..n], m);
      FirInLast(o, s);
      OutPrefix(o, FirIn(o, s[..n]), FirIn(o, s), DelayIn(o, s[..n]), DelayIn(o, s), m);
    } else {
      assert m == n / 2 || m == n / 2 + 1;
    }
  }

  lemma OutPrefix(o: Arith<real>, v: seq<real>, v': seq<real>, d: seq<real>, d': seq<real>, m: nat)
    requires v <= v' && d <= d' && m < |v| && m < |d|
    ensures OutI(o, v, m) == OutI(o, v', m)
    ensures OutQ(o, d, m) == OutQ(o, d', m)
  {
    var w, w' := FirWindow(o, v, m), FirWindow(o, v', m);
    forall i | 0 <= i < 24
      ensures w'[i] == w[i]
    {
      assert At(o.zero, v, m - 23 + i) == At(o.zero, v', m - 23 + i);
    }
    assert w' == w;
  }

  // ---- The direct form ----

  function Times(a: Complex<real>, b: Complex<real>): Complex<real> {
    Complex(a.re * b.re - a.im * b.im, a.re * b.im + a.im * b.re)
  }

  /** The n-th power of the imaginary unit. */
  function JPower(n: nat): Complex<real> {
    if n == 0 then Complex(1.0, 0.0) else Times(JPower(n - 1), Complex(0.0, 1.0))
  }

  /** The DC-removed codes, shifted down by a quarter of the sample rate, and zero before the
      stream begins: `y[n] = -(j^n) * x[n]`. */
  function Shifted(o: Arith<real>, s: seq<Word>, n: int): Complex<real> {
    if 0 <= n < |s| then Times(Complex(-Residual(o, s, n), 0.0), JPower(n)) else Complex(0.0, 0.0)
  }

  function ShiftedRe(o: Arith<real>, s: seq<Word>, n: int): int -> real { k => Shifted(o, s, n - k).re }
  function ShiftedIm(o: Arith<real>, s: seq<Word>, n: int): int -> real { k => Shifted(o, s, n - k).im }

  lemma {:induction false} JPowerIs(n: nat)
    ensures JPower(n) == match n % 4 { case 0 => Complex(1.0, 0.0) case 1 => Complex(0.0, 1.0)
                                       case 2 => Complex(-1.0, 0.0) case _ => Complex(0.0, -1.0) }
  {
    hide Times;
    if n > 0 {
      JPowerIs(n - 1);
      TimesJ(JPower(n - 1));
    }
  }

  lemma TimesJ(a: Complex<real>)
    ensures Times(a, Complex(0.0, 1.0)) == Complex(-a.im, a.re)
  {
  }

  lemma TimesReal(x: real, a: Complex<real>)
    ensures a == Complex(1.0, 0.0) ==> Times(Complex(x, 0.0), a) == Complex(x, 0.0)
    ensures a == Complex(0.0, 1.0) ==> Times(Complex(x, 0.0), a) == Complex(0.0, x)
    ensures a == Complex(-1.0, 0.0) ==> Times(Complex(x, 0.0), a) == Complex(-x, 0.0)
    ensures a == Complex(0.0, -1.0) ==> Times(Complex(x, 0.0), a) == Complex(0.0, -x)
  {
  }

  /** The real parts are what the filter is fed, the imaginary parts twice what the delay is fed. */
  lemma ShiftedIs(o: Arith<real>, s: seq<Word>, n: int)
    requires HalfBandKernels(o) && |s| % 4 == 0
    ensures n % 2 == 0 ==> Shifted(o, s, n) == Complex(At(0.0, FirIn(o, s), n / 2), 0.0)
    ensures n % 2 == 1 ==> Shifted(o, s, n).re == 0.0 && 0.5 * Shifted(o, s, n).im == At(0.0, DelayIn(o, s), n / 2)
  {
    hide Residual, FirIn, DelayIn, Times, JPower, HalfBandKernels, Arith.Mul, Arith.Neg;
    if 0 <= n < |s| {
      RealOps(o);
      JPowerIs(n);
      TimesReal(-Residual(o, s, n), JPower(n));
      FirInAt(o, s, n / 2);
    }
  }

  /** The code's running accumulation is a sum. */
  lemma {:induction false} FirAccIsSum(o: Arith<real>, w: seq<real>, i: nat, f: int -> real)
    requires HalfBandKernels(o) && |w| == 24 && i <= 12
    requires forall j {:trigger f(j)} :: 0 <= j < 12 ==> f(j) == o.Mul(o.Hb47(2 * j), o.Add(w[j], w[23 - j]))
    ensures FirAcc(o, w, i) == Sum(i, f)
  {
    hide HalfBandKernels, Arith.Mul;
    RealOps(o);
    if i > 0 {
      FirAccIsSum(o, w, i - 1, f);
      assert f(i - 1) == o.Mul(o.Hb47(2 * (i - 1)), o.Add(w[i - 1], w[23 - (i - 1)]));
    }
  }

  /** The even taps, folded, over the values pushed so far. */
  function Branch(kernel: int -> real, v: seq<real>, m: int): int -> real {
    j => kernel(2 * j) * (At(0.0, v, m - 23 + j) + At(0.0, v, m - j))
  }

  lemma OutIIsSum(o: Arith<real>, v: seq<real>, m: nat)
    requires HalfBandKernels(o)
    ensures OutI(o, v, m) == Sum(12, Branch(o.hb47, v, m))
  {
    var w, f := FirWindow(o, v, m), Branch(o.hb47, v, m);
    forall j {:trigger f(j)} | 0 <= j < 12
      ensures f(j) == o.Mul(o.Hb47(2 * j), o.Add(w[j], w[23 - j]))
    {
      assert w[j] == At(0.0, v, m - 23 + j) && w[23 - j] == At(0.0, v, m - 23 + (23 - j));
    }
    FirAccIsSum(o, w, 12, f);
  }

  /** The even taps of the direct form, on the real parts. */
  lemma DirectReIsBranch(o: Arith<real>, s: seq<Word>, m: nat)
    requires HalfBandKernels(o) && |s| % 4 == 0
    ensures Convolve(o.hb47, 47, ShiftedRe(o, s, 2 * m)) == Sum(12, Branch(o.hb47, FirIn(o, s), m))
  {
    hide HalfBandKernels, HalfBand, Shifted, ShiftedRe, FirIn, Sum, Weighted, Branch, Even, At;
    var t, v := Weighted(o.hb47, ShiftedRe(o, s, 2 * m)), FirIn(o, s);
    var e, none := Even(o.hb47, v, m), (k: int) => 0.0;
    forall i | 0 <= i < 24
      ensures t(2 * i) == e(i) && (i < 23 ==> t(2 * i + 1) == none(i))
    {
      RealTap(o, s, m, 2 * i);
      if i < 23 { RealTap(o, s, m, 2 * i + 1); }
    }
    LastTerm(46, t);
    SumEvenOdd(23, t, e, none);
    SumZero(23, none);
    LastTerm(23, e);
    forall i | 0 <= i < 12
      ensures Branch(o.hb47, v, m)(i) == e(i) + e(23 - i)
    {
      EvenFold(o, v, m, i);
    }
    SumFold(12, e, Branch(o.hb47, v, m));
  }

  /** The even taps of the direct form. */
  function Even(kernel: int -> real, v: seq<real>, m: int): int -> real {
    k => kernel(2 * k) * At(0.0, v, m - k)
  }

  lemma EvenFold(o: Arith<real>, v: seq<real>, m: int, i: nat)
    requires HalfBandKernels(o) && i < 12
    ensures Branch(o.hb47, v, m)(i) == Even(o.hb47, v, m)(i) + Even(o.hb47, v, m)(23 - i)
  {
    hide HalfBandKernels, HalfBand, At;
    Kernels(o);
    Taps2(o.hb47, 23, 2 * i);
    Share(o.hb47(2 * i), o.hb47(46 - 2 * i), At(0.0, v, m - i), At(0.0, v, m - 23 + i));
  }

  lemma LastTerm(n: nat, f: int -> real)
    ensures Sum(n + 1, f) == Sum(n, f) + f(n)
  {
  }

  /** Odd taps meet a vanishing coefficient or, at the centre, a vanishing real part. */
  lemma RealTap(o: Arith<real>, s: seq<Word>, m: nat, k: nat)
    requires HalfBandKernels(o) && |s| % 4 == 0 && k <= 46
    ensures Weighted(o.hb47, ShiftedRe(o, s, 2 * m))(k)
         == if k % 2 == 0 then Even(o.hb47, FirIn(o, s), m)(k / 2) else 0.0
  {
    hide HalfBandKernels, HalfBand, Shifted, FirIn, At;
    ShiftedIs(o, s, 2 * m - k);
    Kernels(o);
    Taps2(o.hb47, 23, k);
  }

  /** Only the centre tap meets an imaginary part, and it is the delayed Q sample. */
  lemma DirectImIsDelayed(o: Arith<real>, s: seq<Word>, m: nat)
    requires HalfBandKernels(o) && |s| % 4 == 0
    ensures Convolve(o.hb47, 47, ShiftedIm(o, s, 2 * m)) == At(0.0, DelayIn(o, s), m - 12)
  {
    hide HalfBandKernels, HalfBand, Shifted, DelayIn, Sum;
    var t, none := Weighted(o.hb47, ShiftedIm(o, s, 2 * m)), k => 0.0;
    forall k | 0 <= k < 47
      ensures k != 23 ==> t(k) == none(k)
    {
      ImagTap(o, s, m, k);
    }
    SumChangeOne(47, t, none, 23);
    SumZero(47, none);
    ImagTap(o, s, m, 23);
  }

  lemma ImagTap(o: Arith<real>, s: seq<Word>, m: nat, k: nat)
    requires HalfBandKernels(o) && |s| % 4 == 0 && k <= 46
    ensures Weighted(o.hb47, ShiftedIm(o, s, 2 * m))(k) == if k == 23 then At(0.0, DelayIn(o, s), m - 12) else 0.0
  {
    hide HalfBandKernels, HalfBand, Shifted, DelayIn, At, Weighted, ShiftedIm;
    TapIs(o, s, 2 * m, k);
    Halves(m, k);
    ImagProduct(o, s, m, k, 2 * m - k);
  }

  lemma ImagProduct(o: Arith<real>, s: seq<Word>, m: nat, k: nat, n: int)
    requires HalfBandKernels(o) && |s| % 4 == 0 && k <= 46
    requires n % 2 == k % 2 && (k == 23 ==> n / 2 == m - 12)
    ensures o.hb47(k) * Shifted(o, s, n).im == if k == 23 then At(0.0, DelayIn(o, s), m - 12) else 0.0
  {
    hide HalfBandKernels, HalfBand, Shifted, DelayIn, FirIn, At;
    ShiftedIs(o, s, n);
    Kernels(o);
    Taps2(o.hb47, 23, k);
    Product(o.hb47(k), Shifted(o, s, n).im, At(0.0, DelayIn(o, s), m - 12), k == 23);
  }

  lemma TapIs(o: Arith<real>, s: seq<Word>, n: int, k: int)
    ensures Weighted(o.hb47, ShiftedIm(o, s, n))(k) == o.hb47(k) * Shifted(o, s, n - k).im
  {
    hide Shifted;
  }

  lemma Halves(m: nat, k: nat)
    ensures k == 23 ==> (2 * m - k) / 2 == m - 12
    ensures (2 * m - k) % 2 == k % 2
  {
  }

  lemma Product(a: real, b: real, d: real, centre: bool)
    requires if centre then a == 0.5 && 0.5 * b == d else a == 0.0 || b == 0.0
    ensures a * b == if centre then d else 0.0
  {
  }

  /** Polyphase equals direct form: each output of the 24-tap ring and 12-slot delay line is the
      full 47-tap convolution of the shifted signal, taken at every second sample. */
  lemma PolyphaseIsDirect(o: Arith<real>, s: seq<Word>, m: nat)
    requires HalfBandKernels(o) && |s| % 4 == 0 && m < |s| / 2
    ensures Pairs(BasebandOut(o, s))[m]
         == Complex(Convolve(o.hb47, 47, ShiftedRe(o, s, 2 * m)), Convolve(o.hb47, 47, ShiftedIm(o, s, 2 * m)))
  {
    hide HalfBand, Convolve, Shifted, OutI, FirIn, DelayIn, Sum, BasebandOut;
    BasebandAt(o, s, m);
    OutIIsSum(o, FirIn(o, s), m);
    DirectReIsBranch(o, s, m);
    DirectImIsDelayed(o, s, m);
  }
}
