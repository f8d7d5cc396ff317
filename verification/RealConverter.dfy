/** Finite sums of reals. */
module Sums {
  function Sum(n: nat, f: int -> real): real {
    if n == 0 then 0.0 else Sum(n - 1, f) + f(n - 1)
  }

  function Abs(x: real): (a: real)
    ensures a >= 0.0 && -a <= x <= a && (a == x || a == -x)
  {
    if x < 0.0 then -x else x
  }

  lemma {:induction false} SumSame(n: nat, f: int -> real, g: int -> real)
    requires forall i :: 0 <= i < n ==> f(i) == g(i)
    ensures Sum(n, f) == Sum(n, g)
  {
    if n > 0 { SumSame(n - 1, f, g); }
  }

  lemma {:induction false} SumZero(n: nat, f: int -> real)
    requires forall i :: 0 <= i < n ==> f(i) == 0.0
    ensures Sum(n, f) == 0.0
  {
    if n > 0 { SumZero(n - 1, f); }
  }

  lemma {:induction false} SumAdd(n: nat, f: int -> real, g: int -> real, s: int -> real)
    requires forall i {:trigger s(i)} :: 0 <= i < n ==> s(i) == f(i) + g(i)
    ensures Sum(n, s) == Sum(n, f) + Sum(n, g)
  {
    if n > 0 { SumAdd(n - 1, f, g, s); }
  }

  /** Even and odd terms apart. */
  lemma {:induction false} SumEvenOdd(n: nat, f: int -> real, e: int -> real, d: int -> real)
    requires forall i {:trigger e(i)} {:trigger d(i)} :: 0 <= i < n ==> e(i) == f(2 * i) && d(i) == f(2 * i + 1)
    ensures Sum(2 * n, f) == Sum(n, e) + Sum(n, d)
  {
    if n > 0 {
      SumEvenOdd(n - 1, f, e, d);
      assert Sum(2 * n, f) == Sum(2 * n - 2, f) + f(2 * n - 2) + f(2 * n - 1);
    }
  }

  lemma {:induction false} SumFront(n: nat, f: int -> real, g: int -> real)
    requires n > 0 && forall i {:trigger g(i)} :: 0 <= i < n - 1 ==> g(i) == f(i + 1)
    ensures Sum(n, f) == f(0) + Sum(n - 1, g)
  {
    if n > 1 {
      SumFront(n - 1, f, g);
    } else {
      assert Sum(0, g) == 0.0 && Sum(0, f) == 0.0;
    }
  }

  lemma {:induction false} SumConcat(a: nat, b: nat, f: int -> real, g: int -> real)
    requires forall i {:trigger g(i)} :: 0 <= i < b ==> g(i) == f(a + i)
    ensures Sum(a + b, f) == Sum(a, f) + Sum(b, g)
  {
    if b > 0 {
      SumConcat(a, b - 1, f, g);
    }
  }

  lemma {:induction false} SumReverse(n: nat, f: int -> real, r: int -> real)
    requires forall i {:trigger r(i)} :: 0 <= i < n ==> r(i) == f(n - 1 - i)
    ensures Sum(n, f) == Sum(n, r)
  {
    if n > 0 {
      var r' := i => r(i + 1);
      SumReverse(n - 1, f, r');
      SumFront(n, r, r');
    }
  }

  /** Term i together with term 2n - 1 - i. */
  lemma SumFold(n: nat, f: int -> real, s: int -> real)
    requires forall i {:trigger s(i)} :: 0 <= i < n ==> s(i) == f(i) + f(2 * n - 1 - i)
    ensures Sum(2 * n, f) == Sum(n, s)
  {
    var upper, mirrored := i => f(n + i), i => f(2 * n - 1 - i);
    SumConcat(n, n, f, upper);
    SumReverse(n, upper, mirrored);
    SumAdd(n, f, mirrored, s);
  }

  /** An odd number of terms: mirrored pairs and the one in the middle. */
  lemma SumCentre(h: nat, f: int -> real, s: int -> real)
    requires forall i {:trigger s(i)} :: 0 <= i < h ==> s(i) == f(i) + f(2 * h - i)
    ensures Sum(2 * h + 1, f) == Sum(h, s) + f(h)
  {
    var upper, mirrored := i => f(h + 1 + i), i => f(2 * h - i);
    SumConcat(h + 1, h, f, upper);
    SumReverse(h, upper, mirrored);
    SumAdd(h, f, mirrored, s);
  }

  lemma {:induction false} SumChangeOne(n: nat, f: int -> real, g: int -> real, at: nat)
    requires at < n && forall i :: 0 <= i < n && i != at ==> f(i) == g(i)
    ensures Sum(n, f) - Sum(n, g) == f(at) - g(at)
  {
    if at == n - 1 {
      SumSame(n - 1, f, g);
    } else {
      SumChangeOne(n - 1, f, g, at);
    }
  }

  /** The triangle inequality, weighted. */
  lemma {:induction false} SumBound(n: nat, f: int -> real, k: int -> real, bound: real)
    requires forall i :: 0 <= i < n ==> Abs(f(i)) <= bound * Abs(k(i))
    ensures Abs(Sum(n, f)) <= bound * Sum(n, i => Abs(k(i)))
  {
    var a := i => Abs(k(i));
    if n > 0 {
      SumBound(n - 1, f, k, bound);
      assert Sum(n, a) == Sum(n - 1, a) + a(n - 1);
      assert bound * Sum(n, a) == bound * Sum(n - 1, a) + bound * a(n - 1);
    }
  }
}

/** The converter over the real numbers: what its folded, mirrored, interleaved arithmetic means
    as signal processing. Every statement holds for all kernels of half-band shape. */
module RealConverter {
  import opened Numbers
  import opened Rings
  import opened Baseband
  import opened Decimation
  import opened Sums

  function RealArith(hb47: int -> real, hb33: int -> real, hb17: int -> real): Arith<real> {
    Arith(
      (x: real, y: real) => x + y,
      (x: real, y: real) => x - y,
      (x: real, y: real) => x * y,
      (x: real, y: real) => if y == 0.0 then 0.0 else x / y,
      (x: real) => -x,
      (c: int) => c as real,
      0.0, 1.0, 0.5, 0.01, 2048.0,
      hb47, hb33, hb17)
  }

  /** A kernel of `2 * h + 1` taps: symmetric, and zero at every second tap counted from the
      centre, the centre itself excepted. */
  ghost predicate HalfBand(kernel: int -> real, h: nat) {
    forall i {:trigger kernel(i)} :: 0 <= i <= 2 * h ==>
      && kernel(i) == kernel(2 * h - i)
      && (i % 2 == h % 2 && i != h ==> kernel(i) == 0.0)
  }

  ghost predicate HalfBandKernels(o: Arith<real>) {
    && o == RealArith(o.hb47, o.hb33, o.hb17)
    && HalfBand(o.hb47, 23) && o.hb47(23) == 0.5
    && HalfBand(o.hb33, 16) && HalfBand(o.hb17, 8)
  }

  /** Tap `k` weighs the sample `x(k)` of age `k`. */
  function Convolve(kernel: int -> real, taps: nat, x: int -> real): real {
    Sum(taps, Weighted(kernel, x))
  }

  function Weighted(kernel: int -> real, x: int -> real): int -> real {
    k => kernel(k) * x(k)
  }

  // ---- Half-band stages ----

  function Kernel(o: Arith<real>, f: Filter): int -> real {
    if f.Hb33? then o.hb33 else o.hb17
  }

  /** Number of taps: one more than the ring has slots. */
  function Taps(f: Filter): nat { f.BufSize() + 1 }

  /** Component `c` of the n-th complex input sample. */
  function Input(h: seq<real>, c: nat, n: int): real { At(0.0, h, 2 * n + c) }

  /** The i-th shared product of a folded half-band sum. */
  function Folded(kernel: int -> real, q: nat, x: int -> real): int -> real {
    i => kernel(2 * i + 1) * (x(2 * i + 1) + x(4 * q - 2 * i - 1))
  }

  /** A half-band sum, with the vanishing taps left out and equal taps sharing one product. */
  lemma ConvolveFolded(kernel: int -> real, q: nat, x: int -> real)
    requires HalfBand(kernel, 2 * q)
    ensures Convolve(kernel, 4 * q + 1, x)
         == Sum(q, Folded(kernel, q, x)) + kernel(2 * q) * x(2 * q)
  {
    hide HalfBand, Sum;
    var t := Weighted(kernel, x);
    assert t(2 * q) == kernel(2 * q) * x(2 * q);
    var e := i => t(i) + t(4 * q - i);
    var odd := Folded(kernel, q, x);
    SumCentre(2 * q, t, e);
    forall i | 0 <= i < q
      ensures e(2 * i) == 0.0 && e(2 * i + 1) == odd(i)
    {
      PairOfTaps(kernel, q, x, i);
    }
    hide Folded, Weighted;
    var none := i => 0.0;
    SumEvenOdd(q, e, none, odd);
    SumZero(q, none);
  }

  lemma PairOfTaps(kernel: int -> real, q: nat, x: int -> real, i: nat)
    requires HalfBand(kernel, 2 * q) && i < q
    ensures Weighted(kernel, x)(2 * i) + Weighted(kernel, x)(4 * q - 2 * i) == 0.0
    ensures Weighted(kernel, x)(2 * i + 1) + Weighted(kernel, x)(4 * q - (2 * i + 1)) == Folded(kernel, q, x)(i)
  {
    hide HalfBand;
    Taps2(kernel, 2 * q, 2 * i);
    Taps2(kernel, 2 * q, 2 * i + 1);
    Share(kernel(2 * i), kernel(4 * q - 2 * i), x(2 * i), x(4 * q - 2 * i));
    Share(kernel(2 * i + 1), kernel(4 * q - (2 * i + 1)), x(2 * i + 1), x(4 * q - (2 * i + 1)));
  }

  lemma Taps2(kernel: int -> real, h: nat, i: nat)
    requires HalfBand(kernel, h) && i <= 2 * h
    ensures kernel(i) == kernel(2 * h - i)
    ensures i % 2 == h % 2 && i != h ==> kernel(i) == 0.0
  {
  }

  lemma Share(k: real, k': real, a: real, b: real)
    requires k == k'
    ensures k * a + k' * b == k * (a + b)
    ensures k == 0.0 ==> k * a + k' * b == 0.0
  {
  }

  lemma RealOps(o: Arith<real>)
    requires HalfBandKernels(o)
    ensures forall x, y {:trigger o.Add(x, y)} :: o.Add(x, y) == x + y
    ensures forall x, y {:trigger o.Sub(x, y)} :: o.Sub(x, y) == x - y
    ensures forall x, y {:trigger o.Mul(x, y)} :: o.Mul(x, y) == x * y
    ensures forall x {:trigger o.Neg(x)} :: o.Neg(x) == -x
    ensures o.zero == 0.0 && o.half == 0.5 && o.alpha == 0.01
  {
  }

  lemma Plus(o: Arith<real>)
    requires HalfBandKernels(o)
    ensures forall x, y {:trigger o.Add(x, y)} :: o.Add(x, y) == x + y
  {
  }

  lemma Unroll(g: int -> real)
    ensures Sum(4, g) == g(0) + g(1) + g(2) + g(3)
    ensures Sum(8, g) == g(0) + g(1) + g(2) + g(3) + g(4) + g(5) + g(6) + g(7)
  {
    assert Sum(4, g) == Sum(3, g) + g(3);
    assert Sum(8, g) == Sum(7, g) + g(7);
    assert Sum(7, g) == Sum(6, g) + g(6);
    assert Sum(6, g) == Sum(5, g) + g(5);
    assert Sum(5, g) == Sum(4, g) + g(4);
  }

  /** The slot `j` of an accumulation holds the sample for tap `BufSize - j`, where a tap weighs
      anything. */
  ghost predicate Reads(f: Filter, s: seq<real>, c: nat, x: int -> real)
    ensures Reads(f, s, c, x) ==> |s| >= f.Ring() && c < 2
  {
    && |s| >= f.Ring() && c < 2
    && forall j {:trigger Slot(s, c, j)} :: 0 < j < f.BufSize() && (j % 2 == 1 || 2 * j == f.BufSize()) ==>
         Slot(s, c, j) == x(f.BufSize() - j)
  }

  /** Component `c` of the j-th slot of an interleaved ring. */
  function Slot(s: seq<real>, c: nat, j: nat): real
    requires 2 * j + c < |s|
  {
    s[2 * j + c]
  }

  lemma ReadsAt(f: Filter, s: seq<real>, c: nat, x: int -> real, j: nat)
    requires Reads(f, s, c, x) && 0 < j < f.BufSize() && (j % 2 == 1 || 2 * j == f.BufSize())
    ensures s[2 * j + c] == x(f.BufSize() - j)
  {
    assert Slot(s, c, j) == x(f.BufSize() - j);
  }

  /** The i-th product of an accumulation is the i-th product of the folded sum. */
  lemma ReadsFolded(o: Arith<real>, kernel: int -> real, f: Filter, s: seq<real>, c: nat, x: int -> real, i: nat)
    requires HalfBandKernels(o) && Reads(f, s, c, x) && 4 * i < f.BufSize()
    ensures var q, lo, hi := f.BufSize() / 4, 2 * (2 * i + 1) + c, 2 * (f.BufSize() - 2 * i - 1) + c;
      Folded(kernel, q, x)(i) == o.Mul(kernel(2 * i + 1), o.Add(s[lo], s[hi]))
  {
    hide HalfBandKernels;
    RealOps(o);
    var j, j' := 2 * i + 1, f.BufSize() - 2 * i - 1;
    ReadsAt(f, s, c, x, j);
    ReadsAt(f, s, c, x, j');
  }

  lemma ReadsCentre(o: Arith<real>, kernel: int -> real, f: Filter, s: seq<real>, c: nat, x: int -> real)
    requires HalfBandKernels(o) && Reads(f, s, c, x)
    ensures o.Mul(kernel(f.BufSize() / 2), s[f.BufSize() + c]) == kernel(f.BufSize() / 2) * x(f.BufSize() / 2)
  {
    hide HalfBandKernels;
    RealOps(o);
    ReadsAt(f, s, c, x, f.BufSize() / 2);
  }

  /** The first four products of the 33-tap accumulation. */
  lemma Acc33Head(o: Arith<real>, s: seq<real>, c: nat, x: int -> real)
    requires HalfBandKernels(o) && Reads(Hb33, s, c, x)
    ensures var f := Folded(o.hb33, 8, x);
      o.Add(o.Add(o.Add(
        o.Mul(o.Hb33(1), o.Add(s[2 + c], s[62 + c])),
        o.Mul(o.Hb33(3), o.Add(s[6 + c], s[58 + c]))),
        o.Mul(o.Hb33(5), o.Add(s[10 + c], s[54 + c]))),
        o.Mul(o.Hb33(7), o.Add(s[14 + c], s[50 + c]))) == f(0) + f(1) + f(2) + f(3)
  {
    hide HalfBandKernels, Folded, Reads, Arith.Mul, Arith.Add;
    Plus(o);
    ReadsFolded(o, o.hb33, Hb33, s, c, x, 0);
    ReadsFolded(o, o.hb33, Hb33, s, c, x, 1);
    ReadsFolded(o, o.hb33, Hb33, s, c, x, 2);
    ReadsFolded(o, o.hb33, Hb33, s, c, x, 3);
  }

  /** And the last four, added to what is there. */
  lemma Acc33Tail(o: Arith<real>, s: seq<real>, c: nat, x: int -> real, head: real)
    requires HalfBandKernels(o) && Reads(Hb33, s, c, x)
    ensures var f := Folded(o.hb33, 8, x);
      o.Add(o.Add(o.Add(o.Add(head,
        o.Mul(o.Hb33(9), o.Add(s[18 + c], s[46 + c]))),
        o.Mul(o.Hb33(11), o.Add(s[22 + c], s[42 + c]))),
        o.Mul(o.Hb33(13), o.Add(s[26 + c], s[38 + c]))),
        o.Mul(o.Hb33(15), o.Add(s[30 + c], s[34 + c]))) == head + f(4) + f(5) + f(6) + f(7)
  {
    hide HalfBandKernels, Folded, Reads, Arith.Mul, Arith.Add;
    Plus(o);
    ReadsFolded(o, o.hb33, Hb33, s, c, x, 4);
    ReadsFolded(o, o.hb33, Hb33, s, c, x, 5);
    ReadsFolded(o, o.hb33, Hb33, s, c, x, 6);
    ReadsFolded(o, o.hb33, Hb33, s, c, x, 7);
  }

  lemma Acc33IsConvolve(o: Arith<real>, s: seq<real>, c: nat, x: int -> real)
    requires HalfBandKernels(o) && Reads(Hb33, s, c, x)
    ensures Acc(o, Hb33, s, c) == Convolve(o.hb33, 33, x)
  {
    hide HalfBandKernels, HalfBand, Sum, Convolve, Folded, Reads, Arith.Mul, Arith.Add;
    Plus(o);
    assert HalfBand(o.hb33, 16) by { Kernels(o); }
    ConvolveFolded(o.hb33, 8, x);
    var f := Folded(o.hb33, 8, x);
    Unroll(f);
    ReadsCentre(o, o.hb33, Hb33, s, c, x);
    Acc33Head(o, s, c, x);
    Acc33Tail(o, s, c, x, f(0) + f(1) + f(2) + f(3));
  }

  lemma Acc17IsConvolve(o: Arith<real>, s: seq<real>, c: nat, x: int -> real)
    requires HalfBandKernels(o) && Reads(Hb17, s, c, x)
    ensures Acc(o, Hb17, s, c) == Convolve(o.hb17, 17, x)
  {
    hide HalfBandKernels, HalfBand, Sum, Convolve, Folded, Reads, Arith.Mul, Arith.Add;
    Plus(o);
    assert HalfBand(o.hb17, 8) by { Kernels(o); }
    ConvolveFolded(o.hb17, 4, x);
    Unroll(Folded(o.hb17, 4, x));
    ReadsCentre(o, o.hb17, Hb17, s, c, x);
    ReadsFolded(o, o.hb17, Hb17, s, c, x, 0);
    ReadsFolded(o, o.hb17, Hb17, s, c, x, 1);
    ReadsFolded(o, o.hb17, Hb17, s, c, x, 2);
    ReadsFolded(o, o.hb17, Hb17, s, c, x, 3);
  }

  lemma Kernels(o: Arith<real>)
    requires HalfBandKernels(o)
    ensures HalfBand(o.hb47, 23) && o.hb47(23) == 0.5
    ensures HalfBand(o.hb33, 16) && HalfBand(o.hb17, 8)
  {
  }

  /** An accumulation is the half-band sum over whatever its taps see. */
  lemma AccIsConvolve(o: Arith<real>, f: Filter, s: seq<real>, c: nat, x: int -> real)
    requires HalfBandKernels(o) && Reads(f, s, c, x)
    ensures Acc(o, f, s, c) == Convolve(Kernel(o, f), Taps(f), x)
  {
    if f.Hb33? {
      Acc33IsConvolve(o, s, c, x);
    } else {
      Acc17IsConvolve(o, s, c, x);
    }
  }

  /** What the taps of a plain half-band sum at sample `n` see. */
  function Plain(h: seq<real>, c: nat, n: int): int -> real {
    k => Input(h, c, n - k)
  }

  /** What the taps of the first output of group `g` see: its oldest weighted tap reads a ring
      slot that the group's third sample has already overwritten. */
  function Overwritten(f: Filter, h: seq<real>, c: nat, g: int): int -> real {
    k => if k == f.BufSize() - 1 then Input(h, c, 4 * g + 2) else Input(h, c, 4 * g + 1 - k)
  }

  lemma WindowAt(o: Arith<real>, f: Filter, h: seq<real>, e: nat, r: nat)
    requires o.zero == 0.0 && r < f.Ring()
    ensures Window(o, f, h, e)[r] == At(0.0, h, |h| - e + r - (if r < e then 0 else f.Ring()))
  {
  }

  lemma SecondWindowReads(o: Arith<real>, f: Filter, h: seq<real>, c: nat, g: nat)
    requires o.zero == 0.0 && |h| == 8 * g + 8 && c < 2
    ensures Reads(f, Window(o, f, h, 2), c, Plain(h, c, 4 * g + 3))
  {
    var w, x := Window(o, f, h, 2), Plain(h, c, 4 * g + 3);
    forall j {:trigger Slot(w, c, j)} | 0 < j < f.BufSize()
      ensures Slot(w, c, j) == x(f.BufSize() - j)
    {
      WindowAt(o, f, h, 2, 2 * j + c);
      assert x(f.BufSize() - j) == Input(h, c, 4 * g + 3 - (f.BufSize() - j));
      assert Input(h, c, 4 * g + 3 - (f.BufSize() - j)) == At(0.0, h, |h| - 2 + (2 * j + c) - f.Ring());
    }
  }

  lemma FirstWindowReads(o: Arith<real>, f: Filter, h: seq<real>, c: nat, g: nat)
    requires o.zero == 0.0 && |h| == 8 * g + 8 && c < 2
    ensures Reads(f, Window(o, f, h, 6), c, Overwritten(f, h, c, g))
  {
    var w, x := Window(o, f, h, 6), Overwritten(f, h, c, g);
    forall j {:trigger Slot(w, c, j)} | 0 < j < f.BufSize() && (j % 2 == 1 || 2 * j == f.BufSize())
      ensures Slot(w, c, j) == x(f.BufSize() - j)
    {
      WindowAt(o, f, h, 6, 2 * j + c);
      assert j > 1 ==> Input(h, c, 4 * g + 1 - (f.BufSize() - j)) == At(0.0, h, |h| - 6 + (2 * j + c) - f.Ring());
      assert j == 1 ==> Input(h, c, 4 * g + 2) == At(0.0, h, |h| - 6 + (2 * j + c));
    }
  }

  lemma InputPrefix(h: seq<real>, len: nat, c: nat, n: int)
    requires len <= |h| && 2 * n + c < len
    ensures Input(h[..len], c, n) == Input(h, c, n)
  {
  }

  /** The exact equations of a decimation stage, for every group of an unbounded run: the second
      output is the full half-band sum although the ring is one slot too short for it; the first
      is the half-band sum with its age-31 (age-15) sample replaced by the next input. */
  lemma StageEquations(o: Arith<real>, f: Filter, h: seq<real>, c: nat, g: nat)
    requires HalfBandKernels(o) && |h| % 8 == 0 && 8 * g + 8 <= |h| && c < 2
    ensures StageOut(o, f, h)[4 * g + 2 + c] == Convolve(Kernel(o, f), Taps(f), Plain(h, c, 4 * g + 3))
    ensures StageOut(o, f, h)[4 * g + c] == Convolve(Kernel(o, f), Taps(f), Overwritten(f, h, c, g))
  {
    hide Acc, Window, StageOut, Reads, Convolve, HalfBand;
    var p := h[..8 * g + 8];
    StageOutAt(o, f, h, g);
    assert StageOut(o, f, h)[4 * g + c] == Group(o, f, p)[c];
    assert StageOut(o, f, h)[4 * g + 2 + c] == Group(o, f, p)[2 + c];
    SecondWindowReads(o, f, p, c, g);
    AccIsConvolve(o, f, Window(o, f, p, 2), c, Plain(p, c, 4 * g + 3));
    FirstWindowReads(o, f, p, c, g);
    AccIsConvolve(o, f, Window(o, f, p, 6), c, Overwritten(f, p, c, g));
    TapsPrefix(Kernel(o, f), f, h, c, g);
  }

  lemma TapsPrefix(kernel: int -> real, f: Filter, h: seq<real>, c: nat, g: nat)
    requires 8 * g + 8 <= |h| && c < 2
    ensures var p := h[..8 * g + 8];
      && Convolve(kernel, Taps(f), Plain(p, c, 4 * g + 3)) == Convolve(kernel, Taps(f), Plain(h, c, 4 * g + 3))
      && Convolve(kernel, Taps(f), Overwritten(f, p, c, g)) == Convolve(kernel, Taps(f), Overwritten(f, h, c, g))
  {
    hide Input, Convolve;
    var len := 8 * g + 8;
    var x, x' := Plain(h[..len], c, 4 * g + 3), Plain(h, c, 4 * g + 3);
    var y, y' := Overwritten(f, h[..len], c, g), Overwritten(f, h, c, g);
    forall k | 0 <= k < Taps(f)
      ensures x(k) == x'(k) && y(k) == y'(k)
    {
      InputPrefix(h, len, c, 4 * g + 3 - k);
      InputPrefix(h, len, c, 4 * g + 1 - k);
      InputPrefix(h, len, c, 4 * g + 2);
    }
    SameTaps(kernel, Taps(f), x, x');
    SameTaps(kernel, Taps(f), y, y');
  }

  lemma SameTaps(kernel: int -> real, taps: nat, x: int -> real, y: int -> real)
    requires forall k {:trigger x(k)} {:trigger y(k)} :: 0 <= k < taps ==> x(k) == y(k)
    ensures Convolve(kernel, taps, x) == Convolve(kernel, taps, y)
  {
    SumSame(taps, Weighted(kernel, x), Weighted(kernel, y));
  }

  /** How far the first output of a group is from the plain half-band sum: exactly the oldest
      weighted tap times the difference of the two samples. */
  lemma FirstOutputDeviation(o: Arith<real>, f: Filter, h: seq<real>, c: nat, g: nat)
    requires HalfBandKernels(o) && |h| % 8 == 0 && 8 * g + 8 <= |h| && c < 2
    ensures StageOut(o, f, h)[4 * g + c] - Convolve(Kernel(o, f), Taps(f), Plain(h, c, 4 * g + 1))
         == Kernel(o, f)(1) * (Input(h, c, 4 * g + 2) - Input(h, c, 4 * g + 2 - f.BufSize()))
  {
    hide Acc, StageOut, Reads, Input, HalfBand, Convolve;
    StageEquations(o, f, h, c, g);
    var age, x, y := f.BufSize() - 1, Overwritten(f, h, c, g), Plain(h, c, 4 * g + 1);
    ConvolveChangeOne(Kernel(o, f), Taps(f), x, y, age);
    assert Kernel(o, f)(age) == Kernel(o, f)(1) by {
      Kernels(o);
      Taps2(Kernel(o, f), f.BufSize() / 2, 1);
    }
  }

  lemma ConvolveChangeOne(kernel: int -> real, taps: nat, x: int -> real, y: int -> real, at: nat)
    requires at < taps && forall k {:trigger x(k)} {:trigger y(k)} :: 0 <= k < taps && k != at ==> x(k) == y(k)
    ensures Convolve(kernel, taps, x) - Convolve(kernel, taps, y) == kernel(at) * (x(at) - y(at))
  {
    SumChangeOne(taps, Weighted(kernel, x), Weighted(kernel, y), at);
    Difference(kernel(at), x(at), y(at));
  }

  lemma Difference(k: real, a: real, b: real)
    ensures k * a - k * b == k * (a - b)
  {
  }

  /** So a first output is the plain half-band sum exactly when those two samples agree. */
  lemma FirstOutputPlainIff(o: Arith<real>, f: Filter, h: seq<real>, c: nat, g: nat)
    requires HalfBandKernels(o) && Kernel(o, f)(1) != 0.0
    requires |h| % 8 == 0 && 8 * g + 8 <= |h| && c < 2
    ensures StageOut(o, f, h)[4 * g + c] == Convolve(Kernel(o, f), Taps(f), Plain(h, c, 4 * g + 1))
       <==> Input(h, c, 4 * g + 2) == Input(h, c, 4 * g + 2 - f.BufSize())
  {
    hide StageOut, Convolve;
    FirstOutputDeviation(o, f, h, c, g);
    var k, d := Kernel(o, f)(1), Input(h, c, 4 * g + 2) - Input(h, c, 4 * g + 2 - f.BufSize());
    assert k * d == 0.0 ==> d == 0.0;
  }

  /** An input on which it is not: a single unit sample, two after the first output's. */
  lemma FirstOutputDiffers(o: Arith<real>, f: Filter)
    requires HalfBandKernels(o) && Kernel(o, f)(1) != 0.0
    ensures var h := [0.0, 0.0, 0.0, 0.0, 1.0, 0.0, 0.0, 0.0];
      StageOut(o, f, h)[0] != Convolve(Kernel(o, f), Taps(f), Plain(h, 0, 1))
  {
    hide StageOut, Convolve, HalfBandKernels, Plain, Kernel;
    FirstOutputPlainIff(o, f, [0.0, 0.0, 0.0, 0.0, 1.0, 0.0, 0.0, 0.0], 0, 0);
  }
}
