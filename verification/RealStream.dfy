/** The converter end to end over the real numbers: from the bytes of a transfer to the samples
    written, with the kernels named stage by stage. */
module RealStream {
  import opened Numbers
  import opened Rings
  import opened Baseband
  import opened Decimation
  import opened Converter
  import opened Sums
  import opened RealConverter
  import opened RealBaseband
  import opened Processing

  lemma WholeGroupBytes(n: nat, d: nat)
    requires SupportedDecimation(d) && n % (4 * d) == 0
    ensures d > 0 && 2 * n % (8 * d) == 0
  {
    var m, q := 4 * d, n / (4 * d);
    assert n == m * q;
    assert 2 * n == (8 * d) * q;
    Multiple(8 * d, q);
  }

  /** A new converter, given the bytes of whole groups of codes, writes what the whole-stream
      conversion makes of exactly these codes. */
  method ConvertBytes(o: Arith<real>, s: seq<Word>, d: nat) returns (out: array<Complex<real>>)
    requires SupportedDecimation(d) && |s| % (4 * d) == 0
    ensures fresh(out) && out[..] == Pairs(Pipeline(o, s, Stages(d)))
  {
    hide Pairs, Pipeline, Stages, Words, Encode, SupportedDecimation;
    hide Float32IqConverter.Used, Float32IqConverter.Valid;
    WordsOfEncode(s);
    WholeGroupBytes(|s|, d);
    var c := new Float32IqConverter<real>(o);
    FreshIsUsed(c, d);
    assert forall i :: 0 <= i < |c.decimationStages| ==> c.decimationStages[i] in c.decimationStages;
    out := c.ProcessU16le(Encode(s), d);
    assert [] + s == s && [] + out[..] == out[..];
  }

  /** Without decimation: what a new converter writes for the bytes of these codes are the 47-tap
      convolutions of the DC-removed codes, shifted by a quarter of the sample rate, at every second
      code. */
  method ConvertUndecimated(o: Arith<real>, s: seq<Word>) returns (out: array<Complex<real>>)
    requires HalfBandKernels(o) && |s| % 4 == 0
    ensures out.Length == |s| / 2
    ensures forall m :: 0 <= m < out.Length ==>
      out[m] == Complex(Convolve(o.hb47, 47, ShiftedRe(o, s, 2 * m)), Convolve(o.hb47, 47, ShiftedIm(o, s, 2 * m)))
  {
    hide HalfBandKernels, BasebandOut, Convolve, Shifted;
    out := ConvertBytes(o, s, 1);
    forall m | 0 <= m < out.Length
      ensures out[m]
          == Complex(Convolve(o.hb47, 47, ShiftedRe(o, s, 2 * m)), Convolve(o.hb47, 47, ShiftedIm(o, s, 2 * m)))
    {
      assert out[m] == out[..][m];
      PolyphaseIsDirect(o, s, m);
    }
  }

  lemma WholeTaps(kernel: int -> real, f: Filter, h: seq<real>, c: nat, g: nat)
    requires 8 * g + 8 <= |h| && c < 2
    ensures var w := Whole(h, 8);
      && 8 * g + 8 <= |w|
      && Convolve(kernel, Taps(f), Plain(w, c, 4 * g + 3)) == Convolve(kernel, Taps(f), Plain(h, c, 4 * g + 3))
      && Convolve(kernel, Taps(f), Overwritten(f, w, c, g)) == Convolve(kernel, Taps(f), Overwritten(f, h, c, g))
  {
    hide Convolve, Plain, Overwritten;
    TapsPrefix(kernel, f, h, c, g);
    TapsPrefix(kernel, f, Whole(h, 8), c, g);
    assert Whole(h, 8)[..8 * g + 8] == h[..8 * g + 8];
  }

  /** With decimation, stage by stage: the first three stages filter with the 33-tap kernel and the
      others with the 17-tap one. The second output of a group is the plain half-band sum over the
      stage before; in the first, the oldest weighted tap sees the sample that comes next. */
  lemma PipelineEquations(o: Arith<real>, s: seq<Word>, k: nat, c: nat, g: nat)
    requires HalfBandKernels(o) && 0 < k <= 6 && c < 2 && 8 * g + 8 <= |Pipeline(o, s, k - 1)|
    ensures 4 * g + 4 <= |Pipeline(o, s, k)|
    ensures var h, z := Pipeline(o, s, k - 1), Pipeline(o, s, k);
      && (k <= 3 ==>
            && z[4 * g + 2 + c] == Convolve(o.hb33, 33, Plain(h, c, 4 * g + 3))
            && z[4 * g + c] == Convolve(o.hb33, 33, Overwritten(Hb33, h, c, g)))
      && (k > 3 ==>
            && z[4 * g + 2 + c] == Convolve(o.hb17, 17, Plain(h, c, 4 * g + 3))
            && z[4 * g + c] == Convolve(o.hb17, 17, Overwritten(Hb17, h, c, g)))
  {
    hide HalfBandKernels, StageOut, BasebandOut, Convolve, Plain, Overwritten;
    var h, f := Pipeline(o, s, k - 1), StageFilter(k - 1);
    StageEquations(o, f, Whole(h, 8), c, g);
    WholeTaps(Kernel(o, f), f, h, c, g);
  }
}
