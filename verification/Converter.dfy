/** The streaming converter of src/converter.rs: mirrored rings, delay line, running average,
    decimation stages and scratch buffers, updated in place, proved to compute the pure
    functions of `Baseband` and `Decimation`. */
module Converter {
  import opened Numbers
  import opened Rings
  import opened Baseband
  import opened Decimation

  const DEC_MAX_STAGES: nat := 6

  datatype ConversionProgress<F> = ConversionProgress(consumedBytes: nat, written: nat, pending: Option<Complex<F>>)

  function Pow2(k: nat): (p: nat)
    ensures p > 0
  {
    if k == 0 then 1 else 2 * Pow2(k - 1)
  }

  /** What the rate selection can ask for. */
  predicate SupportedDecimation(d: nat) {
    d == 1 || d == 2 || d == 4 || d == 8 || d == 16 || d == 32 || d == 64
  }

  /** `trailing_zeros` of a supported decimation factor: the number of stages it uses. */
  function Stages(d: nat): (k: nat)
    requires SupportedDecimation(d)
    ensures k <= DEC_MAX_STAGES && Pow2(k) == d
  {
    if d == 1 then 0 else if d == 2 then 1 else if d == 4 then 2 else if d == 8 then 3
    else if d == 16 then 4 else if d == 32 then 5 else 6
  }

  /** The longest prefix made of whole groups of four or eight. */
  function Whole<T>(z: seq<T>, n: nat): (w: seq<T>)
    requires n == 4 || n == 8
    ensures |w| % n == 0 && w <= z
    ensures |z| % n == 0 ==> w == z
  {
    z[..if n == 4 then |z| / 4 * 4 else |z| / 8 * 8]
  }

  lemma WholePrefix<T>(z: seq<T>, z': seq<T>, n: nat) returns (t: seq<T>)
    requires n == 4 || n == 8
    requires z <= z'
    ensures |t| % n == 0 && Whole(z', n) == Whole(z, n) + t
  {
    assert |Whole(z, n)| <= |Whole(z', n)|;
    t := Whole(z', n)[|Whole(z, n)|..];
  }

  /** One whole-stream conversion: what decimation by `Pow2(k)` makes of all the codes `s`. */
  function Pipeline<F>(o: Arith<F>, s: seq<Word>, k: nat): (z: seq<F>) {
    if k == 0 then BasebandOut(o, Whole(s, 4))
    else StageOut(o, StageFilter(k - 1), Whole(Pipeline(o, s, k - 1), 8))
  }

  /** Causality of the whole converter: more input only ever appends output. */
  lemma {:induction false} PipelinePrefix<F>(o: Arith<F>, s: seq<Word>, t: seq<Word>, k: nat)
    ensures Pipeline(o, s, k) <= Pipeline(o, s + t, k)
  {
    hide Group, Chunk, StageOut, BasebandOut, Whole;
    if k == 0 {
      var more := WholePrefix(s, s + t, 4);
      BasebandPrefix(o, Whole(s, 4), more);
    } else {
      PipelinePrefix(o, s, t, k - 1);
      var z, z' := Pipeline(o, s, k - 1), Pipeline(o, s + t, k - 1);
      var more := WholePrefix(z, z', 8);
      StageOutPrefix(o, StageFilter(k - 1), Whole(z, 8), more);
    }
  }

  /** The 24 ring values up to the newest one are the newest 24 values of the history. */
  lemma RingWindow<F>(o: Arith<F>, q: seq<F>, next: nat, src: nat, v: seq<F>)
    requires Mirrors(q, FIR_HISTORY_SIZE, next, o.zero, v)
    requires |v| > 0 && src == (if next == 0 then FIR_HISTORY_SIZE else next) - 1 + FIR_HISTORY_SIZE - 23
    ensures |q| == 2 * FIR_HISTORY_SIZE
    ensures q[src..src + 24] == FirWindow(o, v, |v| - 1)
  {
    var w := FirWindow(o, v, |v| - 1);
    forall i | 0 <= i < 24
      ensures q[src + i] == w[i]
    {
      assert Newest(|v|, next, FIR_HISTORY_SIZE, src + i) == |v| - 24 + i;
    }
  }

  method NewStages<F>(o: Arith<F>) returns (stages: seq<DecimationStage<F>>)
    ensures |stages| == DEC_MAX_STAGES
    ensures forall i, j :: 0 <= i < j < DEC_MAX_STAGES ==> stages[i] != stages[j]
    ensures forall i :: 0 <= i < DEC_MAX_STAGES ==>
      fresh(stages[i]) && stages[i].Valid() && stages[i].o == o && stages[i].filter == StageFilter(i)
          && stages[i].hist == []
  {
    hide DecimationStage.Valid;
    stages := [];
    var n := 0;
    while n < DEC_MAX_STAGES
      invariant 0 <= n <= DEC_MAX_STAGES && |stages| == n
      invariant forall i, j :: 0 <= i < j < n ==> stages[i] != stages[j]
      invariant forall i :: 0 <= i < n ==>
        fresh(stages[i]) && stages[i].Valid() && stages[i].o == o && stages[i].filter == StageFilter(i)
            && stages[i].hist == []
    {
      var stage := new DecimationStage<F>(o, n);
      stages := stages + [stage];
      n := n + 1;
    }
  }

  class Float32IqConverter<F> {
    const o: Arith<F>
    const firKernel: seq<F>
    const firQueue: array<F>
    const delayLine: array<F>
    const decimationStages: seq<DecimationStage<F>>
    var scratchA: seq<F>
    var scratchB: seq<F>
    var avg: F
    var firIndex: nat
    var delayIndex: nat
    /** Every code consumed since construction. */
    ghost var codes: seq<Word>

    ghost predicate FrontEnd(v: seq<F>, d: seq<F>)
      reads this`firIndex, this`delayIndex, firQueue, delayLine
    {
      && firKernel == seq(24, i => o.Hb47(2 * i))
      && firQueue.Length == 2 * FIR_HISTORY_SIZE
      && Mirrors(firQueue[..], FIR_HISTORY_SIZE, firIndex, o.zero, v)
      && delayLine.Length == 16
      && delayIndex < Q_DELAY_LEN
      && (forall p :: 0 <= p < Q_DELAY_LEN ==> delayLine[p] == At(o.zero, d, Newest(|d|, delayIndex, Q_DELAY_LEN, p)))
    }

    ghost predicate Valid()
      reads this`avg, this`codes, this`firIndex, this`delayIndex, firQueue, delayLine, decimationStages
      ensures Valid() ==> |codes| % 4 == 0
    {
      && firQueue != delayLine
      && |codes| % 4 == 0
      && avg == Avg(o, codes)
      && FrontEnd(FirIn(o, codes), DelayIn(o, codes))
      && ValidStages()
    }

    ghost predicate ValidStages()
      reads decimationStages
      ensures ValidStages() ==> |decimationStages| == DEC_MAX_STAGES
    {
      && |decimationStages| == DEC_MAX_STAGES
      && (forall i, j :: 0 <= i < j < DEC_MAX_STAGES ==> decimationStages[i] != decimationStages[j])
      && (forall i :: 0 <= i < DEC_MAX_STAGES ==>
            && decimationStages[i].Valid()
            && decimationStages[i].o == o
            && decimationStages[i].filter == StageFilter(i))
    }

    constructor (o: Arith<F>)
      ensures Valid() && codes == [] && this.o == o
      ensures forall i :: 0 <= i < DEC_MAX_STAGES ==> decimationStages[i].hist == []
      ensures fresh(firQueue) && fresh(delayLine) && forall s :: s in decimationStages ==> fresh(s)
    {
      this.o := o;
      firKernel := seq(24, i => o.Hb47(2 * i));
      firQueue := new F[2 * FIR_HISTORY_SIZE](_ => o.zero);
      delayLine := new F[16](_ => o.zero);
      var stages := NewStages(o);
      decimationStages := stages;
      scratchA, scratchB := [], [];
      avg, firIndex, delayIndex := o.zero, 0, 0;
      codes := [];
      new;
      hide DecimationStage.Valid;
      assert FrontEnd([], []);
    }

    method PushFir(value: F, ghost v: seq<F>, ghost d: seq<F>) returns (acc: F)
      requires FrontEnd(v, d) && firQueue != delayLine
      modifies this`firIndex, firQueue
      ensures FrontEnd(v + [value], d)
      ensures acc == OutI(o, v + [value], |v|)
    {
      var idx := firIndex;
      ghost var q0 := firQueue[..];
      firQueue[idx] := value;
      firQueue[idx + FIR_HISTORY_SIZE] := value;
      firIndex := (firIndex + 1) % FIR_HISTORY_SIZE;
      assert firQueue[..] == q0[idx := value][idx + FIR_HISTORY_SIZE := value];
      MirrorsPush(q0, firQueue[..], FIR_HISTORY_SIZE, idx, firIndex, o.zero, v, value);

      acc := Accumulate(idx, v + [value], d);
    }

    /** The folded 12-round accumulation, reading the ring backwards from the slot just written. */
    method Accumulate(idx: nat, ghost v: seq<F>, ghost d: seq<F>) returns (acc: F)
      requires FrontEnd(v, d) && |v| > 0
      requires idx < FIR_HISTORY_SIZE && firIndex == (idx + 1) % FIR_HISTORY_SIZE
      ensures acc == OutI(o, v, |v| - 1)
    {
      hide Mirrors, FirWindow, Arith.Mul;
      var src := idx + FIR_HISTORY_SIZE - |firKernel| + 1;
      ghost var w := FirWindow(o, v, |v| - 1);
      RingWindow(o, firQueue[..], firIndex, src, v);
      acc := o.zero;
      var i := 0;
      while i < 12
        invariant 0 <= i <= 12
        invariant acc == FirAcc(o, w, i)
      {
        assert w[i] == firQueue[src + i] && w[23 - i] == firQueue[src + 23 - i];
        acc := o.Add(acc, o.Mul(firKernel[i], o.Add(firQueue[src + i], firQueue[src + |firKernel| - 1 - i])));
        i := i + 1;
      }
    }

    method PushDelay(value: F, ghost v: seq<F>, ghost d: seq<F>) returns (out: F)
      requires FrontEnd(v, d) && firQueue != delayLine
      modifies this`delayIndex, delayLine
      ensures FrontEnd(v, d + [value])
      ensures out == OutQ(o, d + [value], |d|)
    {
      out := delayLine[delayIndex];
      assert Newest(|d|, delayIndex, Q_DELAY_LEN, delayIndex) == |d| - Q_DELAY_LEN;
      delayLine[delayIndex] := value;
      delayIndex := delayIndex + 1;
      if delayIndex >= Q_DELAY_LEN {
        delayIndex := 0;
      }
      forall p | 0 <= p < Q_DELAY_LEN
        ensures delayLine[p] == At(o.zero, d + [value], Newest(|d| + 1, delayIndex, Q_DELAY_LEN, p))
      {
        NewestPush(|d|, old(delayIndex), delayIndex, Q_DELAY_LEN, p);
      }
    }

    /** DC removal of four codes in sequence. */
    method RemoveDc(w: seq<Word>) returns (x0: F, x1: F, x2: F, x3: F)
      requires |w| == 4 && avg == Avg(o, codes)
      modifies this`avg, this`codes
      ensures codes == old(codes) + w && avg == Avg(o, codes)
      ensures var n := |old(codes)|;
        x0 == Residual(o, codes, n) && x1 == Residual(o, codes, n + 1) &&
        x2 == Residual(o, codes, n + 2) && x3 == Residual(o, codes, n + 3)
    {
      hide AdcToFloat12, Avg, Residual, Arith.Add, Arith.Sub, Arith.Mul;
      x0 := o.Sub(AdcToFloat12(o, w[0]), avg);
      avg := o.Add(avg, o.Mul(o.alpha, x0));
      ghost var a1 := avg;
      x1 := o.Sub(AdcToFloat12(o, w[1]), avg);
      avg := o.Add(avg, o.Mul(o.alpha, x1));
      ghost var a2 := avg;
      x2 := o.Sub(AdcToFloat12(o, w[2]), avg);
      avg := o.Add(avg, o.Mul(o.alpha, x2));
      ghost var a3 := avg;
      x3 := o.Sub(AdcToFloat12(o, w[3]), avg);
      avg := o.Add(avg, o.Mul(o.alpha, x3));
      TrackerStep(o, codes, w, x0, x1, x2, x3, a1, a2, a3, avg);
      codes := codes + w;
    }

    /** The four pushes of one chunk, in the order the code makes them. */
    method PushFour(x0: F, x1: F, x2: F, x3: F, ghost v: seq<F>, ghost d: seq<F>) returns (four: seq<F>)
      requires FrontEnd(v, d) && firQueue != delayLine
      modifies this`firIndex, this`delayIndex, firQueue, delayLine
      ensures var v', d' := v + [o.Neg(x0)] + [x2], d + [o.Mul(o.Neg(x1), o.half)] + [o.Mul(x3, o.half)];
        && FrontEnd(v', d')
        && four == [OutI(o, v', |v|), OutQ(o, d', |d|), OutI(o, v', |v| + 1), OutQ(o, d', |d| + 1)]
    {
      hide FrontEnd, OutI, OutQ, Arith.Mul, Arith.Neg;
      var acc0 := PushFir(o.Neg(x0), v, d);
      var acc1 := PushFir(x2, v + [o.Neg(x0)], d);
      ghost var v' := v + [o.Neg(x0)] + [x2];
      var q0 := PushDelay(o.Mul(o.Neg(x1), o.half), v', d);
      var q1 := PushDelay(o.Mul(x3, o.half), v', d + [o.Mul(o.Neg(x1), o.half)]);
      OutLocal(o, v + [o.Neg(x0)], x2, d + [o.Mul(o.Neg(x1), o.half)], o.Mul(x3, o.half));
      four := [acc0, q0, acc1, q1];
    }

    /** `convert_adc_chunk`: four codes in, two complex values out. */
    method ConvertAdcChunk(chunk: seq<Byte>) returns (four: seq<F>)
      requires Valid() && |chunk| == 8
      modifies this`avg, this`codes, this`firIndex, this`delayIndex, firQueue, delayLine
      ensures Valid() && codes == old(codes) + Words(chunk)
      ensures four == Chunk(o, codes)
    {
      hide ValidStages, FrontEnd, Avg, Words, FirIn, DelayIn, OutI, OutQ, Residual, Arith.Mul, Arith.Neg;
      var w := Words(chunk);
      ghost var s := codes;
      var x0, x1, x2, x3 := RemoveDc(w);
      FrontEndStep(o, s, w);
      four := PushFour(x0, x1, x2, x3, FirIn(o, s), DelayIn(o, s));
    }

    // ---- Decimation ----

    /** What feeds stage `j`: the front end, or the output of the stage before. */
    ghost function Feed(j: nat): seq<F>
      requires ValidStages() && |codes| % 4 == 0 && j <= DEC_MAX_STAGES
      reads this`codes, decimationStages
    {
      if j == 0 then BasebandOut(o, codes)
      else StageOut(o, StageFilter(j - 1), decimationStages[j - 1].hist)
    }

    /** The first `k` stages have consumed all that feeds them, except that `src` is still on its
        way into stage `at`. */
    ghost predicate Feeding(k: nat, at: nat, src: seq<F>)
      requires ValidStages() && |codes| % 4 == 0 && k <= DEC_MAX_STAGES
      reads this`codes, decimationStages
    {
      forall j :: 0 <= j < k ==>
        Feed(j) == decimationStages[j].hist + (if j == at then src else [])
    }

    /** This converter has been used with `k` stages, and no other number, since construction. */
    ghost predicate Coherent(k: nat)
      requires Valid() && k <= DEC_MAX_STAGES
      reads this`avg, this`codes, this`firIndex, this`delayIndex, firQueue, delayLine, decimationStages
    {
      Feeding(k, k, [])
    }

    /** Valid, and only ever used with decimation by `Pow2(k)`. */
    ghost predicate Used(k: nat)
      reads this`avg, this`codes, this`firIndex, this`delayIndex, firQueue, delayLine, decimationStages
    {
      k <= DEC_MAX_STAGES && Valid() && Coherent(k)
    }

    /** Everything emitted since construction, by a converter used with `k` stages. */
    ghost function Emitted(k: nat): seq<F>
      requires Valid() && k <= DEC_MAX_STAGES
      reads this`avg, this`codes, this`firIndex, this`delayIndex, firQueue, delayLine, decimationStages
    {
      Feed(k)
    }

    /** That is exactly one whole-stream conversion of everything consumed. */
    lemma {:induction false} EmittedIsPipeline(k: nat, n: nat)
      requires Valid() && k <= n <= DEC_MAX_STAGES && Coherent(n)
      ensures Emitted(k) == Pipeline(o, codes, k)
    {
      hide StageOut, BasebandOut, DecimationStage.Valid, FrontEnd;
      if k == 0 {
      } else {
        EmittedIsPipeline(k - 1, n);
        assert decimationStages[k - 1].Valid();
        assert Feed(k - 1) == decimationStages[k - 1].hist + [];
      }
    }

    /** One stage run on `src`; the other stages are not touched. */
    method RunStage(at: nat, src: seq<F>, dest: seq<F>) returns (dest': seq<F>)
      requires ValidStages() && at < DEC_MAX_STAGES && |src| % 8 == 0 && dest == []
      modifies decimationStages[at]
      ensures ValidStages()
      ensures decimationStages[at].hist == old(decimationStages[at].hist) + src
      ensures StageOut(o, StageFilter(at), decimationStages[at].hist)
           == StageOut(o, StageFilter(at), old(decimationStages[at].hist)) + dest'
      ensures forall j :: 0 <= j < DEC_MAX_STAGES && j != at ==>
        decimationStages[j].hist == old(decimationStages[j].hist)
    {
      hide StageOut, DecimationStage.Valid;
      dest' := decimationStages[at].Process(src, dest);
      assert dest'[|dest|..] == dest' && src[..|src|] == src;
    }

    /** One intermediate stage, from one scratch buffer into the other. */
    method StepStage(k: nat, at: nat, src: seq<F>, dest: seq<F>) returns (dest': seq<F>)
      requires ValidStages() && |codes| % 4 == 0 && at < k <= DEC_MAX_STAGES
      requires Feeding(k, at, src) && |src| % 8 == 0 && dest == []
      modifies decimationStages[at]
      ensures ValidStages() && Feeding(k, at + 1, dest') && |dest'| == |src| / 2
      ensures forall j :: 0 <= j < DEC_MAX_STAGES && j != at ==>
        decimationStages[j].hist == old(decimationStages[j].hist)
    {
      hide StageOut, BasebandOut, ValidStages, DecimationStage.Valid;
      StagesValid();
      assert Feed(at) == decimationStages[at].hist + src;
      dest' := RunStage(at, src, dest);
      StagesValid();
      forall j | 0 <= j < k
        ensures Feed(j) == decimationStages[j].hist + (if j == at + 1 then dest' else [])
      {
        assert old(Feed(j)) == old(decimationStages[j].hist + (if j == at then src else []));
        if j == at + 1 {
          assert Feed(j) == old(Feed(j)) + dest';
        } else {
          assert Feed(j) == old(Feed(j));
        }
      }
    }

    lemma StagesValid()
      requires ValidStages()
      ensures forall j :: 0 <= j < DEC_MAX_STAGES ==> |decimationStages[j].hist| % 8 == 0
    {
    }

    // ---- Whole blocks ----

    /** `process_baseband_to_scratch`. */
    method ProcessBasebandToScratch(raw: seq<Byte>)
      requires Valid() && |raw| % 8 == 0
      modifies this, firQueue, delayLine
      ensures Valid() && codes == old(codes) + Words(raw)
      ensures BasebandOut(o, codes) == BasebandOut(o, old(codes)) + scratchA
    {
      hide Valid, BasebandOut, Chunk, Words;
      scratchA := [];
      var i := 0;
      assert raw[..0] == [];
      while i < |raw| / 8
        invariant 0 <= i <= |raw| / 8
        invariant Valid() && codes == old(codes) + Words(raw[..8 * i])
        invariant BasebandOut(o, codes) == BasebandOut(o, old(codes)) + scratchA
      {
        ghost var before := codes;
        var output := ConvertAdcChunk(raw[8 * i..8 * i + 8]);
        NextChunk(raw, i);
        BasebandStep(o, before, Words(raw[8 * i..8 * i + 8]));
        scratchA := scratchA + output;
        i := i + 1;
      }
      assert raw[..8 * i] == raw;
    }

    /** One chunk into its places of `out[lo..hi]`, after everything emitted before it. */
    method ChunkToComplex(chunk: seq<Byte>, out: array<Complex<F>>, lo: nat, hi: nat, i: nat,
        ghost base: seq<Complex<F>>)
      returns (pending: Option<Complex<F>>)
      requires Valid() && |chunk| == 8
      requires hi <= out.Length && lo + 2 * i < hi
      requires out as object != firQueue && out as object != delayLine
      requires Pairs(BasebandOut(o, codes)) == base + (out[lo..lo + 2 * i] + [])
      modifies this`avg, this`codes, this`firIndex, this`delayIndex, firQueue, delayLine, out
      ensures Valid() && codes == old(codes) + Words(chunk)
      ensures pending.Some? <==> lo + 2 * i + 2 > hi
      ensures Pairs(BasebandOut(o, codes)) == base + (out[lo..FilledTo(lo, hi, i + 1)] + Carried(pending))
      ensures out[..lo] == old(out[..lo]) && out[hi..] == old(out[hi..])
    {
      hide Valid, BasebandOut, Chunk, Words, Pairs, Carried, FilledTo;
      ghost var before := codes;
      var four := ConvertAdcChunk(chunk);
      BasebandStep(o, before, Words(chunk));
      PairsAppend(BasebandOut(o, before), four);
      ghost var had := out[lo..lo + 2 * i];
      pending := Deliver(four, out, lo, hi, i);
      Regroup(base, had, Pairs(four));
    }

    /** `process_baseband_to_complex`. */
    method ProcessBasebandToComplex(raw: seq<Byte>, out: array<Complex<F>>, lo: nat, hi: nat)
      returns (pending: Option<Complex<F>>)
      requires Valid() && |raw| % 8 == 0
      requires lo <= hi <= out.Length && (hi - lo + 1) / 2 == |raw| / 8
      requires out as object != firQueue && out as object != delayLine
      modifies this`avg, this`codes, this`firIndex, this`delayIndex, firQueue, delayLine, out
      ensures Valid() && codes == old(codes) + Words(raw)
      ensures pending.Some? <==> (hi - lo) % 2 == 1
      ensures Pairs(BasebandOut(o, codes)) == Pairs(BasebandOut(o, old(codes))) + (out[lo..hi] + Carried(pending))
      ensures out[..lo] == old(out[..lo]) && out[hi..] == old(out[hi..])
    {
      hide Valid, BasebandOut, Chunk, Words, Pairs;
      pending := None;
      ghost var base := Pairs(BasebandOut(o, codes));
      var chunks := |raw| / 8;
      FillsSlice(lo, hi, |raw|);
      var i := 0;
      assert raw[..0] == [] && out[lo..FilledTo(lo, hi, 0)] + Carried<F>(None) == [];
      hide Carried, FilledTo;
      while i < chunks
        invariant 0 <= i <= chunks
        invariant Valid() && codes == old(codes) + Words(raw[..8 * i])
        invariant pending.Some? <==> lo + 2 * i > hi
        invariant Pairs(BasebandOut(o, codes)) == base + (out[lo..FilledTo(lo, hi, i)] + Carried(pending))
        invariant out[..lo] == old(out[..lo]) && out[hi..] == old(out[hi..])
      {
        pending := ChunkToComplex(raw[8 * i..8 * i + 8], out, lo, hi, i, base);
        NextChunk(raw, i);
        i := i + 1;
      }
      assert raw[..8 * chunks] == raw;
    }

    /** `process_intermediate_decimation_stages`: ping-pong between the two scratch buffers.
        Returns whether the result is in `scratchA`. */
    method ProcessIntermediateDecimationStages(numStages: nat, ghost m: nat) returns (sourceIsA: bool)
      requires ValidStages() && |codes| % 4 == 0 && numStages < DEC_MAX_STAGES
      requires Feeding(numStages + 1, 0, scratchA)
      requires |scratchA| == Pow2(numStages) * (8 * m)
      modifies this`scratchA, this`scratchB, decimationStages
      ensures ValidStages()
      ensures var source := if sourceIsA then scratchA else scratchB;
        Feeding(numStages + 1, numStages, source) && |source| == 8 * m
      ensures decimationStages[numStages].hist == old(decimationStages[numStages].hist)
    {
      hide StageOut, BasebandOut, ValidStages, Feeding;
      sourceIsA := true;
      var stageIdx := 0;
      while stageIdx < numStages
        invariant 0 <= stageIdx <= numStages && ValidStages()
        invariant decimationStages[numStages].hist == old(decimationStages[numStages].hist)
        invariant |if sourceIsA then scratchA else scratchB| == Pow2(numStages - stageIdx) * (8 * m)
        invariant Feeding(numStages + 1, stageIdx, if sourceIsA then scratchA else scratchB)
      {
        Halve(numStages - stageIdx, m);
        if sourceIsA {
          scratchB := [];
          scratchB := StepStage(numStages + 1, stageIdx, scratchA, scratchB);
        } else {
          scratchA := [];
          scratchA := StepStage(numStages + 1, stageIdx, scratchB, scratchA);
        }
        sourceIsA := !sourceIsA;
        stageIdx := stageIdx + 1;
      }
    }

    /** Whole groups of `raw` through `k > 0` stages into `out[lo..hi]`. */
    method ProcessDecimated(raw: seq<Byte>, k: nat, out: array<Complex<F>>, lo: nat, hi: nat)
      returns (pending: Option<Complex<F>>)
      requires Valid() && 0 < k <= DEC_MAX_STAGES && Coherent(k)
      requires lo <= hi <= out.Length && |raw| == Pow2(k) * (8 * ((hi - lo + 1) / 2))
      requires out as object != firQueue && out as object != delayLine
      modifies this, firQueue, delayLine, decimationStages, out
      ensures Valid() && Coherent(k)
      ensures codes == old(codes) + Words(raw)
      ensures pending.Some? <==> (hi - lo) % 2 == 1
      ensures Pairs(Emitted(k)) == Pairs(old(Emitted(k))) + (out[lo..hi] + Carried(pending))
      ensures out[..lo] == old(out[..lo]) && out[hi..] == old(out[hi..])
    {
      hide FrontEnd, Avg, FirIn, DelayIn, BasebandOut, StageOut, Words, Pairs, Carried, Pow2, ValidStages, Feeding;
      ghost var m := (hi - lo + 1) / 2;
      Halve(k, m);
      ProcessFrontEnd(raw, k);
      assert decimationStages[k - 1].hist == old(decimationStages[k - 1].hist);
      var sourceIsA := ProcessIntermediateDecimationStages(k - 1, m);
      var finalStage := k - 1;
      assert Feed(k) == old(Feed(k));
      pending := ProcessFinal(finalStage, if sourceIsA then scratchA else scratchB, out, lo, hi);
    }

    /** The front end, into scratch; its output is then on its way into the first stage. */
    method ProcessFrontEnd(raw: seq<Byte>, k: nat)
      requires Valid() && 0 < k <= DEC_MAX_STAGES && Coherent(k) && |raw| % 8 == 0
      modifies this, firQueue, delayLine
      ensures Valid() && Feeding(k, 0, scratchA) && |scratchA| == |raw| / 2
      ensures codes == old(codes) + Words(raw)
    {
      hide FrontEnd, Avg, FirIn, DelayIn, BasebandOut, StageOut, Words, ValidStages;
      StagesValid();
      ProcessBasebandToScratch(raw);
      StagesValid();
      forall j | 0 <= j < k
        ensures Feed(j) == decimationStages[j].hist + (if j == 0 then scratchA else [])
      {
        assert old(Feed(j)) == old(decimationStages[j].hist + []);
      }
    }

    /** The last stage, straight into the caller's slice. */
    method ProcessFinal(at: nat, src: seq<F>, out: array<Complex<F>>, lo: nat, hi: nat)
      returns (pending: Option<Complex<F>>)
      requires ValidStages() && |codes| % 4 == 0 && at < DEC_MAX_STAGES
      requires Feeding(at + 1, at, src)
      requires lo <= hi <= out.Length && |src| == 8 * ((hi - lo + 1) / 2)
      modifies decimationStages[at], out
      ensures ValidStages() && Feeding(at + 1, at + 1, [])
      ensures pending.Some? <==> (hi - lo) % 2 == 1
      ensures Pairs(Feed(at + 1)) == Pairs(old(Feed(at + 1))) + (out[lo..hi] + Carried(pending))
      ensures out[..lo] == old(out[..lo]) && out[hi..] == old(out[hi..])
    {
      hide StageOut, BasebandOut, DecimationStage.Valid, Pairs, Carried;
      var stage := decimationStages[at];
      assert Feed(at) == stage.hist + src;
      pending := stage.ProcessToComplex(src, out, lo, hi);
      assert ValidStages();
      forall j | 0 <= j < at + 1
        ensures Feed(j) == decimationStages[j].hist + []
      {
        assert old(Feed(j)) == old(decimationStages[j].hist + (if j == at then src else []));
      }
    }

    /** Whole groups of `raw` into `out[lo..hi]`: directly, or through the decimation stages. */
    method ProcessGroups(raw: seq<Byte>, d: nat, out: array<Complex<F>>, lo: nat, hi: nat)
      returns (pending: Option<Complex<F>>)
      requires SupportedDecimation(d) && Used(Stages(d))
      requires lo <= hi <= out.Length && |raw| == d * (8 * ((hi - lo + 1) / 2))
      requires out as object != firQueue && out as object != delayLine
      modifies this, firQueue, delayLine, decimationStages, out
      ensures Used(Stages(d))
      ensures codes == old(codes) + Words(raw)
      ensures pending.Some? <==> (hi - lo) % 2 == 1
      ensures Pairs(Pipeline(o, codes, Stages(d)))
           == Pairs(Pipeline(o, old(codes), Stages(d))) + (out[lo..hi] + Carried(pending))
      ensures out[..lo] == old(out[..lo]) && out[hi..] == old(out[hi..])
    {
      hide ValidStages, FrontEnd, Avg, FirIn, DelayIn, BasebandOut, StageOut, Words, Pairs, Carried, Pipeline;
      ghost var k := Stages(d);
      EmittedIsPipeline(k, k);
      if d == 1 {
        Halve(1, (hi - lo + 1) / 2);
        pending := ProcessBasebandToComplex(raw, out, lo, hi);
      } else {
        pending := ProcessDecimated(raw, Stages(d), out, lo, hi);
      }
      EmittedIsPipeline(k, k);
    }

    /** `process_u16le_to_f32iq_slice`: converts a prefix of `raw` into `out[lo..]`. It consumes
        whole groups only, so it can produce one sample more than fits; that one is `pending`.
        Together they are exactly what the whole-stream conversion gains from the bytes consumed. */
    method ProcessU16leToF32iqSlice(raw: seq<Byte>, decimationFactor: nat, out: array<Complex<F>>, lo: nat)
      returns (progress: ConversionProgress<F>)
      requires lo <= out.Length
      requires SupportedDecimation(decimationFactor) && Used(Stages(decimationFactor))
      requires out as object != firQueue && out as object != delayLine
      modifies this, firQueue, delayLine, decimationStages, out
      ensures Used(Stages(decimationFactor))
      ensures ProgressFor(progress, |raw|, decimationFactor, out.Length - lo)
      ensures codes == old(codes) + Words(raw[..progress.consumedBytes])
      ensures Pairs(Pipeline(o, codes, Stages(decimationFactor)))
           == Pairs(Pipeline(o, old(codes), Stages(decimationFactor)))
            + (out[lo..lo + progress.written] + Carried(progress.pending))
      ensures out[..lo] == old(out[..lo]) && out[lo + progress.written..] == old(out[..])[lo + progress.written..]
    {
      hide Used, Pairs, Pipeline, Stages, Groups, SupportedDecimation;
      var d, room := decimationFactor, out.Length - lo;
      assert raw[..0] == [] && out[lo..lo] + Carried<F>(None) == [];
      if lo == out.Length {
        return ConversionProgress(0, 0, None);
      }
      var pairs := PairsToConvert(|raw|, d, room);
      if pairs == 0 {
        return ConversionProgress(0, 0, None);
      }
      var rawBytes := pairs * 2 * d * 2;
      var written := Min(room, pairs);
      GroupsFit(d, pairs / 2, room);
      var pending := ProcessGroups(raw[..rawBytes], d, out, lo, lo + written);
      progress := ConversionProgress(rawBytes, written, pending);
    }

    /** The samples of `process_u16le_to_f32le`, the whole of `raw` at once: with room for just as many
        samples as there are, everything is consumed and nothing is carried over. */
    method ProcessU16le(raw: seq<Byte>, d: nat) returns (out: array<Complex<F>>)
      requires SupportedDecimation(d) && Used(Stages(d)) && |raw| % (8 * d) == 0
      modifies this, firQueue, delayLine, decimationStages
      ensures fresh(out) && Used(Stages(d)) && codes == old(codes) + Words(raw)
      ensures Pairs(Pipeline(o, codes, Stages(d))) == Pairs(Pipeline(o, old(codes), Stages(d))) + out[..]
    {
      hide Used, Pairs, Pipeline, Stages, Words, SupportedDecimation;
      AllGroups(|raw|, d);
      out := new Complex<F>[|raw| / 2 / (2 * d)](_ => Complex(o.zero, o.zero));
      var progress := ProcessU16leToF32iqSlice(raw, d, out, 0);
      assert raw[..progress.consumedBytes] == raw && out[0..progress.written] == out[..];
      assert out[..] + Carried<F>(None) == out[..];
    }
  }

  /** The rounding at the head of `process_u16le_to_f32iq_slice`. */
  method PairsToConvert(rawLen: nat, d: nat, room: nat) returns (pairs: nat)
    requires SupportedDecimation(d)
    ensures pairs == 2 * Groups(rawLen, d, room)
  {
    hide SupportedDecimation, Groups;
    Alignment(rawLen, d);
    var rawAlignment := 4 * d;
    var availableRawSamples := rawLen / 2 / rawAlignment * rawAlignment;
    var availablePairs := availableRawSamples / (2 * d);
    var requestedPairs := (room + 1) / 2 * 2;
    GroupsIs(rawLen, d, room);
    pairs := Min(availablePairs, requestedPairs);
  }

  function Min(a: nat, b: nat): nat { if a < b then a else b }

  /** How many groups of two complex samples one call converts: all of the input, or as many as
      it takes to fill `room` places. */
  function Groups(rawLen: nat, d: nat, room: nat): (g: nat)
    requires SupportedDecimation(d)
    ensures 8 * d * g <= rawLen && 2 * g <= room + 1
    ensures room > 0 && rawLen >= 8 * d ==> g > 0
  {
    Min(rawLen / (8 * d), (room + 1) / 2)
  }

  ghost predicate ProgressFor<F>(progress: ConversionProgress<F>, rawLen: nat, d: nat, room: nat)
    requires SupportedDecimation(d)
    ensures ProgressFor(progress, rawLen, d, room) ==> progress.consumedBytes <= rawLen && progress.written <= room
  {
    var g := Groups(rawLen, d, room);
    && progress.consumedBytes == 8 * d * g
    && progress.written == Min(room, 2 * g)
    && (progress.pending.Some? <==> room < 2 * g)
  }

  /** The code rounds samples down to whole alignments before turning them into pairs. */
  lemma Alignment(rawLen: nat, d: nat)
    requires SupportedDecimation(d)
    ensures d > 0 && rawLen / 2 / (4 * d) * (4 * d) / (2 * d) == 2 * (rawLen / (8 * d))
  {
    var q := rawLen / (8 * d);
    assert rawLen / 2 / (4 * d) == q;
    assert q * (4 * d) == (2 * q) * (2 * d);
  }

  lemma GroupsIs(rawLen: nat, d: nat, room: nat)
    requires SupportedDecimation(d)
    ensures 2 * Groups(rawLen, d, room) == Min(2 * (rawLen / (8 * d)), (room + 1) / 2 * 2)
  {
  }

  lemma GroupsFit(d: nat, g: nat, room: nat)
    requires 2 * g <= room + 1
    ensures var written := Min(room, 2 * g);
      && 2 * g * 2 * d * 2 == 8 * d * g == d * (8 * ((written + 1) / 2))
      && (written % 2 == 1 <==> room < 2 * g)
  {
    assert (Min(room, 2 * g) + 1) / 2 == g;
  }

  /** With as much room as the input yields, all of it is converted. */
  lemma AllGroups(rawLen: nat, d: nat)
    requires SupportedDecimation(d) && rawLen % (8 * d) == 0
    ensures d > 0
    ensures var room := rawLen / 2 / (2 * d); var g := Groups(rawLen, d, room);
      8 * d * g == rawLen && 2 * g == room
  {
    AllRoom(d, 0);
    hide SupportedDecimation;
    var m, q := 8 * d, rawLen / (8 * d);
    assert rawLen == m * q;
    AllRoom(d, q);
  }

  lemma AllRoom(d: nat, q: nat)
    requires SupportedDecimation(d)
    ensures d > 0 && 8 * d * q / 2 / (2 * d) == 2 * q && 8 * d * q / (8 * d) == q
  {
  }

  lemma FillsSlice(lo: nat, hi: nat, rawLen: nat)
    requires lo <= hi && rawLen % 8 == 0 && (hi - lo + 1) / 2 == rawLen / 8
    ensures var chunks := rawLen / 8;
      && 8 * chunks == rawLen && FilledTo(lo, hi, chunks) == hi
      && (2 * chunks == hi - lo || 2 * chunks == hi - lo + 1)
      && (lo + 2 * chunks > hi <==> (hi - lo) % 2 == 1)
  {
  }

  lemma Halve(j: nat, m: nat)
    requires j > 0
    ensures Pow2(j) * (8 * m) / 2 == Pow2(j - 1) * (8 * m)
    ensures Pow2(j) * (8 * m) % 8 == 0
  {
    var p := Pow2(j - 1) * m;
    assert Pow2(j - 1) * (8 * m) == 8 * p;
    assert Pow2(j) * (8 * m) == 16 * p;
  }

  lemma NextChunk(raw: seq<Byte>, i: nat)
    requires 8 * i + 8 <= |raw|
    ensures Words(raw[..8 * i + 8]) == Words(raw[..8 * i]) + Words(raw[8 * i..8 * i + 8])
  {
    WordsAppend(raw[..8 * i], raw[8 * i..8 * i + 8]);
    assert raw[..8 * i] + raw[8 * i..8 * i + 8] == raw[..8 * i + 8];
  }

  /** A new converter can be used with any decimation, and has emitted nothing yet. */
  lemma FreshIsUsed<F>(c: Float32IqConverter<F>, d: nat)
    requires SupportedDecimation(d) && c.Valid() && c.codes == []
    requires forall i :: 0 <= i < DEC_MAX_STAGES ==> c.decimationStages[i].hist == []
    ensures c.Used(Stages(d))
    ensures Words([]) == [] && Pairs(Pipeline(c.o, [], Stages(d))) == []
  {
    hide StageOut, BasebandOut, DecimationStage.Valid;
    assert forall j {:trigger c.Feed(j)} :: 0 <= j < DEC_MAX_STAGES ==> |c.Feed(j)| == 0;
    c.EmittedIsPipeline(Stages(d), Stages(d));
    assert |c.Emitted(Stages(d))| == 0;
  }
}
